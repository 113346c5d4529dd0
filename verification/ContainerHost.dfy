/** Container slots (src/container-runner.ts): the live registry, the in-flight wakes, the slot
    hand-off on exit, and the admission queue behind them. One atomic step is the code that runs
    between two awaits; a run is any interleaving of the steps. */
module ContainerHost {
  import opened AdmissionQueue
  import SetFacts
  import opened Wrappers

  const MIN_HEALTHY_LIFETIME_MS := 10000

  /** A session as the wake path sees it: its id and the bucket its row puts it in. */
  datatype Session = Session(id: SessionId, key: Key)

  /** The fairness bucket of a session row; an empty owner or group id counts as absent. */
  function SessionFairnessKey(id: SessionId, owner: Option<string>, group: Option<string>): Key {
    if owner.Some? && owner.value != "" then Key("user:" + owner.value)
    else if group.Some? && group.value != "" then Key("group:" + group.value)
    else Key("session:" + id.text)
  }

  /** A spawn between admission and the removal of its promise. */
  datatype Spawn = Starting(key: Key) | Done(ok: bool)
  /** A registered slot; `container` names the spawned process it belongs to. */
  datatype Entry = Entry(container: nat, key: Key)
  /** A spawned process, with what its exit handlers remember; unwatched, it has none. */
  datatype Container = Container(session: SessionId, spawnedAt: int, handedOff: bool, alive: bool, watched: bool)
  /** A drain's wake, until its continuation has run. */
  datatype Attempt = Waiting(id: SessionId) | Resolved(id: SessionId, ok: bool)

  datatype Host = Host(
    cap: nat,
    active: map<SessionId, Entry>,
    wakes: map<SessionId, Spawn>,
    containers: seq<Container>,
    drainDisabled: bool,
    killed: set<SessionId>,
    queue: QueueState,
    attempts: seq<Attempt>)

  function Boot(cap: nat): Host {
    Host(cap, map[], map[], [], false, {}, EMPTY, [])
  }

  /** What the central database and the session directory say about a session. */
  datatype Row = LookupThrows | NoRow | Row(key: Key, active: bool, dueWork: bool)
  type Rows = SessionId -> Row

  function SlotsHeldBy(active: map<SessionId, Entry>, key: Key): nat {
    |Holders(active, active.Keys, key)|
  }

  function Holders(active: map<SessionId, Entry>, among: set<SessionId>, key: Key): set<SessionId>
    requires among <= active.Keys
  {
    set id | id in among && active[id].key == key
  }

  method CountSlotsHeldBy(active: map<SessionId, Entry>, key: Key) returns (n: nat)
    ensures n == SlotsHeldBy(active, key)
  {
    n := 0;
    var rest := active.Keys;
    ghost var seen: set<SessionId> := {};
    while rest != {}
      invariant seen + rest == active.Keys && seen !! rest
      invariant n == |Holders(active, seen, key)|
      decreases rest
    {
      var id :| id in rest;
      rest := rest - {id};
      assert Holders(active, seen + {id}, key)
          == if active[id].key == key then Holders(active, seen, key) + {id} else Holders(active, seen, key);
      seen := seen + {id};
      if active[id].key == key { n := n + 1; }
    }
    assert seen == active.Keys;
  }

  // ---------------------------------------------------------------- atomic steps

  predicate ShouldAdmitWake(activeCount: nat, inflightCount: nat, cap: nat) {
    activeCount + inflightCount < cap
  }

  /** The synchronous part of a wake and how its promise will answer. */
  function Wake(h: Host, s: Session, now: int): (Host, Attempt) {
    if s.id in h.active then (h, Resolved(s.id, true))
    else if s.id in h.wakes then (h, Waiting(s.id))
    else if !ShouldAdmitWake(|h.active|, |h.wakes|, h.cap) then
      (h.(queue := Enqueue(h.queue, s.id, s.key, now)), Resolved(s.id, false))
    else (h.(wakes := h.wakes[s.id := Starting(s.key)]), Waiting(s.id))
  }

  function ProbeOf(active: map<SessionId, Entry>, rows: Rows, id: SessionId): Probe {
    match rows(id)
    case LookupThrows => Throws
    case NoRow => Missing
    case Row(_, live, due) => Found(live, id in active, due)
  }

  function ProbesOf(active: map<SessionId, Entry>, rows: Rows): Probes {
    id => ProbeOf(active, rows, id)
  }

  function LoadOf(active: map<SessionId, Entry>): Key -> nat {
    key => SlotsHeldBy(active, key)
  }

  function SessionOf(rows: Rows, id: SessionId): Session {
    match rows(id)
    case Row(key, _, _) => Session(id, key)
    case _ => Session(id, SessionFairnessKey(id, None, None))
  }

  /** What a drain of this host's queue leaves, and whom it picks. */
  function Drained(h: Host, rows: Rows): (QueueState, Option<SessionId>) {
    Drain(h.queue, ProbesOf(h.active, rows), LoadOf(h.active))
  }

  function WakePick(h: Host, pick: Option<SessionId>, rows: Rows, now: int): Host {
    match pick
    case None => h
    case Some(id) =>
      var (h', attempt) := Wake(h, SessionOf(rows, id), now);
      h'.(attempts := h'.attempts + [attempt])
  }

  function DrainSlot(h: Host, rows: Rows, now: int): Host {
    var (q, pick) := Drained(h, rows);
    WakePick(h.(queue := q), pick, rows, now)
  }

  datatype Outcome = Idle | Crash | Killed

  function OutcomeOf(h: Host, c: nat, codeZero: bool): Outcome
    requires c < |h.containers|
  {
    if h.containers[c].session in h.killed then Killed else if codeZero then Idle else Crash
  }

  function HandOff(h: Host, c: nat, outcome: Outcome, rows: Rows, now: int): Host
    requires c < |h.containers|
  {
    if h.containers[c].handedOff || h.drainDisabled then h
    else
      var h' := h.(containers := h.containers[c := h.containers[c].(handedOff := true)]);
      if outcome == Idle || now - h.containers[c].spawnedAt >= MIN_HEALTHY_LIFETIME_MS
      then DrainSlot(h', rows, now) else h'
  }

  /** Both exit handlers release by session id, whichever process the entry belongs to. */
  function Release(h: Host, c: nat): Host
    requires c < |h.containers|
  {
    var id := h.containers[c].session;
    h.(active := h.active - {id}, killed := h.killed - {id},
       containers := h.containers[c := h.containers[c].(alive := false)])
  }

  datatype Event =
    | WakeRequest(s: Session, now: int)
    | Register(id: SessionId, now: int, marked: bool)
    | SpawnFails(id: SessionId)
    | GroupMissing(id: SessionId)
    | Settle(id: SessionId)
    | Close(c: nat, codeZero: bool, rows: Rows, now: int)
    | SpawnError(c: nat, rows: Rows, now: int)
    | Kill(id: SessionId)
    | Shutdown
    | AttemptSettles(i: nat)

  predicate Enabled(h: Host, e: Event) {
    match e
    case Register(id, _, _) => id in h.wakes && h.wakes[id].Starting?
    case SpawnFails(id) => id in h.wakes && h.wakes[id].Starting?
    case GroupMissing(id) => id in h.wakes && h.wakes[id].Starting?
    case Settle(id) => id in h.wakes && h.wakes[id].Done?
    case Close(c, _, _, _) => c < |h.containers| && h.containers[c].watched
    case SpawnError(c, _, _) => c < |h.containers| && h.containers[c].watched
    case AttemptSettles(i) => i < |h.attempts| && h.attempts[i].Resolved?
    case _ => true
  }

  function Resolve(attempts: seq<Attempt>, id: SessionId, ok: bool): (r: seq<Attempt>)
    ensures |r| == |attempts|
    ensures forall i :: 0 <= i < |r| ==>
      r[i] == if attempts[i] == Waiting(id) then Resolved(id, ok) else attempts[i]
  {
    seq(|attempts|, i requires 0 <= i < |attempts| =>
      if attempts[i] == Waiting(id) then Resolved(id, ok) else attempts[i])
  }

  /** The slot is registered first; if marking the session running then throws, the wake answers
      false and the process is left without exit handlers. */
  function RegisterContainer(h: Host, id: SessionId, now: int, marked: bool): Host
    requires Enabled(h, Register(id, now, marked))
  {
    h.(active := h.active[id := Entry(|h.containers|, h.wakes[id].key)],
       wakes := h.wakes[id := Done(marked)],
       containers := h.containers + [Container(id, now, false, true, marked)])
  }

  function SettleWake(h: Host, id: SessionId): Host
    requires Enabled(h, Settle(id))
  {
    h.(wakes := h.wakes - {id}, attempts := Resolve(h.attempts, id, h.wakes[id].ok))
  }

  function Exit(h: Host, c: nat, outcome: Outcome, rows: Rows, now: int): Host
    requires c < |h.containers|
  {
    HandOff(Release(h, c), c, outcome, rows, now)
  }

  function SettleAttempt(h: Host, i: nat): Host
    requires Enabled(h, AttemptSettles(i))
  {
    var Resolved(id, ok) := h.attempts[i];
    h.(queue := if ok then RecordSuccess(h.queue, id) else RecordFailure(h.queue, id),
       attempts := h.attempts[..i] + h.attempts[i + 1..])
  }

  function Step(h: Host, e: Event): Host
    requires Enabled(h, e)
  {
    match e
    case WakeRequest(s, now) => Wake(h, s, now).0
    case Register(id, now, marked) => RegisterContainer(h, id, now, marked)
    case SpawnFails(id) => h.(wakes := h.wakes[id := Done(false)])
    case GroupMissing(id) => h.(wakes := h.wakes[id := Done(true)])
    case Settle(id) => SettleWake(h, id)
    case Close(c, codeZero, rows, now) => Exit(h, c, OutcomeOf(h, c, codeZero), rows, now)
    case SpawnError(c, rows, now) => Exit(h, c, Crash, rows, now)
    case Kill(id) => if id in h.active then h.(killed := h.killed + {id}) else h
    case Shutdown => h.(drainDisabled := true, killed := h.killed + h.active.Keys)
    case AttemptSettles(i) => SettleAttempt(h, i)
  }

  /** states[i+1] follows states[i] by one enabled step. */
  ghost predicate IsRun(states: seq<Host>, events: seq<Event>) {
    && |states| == |events| + 1
    && (exists cap: nat :: states[0] == Boot(cap))
    && (forall i :: 0 <= i < |events| ==> Enabled(states[i], events[i]) && states[i + 1] == Step(states[i], events[i]))
  }

  // ---------------------------------------------------------------- safety of the slots

  /** Registered and in-flight sessions together fit the cap. */
  ghost predicate CapInv(active: map<SessionId, Entry>, wakes: map<SessionId, Spawn>, cap: nat) {
    |active.Keys + wakes.Keys| <= cap
  }

  /** A spawn that has not registered yet belongs to no registered session. */
  ghost predicate FreshInv(active: map<SessionId, Entry>, wakes: map<SessionId, Spawn>) {
    forall id :: id in wakes && wakes[id].Starting? ==> id !in active
  }

  /** Every entry names a process of its own session. */
  ghost predicate EntryInv(active: map<SessionId, Entry>, containers: seq<Container>) {
    forall id :: id in active ==>
      active[id].container < |containers| && containers[active[id].container].session == id
  }

  /** A waiting attempt waits for a promise that still exists. */
  ghost predicate WaitInv(attempts: seq<Attempt>, wakes: map<SessionId, Spawn>) {
    forall i :: 0 <= i < |attempts| && attempts[i].Waiting? ==> attempts[i].id in wakes
  }

  ghost predicate SlotInv(h: Host) {
    && CapInv(h.active, h.wakes, h.cap)
    && FreshInv(h.active, h.wakes)
    && EntryInv(h.active, h.containers)
    && WaitInv(h.attempts, h.wakes)
  }

  ghost predicate HostInv(h: Host) {
    SlotInv(h) && Inv(h.queue)
  }

  lemma UnionBound(a: set<SessionId>, b: set<SessionId>)
    ensures |a + b| <= |a| + |b|
  {
    assert a + b == a + (b - a);
    SetFacts.SubsetSize(b - a, b);
  }

  lemma AdmitKeepsSlots(active: map<SessionId, Entry>, wakes: map<SessionId, Spawn>, attempts: seq<Attempt>,
                        cap: nat, s: Session)
    requires FreshInv(active, wakes) && WaitInv(attempts, wakes)
    requires s.id !in active && ShouldAdmitWake(|active|, |wakes|, cap)
    ensures var wakes' := wakes[s.id := Starting(s.key)];
      CapInv(active, wakes', cap) && FreshInv(active, wakes') && WaitInv(attempts, wakes')
  {
    var wakes' := wakes[s.id := Starting(s.key)];
    assert |active.Keys| == |active| && |wakes.Keys| == |wakes|;
    UnionBound(active.Keys, wakes.Keys);
    assert active.Keys + wakes'.Keys == (active.Keys + wakes.Keys) + {s.id};
  }

  lemma WakeKeepsSlots(h: Host, s: Session, now: int)
    requires SlotInv(h)
    ensures SlotInv(Wake(h, s, now).0)
  {
    if s.id !in h.active && s.id !in h.wakes && ShouldAdmitWake(|h.active|, |h.wakes|, h.cap) {
      AdmitKeepsSlots(h.active, h.wakes, h.attempts, h.cap, s);
    }
  }

  /** What a drain may change, whoever it picks. */
  ghost predicate OnlyWakes(h: Host, h': Host) {
    && h'.active == h.active && h'.containers == h.containers && h'.cap == h.cap && h'.killed == h.killed
    && h'.drainDisabled == h.drainDisabled
  }

  lemma WakeOnlyWakes(h: Host, s: Session, now: int)
    ensures OnlyWakes(h, Wake(h, s, now).0)
  {
    hide Enqueue;
  }

  lemma RecordKeepsWaits(attempts: seq<Attempt>, wakes: map<SessionId, Spawn>, a: Attempt)
    requires WaitInv(attempts, wakes) && (a.Waiting? ==> a.id in wakes)
    ensures WaitInv(attempts + [a], wakes)
  {
  }

  lemma WakePickKeepsSlots(h: Host, pick: Option<SessionId>, rows: Rows, now: int)
    requires SlotInv(h)
    ensures SlotInv(WakePick(h, pick, rows, now)) && OnlyWakes(h, WakePick(h, pick, rows, now))
  {
    hide Enqueue, SessionFairnessKey, CapInv, FreshInv, EntryInv, WaitInv;
    if pick.Some? {
      var s := SessionOf(rows, pick.value);
      WakeKeepsSlots(h, s, now);
      var (h', attempt) := Wake(h, s, now);
      RecordKeepsWaits(h'.attempts, h'.wakes, attempt);
    }
  }

  lemma WakePickKeepsQueue(h: Host, pick: Option<SessionId>, rows: Rows, now: int)
    requires Inv(h.queue)
    ensures Inv(WakePick(h, pick, rows, now).queue)
  {
    if pick.Some? {
      var s := SessionOf(rows, pick.value);
      ApplyKeepsInv(h.queue, Reject(s.id, s.key, now));
    }
  }

  lemma DrainSlotKeepsInv(h: Host, rows: Rows, now: int)
    requires HostInv(h)
    ensures HostInv(DrainSlot(h, rows, now)) && OnlyWakes(h, DrainSlot(h, rows, now))
  {
    hide Drain, WakePick, Inv, CapInv, FreshInv, EntryInv, WaitInv;
    var (q, pick) := Drained(h, rows);
    DrainKeepsInv(h.queue, ProbesOf(h.active, rows), LoadOf(h.active));
    assert SlotInv(h.(queue := q));
    WakePickKeepsSlots(h.(queue := q), pick, rows, now);
    WakePickKeepsQueue(h.(queue := q), pick, rows, now);
  }

  /** What a hand-off may change: the flag of its container, and what a drain may change. */
  ghost predicate OnlyHandsOff(h: Host, h': Host, c: nat) {
    && c < |h.containers|
    && OnlyWakes(h.(containers := h'.containers), h')
    && (h'.containers == h.containers || h'.containers == h.containers[c := h.containers[c].(handedOff := true)])
  }

  lemma HandOffKeepsInv(h: Host, c: nat, outcome: Outcome, rows: Rows, now: int)
    requires HostInv(h) && c < |h.containers|
    ensures HostInv(HandOff(h, c, outcome, rows, now))
    ensures OnlyHandsOff(h, HandOff(h, c, outcome, rows, now), c)
  {
    hide DrainSlot, Inv, CapInv, FreshInv, WaitInv;
    var marked := h.(containers := h.containers[c := h.containers[c].(handedOff := true)]);
    assert HostInv(marked);
    DrainSlotKeepsInv(marked, rows, now);
  }

  lemma ReleaseKeepsInv(h: Host, c: nat)
    requires HostInv(h) && c < |h.containers|
    ensures HostInv(Release(h, c))
  {
    var r := Release(h, c);
    SetFacts.SubsetSize(r.active.Keys + r.wakes.Keys, h.active.Keys + h.wakes.Keys);
  }

  lemma ExitKeepsInv(h: Host, c: nat, outcome: Outcome, rows: Rows, now: int)
    requires HostInv(h) && c < |h.containers|
    ensures HostInv(Exit(h, c, outcome, rows, now)) && Exit(h, c, outcome, rows, now).cap == h.cap
    ensures OnlyHandsOff(Release(h, c), Exit(h, c, outcome, rows, now), c)
  {
    hide HandOff, HostInv;
    ReleaseKeepsInv(h, c);
    HandOffKeepsInv(Release(h, c), c, outcome, rows, now);
  }

  lemma RegisterKeepsSlots(h: Host, id: SessionId, now: int, marked: bool)
    requires SlotInv(h) && Enabled(h, Register(id, now, marked))
    ensures SlotInv(RegisterContainer(h, id, now, marked))
    ensures RegisterContainer(h, id, now, marked).queue == h.queue && RegisterContainer(h, id, now, marked).cap == h.cap
  {
    var h' := RegisterContainer(h, id, now, marked);
    assert h'.active.Keys + h'.wakes.Keys == h.active.Keys + h.wakes.Keys;
  }

  lemma SettleKeepsSlots(h: Host, id: SessionId)
    requires SlotInv(h) && Enabled(h, Settle(id))
    ensures SlotInv(SettleWake(h, id)) && SettleWake(h, id).queue == h.queue && SettleWake(h, id).cap == h.cap
  {
    var h' := SettleWake(h, id);
    SetFacts.SubsetSize(h'.active.Keys + h'.wakes.Keys, h.active.Keys + h.wakes.Keys);
  }

  lemma AttemptKeepsInv(h: Host, i: nat)
    requires HostInv(h) && Enabled(h, AttemptSettles(i))
    ensures HostInv(SettleAttempt(h, i)) && SettleAttempt(h, i).cap == h.cap
  {
    hide RecordSuccess, RecordFailure, Inv, CapInv, FreshInv, EntryInv;
    ApplyKeepsInv(h.queue, Settled(h.attempts[i].id, h.attempts[i].ok));
  }

  lemma WakeKeepsInv(h: Host, s: Session, now: int)
    requires HostInv(h)
    ensures HostInv(Wake(h, s, now).0) && Wake(h, s, now).0.cap == h.cap
  {
    hide Enqueue, SlotInv, Inv;
    WakeKeepsSlots(h, s, now);
    ApplyKeepsInv(h.queue, Reject(s.id, s.key, now));
  }

  lemma SpawnEndKeepsInv(h: Host, id: SessionId, ok: bool)
    requires HostInv(h) && id in h.wakes
    ensures HostInv(h.(wakes := h.wakes[id := Done(ok)]))
  {
    hide Inv;
    assert h.wakes[id := Done(ok)].Keys == h.wakes.Keys;
  }

  lemma StepKeepsInv(h: Host, e: Event)
    requires HostInv(h) && Enabled(h, e)
    ensures HostInv(Step(h, e)) && Step(h, e).cap == h.cap
  {
    hide Exit, Wake, RegisterContainer, SettleWake, SettleAttempt, OutcomeOf, Inv, CapInv, FreshInv, EntryInv, WaitInv;
    match e
    case WakeRequest(s, now) => WakeKeepsInv(h, s, now);
    case Register(id, now, marked) => RegisterKeepsSlots(h, id, now, marked);
    case SpawnFails(id) => SpawnEndKeepsInv(h, id, false);
    case GroupMissing(id) => SpawnEndKeepsInv(h, id, true);
    case Settle(id) => SettleKeepsSlots(h, id);
    case Close(c, codeZero, rows, now) => ExitKeepsInv(h, c, OutcomeOf(h, c, codeZero), rows, now);
    case SpawnError(c, rows, now) => ExitKeepsInv(h, c, Crash, rows, now);
    case Kill(id) =>
    case Shutdown =>
    case AttemptSettles(i) => AttemptKeepsInv(h, i);
  }

  /** In every interleaving the sessions that are registered or in flight never exceed the cap, a
      starting spawn never belongs to a registered session, and the queue keeps its invariant. */
  lemma {:induction false} CapHoldsInEveryRun(states: seq<Host>, events: seq<Event>, n: nat)
    requires IsRun(states, events) && n < |states|
    ensures HostInv(states[n]) && states[n].cap == states[0].cap
  {
    if n > 0 {
      CapHoldsInEveryRun(states, events, n - 1);
      StepKeepsInv(states[n - 1], events[n - 1]);
    }
  }

  /** The sum the admission test uses does exceed the cap, between registration and settlement. */
  lemma SumCanExceedCap(s: Session, now: int)
    ensures var h := Step(Step(Boot(1), WakeRequest(s, now)), Register(s.id, now, true));
      |h.active| + |h.wakes| == 2 && |h.active.Keys + h.wakes.Keys| == 1
  {
    var h1 := Step(Boot(1), WakeRequest(s, now));
    assert h1.wakes == map[s.id := Starting(s.key)];
    var h2 := Step(h1, Register(s.id, now, true));
    assert h2.active.Keys == {s.id} && h2.wakes.Keys == {s.id};
    assert h2.active.Keys + h2.wakes.Keys == {s.id};
  }

  // ---------------------------------------------------------------- processes and entries

  /** The registry and the running processes agree: one entry per living process, and back. */
  ghost predicate Owned(active: map<SessionId, Entry>, containers: seq<Container>) {
    forall c :: 0 <= c < |containers| ==>
      (containers[c].alive <==> containers[c].session in active && active[containers[c].session].container == c)
  }

  /** The session of process c is registered by another process. */
  predicate Superseded(h: Host, c: nat)
    requires c < |h.containers|
  {
    h.containers[c].session in h.active && h.active[h.containers[c].session].container != c
  }

  /** An exit handler that finds its session registered by another, later process. */
  predicate StaleExit(h: Host, e: Event) {
    (e.Close? || e.SpawnError?) && e.c < |h.containers| && Superseded(h, e.c)
  }

  lemma ReleaseOwned(h: Host, c: nat)
    requires EntryInv(h.active, h.containers) && Owned(h.active, h.containers) && c < |h.containers|
    ensures Owned(Release(h, c).active, Release(h, c).containers) <==> !Superseded(h, c)
  {
    if Superseded(h, c) {
      var d := h.active[h.containers[c].session].container;
      assert Release(h, c).containers[d].alive;
    }
  }

  lemma ExitOwned(h: Host, c: nat, outcome: Outcome, rows: Rows, now: int)
    requires HostInv(h) && Owned(h.active, h.containers) && c < |h.containers|
    ensures var h' := Exit(h, c, outcome, rows, now);
      Owned(h'.active, h'.containers) <==> !Superseded(h, c)
  {
    hide HandOff, Inv, CapInv, FreshInv, WaitInv;
    ReleaseOwned(h, c);
    ExitKeepsInv(h, c, outcome, rows, now);
    var r, h' := Release(h, c), Exit(h, c, outcome, rows, now);
    assert forall d :: 0 <= d < |r.containers| ==>
      h'.containers[d].alive == r.containers[d].alive && h'.containers[d].session == r.containers[d].session;
  }

  lemma RegisterOwned(h: Host, id: SessionId, now: int, marked: bool)
    requires HostInv(h) && Owned(h.active, h.containers) && Enabled(h, Register(id, now, marked))
    ensures Owned(RegisterContainer(h, id, now, marked).active, RegisterContainer(h, id, now, marked).containers)
  {
    hide CapInv, WaitInv, Inv;
  }

  /** One step keeps registry and processes in agreement exactly when it is not a stale exit. */
  lemma StepKeepsOwned(h: Host, e: Event)
    requires HostInv(h) && Owned(h.active, h.containers) && Enabled(h, e)
    ensures Owned(Step(h, e).active, Step(h, e).containers) <==> !StaleExit(h, e)
  {
    hide Exit, Wake, RegisterContainer, OutcomeOf, Owned, Superseded, RecordSuccess, RecordFailure, HostInv;
    match e
    case WakeRequest(s, now) => WakeOnlyWakes(h, s, now);
    case Register(id, now, marked) => RegisterOwned(h, id, now, marked);
    case Close(c, codeZero, rows, now) => ExitOwned(h, c, OutcomeOf(h, c, codeZero), rows, now);
    case SpawnError(c, rows, now) => ExitOwned(h, c, Crash, rows, now);
    case _ =>
  }

  ghost function Living(h: Host): set<nat> {
    set c: nat | c < |h.containers| && h.containers[c].alive
  }

  lemma {:induction false} LivingBound(h: Host, cs: set<nat>)
    requires Owned(h.active, h.containers) && cs <= Living(h)
    ensures |cs| <= |h.active|
  {
    var owners := set c | c in cs :: h.containers[c].session;
    assert owners <= h.active.Keys;
    SetFacts.SubsetSize(owners, h.active.Keys);
    InjectionSize(h, cs);
    assert |h.active.Keys| == |h.active|;
  }

  lemma {:induction false} InjectionSize(h: Host, cs: set<nat>)
    requires Owned(h.active, h.containers) && cs <= Living(h)
    ensures |set c | c in cs :: h.containers[c].session| == |cs|
    decreases cs
  {
    if cs != {} {
      var c :| c in cs;
      InjectionSize(h, cs - {c});
      var rest := set d | d in cs - {c} :: h.containers[d].session;
      assert h.containers[c].session !in rest;
      assert (set d | d in cs :: h.containers[d].session) == rest + {h.containers[c].session};
    }
  }

  /** Without a stale exit, at most `cap` container processes live at once, and never two for one
      session. */
  lemma {:induction false} ProcessesBounded(states: seq<Host>, events: seq<Event>, n: nat)
    requires IsRun(states, events) && n < |states|
    requires forall i :: 0 <= i < n ==> !StaleExit(states[i], events[i])
    ensures Owned(states[n].active, states[n].containers) && |Living(states[n])| <= states[0].cap
    ensures forall c, d :: c in Living(states[n]) && d in Living(states[n]) && c != d ==>
      states[n].containers[c].session != states[n].containers[d].session
  {
    CapHoldsInEveryRun(states, events, n);
    if n > 0 {
      ProcessesBounded(states, events, n - 1);
      CapHoldsInEveryRun(states, events, n - 1);
      StepKeepsOwned(states[n - 1], events[n - 1]);
    }
    var h := states[n];
    LivingBound(h, Living(h));
    SetFacts.SubsetSize(h.active.Keys, h.active.Keys + h.wakes.Keys);
    assert |h.active.Keys| == |h.active|;
  }

  /** A registered slot whose process has no exit handlers. */
  predicate Leaked(h: Host, id: SessionId, c: nat) {
    id in h.active && h.active[id].container == c && c < |h.containers| && !h.containers[c].watched
  }

  lemma ReleaseKeepsLeak(h: Host, d: nat, id: SessionId, c: nat)
    requires EntryInv(h.active, h.containers) && Leaked(h, id, c)
    requires d < |h.containers| && h.containers[d].watched && !Superseded(h, d)
    ensures Leaked(Release(h, d), id, c)
  {
  }

  lemma ExitKeepsLeak(h: Host, d: nat, outcome: Outcome, rows: Rows, now: int, id: SessionId, c: nat)
    requires HostInv(h) && Leaked(h, id, c) && d < |h.containers| && h.containers[d].watched && !Superseded(h, d)
    ensures Leaked(Exit(h, d, outcome, rows, now), id, c)
  {
    ReleaseKeepsLeak(h, d, id, c);
    hide Exit, Release, Superseded, HostInv;
    ExitKeepsInv(h, d, outcome, rows, now);
  }

  lemma StepKeepsLeak(h: Host, e: Event, id: SessionId, c: nat)
    requires HostInv(h) && Enabled(h, e) && Leaked(h, id, c) && !StaleExit(h, e)
    ensures Leaked(Step(h, e), id, c)
  {
    hide Exit, Wake, RecordSuccess, RecordFailure, Resolve, CapInv, WaitInv, EntryInv, Inv;
    match e
    case WakeRequest(s, now) => WakeOnlyWakes(h, s, now);
    case Close(d, codeZero, rows, now) => ExitKeepsLeak(h, d, OutcomeOf(h, d, codeZero), rows, now, id, c);
    case SpawnError(d, rows, now) => ExitKeepsLeak(h, d, Crash, rows, now, id, c);
    case _ =>
  }

  lemma NextState(states: seq<Host>, events: seq<Event>, n: nat)
    requires IsRun(states, events) && n < |events|
    ensures |states| == |events| + 1 && Enabled(states[n], events[n]) && states[n + 1] == Step(states[n], events[n])
  {
    hide Step, Enabled;
  }

  /** What the throw leaves behind. */
  lemma ThrowLeaks(h: Host, id: SessionId, now: int)
    requires Enabled(h, Register(id, now, false))
    ensures Leaked(Step(h, Register(id, now, false)), id, |h.containers|)
  {
  }

  /** Exactly: a slot can be freed by some step other than a stale exit iff its process has exit
      handlers, that is iff marking it running did not throw. */
  lemma FreedIffWatched(h: Host, id: SessionId)
    requires HostInv(h) && id in h.active
    ensures h.active[id].container < |h.containers|
    ensures (exists e :: Enabled(h, e) && !StaleExit(h, e) && id !in Step(h, e).active)
      <==> h.containers[h.active[id].container].watched
  {
    EntryNames(h, id);
    var c := h.active[id].container;
    if h.containers[c].watched {
      var e := Close(c, true, x => NoRow, 0);
      ExitFrees(h, e, id);
      assert Enabled(h, e) && !StaleExit(h, e) && id !in Step(h, e).active;
      hide *;
    } else {
      hide Step, Enabled, StaleExit, HostInv;
      forall e | Enabled(h, e) && !StaleExit(h, e) ensures id in Step(h, e).active {
        StepKeepsLeak(h, e, id, c);
      }
    }
  }

  lemma EntryNames(h: Host, id: SessionId)
    requires HostInv(h) && id in h.active
    ensures h.active[id].container < |h.containers| && h.containers[h.active[id].container].session == id
  {
    assert EntryInv(h.active, h.containers);
  }

  lemma ExitFrees(h: Host, e: Event, id: SessionId)
    requires HostInv(h) && e.Close? && e.c < |h.containers| && h.containers[e.c].watched
    requires h.containers[e.c].session == id && (id in h.active ==> h.active[id].container == e.c)
    ensures Enabled(h, e) && !StaleExit(h, e) && id !in Step(h, e).active
  {
    hide HandOff, HostInv, OutcomeOf;
    ExitKeepsInv(h, e.c, OutcomeOf(h, e.c, e.codeZero), e.rows, e.now);
  }

  /** A slot registered for a process that could not be marked running is never freed, in any run
      without a stale exit: the cap is one lower until the host restarts. */
  lemma {:induction false} LeakedSlotIsNeverFreed(states: seq<Host>, events: seq<Event>, i: nat, n: nat, id: SessionId, c: nat)
    requires IsRun(states, events) && i <= n < |states| == |events| + 1 && Leaked(states[i], id, c)
    requires forall j :: i <= j < n ==> !StaleExit(states[j], events[j])
    ensures Leaked(states[n], id, c)
    decreases n
  {
    hide *;
    if i < n {
      LeakedSlotIsNeverFreed(states, events, i, n - 1, id, c);
      CapHoldsInEveryRun(states, events, n - 1);
      NextState(states, events, n - 1);
      StepKeepsLeak(states[n - 1], events[n - 1], id, c);
    }
  }

  /** A wake on an idle host, its registration and its settlement. */
  function SpawnCycle(h: Host, s: Session): (r: Host)
    requires h.active == map[] && h.wakes == map[] && h.attempts == [] && h.cap >= 1
    ensures r == h.(active := map[s.id := Entry(|h.containers|, s.key)],
                    containers := h.containers + [Container(s.id, 0, false, true, true)])
  {
    var woken := Step(h, WakeRequest(s, 0));
    assert woken.wakes == map[s.id := Starting(s.key)];
    Step(Step(woken, Register(s.id, 0, true)), Settle(s.id))
  }

  /** With a stale exit the bound fails: the late close of a dead process releases its successor's
      slot, and a cap of one lets two processes of one session live. */
  lemma StaleCloseBreaksTheBound(s: Session, rows: Rows)
    ensures var failed := Step(SpawnCycle(Boot(1), s), SpawnError(0, rows, 0));
      && failed.active == map[] && failed.wakes == map[] && failed.attempts == [] && failed.cap == 1
      && var respawned := SpawnCycle(failed, s);
      && |respawned.containers| == 2 && StaleExit(respawned, Close(0, false, rows, 0))
      && var released := Step(respawned, Close(0, false, rows, 0));
      && released.active == map[] && released.wakes == map[] && released.attempts == [] && released.cap == 1
      && var again := SpawnCycle(released, s);
      Living(again) == {1, 2} && again.containers[1].session == again.containers[2].session
  {
    hide SpawnCycle, DrainSlot;
    var dead, live := Container(s.id, 0, true, false, true), Container(s.id, 0, false, true, true);
    var failed := Step(SpawnCycle(Boot(1), s), SpawnError(0, rows, 0));
    assert failed == Host(1, map[], map[], [dead], false, {}, EMPTY, []);
    var released := Step(SpawnCycle(failed, s), Close(0, false, rows, 0));
    assert released == Host(1, map[], map[], [dead, live], false, {}, EMPTY, []);
    assert SpawnCycle(released, s).containers == [dead, live, live];
  }

  // ---------------------------------------------------------------- eviction, in a run of the host

  /** The event loop runs an exit handler only after the wake of that session has settled. */
  predicate SettledExit(h: Host, c: nat) {
    c < |h.containers| && h.containers[c].session !in h.wakes
  }

  /** Some n enabled steps lead from one host to another, in an order the event loop can produce. */
  ghost predicate Reaches(h: Host, g: Host, n: nat)
    decreases n
  {
    if n == 0 then h == g
    else exists e :: Enabled(h, e) && (e.Close? || e.SpawnError? ==> SettledExit(h, e.c)) && Reaches(Step(h, e), g, n - 1)
  }

  lemma ReachesItself(h: Host)
    ensures Reaches(h, h, 0)
  {
  }

  lemma StepReaches(h: Host, e: Event, g: Host, n: nat)
    requires Enabled(h, e) && (e.Close? || e.SpawnError? ==> SettledExit(h, e.c)) && Reaches(Step(h, e), g, n)
    ensures Reaches(h, g, n + 1)
  {
    hide Step, Enabled;
  }

  lemma {:induction false} ReachesOn(h: Host, g: Host, k: Host, m: nat, n: nat)
    requires Reaches(h, g, m) && Reaches(g, k, n)
    ensures Reaches(h, k, m + n)
    decreases m
  {
    hide Step, Enabled;
    if m > 0 {
      var e :| Enabled(h, e) && (e.Close? || e.SpawnError? ==> SettledExit(h, e.c)) && Reaches(Step(h, e), g, m - 1);
      ReachesOn(Step(h, e), g, k, m - 1, n);
      StepReaches(h, e, k, m - 1 + n);
    }
  }

  /** What is reached from the start of the host is the end of a run. */
  lemma {:induction false} ReachedByRun(h: Host, g: Host, n: nat) returns (states: seq<Host>, events: seq<Event>)
    requires Reaches(h, g, n)
    ensures |events| == n && |states| == n + 1 && states[0] == h && states[n] == g
    ensures forall i :: 0 <= i < n ==> Enabled(states[i], events[i]) && states[i + 1] == Step(states[i], events[i])
    ensures forall i :: 0 <= i < n && (events[i].Close? || events[i].SpawnError?) ==> SettledExit(states[i], events[i].c)
    decreases n
  {
    hide Step, Enabled, SettledExit;
    if n == 0 {
      states, events := [h], [];
    } else {
      var e :| Enabled(h, e) && (e.Close? || e.SpawnError? ==> SettledExit(h, e.c)) && Reaches(Step(h, e), g, n - 1);
      var rest, later := ReachedByRun(Step(h, e), g, n - 1);
      states, events := [h] + rest, [e] + later;
      forall i | 0 <= i < n
        ensures Enabled(states[i], events[i]) && states[i + 1] == Step(states[i], events[i])
        ensures events[i].Close? || events[i].SpawnError? ==> SettledExit(states[i], events[i].c)
      {
        if i > 0 { assert Enabled(rest[i - 1], later[i - 1]) && rest[i] == Step(rest[i - 1], later[i - 1]); }
      }
    }
  }

  /** A host of one slot, after some containers came and went: nothing runs, or `b` does and its wake
      has settled. */
  function Quiet(q: QueueState, gone: seq<Container>): Host {
    Host(1, map[], map[], gone, false, {}, q, [])
  }

  function Occupied(b: Session, q: QueueState, gone: seq<Container>): Host {
    Host(1, map[b.id := Entry(|gone|, b.key)], map[], gone + [Container(b.id, 0, false, true, true)], false, {}, q, [])
  }

  /** The containers of the past, once one of session `b` has come and gone. */
  function Past(gone: seq<Container>, b: SessionId): seq<Container> {
    gone + [Container(b, 0, true, false, true)]
  }

  /** `b` is gone, and the wake of `a` that its exit began has failed and settled. */
  function Failed(q: QueueState, past: seq<Container>, a: SessionId): Host {
    Host(1, map[], map[], past, false, {}, q, [Resolved(a, false)])
  }

  /** Only `a` is queued, with its clock and bucket. */
  ghost predicate Alone(q: QueueState, a: SessionId) {
    q.order == [a] && q.queued == {a} && a in q.since && a in q.keyOf
  }

  lemma SlotIsTaken(q: QueueState, gone: seq<Container>, b: Session)
    ensures Reaches(Quiet(q, gone), Occupied(b, q, gone), 3)
  {
    hide Enqueue;
    var h0, h3 := Quiet(q, gone), Occupied(b, q, gone);
    var h1 := Step(h0, WakeRequest(b, 0));
    assert h1 == h0.(wakes := map[b.id := Starting(b.key)]);
    var h2 := Step(h1, Register(b.id, 0, true));
    assert h2 == h3.(wakes := map[b.id := Done(true)]);
    assert Step(h2, Settle(b.id)) == h3 by { assert map[b.id := Done(true)] - {b.id} == map[]; }
    assert Enabled(h0, WakeRequest(b, 0)) && Enabled(h1, Register(b.id, 0, true)) && Enabled(h2, Settle(b.id));
    hide *;
    ReachesItself(h3);
    StepReaches(h2, Settle(b.id), h3, 0);
    StepReaches(h1, Register(b.id, 0, true), h3, 1);
    StepReaches(h0, WakeRequest(b, 0), h3, 2);
  }

  lemma FreesTheSlot(q: QueueState, gone: seq<Container>, b: Session, rows: Rows)
    ensures Enabled(Occupied(b, q, gone), Close(|gone|, true, rows, 0)) && SettledExit(Occupied(b, q, gone), |gone|)
    ensures Step(Occupied(b, q, gone), Close(|gone|, true, rows, 0)) == DrainSlot(Quiet(q, Past(gone, b.id)), rows, 0)
  {
    hide DrainSlot;
    var h, c := Occupied(b, q, gone), |gone|;
    assert h.active - {b.id} == map[] && h.killed - {b.id} == {};
    var released := Release(h, c);
    assert released.containers == gone + [Container(b.id, 0, false, false, true)];
    assert released.containers[c := released.containers[c].(handedOff := true)] == Past(gone, b.id);
  }

  lemma AlonePicked(h: Host, q: QueueState, a: Session, rows: Rows)
    requires h.queue == q && h.active == map[] && Alone(q, a.id) && rows(a.id) == Row(a.key, true, true)
    ensures Drained(h, rows) == (PopAt(q, 0), Some(a.id))
  {
    hide PopAt;
    assert Select(q.order, q.keyOf, LoadOf(h.active)) == 0;
  }

  lemma DrainStarts(q: QueueState, past: seq<Container>, a: Session, rows: Rows)
    requires Alone(q, a.id) && rows(a.id) == Row(a.key, true, true)
    ensures DrainSlot(Quiet(q, past), rows, 0) ==
      Host(1, map[], map[a.id := Starting(a.key)], past, false, {}, PopAt(q, 0), [Waiting(a.id)])
  {
    AlonePicked(Quiet(q, past), q, a, rows);
    hide Drained, PopAt, Alone, Enqueue;
  }

  /** `b` exits, its exit wakes `a`, and that spawn fails. */
  lemma WakeFails(q: QueueState, gone: seq<Container>, a: Session, b: Session, rows: Rows)
    requires Alone(q, a.id) && rows(a.id) == Row(a.key, true, true)
    ensures Reaches(Occupied(b, q, gone), Failed(PopAt(q, 0), Past(gone, b.id), a.id), 3)
  {
    var h0, h3 := Occupied(b, q, gone), Failed(PopAt(q, 0), Past(gone, b.id), a.id);
    FreesTheSlot(q, gone, b, rows);
    DrainStarts(q, Past(gone, b.id), a, rows);
    hide PopAt, Past, Occupied, Quiet, DrainSlot, Alone;
    var h1 := Host(1, map[], map[a.id := Starting(a.key)], Past(gone, b.id), false, {}, PopAt(q, 0), [Waiting(a.id)]);
    var h2 := h1.(wakes := map[a.id := Done(false)]);
    FailureSettles(h1, a);
    hide *;
    ReachesItself(h3);
    StepReaches(h2, Settle(a.id), h3, 0);
    StepReaches(h1, SpawnFails(a.id), h3, 1);
    StepReaches(h0, Close(|gone|, true, rows, 0), h3, 2);
  }

  lemma FailureSettles(h: Host, a: Session)
    requires h.wakes == map[a.id := Starting(a.key)] && h.attempts == [Waiting(a.id)]
    ensures Enabled(h, SpawnFails(a.id)) && Step(h, SpawnFails(a.id)) == h.(wakes := map[a.id := Done(false)])
    ensures var failed := h.(wakes := map[a.id := Done(false)]);
      Enabled(failed, Settle(a.id)) &&
      Step(failed, Settle(a.id)) == h.(wakes := map[], attempts := [Resolved(a.id, false)])
  {
    assert map[a.id := Done(false)] - {a.id} == map[];
  }

  lemma AttemptBooked(h: Host, a: SessionId)
    requires h.attempts == [Resolved(a, false)]
    ensures Reaches(h, h.(queue := RecordFailure(h.queue, a), attempts := []), 1)
  {
    var end := h.(queue := RecordFailure(h.queue, a), attempts := []);
    hide RecordFailure, Reaches;
    assert Enabled(h, AttemptSettles(0)) && Step(h, AttemptSettles(0)) == end;
    hide *;
    ReachesItself(end);
    StepReaches(h, AttemptSettles(0), end, 0);
  }

  /** A plain failure of the wake of `a`, after which `b` takes the slot again. */
  lemma PlainFailure(q: QueueState, gone: seq<Container>, a: Session, b: Session, rows: Rows)
    requires Alone(q, a.id) && rows(a.id) == Row(a.key, true, true)
    ensures Reaches(Occupied(b, q, gone), Occupied(b, RecordFailure(PopAt(q, 0), a.id), Past(gone, b.id)), 7)
  {
    var p, q' := Past(gone, b.id), RecordFailure(PopAt(q, 0), a.id);
    assert Failed(PopAt(q, 0), p, a.id).attempts == [Resolved(a.id, false)];
    assert Failed(PopAt(q, 0), p, a.id).queue == PopAt(q, 0);
    assert Failed(PopAt(q, 0), p, a.id).(queue := q', attempts := []) == Quiet(q', p);
    hide *;
    WakeFails(q, gone, a, b, rows);
    AttemptBooked(Failed(PopAt(q, 0), p, a.id), a.id);
    SlotIsTaken(q', p, b);
    ReachesOn(Occupied(b, q, gone), Failed(PopAt(q, 0), p, a.id), Quiet(q', p), 3, 1);
    ReachesOn(Occupied(b, q, gone), Quiet(q', p), Occupied(b, q', p), 4, 3);
  }

  lemma BackAgain(q: QueueState, a: Session, now: int)
    requires Alone(q, a.id)
    ensures Enqueue(PopAt(q, 0), a.id, a.key, now) == q
  {
    assert PopAt(q, 0).order == [] && PopAt(q, 0).queued == {};
  }

  /** `b` has been woken again before the failure of `a` is booked. */
  function Rewoken(q: QueueState, past: seq<Container>, a: SessionId, b: Session): Host {
    Host(1, map[], map[b.id := Starting(b.key)], past, false, {}, q, [Resolved(a, false)])
  }

  lemma WokenAgain(q: QueueState, past: seq<Container>, a: Session, b: Session)
    requires a.id != b.id && Alone(q, a.id)
    ensures Reaches(Failed(PopAt(q, 0), past, a.id), Rewoken(q, past, a.id, b), 2)
  {
    var h0, h2 := Failed(PopAt(q, 0), past, a.id), Rewoken(q, past, a.id, b);
    BackAgain(q, a, 0);
    hide PopAt, Enqueue, Alone;
    var h1 := Rewoken(PopAt(q, 0), past, a.id, b);
    assert Enabled(h0, WakeRequest(b, 0)) && Step(h0, WakeRequest(b, 0)) == h1;
    assert Enabled(h1, WakeRequest(a, 0)) && Step(h1, WakeRequest(a, 0)) == h2 by { assert |h1.wakes| == 1; }
    hide *;
    ReachesItself(h2);
    StepReaches(h1, WakeRequest(a, 0), h2, 0);
    StepReaches(h0, WakeRequest(b, 0), h2, 1);
  }

  /** The last failure: between its settling and its booking, `b` takes the slot and a message for `a`
      finds none, which queues `a` again. */
  lemma FailureAfterRequeue(q: QueueState, gone: seq<Container>, a: Session, b: Session, rows: Rows) returns (end: Host)
    requires a.id != b.id && Alone(q, a.id) && rows(a.id) == Row(a.key, true, true)
    ensures Reaches(Occupied(b, q, gone), end, 6) && end.queue == RecordFailure(q, a.id)
  {
    var p := Past(gone, b.id);
    var woken := Rewoken(q, p, a.id, b);
    assert woken.attempts == [Resolved(a.id, false)] && woken.queue == q;
    end := woken.(queue := RecordFailure(q, a.id), attempts := []);
    hide *;
    WakeFails(q, gone, a, b, rows);
    WokenAgain(q, p, a, b);
    AttemptBooked(woken, a.id);
    ReachesOn(Occupied(b, q, gone), Failed(PopAt(q, 0), p, a.id), woken, 3, 2);
    ReachesOn(Occupied(b, q, gone), woken, end, 5, 1);
  }

  /** `a` is rejected while `b` holds the slot. */
  lemma RejectedBehind(a: Session, b: Session)
    requires a.id != b.id
    ensures var q := Enqueue(EMPTY, a.id, a.key, 0);
      Alone(q, a.id) && q.fails == map[] && Reaches(Boot(1), Occupied(b, q, []), 4)
  {
    var q := Enqueue(EMPTY, a.id, a.key, 0);
    var h3, h4 := Occupied(b, EMPTY, []), Occupied(b, q, []);
    assert Quiet(EMPTY, []) == Boot(1) && Alone(q, a.id) && q.fails == map[];
    assert Enabled(h3, WakeRequest(a, 0)) && Step(h3, WakeRequest(a, 0)) == h4;
    hide *;
    SlotIsTaken(EMPTY, [], b);
    ReachesItself(h4);
    StepReaches(h3, WakeRequest(a, 0), h4, 0);
    ReachesOn(Boot(1), h3, h4, 3, 1);
  }

  lemma ThreeFailures(q: QueueState, a: SessionId)
    requires Alone(q, a) && q.fails == map[]
    ensures var q1 := RecordFailure(PopAt(q, 0), a);
      var q2 := RecordFailure(PopAt(q1, 0), a);
      var q3 := RecordFailure(q2, a);
      && Alone(q1, a) && Alone(q2, a)
      && q3.order == [a] && a in q3.queued && a !in q3.keyOf && a !in q3.since && a !in q3.fails
  {
    var q1 := RecordFailure(PopAt(q, 0), a);
    assert PopAt(q, 0).order == [] && PopAt(q, 0).queued == {};
    assert q1.order == [a] && q1.fails == map[a := 1];
    var q2 := RecordFailure(PopAt(q1, 0), a);
    assert PopAt(q1, 0).order == [] && PopAt(q1, 0).queued == {};
    assert q2.order == [a] && q2.fails[a] == 2;
  }

  /** The queue after `a` alone was rejected and then failed n plain wakes. */
  function AfterPlain(a: Session, n: nat): QueueState {
    if n == 0 then Enqueue(EMPTY, a.id, a.key, 0)
    else
      var q := AfterPlain(a, n - 1);
      if q.order == [a.id] then RecordFailure(PopAt(q, 0), a.id) else q
  }

  function PastOf(b: SessionId, n: nat): seq<Container> {
    if n == 0 then [] else Past(PastOf(b, n - 1), b)
  }

  lemma AfterTwo(a: Session)
    ensures Alone(AfterPlain(a, 0), a.id) && Alone(AfterPlain(a, 1), a.id) && Alone(AfterPlain(a, 2), a.id)
    ensures var q := RecordFailure(AfterPlain(a, 2), a.id);
      q.order == [a.id] && a.id in q.queued && a.id !in q.keyOf && a.id !in q.since && a.id !in q.fails
  {
    var q0 := Enqueue(EMPTY, a.id, a.key, 0);
    assert Alone(q0, a.id) && q0.fails == map[];
    hide RecordFailure, PopAt, Enqueue;
    ThreeFailures(q0, a.id);
  }

  lemma OnePlainFailure(a: Session, b: Session, rows: Rows, n: nat, steps: nat)
    requires rows(a.id) == Row(a.key, true, true) && Alone(AfterPlain(a, n), a.id)
    requires Reaches(Boot(1), Occupied(b, AfterPlain(a, n), PastOf(b.id, n)), steps)
    ensures Reaches(Boot(1), Occupied(b, AfterPlain(a, n + 1), PastOf(b.id, n + 1)), steps + 7)
  {
    hide *;
    OneMorePlain(a, b, n);
    PlainFailure(AfterPlain(a, n), PastOf(b.id, n), a, b, rows);
    ReachesOn(Boot(1), Occupied(b, AfterPlain(a, n), PastOf(b.id, n)),
              Occupied(b, AfterPlain(a, n + 1), PastOf(b.id, n + 1)), steps, 7);
  }

  lemma OneMorePlain(a: Session, b: Session, n: nat)
    requires Alone(AfterPlain(a, n), a.id)
    ensures |AfterPlain(a, n).order| == 1
    ensures AfterPlain(a, n + 1) == RecordFailure(PopAt(AfterPlain(a, n), 0), a.id)
    ensures PastOf(b.id, n + 1) == Past(PastOf(b.id, n), b.id)
  {
    hide RecordFailure, PopAt, Enqueue;
  }

  lemma AtFirst(a: Session, b: Session)
    requires a.id != b.id
    ensures Reaches(Boot(1), Occupied(b, AfterPlain(a, 0), PastOf(b.id, 0)), 4)
  {
    hide Enqueue, Reaches, Occupied, Boot;
    RejectedBehind(a, b);
  }

  lemma ThirdFailureIsReached(a: Session, b: Session, rows: Rows) returns (end: Host)
    requires a.id != b.id && rows(a.id) == Row(a.key, true, true)
    ensures Reaches(Boot(1), end, 24) && end.queue == RecordFailure(AfterPlain(a, 2), a.id)
  {
    hide *;
    AfterTwo(a);
    AtFirst(a, b);
    OnePlainFailure(a, b, rows, 0, 4);
    OnePlainFailure(a, b, rows, 1, 11);
    end := FailureAfterRequeue(AfterPlain(a, 2), PastOf(b.id, 2), a, b, rows);
    ReachesOn(Boot(1), Occupied(b, AfterPlain(a, 2), PastOf(b.id, 2)), end, 18, 6);
  }

  /** A run of the host after which a session evicted by its third failed admission is still queued,
      without clock, bucket or budget. Every exit in it comes after that session's wake has settled. */
  lemma EvictionCanLeaveQueued(a: Session, b: Session, rows: Rows) returns (states: seq<Host>, events: seq<Event>)
    requires a.id != b.id && rows(a.id) == Row(a.key, true, true)
    ensures IsRun(states, events) && |events| == 24
    ensures forall i :: 0 <= i < 24 && (events[i].Close? || events[i].SpawnError?) ==> SettledExit(states[i], events[i].c)
    ensures var q := states[24].queue;
      q.order == [a.id] && a.id in q.queued && a.id !in q.keyOf && a.id !in q.since && a.id !in q.fails
  {
    hide *;
    AfterTwo(a);
    var end := ThirdFailureIsReached(a, b, rows);
    states, events := ReachedByRun(Boot(1), end, 24);
    FromBoot(states, events);
  }

  lemma FromBoot(states: seq<Host>, events: seq<Event>)
    requires |states| == |events| + 1 && states[0] == Boot(1)
    requires forall i :: 0 <= i < |events| ==> Enabled(states[i], events[i]) && states[i + 1] == Step(states[i], events[i])
    ensures IsRun(states, events)
  {
    hide Step, Enabled;
  }

  // ---------------------------------------------------------------- admission

  /** A wake of a session that is neither registered nor in flight starts it exactly when registered
      and in-flight sessions together are fewer than the cap, and queues it, at the end unless it
      already stands in the queue, exactly when they are not. */
  lemma WakeStartsIffRoom(h: Host, s: Session, now: int)
    requires HostInv(h) && s.id !in h.active && s.id !in h.wakes
    ensures var h' := Step(h, WakeRequest(s, now));
      if |h.active| + |h.wakes| < h.cap then h' == h.(wakes := h.wakes[s.id := Starting(s.key)])
      else h' == h.(queue := h'.queue) && h'.queue.order == h.queue.order + if s.id in h.queue.order then [] else [s.id]
    ensures Wake(h, s, now).1 == if |h.active| + |h.wakes| < h.cap then Waiting(s.id) else Resolved(s.id, false)
  {
  }

  /** A wake of a session that is registered or in flight changes nothing: it answers true, or joins
      the wake that is under way. */
  lemma WakeJoins(h: Host, s: Session, now: int)
    requires s.id in h.active || s.id in h.wakes
    ensures Step(h, WakeRequest(s, now)) == h
    ensures Wake(h, s, now).1 == if s.id in h.active then Resolved(s.id, true) else Waiting(s.id)
  {
  }

  /** Room is used: over any run a wake request leaves its session queued, registered or in flight,
      newly queued only when the cap was reached and newly in flight only when it was not. */
  lemma NoSlotIsWithheld(states: seq<Host>, events: seq<Event>, n: nat)
    requires IsRun(states, events) && n < |events| && events[n].WakeRequest?
    ensures var h, h', id := states[n], states[n + 1], events[n].s.id;
      && (id in h'.queue.order || id in h'.active || id in h'.wakes)
      && (id in h'.queue.order && id !in h.queue.order ==> |h.active| + |h.wakes| >= h.cap)
      && (id in h'.wakes && id !in h.wakes ==> |h.active| + |h.wakes| < h.cap)
      && (|h.active| + |h.wakes| < h.cap ==> id in h'.active || id in h'.wakes)
  {
    CapHoldsInEveryRun(states, events, n);
    NextState(states, events, n);
    var h, s, now := states[n], events[n].s, events[n].now;
    hide IsRun, Step, HostInv;
    if s.id in h.active || s.id in h.wakes { WakeJoins(h, s, now); } else { WakeStartsIffRoom(h, s, now); }
  }

  // ---------------------------------------------------------------- hand-off

  /** A helper of ShutdownIsFinal: an exit whose hand-off is spent, switched off or unhealthy. */
  lemma QuietExit(h: Host, e: Event)
    requires Enabled(h, e) && (e.Close? || e.SpawnError?)
    requires var c := h.containers[e.c];
      || h.drainDisabled || c.handedOff
      || (e.now - c.spawnedAt < MIN_HEALTHY_LIFETIME_MS &&
          (e.SpawnError? || !e.codeZero || c.session in h.killed))
    ensures var h' := Step(h, e);
      && h'.wakes == h.wakes && h'.queue == h.queue && h'.attempts == h.attempts
      && (h'.containers[e.c].handedOff || h'.drainDisabled)
  {
  }

  lemma DisabledStays(h: Host, e: Event)
    requires Enabled(h, e) && h.drainDisabled
    ensures Step(h, e).drainDisabled
  {
    hide DrainSlot, RecordSuccess, RecordFailure, Enqueue;
  }

  /** After shutdown began, no exit in any run ever admits a queued session. */
  lemma {:induction false} ShutdownIsFinal(states: seq<Host>, events: seq<Event>, n: nat, m: nat)
    requires IsRun(states, events) && n <= m < |events| && states[n].drainDisabled
    ensures states[m].drainDisabled
    ensures events[m].Close? || events[m].SpawnError? ==>
      states[m + 1].wakes == states[m].wakes && states[m + 1].queue == states[m].queue
    decreases m
  {
    hide Step;
    if n < m {
      ShutdownIsFinal(states, events, n, m - 1);
      DisabledStays(states[m - 1], events[m - 1]);
    }
    if events[m].Close? || events[m].SpawnError? { QuietExit(states[m], events[m]); }
  }

  /** A hand-off wakes one session at most, and the one that filter-then-pick names; that wake is
      admitted, joined, or re-queued. */
  lemma HandOffAdmitsOne(h: Host, rows: Rows, now: int)
    requires HostInv(h)
    ensures FilterThenPick(h.queue, ProbesOf(h.active, rows), LoadOf(h.active), Drained(h, rows).0, Drained(h, rows).1)
    ensures AdmitsOne(h, DrainSlot(h, rows, now), Drained(h, rows).1)
  {
    hide Drain, WakePick, Subsequence, Before;
    DrainIsFilterThenPick(h.queue, ProbesOf(h.active, rows), LoadOf(h.active));
    DrainKeepsInv(h.queue, ProbesOf(h.active, rows), LoadOf(h.active));
    var (q, pick) := Drained(h, rows);
    PickedIsNotRunning(h, rows, q, pick);
    WakePickAdmitsOne(h.(queue := q), pick, rows, now);
  }

  /** Some queued session is live, has due work, and is not registered once `gone` has left. */
  ghost predicate SomebodyWaits(h: Host, rows: Rows, gone: SessionId) {
    exists i :: 0 <= i < |h.queue.order| && WantsASlot(h, rows, gone, h.queue.order[i])
  }

  predicate WantsASlot(h: Host, rows: Rows, gone: SessionId, id: SessionId) {
    rows(id).Row? && rows(id).active && rows(id).dueWork && (id !in h.active || id == gone)
  }

  /** An exit that may hand its slot on: the first of its container, before shutdown, of a clean run
      nobody killed or of one that lived ten seconds. */
  predicate HandsOn(h: Host, e: Event)
    requires Enabled(h, e) && (e.Close? || e.SpawnError?)
  {
    var c := h.containers[e.c];
    && !c.handedOff && !h.drainDisabled
    && ((e.Close? && e.codeZero && c.session !in h.killed) || e.now - c.spawnedAt >= 10000)
  }

  /** A freed slot is offered exactly when somebody wants it: the exit makes one attempt if it hands
      on and a queued session can take the slot, and otherwise none. */
  lemma SlotIsOfferedIff(h: Host, e: Event)
    requires HostInv(h) && Enabled(h, e) && (e.Close? || e.SpawnError?)
    ensures |Step(h, e).attempts| ==
      |h.attempts| + if HandsOn(h, e) && SomebodyWaits(h, e.rows, h.containers[e.c].session) then 1 else 0
  {
    ExitStep(h, e);
    if HandsOn(h, e) {
      ReleaseKeepsInv(h, e.c);
      var d := HandingOn(h, e.c);
      MarkedKeepsInv(h, e.c);
      HandOffAdmitsOne(d, e.rows, e.now);
      PickedIffWanted(h, e.rows, d, e.c);
      hide DrainSlot, Drained, HostInv, Step, FilterThenPick, SomebodyWaits, HandsOn, Enabled;
    } else {
      hide DrainSlot, HostInv, SomebodyWaits, Step, HandsOn, Enabled;
    }
  }

  /** The host in which the released slot is handed on. */
  function HandingOn(h: Host, c: nat): Host
    requires c < |h.containers|
  {
    var r := Release(h, c);
    r.(containers := r.containers[c := r.containers[c].(handedOff := true)])
  }

  lemma MarkedKeepsInv(h: Host, c: nat)
    requires c < |h.containers| && HostInv(Release(h, c))
    ensures HostInv(HandingOn(h, c))
  {
    hide CapInv, FreshInv, WaitInv, Inv;
  }

  lemma ExitStep(h: Host, e: Event)
    requires Enabled(h, e) && (e.Close? || e.SpawnError?)
    ensures HandsOn(h, e) ==> Step(h, e) == DrainSlot(HandingOn(h, e.c), e.rows, e.now)
    ensures !HandsOn(h, e) ==> Step(h, e).attempts == h.attempts
  {
    hide DrainSlot;
  }

  /** The same containers, or more: each keeps the session and the time it was registered with. */
  ghost predicate KeepsOrigins(old': seq<Container>, new': seq<Container>) {
    |old'| <= |new'| &&
    forall c :: 0 <= c < |old'| ==> new'[c].spawnedAt == old'[c].spawnedAt && new'[c].session == old'[c].session
  }

  lemma HandOffKeepsOrigins(h: Host, c: nat, outcome: Outcome, rows: Rows, now: int)
    requires c < |h.containers|
    ensures KeepsOrigins(h.containers, HandOff(h, c, outcome, rows, now).containers)
  {
    hide Drained, SessionOf, Enqueue;
  }

  lemma StepKeepsOrigins(h: Host, e: Event)
    requires Enabled(h, e)
    ensures KeepsOrigins(h.containers, Step(h, e).containers)
  {
    hide Enqueue, RecordSuccess, RecordFailure, Resolve, HandOff;
    match e
    case Close(c, codeZero, rows, now) => HandOffKeepsOrigins(Release(h, c), c, OutcomeOf(h, c, codeZero), rows, now);
    case SpawnError(c, rows, now) => HandOffKeepsOrigins(Release(h, c), c, Crash, rows, now);
    case _ =>
  }

  predicate HasOrigin(h: Host, c: nat, id: SessionId, at: int) {
    c < |h.containers| && h.containers[c].session == id && h.containers[c].spawnedAt == at
  }

  lemma KeepsOrigin(h: Host, h': Host, c: nat, id: SessionId, at: int)
    requires HasOrigin(h, c, id, at) && KeepsOrigins(h.containers, h'.containers)
    ensures HasOrigin(h', c, id, at)
  {
  }

  lemma RegisterSetsOrigin(h: Host, e: Event)
    requires Enabled(h, e) && e.Register?
    ensures HasOrigin(Step(h, e), |h.containers|, e.id, e.now)
  {
  }

  /** The ten seconds count from the registration: a container keeps the session and the time it was
      registered with. */
  lemma {:induction false} LifetimeCountsFromRegistration(states: seq<Host>, events: seq<Event>, i: nat, n: nat)
    requires IsRun(states, events) && i < n < |states| && n <= |events| && events[i].Register?
    ensures HasOrigin(states[n], |states[i].containers|, events[i].id, events[i].now)
    decreases n
  {
    hide *;
    NextState(states, events, n - 1);
    if i < n - 1 {
      LifetimeCountsFromRegistration(states, events, i, n - 1);
      StepKeepsOrigins(states[n - 1], events[n - 1]);
      KeepsOrigin(states[n - 1], states[n], |states[i].containers|, events[i].id, events[i].now);
    } else {
      RegisterSetsOrigin(states[i], events[i]);
    }
  }

  /** What a wake answers everyone who waits for it: the outcome its spawn left. */
  lemma SettleAnswersWaiters(h: Host, id: SessionId)
    requires Enabled(h, Settle(id))
    ensures var h' := Step(h, Settle(id));
      && |h'.attempts| == |h.attempts| && h'.wakes == h.wakes - {id}
      && forall i :: 0 <= i < |h.attempts| ==>
           h'.attempts[i] == if h.attempts[i] == Waiting(id) then Resolved(id, h.wakes[id].ok) else h.attempts[i]
  {
  }

  /** And that outcome: true for a container marked running or a group that is gone, else false. */
  lemma SpawnOutcome(h: Host, e: Event)
    requires Enabled(h, e) && (e.Register? || e.SpawnFails? || e.GroupMissing?)
    ensures Step(h, e).wakes == h.wakes[e.id := Done(if e.Register? then e.marked else e.GroupMissing?)]
  {
  }

  /** The step is an exit of a container of the session. */
  predicate ExitsOf(h: Host, e: Event, id: SessionId)
    requires Enabled(h, e)
  {
    (e.Close? || e.SpawnError?) && h.containers[e.c].session == id
  }

  lemma StepKeepsKilled(h: Host, e: Event, id: SessionId)
    requires Enabled(h, e) && id in h.killed && !ExitsOf(h, e, id)
    ensures id in Step(h, e).killed
  {
    hide Enqueue, RecordSuccess, RecordFailure, HandOff, Resolve;
    match e
    case Close(c, codeZero, rows, now) => HandOffKeepsKilled(Release(h, c), c, OutcomeOf(h, c, codeZero), rows, now);
    case SpawnError(c, rows, now) => HandOffKeepsKilled(Release(h, c), c, Crash, rows, now);
    case _ =>
  }

  lemma HandOffKeepsKilled(h: Host, c: nat, outcome: Outcome, rows: Rows, now: int)
    requires c < |h.containers|
    ensures HandOff(h, c, outcome, rows, now).killed == h.killed
  {
    hide Drained, SessionOf, Enqueue;
  }

  /** A session that was killed, or registered when shutdown began. */
  predicate MarksKilled(h: Host, e: Event, id: SessionId) {
    id in h.active && (e == Kill(id) || e == Shutdown)
  }

  lemma {:induction false} KilledUntilExit(states: seq<Host>, events: seq<Event>, i: nat, n: nat, id: SessionId)
    requires IsRun(states, events) && i < n < |states| && n <= |events| && MarksKilled(states[i], events[i], id)
    requires forall j :: i < j < n ==> Enabled(states[j], events[j]) && !ExitsOf(states[j], events[j], id)
    ensures id in states[n].killed
    decreases n
  {
    hide IsRun, Step, Enabled, ExitsOf, MarksKilled;
    NextState(states, events, n - 1);
    if i < n - 1 {
      KilledUntilExit(states, events, i, n - 1, id);
      StepKeepsKilled(states[n - 1], events[n - 1], id);
    } else {
      MarkIsKept(states[i], events[i], id);
    }
  }

  lemma MarkIsKept(h: Host, e: Event, id: SessionId)
    requires Enabled(h, e) && MarksKilled(h, e, id)
    ensures id in Step(h, e).killed
  {
  }

  /** The exit of a killed session never counts as a clean run: it hands its slot on only after the
      ten seconds. */
  lemma KilledExitIsNotClean(states: seq<Host>, events: seq<Event>, i: nat, n: nat, id: SessionId)
    requires IsRun(states, events) && i < n < |events| && MarksKilled(states[i], events[i], id)
    requires forall j :: i < j < n ==> Enabled(states[j], events[j]) && !ExitsOf(states[j], events[j], id)
    requires Enabled(states[n], events[n]) && ExitsOf(states[n], events[n], id)
    ensures HandsOn(states[n], events[n]) ==> events[n].now - states[n].containers[events[n].c].spawnedAt >= 10000
  {
    NextState(states, events, n);
    hide IsRun, Step;
    KilledUntilExit(states, events, i, n, id);
  }

  lemma PickedIffWanted(h: Host, rows: Rows, d: Host, c: nat)
    requires c < |h.containers| && d.active == Release(h, c).active && d.queue == h.queue
    requires FilterThenPick(d.queue, ProbesOf(d.active, rows), LoadOf(d.active), Drained(d, rows).0, Drained(d, rows).1)
    ensures Drained(d, rows).1.Some? <==> SomebodyWaits(h, rows, h.containers[c].session)
  {
    var gone, probe := h.containers[c].session, ProbesOf(d.active, rows);
    forall id ensures Eligible(probe(id)) <==> WantsASlot(h, rows, gone, id) {
    }
    hide Drain, Drained, Subsequence, Before, WantsASlot;
    if Drained(d, rows).1.Some? {
      var p: nat :| Picks(d.queue, probe, LoadOf(d.active), Drained(d, rows).0, Drained(d, rows).1.value, p);
      assert WantsASlot(h, rows, gone, h.queue.order[p]);
    }
  }

  lemma PickedIsNotRunning(h: Host, rows: Rows, q: QueueState, pick: Option<SessionId>)
    requires FilterThenPick(h.queue, ProbesOf(h.active, rows), LoadOf(h.active), q, pick)
    ensures pick.Some? ==> pick.value !in h.active
  {
    if pick.Some? {
      var p :| Picks(h.queue, ProbesOf(h.active, rows), LoadOf(h.active), q, pick.value, p);
    }
  }

  ghost predicate AdmitsOne(h: Host, h': Host, pick: Option<SessionId>) {
    match pick
    case None => h'.attempts == h.attempts && h'.wakes == h.wakes
    case Some(id) =>
      && |h'.attempts| == |h.attempts| + 1 && h'.attempts[|h.attempts|].id == id
      && (match h'.attempts[|h.attempts|]
          case Waiting(_) => h'.wakes.Keys == h.wakes.Keys + {id}
          case Resolved(_, ok) => h'.wakes == h.wakes && !ok && id in h'.queue.order)
  }

  lemma EnqueueQueues(q: QueueState, id: SessionId, key: Key, now: int)
    requires Inv(q)
    ensures id in Enqueue(q, id, key, now).order
  {
  }

  /** The wake of a session without a container: joined or started, or rejected and queued. */
  lemma WakeAnswers(h: Host, s: Session, now: int)
    requires Inv(h.queue) && s.id !in h.active
    ensures var (h', attempt) := Wake(h, s, now);
      && attempt.id == s.id && h'.attempts == h.attempts
      && (attempt.Waiting? ==> h'.wakes.Keys == h.wakes.Keys + {s.id})
      && (attempt.Resolved? ==> h'.wakes == h.wakes && !attempt.ok && s.id in h'.queue.order)
  {
    hide Enqueue, Inv, ShouldAdmitWake;
    EnqueueQueues(h.queue, s.id, s.key, now);
    var wakes' := h.wakes[s.id := Starting(s.key)];
    assert wakes'.Keys == h.wakes.Keys + {s.id};
    assert s.id in h.wakes ==> h.wakes.Keys == h.wakes.Keys + {s.id};
  }

  lemma WakePickAdmitsOne(h: Host, pick: Option<SessionId>, rows: Rows, now: int)
    requires Inv(h.queue) && (pick.Some? ==> pick.value !in h.active)
    ensures AdmitsOne(h, WakePick(h, pick, rows, now), pick)
  {
    if pick.Some? {
      var s := SessionOf(rows, pick.value);
      assert s.id == pick.value by { hide SessionFairnessKey; }
      WakeAnswers(h, s, now);
      hide SessionOf, Wake, Inv;
    }
  }

  lemma HoldersAfterInsert(active: map<SessionId, Entry>, id: SessionId, e: Entry, key: Key)
    requires id !in active
    ensures SlotsHeldBy(active[id := e], key) == SlotsHeldBy(active, key) + if e.key == key then 1 else 0
  {
    var active' := active[id := e];
    var held, held' := Holders(active, active.Keys, key), Holders(active', active'.Keys, key);
    assert held' == if e.key == key then held + {id} else held;
  }

  /** Registering a session raises its own bucket by one and no other. */
  lemma RegisterBumpsOneBucket(h: Host, id: SessionId, now: int, marked: bool, key: Key)
    requires FreshInv(h.active, h.wakes) && Enabled(h, Register(id, now, marked))
    ensures SlotsHeldBy(RegisterContainer(h, id, now, marked).active, key)
         == SlotsHeldBy(h.active, key) + if key == h.wakes[id].key then 1 else 0
  {
    hide SlotsHeldBy;
    HoldersAfterInsert(h.active, id, Entry(|h.containers|, h.wakes[id].key), key);
  }

  /** A release lowers the bucket of the session's slot by one, if it holds one, and no other. */
  lemma ReleaseLowersOneBucket(h: Host, c: nat, key: Key)
    requires c < |h.containers|
    ensures var id := h.containers[c].session;
      SlotsHeldBy(Release(h, c).active, key)
      == SlotsHeldBy(h.active, key) - if id in h.active && h.active[id].key == key then 1 else 0
  {
    var id, left := h.containers[c].session, Release(h, c).active;
    var held, held' := Holders(h.active, h.active.Keys, key), Holders(left, left.Keys, key);
    assert held' == held - {id};
  }

  predicate Present(x: Option<string>) {
    x.Some? && x.value != ""
  }

  /** Buckets of different kinds never collide, and one kind has one bucket per id. */
  lemma BucketsAreDistinct(id1: SessionId, o1: Option<string>, g1: Option<string>,
                           id2: SessionId, o2: Option<string>, g2: Option<string>)
    ensures SessionFairnessKey(id1, o1, g1) == SessionFairnessKey(id2, o2, g2) <==>
      if Present(o1) || Present(o2) then Present(o1) && o1 == o2
      else if Present(g1) || Present(g2) then Present(g1) && g1 == g2
      else id1 == id2
  {
    var k1, k2 := SessionFairnessKey(id1, o1, g1).text, SessionFairnessKey(id2, o2, g2).text;
    assert k1[0] == 'u' ==> k1[5..] == o1.value;
    assert k2[0] == 'u' ==> k2[5..] == o2.value;
    assert k1[0] == 'g' ==> k1[6..] == g1.value;
    assert k2[0] == 'g' ==> k2[6..] == g2.value;
    assert k1[0] == 's' ==> k1[8..] == id1.text;
    assert k2[0] == 's' ==> k2[8..] == id2.text;
  }

  // ---------------------------------------------------------------- the runner object

  /** The module state of the source, with the queue it owns and the closures' own state. */
  class ContainerRunner {
    const cap: nat
    const queue: Queue
    var activeContainers: map<SessionId, Entry>
    var wakePromises: map<SessionId, Spawn>
    var spawned: seq<Container>
    var admissionDrainDisabled: bool
    var recentlyKilled: set<SessionId>
    var attempts: seq<Attempt>

    ghost function State(): Host
      reads this, queue
    {
      Host(cap, activeContainers, wakePromises, spawned, admissionDrainDisabled, recentlyKilled, queue.State(), attempts)
    }

    constructor (cap: nat)
      ensures State() == Boot(cap) && fresh(queue)
    {
      this.cap := cap;
      queue := new Queue();
      activeContainers, wakePromises, spawned := map[], map[], [];
      admissionDrainDisabled, recentlyKilled, attempts := false, {}, [];
    }

    method WakeContainer(s: Session, now: int) returns (answer: Attempt)
      modifies this, queue
      ensures (State(), answer) == Wake(old(State()), s, now)
    {
      if s.id in activeContainers { return Resolved(s.id, true); }
      if s.id in wakePromises { return Waiting(s.id); }
      if |activeContainers| + |wakePromises| >= cap {
        queue.EnqueueAdmission(s.id, s.key, now);
        return Resolved(s.id, false);
      }
      wakePromises := wakePromises[s.id := Starting(s.key)];
      answer := Waiting(s.id);
    }

    /** The spawn reaches its registration; its promise chain then answers whether it was marked running. */
    method OnSpawned(id: SessionId, now: int, marked: bool)
      requires Enabled(State(), Register(id, now, marked))
      modifies this
      ensures State() == Step(old(State()), Register(id, now, marked))
    {
      activeContainers := activeContainers[id := Entry(|spawned|, wakePromises[id].key)];
      spawned := spawned + [Container(id, now, false, true, marked)];
      wakePromises := wakePromises[id := Done(marked)];
    }

    method OnWakeSettled(id: SessionId)
      requires Enabled(State(), Settle(id))
      modifies this
      ensures State() == Step(old(State()), Settle(id))
    {
      attempts := Resolve(attempts, id, wakePromises[id].ok);
      wakePromises := wakePromises - {id};
    }

    method ReleaseContainer(c: nat)
      requires c < |spawned|
      modifies this
      ensures State() == Release(old(State()), c)
    {
      recentlyKilled := recentlyKilled - {spawned[c].session};
      activeContainers := activeContainers - {spawned[c].session};
      spawned := spawned[c := spawned[c].(alive := false)];
    }

    method HandOffSlot(c: nat, outcome: Outcome, rows: Rows, now: int)
      requires c < |spawned|
      modifies this, queue
      ensures State() == HandOff(old(State()), c, outcome, rows, now)
    {
      if spawned[c].handedOff || admissionDrainDisabled { return; }
      spawned := spawned[c := spawned[c].(handedOff := true)];
      if outcome == Idle || now - spawned[c].spawnedAt >= MIN_HEALTHY_LIFETIME_MS {
        var pick := queue.DrainAdmissionSlot(ProbesOf(activeContainers, rows), LoadOf(activeContainers));
        if pick.Some? {
          var attempt := WakeContainer(SessionOf(rows, pick.value), now);
          attempts := attempts + [attempt];
        }
      }
    }

    method OnClose(c: nat, codeZero: bool, rows: Rows, now: int)
      requires c < |spawned| && spawned[c].watched
      modifies this, queue
      ensures State() == Step(old(State()), Close(c, codeZero, rows, now))
    {
      hide HandOff;
      var outcome := if spawned[c].session in recentlyKilled then Killed else if codeZero then Idle else Crash;
      ReleaseContainer(c);
      HandOffSlot(c, outcome, rows, now);
    }

    method OnError(c: nat, rows: Rows, now: int)
      requires c < |spawned| && spawned[c].watched
      modifies this, queue
      ensures State() == Step(old(State()), SpawnError(c, rows, now))
    {
      ReleaseContainer(c);
      HandOffSlot(c, Crash, rows, now);
    }

    method StopAllContainers()
      modifies this
      ensures State() == Step(old(State()), Shutdown)
    {
      admissionDrainDisabled := true;
      recentlyKilled := recentlyKilled + activeContainers.Keys;
    }

    method OnAttemptSettled(i: nat)
      requires Enabled(State(), AttemptSettles(i))
      modifies this, queue
      ensures State() == Step(old(State()), AttemptSettles(i))
    {
      queue.OnWakeSettled(attempts[i].id, attempts[i].ok);
      attempts := attempts[..i] + attempts[i + 1..];
    }
  }
}
