/** The fairness bounds of AdmissionFairness over runs of the host: each step of the host is at most
    two moves of its book (src/container-runner.ts:223-278, 347-395, 467-534). */
module HostFairness {
  import opened AdmissionQueue
  import opened AdmissionFairness
  import opened ContainerHost
  import opened Wrappers

  function StartingIds(wakes: map<SessionId, Spawn>, key: Key): set<SessionId> {
    set id | id in wakes && wakes[id].Starting? && wakes[id].key == key
  }

  /** Registered slots and spawns in flight, per bucket. */
  function BookOf(h: Host): Book {
    Book(LoadOf(h.active), key => |StartingIds(h.wakes, key)|)
  }

  // ---------------------------------------------------------------- what changes in the maps

  lemma OneMore<T>(a: set<T>, b: set<T>, x: T)
    requires x !in a && b == a + {x}
    ensures |b| == |a| + 1
  {
  }

  lemma StartCounts(wakes: map<SessionId, Spawn>, id: SessionId, key: Key, k: Key)
    requires id !in wakes
    ensures |StartingIds(wakes[id := Starting(key)], k)| == |StartingIds(wakes, k)| + if k == key then 1 else 0
  {
    var a, b := StartingIds(wakes, k), StartingIds(wakes[id := Starting(key)], k);
    if k == key { OneMore(a, b, id); } else { assert a == b; }
  }

  lemma StartEnds(wakes: map<SessionId, Spawn>, id: SessionId, ok: bool, k: Key)
    requires id in wakes && wakes[id].Starting?
    ensures |StartingIds(wakes[id := Done(ok)], k)| == |StartingIds(wakes, k)| - if k == wakes[id].key then 1 else 0
  {
    var a, b := StartingIds(wakes[id := Done(ok)], k), StartingIds(wakes, k);
    if k == wakes[id].key { OneMore(a, b, id); } else { assert a == b; }
  }

  lemma DoneCountsNothing(wakes: map<SessionId, Spawn>, id: SessionId, k: Key)
    requires id in wakes && wakes[id].Done?
    ensures StartingIds(wakes - {id}, k) == StartingIds(wakes, k)
  {
  }

  // ---------------------------------------------------------------- the moves of a step

  predicate IsExit(e: Event) {
    e.Close? || e.SpawnError?
  }

  function ExitOutcome(h: Host, e: Event): Outcome
    requires IsExit(e) && e.c < |h.containers|
  {
    if e.Close? then OutcomeOf(h, e.c, e.codeZero) else Crash
  }

  /** The host an exit hands its slot on in, or None when it does not. */
  function Drains(h: Host, e: Event): Option<Host>
    requires IsExit(e) && e.c < |h.containers|
  {
    var r := Release(h, e.c);
    if r.containers[e.c].handedOff || r.drainDisabled then None
    else if ExitOutcome(h, e) == Idle || e.now - r.containers[e.c].spawnedAt >= MIN_HEALTHY_LIFETIME_MS
    then Some(r.(containers := r.containers[e.c := r.containers[e.c].(handedOff := true)]))
    else None
  }

  predicate CanStart(h: Host, s: Session) {
    s.id !in h.active && s.id !in h.wakes && ShouldAdmitWake(|h.active|, |h.wakes|, h.cap)
  }

  function FirstMove(h: Host, e: Event): Move
    requires Enabled(h, e)
  {
    match e
    case WakeRequest(s, _) => if CanStart(h, s) then Starts(s.key) else Other
    case Register(id, _, _) => Lands(h.wakes[id].key)
    case SpawnFails(id) => Fails(h.wakes[id].key)
    case GroupMissing(id) => Fails(h.wakes[id].key)
    case Close(c, _, _, _) => LeaveOf(h, h.containers[c].session)
    case SpawnError(c, _, _) => LeaveOf(h, h.containers[c].session)
    case _ => Other
  }

  function LeaveOf(h: Host, id: SessionId): Move {
    if id in h.active then Leaves(h.active[id].key) else Other
  }

  /** The buckets of the queued sessions a drain may wake. */
  function EligibleBuckets(h: Host, rows: Rows): set<Key> {
    set i | 0 <= i < |h.queue.order| && Eligible(ProbeOf(h.active, rows, h.queue.order[i])) :: SessionOf(rows, h.queue.order[i]).key
  }

  /** The move of waking the picked session. */
  function PickMove(h: Host, pick: Option<SessionId>, rows: Rows, among: set<Key>): Move {
    if pick.Some? && CanStart(h, SessionOf(rows, pick.value)) then Picked(SessionOf(rows, pick.value).key, among) else Other
  }

  /** After an exit: the queued session a drain starts, if any. */
  function SecondMove(h: Host, e: Event): Move
    requires Enabled(h, e)
  {
    if !IsExit(e) || Drains(h, e).None? then Other
    else
      var d := Drains(h, e).value;
      PickMove(d, Drained(d, e.rows).1, e.rows, EligibleBuckets(d, e.rows))
  }

  /** The book between the two moves. */
  function Between(h: Host, e: Event): Book
    requires Enabled(h, e)
  {
    if IsExit(e) then BookOf(Release(h, e.c)) else BookOf(Step(h, e))
  }

  /** A queued session that a drain may wake is still in the bucket it was queued under. */
  ghost predicate RowsStand(q: QueueState, rows: Rows) {
    forall id :: id in q.order && rows(id).Row? ==> id in q.keyOf && q.keyOf[id] == rows(id).key
  }

  ghost predicate BucketsStand(h: Host, e: Event) {
    IsExit(e) ==> RowsStand(h.queue, e.rows)
  }

  lemma WakeMoves(h: Host, s: Session, now: int)
    ensures Moves(BookOf(h), FirstMove(h, WakeRequest(s, now)), BookOf(Wake(h, s, now).0))
  {
    hide Enqueue, SlotsHeldBy, StartingIds;
    if CanStart(h, s) {
      forall k ensures |StartingIds(h.wakes[s.id := Starting(s.key)], k)| == |StartingIds(h.wakes, k)| + if k == s.key then 1 else 0 {
        StartCounts(h.wakes, s.id, s.key, k);
      }
    }
  }

  lemma RegisterMoves(h: Host, id: SessionId, now: int, marked: bool)
    requires FreshInv(h.active, h.wakes) && Enabled(h, Register(id, now, marked))
    ensures Moves(BookOf(h), Lands(h.wakes[id].key), BookOf(RegisterContainer(h, id, now, marked)))
  {
    var h' := RegisterContainer(h, id, now, marked);
    forall k
      ensures SlotsHeldBy(h'.active, k) == SlotsHeldBy(h.active, k) + if k == h.wakes[id].key then 1 else 0
      ensures |StartingIds(h'.wakes, k)| == |StartingIds(h.wakes, k)| - if k == h.wakes[id].key then 1 else 0
    {
      RegisterBumpsOneBucket(h, id, now, marked, k);
      StartEnds(h.wakes, id, marked, k);
    }
    hide SlotsHeldBy, StartingIds, RegisterContainer;
  }

  lemma SpawnEndMoves(h: Host, id: SessionId, ok: bool)
    requires id in h.wakes && h.wakes[id].Starting?
    ensures Moves(BookOf(h), Fails(h.wakes[id].key), BookOf(h.(wakes := h.wakes[id := Done(ok)])))
  {
    forall k ensures |StartingIds(h.wakes[id := Done(ok)], k)| == |StartingIds(h.wakes, k)| - if k == h.wakes[id].key then 1 else 0 {
      StartEnds(h.wakes, id, ok, k);
    }
    hide SlotsHeldBy, StartingIds;
  }

  lemma SettleMoves(h: Host, id: SessionId)
    requires Enabled(h, Settle(id))
    ensures Moves(BookOf(h), Other, BookOf(SettleWake(h, id)))
  {
    forall k ensures StartingIds(h.wakes - {id}, k) == StartingIds(h.wakes, k) { DoneCountsNothing(h.wakes, id, k); }
    hide SlotsHeldBy, StartingIds;
  }

  lemma ReleaseMoves(h: Host, c: nat)
    requires c < |h.containers|
    ensures Moves(BookOf(h), LeaveOf(h, h.containers[c].session), BookOf(Release(h, c)))
  {
    forall k
      ensures var id := h.containers[c].session;
        SlotsHeldBy(Release(h, c).active, k) == SlotsHeldBy(h.active, k) - if id in h.active && h.active[id].key == k then 1 else 0
    {
      ReleaseLowersOneBucket(h, c, k);
    }
    assert Release(h, c).wakes == h.wakes;
    hide SlotsHeldBy, StartingIds, Release;
  }

  /** Every step's first move, whatever the host is doing. */
  lemma FirstMoves(h: Host, e: Event)
    requires FreshInv(h.active, h.wakes) && Enabled(h, e)
    ensures Moves(BookOf(h), FirstMove(h, e), Between(h, e))
  {
    hide Moves, BookOf, Wake, RegisterContainer, SettleWake, Release, LeaveOf;
    match e
    case WakeRequest(s, now) => WakeMoves(h, s, now);
    case Register(id, now, marked) => RegisterMoves(h, id, now, marked);
    case SpawnFails(id) => SpawnEndMoves(h, id, false);
    case GroupMissing(id) => SpawnEndMoves(h, id, true);
    case Settle(id) => SettleMoves(h, id);
    case Close(c, _, _, _) => ReleaseMoves(h, c);
    case SpawnError(c, _, _) => ReleaseMoves(h, c);
    case _ => QuietMoves(h, e);
  }

  lemma QuietMoves(h: Host, e: Event)
    requires Enabled(h, e) && (e.Kill? || e.Shutdown? || e.AttemptSettles?)
    ensures Moves(BookOf(h), Other, BookOf(Step(h, e)))
  {
    hide SlotsHeldBy, StartingIds, RecordSuccess, RecordFailure;
  }

  // ---------------------------------------------------------------- the drain's move

  lemma EligibleHolds(q: QueueState, active: map<SessionId, Entry>, rows: Rows, id: SessionId)
    requires RowsStand(q, rows) && id in q.order && Eligible(ProbeOf(active, rows, id))
    ensures Held(q.keyOf, LoadOf(active), id) == LoadOf(active)(SessionOf(rows, id).key)
  {
    hide SlotsHeldBy;
  }

  lemma PickHoldsLeast(h: Host, rows: Rows, p: nat, i: nat)
    requires RowsStand(h.queue, rows) && FilteredPick(h.queue, ProbesOf(h.active, rows), LoadOf(h.active), p)
    requires i < |h.queue.order| && Eligible(ProbeOf(h.active, rows, h.queue.order[i]))
    ensures LoadOf(h.active)(SessionOf(rows, h.queue.order[p]).key) <= LoadOf(h.active)(SessionOf(rows, h.queue.order[i]).key)
  {
    var order, load := h.queue.order, LoadOf(h.active);
    assert Eligible(ProbesOf(h.active, rows)(order[p])) && Eligible(ProbesOf(h.active, rows)(order[i]));
    assert i != p ==> Before(h.queue, load, p, i);
    assert i == p || Held(h.queue.keyOf, load, order[p]) <= Held(h.queue.keyOf, load, order[i]);
    EligibleHolds(h.queue, h.active, rows, order[p]);
    EligibleHolds(h.queue, h.active, rows, order[i]);
    hide *;
  }

  /** The bucket a drain picks holds no more slots than any other it could have picked from. */
  lemma PickIsLeast(h: Host, rows: Rows, q: QueueState, id: SessionId, p: nat)
    requires RowsStand(h.queue, rows) && Picks(h.queue, ProbesOf(h.active, rows), LoadOf(h.active), q, id, p)
    ensures Least(SessionOf(rows, id).key, EligibleBuckets(h, rows), LoadOf(h.active))
  {
    assert FilteredPick(h.queue, ProbesOf(h.active, rows), LoadOf(h.active), p);
    assert Eligible(ProbeOf(h.active, rows, h.queue.order[p])) && h.queue.order[p] == id;
    hide Picks, FilteredPick, SessionOf, ProbeOf, SlotsHeldBy, Eligible, RowsStand;
    forall i: nat | i < |h.queue.order| && Eligible(ProbeOf(h.active, rows, h.queue.order[i]))
      ensures LoadOf(h.active)(SessionOf(rows, id).key) <= LoadOf(h.active)(SessionOf(rows, h.queue.order[i]).key)
    {
      PickHoldsLeast(h, rows, p, i);
    }
  }

  lemma WakePickMoves(h: Host, pick: Option<SessionId>, rows: Rows, now: int, among: set<Key>)
    requires pick.Some? ==> Least(SessionOf(rows, pick.value).key, among, LoadOf(h.active))
    ensures Moves(BookOf(h), PickMove(h, pick, rows, among), BookOf(WakePick(h, pick, rows, now)))
  {
    if pick.Some? {
      var s := SessionOf(rows, pick.value);
      hide SessionOf, SlotsHeldBy, StartingIds, Enqueue, Least;
      if CanStart(h, s) {
        forall k ensures |StartingIds(h.wakes[s.id := Starting(s.key)], k)| == |StartingIds(h.wakes, k)| + if k == s.key then 1 else 0 {
          StartCounts(h.wakes, s.id, s.key, k);
        }
      }
    }
  }

  lemma DrainedIsLeast(h: Host, rows: Rows)
    requires Inv(h.queue) && RowsStand(h.queue, rows)
    ensures var pick := Drained(h, rows).1;
      pick.Some? ==> Least(SessionOf(rows, pick.value).key, EligibleBuckets(h, rows), LoadOf(h.active))
  {
    var (q, pick) := Drained(h, rows);
    DrainIsFilterThenPick(h.queue, ProbesOf(h.active, rows), LoadOf(h.active));
    hide Drain, Least, EligibleBuckets, Picks, SlotsHeldBy, SessionOf, Inv, RowsStand, Subsequence;
    if pick.Some? {
      var p :| Picks(h.queue, ProbesOf(h.active, rows), LoadOf(h.active), q, pick.value, p);
      PickIsLeast(h, rows, q, pick.value, p);
    }
  }

  lemma DrainMoves(h: Host, rows: Rows, now: int)
    requires Inv(h.queue) && RowsStand(h.queue, rows)
    ensures Moves(BookOf(h), PickMove(h, Drained(h, rows).1, rows, EligibleBuckets(h, rows)),
                  BookOf(ContainerHost.DrainSlot(h, rows, now)))
  {
    var (q, pick) := Drained(h, rows);
    DrainedIsLeast(h, rows);
    hide Drained, Moves, WakePick, Least, EligibleBuckets, SlotsHeldBy, StartingIds, SessionOf, Inv, RowsStand;
    WakePickMoves(h.(queue := q), pick, rows, now, EligibleBuckets(h, rows));
  }

  lemma ExitDrains(h: Host, e: Event)
    requires Enabled(h, e) && IsExit(e)
    ensures match Drains(h, e)
      case Some(d) => d.active == Release(h, e.c).active && d.wakes == h.wakes && d.queue == h.queue &&
        Step(h, e) == ContainerHost.DrainSlot(d, e.rows, e.now)
      case None => Step(h, e).active == Release(h, e.c).active && Step(h, e).wakes == h.wakes
  {
    hide ContainerHost.DrainSlot;
  }

  lemma SameMaps(h: Host, h': Host)
    requires h.active == h'.active && h.wakes == h'.wakes
    ensures BookOf(h) == BookOf(h') && Moves(BookOf(h), Other, BookOf(h'))
  {
    hide SlotsHeldBy, StartingIds;
  }

  lemma SecondMoves(h: Host, e: Event)
    requires Inv(h.queue) && Enabled(h, e) && BucketsStand(h, e)
    ensures Moves(Between(h, e), SecondMove(h, e), BookOf(Step(h, e)))
  {
    if IsExit(e) {
      ExitDrains(h, e);
      var r := Release(h, e.c);
      assert r.wakes == h.wakes;
      hide Moves, Drains, BookOf, Drained, Step, Release, Enabled, EligibleBuckets, SessionOf, CanStart, RowsStand;
      match Drains(h, e)
      case Some(d) =>
        DrainMoves(d, e.rows, e.now);
        SameMaps(r, d);
      case None =>
        SameMaps(r, Step(h, e));
    } else {
      SameMaps(Step(h, e), Step(h, e));
      hide Moves, BookOf, Step, Enabled;
    }
  }

  // ---------------------------------------------------------------- over runs of the host

  /** What steps m to n add to a bucket's lead: slots the waiting bucket gives back, and wakes of the
      other that start without the queue. */
  ghost function HostExcuses(states: seq<Host>, events: seq<Event>, m: nat, n: nat, waiting: Key, other: Key): nat
    requires IsRun(states, events) && m <= n < |states|
    decreases n
  {
    if m == n then 0
    else
      HostExcuses(states, events, m, n - 1, waiting, other)
      + Excuse(FirstMove(states[n - 1], events[n - 1]), waiting, other)
      + Excuse(SecondMove(states[n - 1], events[n - 1]), waiting, other)
  }

  /** At every pick of the run, in steps m to n, a session of the bucket could have been picked, and
      queued sessions are still in the buckets they were queued under. */
  ghost predicate KeepsWaiting(states: seq<Host>, events: seq<Event>, m: nat, n: nat, waiting: Key)
    requires IsRun(states, events) && m <= n < |states|
  {
    forall i :: m <= i < n ==>
      BucketsStand(states[i], events[i]) && Backlogged(SecondMove(states[i], events[i]), waiting)
  }

  ghost predicate AtMostStarting(states: seq<Host>, m: nat, n: nat, bucket: Key, most: nat)
    requires m <= n < |states|
  {
    forall i :: m <= i <= n ==> BookOf(states[i]).starting(bucket) <= most
  }

  lemma StepKeepsLead(h: Host, e: Event, waiting: Key, other: Key, lead: nat)
    requires HostInv(h) && Enabled(h, e) && BucketsStand(h, e) && Backlogged(SecondMove(h, e), waiting)
    requires BookOf(h).starting(other) <= lead && BookOf(Step(h, e)).starting(other) <= lead
    requires BookOf(h).load(other) + BookOf(h).starting(other) <= BookOf(h).load(waiting) + lead
    ensures BookOf(Step(h, e)).load(other) + BookOf(Step(h, e)).starting(other) <=
      BookOf(Step(h, e)).load(waiting) + lead
      + Excuse(FirstMove(h, e), waiting, other) + Excuse(SecondMove(h, e), waiting, other)
  {
    assert FreshInv(h.active, h.wakes) && Inv(h.queue);
    hide *;
    BetweenStarts(h, e, other);
    FirstIsNoPick(h, e, waiting);
    FirstMoves(h, e);
    SecondMoves(h, e);
    MoveKeepsLead(BookOf(h), FirstMove(h, e), Between(h, e), waiting, other, lead);
    MoveKeepsLead(Between(h, e), SecondMove(h, e), BookOf(Step(h, e)), waiting, other,
                  lead + Excuse(FirstMove(h, e), waiting, other));
  }

  lemma FirstIsNoPick(h: Host, e: Event, bucket: Key)
    requires Enabled(h, e)
    ensures Backlogged(FirstMove(h, e), bucket)
  {
  }

  lemma BetweenStarts(h: Host, e: Event, k: Key)
    requires Enabled(h, e)
    ensures Between(h, e).starting(k) == if IsExit(e) then BookOf(h).starting(k) else BookOf(Step(h, e)).starting(k)
  {
    hide SlotsHeldBy, StartingIds, Step;
  }

  /** Main result, for the host itself: over any run and from any state of it, whatever it is doing, of
      a bucket that could have been picked at every pick no other gets further ahead than it was, or
      than it ever had spawns in flight, but for the slots the waiting bucket gave back and the other's
      wakes past the queue. */
  lemma {:induction false} HostBucketsStayClose(
      states: seq<Host>, events: seq<Event>, m: nat, n: nat, waiting: Key, other: Key, lead: nat)
    requires IsRun(states, events) && m <= n < |states|
    requires KeepsWaiting(states, events, m, n, waiting) && AtMostStarting(states, m, n, other, lead)
    requires BookOf(states[m]).load(other) + BookOf(states[m]).starting(other) <= BookOf(states[m]).load(waiting) + lead
    ensures BookOf(states[n]).load(other) + BookOf(states[n]).starting(other) <=
      BookOf(states[n]).load(waiting) + lead + HostExcuses(states, events, m, n, waiting, other)
    decreases n
  {
    hide *;
    if m < n {
      LastStep(states, events, m, n, waiting, other, lead);
      ExcusesOneMore(states, events, m, n, waiting, other);
      HostBucketsStayClose(states, events, m, n - 1, waiting, other, lead);
      CapHoldsInEveryRun(states, events, n - 1);
      StepKeepsLead(states[n - 1], events[n - 1], waiting, other,
                    lead + HostExcuses(states, events, m, n - 1, waiting, other));
    }
  }

  lemma LastStep(states: seq<Host>, events: seq<Event>, m: nat, n: nat, waiting: Key, other: Key, lead: nat)
    requires IsRun(states, events) && m < n < |states|
    requires KeepsWaiting(states, events, m, n, waiting) && AtMostStarting(states, m, n, other, lead)
    ensures KeepsWaiting(states, events, m, n - 1, waiting) && AtMostStarting(states, m, n - 1, other, lead)
    ensures |states| == |events| + 1 && Enabled(states[n - 1], events[n - 1]) && states[n] == Step(states[n - 1], events[n - 1])
    ensures BucketsStand(states[n - 1], events[n - 1]) && Backlogged(SecondMove(states[n - 1], events[n - 1]), waiting)
    ensures BookOf(states[n - 1]).starting(other) <= lead && BookOf(states[n]).starting(other) <= lead
  {
    hide SecondMove, BucketsStand, Backlogged, BookOf, Step, Enabled;
    NextState(states, events, n - 1);
  }

  lemma ExcusesOneMore(states: seq<Host>, events: seq<Event>, m: nat, n: nat, waiting: Key, other: Key)
    requires IsRun(states, events) && m < n < |states|
    ensures HostExcuses(states, events, m, n, waiting, other) ==
      HostExcuses(states, events, m, n - 1, waiting, other)
      + Excuse(FirstMove(states[n - 1], events[n - 1]), waiting, other)
      + Excuse(SecondMove(states[n - 1], events[n - 1]), waiting, other)
  {
    hide FirstMove, SecondMove, Excuse;
  }
}
