/** The admission queue for capacity-rejected wakes (src/admission-queue.ts):
    one ordered list, its dedupe set, and three per-session maps. */
module AdmissionQueue {
  import opened Wrappers

  datatype SessionId = SessionId(text: string)
  /** A fairness bucket. */
  datatype Key = Key(text: string)

  const MAX_ADMISSION_FAILURES := 3

  datatype QueueState = QueueState(
    order: seq<SessionId>,
    queued: set<SessionId>,
    fails: map<SessionId, nat>,
    since: map<SessionId, int>,
    keyOf: map<SessionId, Key>)

  const EMPTY := QueueState([], {}, map[], map[], map[])

  ghost predicate NoDuplicates(s: seq<SessionId>) {
    forall i, j :: 0 <= i < j < |s| ==> s[i] != s[j]
  }

  /** What every reachable queue satisfies. An id may be queued without a key: see ThirdFailureForgets. */
  ghost predicate Inv(q: QueueState) {
    && NoDuplicates(q.order)
    && q.queued == (set id | id in q.order)
    && q.since.Keys == q.keyOf.Keys
    && (forall id :: id in q.fails ==> 1 <= q.fails[id] < MAX_ADMISSION_FAILURES)
  }

  // ---------------------------------------------------------------- single updates

  function Remove(s: seq<SessionId>, at: nat): seq<SessionId>
    requires at < |s|
  {
    s[..at] + s[at + 1..]
  }

  /** Position of an id, or the length when it is absent. */
  function IndexOf(s: seq<SessionId>, id: SessionId): (i: nat)
    ensures i <= |s|
    ensures i < |s| ==> s[i] == id
    ensures i == |s| ==> id !in s
  {
    if s == [] then 0 else if s[0] == id then 0 else 1 + IndexOf(s[1..], id)
  }

  function EnqueueTail(q: QueueState, id: SessionId): QueueState {
    if id in q.queued then q else q.(queued := q.queued + {id}, order := q.order + [id])
  }

  function Enqueue(q: QueueState, id: SessionId, key: Key, now: int): QueueState {
    if id in q.queued then q
    else EnqueueTail(
      q.(since := if id in q.since then q.since else q.since[id := now],
         keyOf := if id in q.keyOf then q.keyOf else q.keyOf[id := key]), id)
  }

  function EnqueueFront(q: QueueState, id: SessionId): QueueState {
    var at := IndexOf(q.order, id);
    var rest := if at < |q.order| then Remove(q.order, at) else q.order;
    q.(queued := q.queued + {id}, order := [id] + rest)
  }

  function PopAt(q: QueueState, at: nat): QueueState
    requires at < |q.order|
  {
    q.(order := Remove(q.order, at), queued := q.queued - {q.order[at]})
  }

  /** Drop every trace of an entry that leaves the queue without a slot. */
  function Forget(q: QueueState, id: SessionId): QueueState {
    q.(fails := q.fails - {id}, since := q.since - {id}, keyOf := q.keyOf - {id})
  }

  function RecordFailure(q: QueueState, id: SessionId): QueueState {
    var n := (if id in q.fails then q.fails[id] else 0) + 1;
    if n == 1 then EnqueueFront(q.(fails := q.fails[id := n]), id)
    else if n < MAX_ADMISSION_FAILURES then EnqueueTail(q.(fails := q.fails[id := n]), id)
    else Forget(q, id)
  }

  function RecordSuccess(q: QueueState, id: SessionId): QueueState {
    if id in q.since then Forget(q, id) else q.(fails := q.fails - {id})
  }

  // ---------------------------------------------------------------- choosing an entry

  function Held(keyOf: map<SessionId, Key>, load: Key -> nat, id: SessionId): nat {
    if id in keyOf then load(keyOf[id]) else 0
  }

  /** Entry `at` has the least bucket load, and no earlier entry has the same. */
  ghost predicate LeftmostLeast(order: seq<SessionId>, keyOf: map<SessionId, Key>, load: Key -> nat, at: nat) {
    && at < |order|
    && (forall i :: 0 <= i < |order| ==> Held(keyOf, load, order[at]) <= Held(keyOf, load, order[i]))
    && (forall i :: 0 <= i < at ==> Held(keyOf, load, order[at]) < Held(keyOf, load, order[i]))
  }

  /** The index the scan settles on; LeftmostLeast determines it. */
  function Select(order: seq<SessionId>, keyOf: map<SessionId, Key>, load: Key -> nat): (at: nat)
    requires order != []
    ensures LeftmostLeast(order, keyOf, load, at)
  {
    if |order| == 1 then 0
    else
      var last := |order| - 1;
      var at := Select(order[..last], keyOf, load);
      assert forall i :: 0 <= i < last ==> order[..last][i] == order[i];
      if Held(keyOf, load, order[last]) < Held(keyOf, load, order[at]) then last else at
  }

  method SelectNextIndex(entries: seq<SessionId>, keyOf: map<SessionId, Key>, slotsHeldBy: Key -> nat)
    returns (at: nat)
    ensures entries == [] ==> at == 0
    ensures entries != [] ==> LeftmostLeast(entries, keyOf, slotsHeldBy, at)
  {
    at := 0;
    var best: Option<nat> := None;
    var i := 0;
    while i < |entries|
      invariant i <= |entries|
      invariant i == 0 <==> best.None?
      invariant i == 0 ==> at == 0
      invariant i > 0 ==> LeftmostLeast(entries[..i], keyOf, slotsHeldBy, at)
      invariant i > 0 ==> best == Some(Held(keyOf, slotsHeldBy, entries[at]))
    {
      var held := if entries[i] in keyOf then slotsHeldBy(keyOf[entries[i]]) else 0;
      assert entries[..i + 1] == entries[..i] + [entries[i]];
      if best.None? || held < best.value {
        best := Some(held);
        at := i;
        if held == 0 {
          assert forall j :: 0 <= j < i ==> entries[..i][j] == entries[j];
          return;
        }
      }
      i := i + 1;
    }
    assert entries[..i] == entries;
  }

  // ---------------------------------------------------------------- draining one freed slot

  /** What the host finds out about a popped session; every probe may throw. */
  datatype Probe = Throws | Missing | Found(active: bool, running: bool, dueWork: bool)

  predicate Eligible(p: Probe) {
    p.Found? && p.active && !p.running && p.dueWork
  }

  type Probes = SessionId -> Probe

  /** Pop, drop the ineligible, stop at the first eligible entry. */
  function Drain(q: QueueState, probe: Probes, load: Key -> nat): (QueueState, Option<SessionId>)
    decreases |q.order|
  {
    if q.order == [] then (q, None)
    else
      var at := Select(q.order, q.keyOf, load);
      var id := q.order[at];
      var popped := PopAt(q, at);
      if Eligible(probe(id)) then (popped, Some(id)) else Drain(Forget(popped, id), probe, load)
  }

  /** The queue object: the module-level variables of the source. */
  class Queue {
    var order: seq<SessionId>
    var queued: set<SessionId>
    var failCounts: map<SessionId, nat>
    var firstQueuedAt: map<SessionId, int>
    var fairnessKeyOf: map<SessionId, Key>

    ghost function State(): QueueState
      reads this
    {
      QueueState(order, queued, failCounts, firstQueuedAt, fairnessKeyOf)
    }

    constructor ()
      ensures State() == EMPTY
    {
      order, queued, failCounts, firstQueuedAt, fairnessKeyOf := [], {}, map[], map[], map[];
    }

    method EnqueueAdmission(id: SessionId, key: Key, now: int)
      modifies this
      ensures State() == Enqueue(old(State()), id, key, now)
    {
      if id in queued { return; }
      if id !in firstQueuedAt { firstQueuedAt := firstQueuedAt[id := now]; }
      if id !in fairnessKeyOf { fairnessKeyOf := fairnessKeyOf[id := key]; }
      queued := queued + {id};
      order := order + [id];
    }

    method RequeueTail(id: SessionId)
      modifies this
      ensures State() == EnqueueTail(old(State()), id)
    {
      if id in queued { return; }
      queued := queued + {id};
      order := order + [id];
    }

    method RequeueFront(id: SessionId)
      modifies this
      ensures State() == EnqueueFront(old(State()), id)
    {
      var at := IndexOf(order, id);
      if at < |order| { order := order[..at] + order[at + 1..]; }
      queued := queued + {id};
      order := [id] + order;
    }

    /** Without a load function the head is taken: plain FIFO. */
    method Pop(slotsHeldBy: Option<Key -> nat>) returns (id: Option<SessionId>)
      modifies this
      ensures old(order) == [] ==> id == None && State() == old(State())
      ensures old(order) != [] ==>
        var at := if slotsHeldBy.Some? then Select(old(order), old(fairnessKeyOf), slotsHeldBy.value) else 0;
        id == Some(old(order)[at]) && State() == PopAt(old(State()), at)
    {
      if order == [] { return None; }
      var at := 0;
      if slotsHeldBy.Some? {
        at := SelectNextIndex(order, fairnessKeyOf, slotsHeldBy.value);
        SelectIsUnique(order, fairnessKeyOf, slotsHeldBy.value, at);
      }
      id := Some(order[at]);
      order := order[..at] + order[at + 1..];
      queued := queued - {id.value};
    }

    method ObserveWait(id: SessionId)
      modifies this
      ensures State() == if id in old(firstQueuedAt)
                         then old(State()).(since := old(firstQueuedAt) - {id}, keyOf := old(fairnessKeyOf) - {id})
                         else old(State())
    {
      if id !in firstQueuedAt { return; }
      firstQueuedAt := firstQueuedAt - {id};
      fairnessKeyOf := fairnessKeyOf - {id};
    }

    method DropEntry(id: SessionId)
      modifies this
      ensures State() == Forget(old(State()), id)
    {
      failCounts := failCounts - {id};
      firstQueuedAt := firstQueuedAt - {id};
      fairnessKeyOf := fairnessKeyOf - {id};
    }

    method NoteFailure(id: SessionId)
      modifies this
      ensures State() == RecordFailure(old(State()), id)
    {
      var n := (if id in failCounts then failCounts[id] else 0) + 1;
      if n == 1 {
        failCounts := failCounts[id := n];
        RequeueFront(id);
      } else if n < MAX_ADMISSION_FAILURES {
        failCounts := failCounts[id := n];
        RequeueTail(id);
      } else {
        DropEntry(id);
      }
    }

    /** The continuation of a drain's wake promise. */
    method OnWakeSettled(id: SessionId, ok: bool)
      modifies this
      ensures State() == if ok then RecordSuccess(old(State()), id) else RecordFailure(old(State()), id)
    {
      if ok {
        failCounts := failCounts - {id};
        ObserveWait(id);
      } else {
        NoteFailure(id);
      }
    }

    /** The synchronous part of a drain: the session whose wake is attempted, if any. */
    method DrainAdmissionSlot(probe: Probes, slotsHeldBy: Key -> nat) returns (wake: Option<SessionId>)
      modifies this
      ensures (State(), wake) == Drain(old(State()), probe, slotsHeldBy)
    {
      while true
        invariant Drain(State(), probe, slotsHeldBy) == Drain(old(State()), probe, slotsHeldBy)
        decreases |order|
      {
        var next := Pop(Some(slotsHeldBy));
        if next.None? { return None; }
        var p := probe(next.value);
        if p.Found? && p.active && !p.running && p.dueWork { return next; }
        DropEntry(next.value);
      }
    }
  }

  lemma SelectIsUnique(order: seq<SessionId>, keyOf: map<SessionId, Key>, load: Key -> nat, at: nat)
    requires LeftmostLeast(order, keyOf, load, at)
    ensures Select(order, keyOf, load) == at
  {
  }

  // ---------------------------------------------------------------- invariants over runs

  datatype Op =
    | Reject(id: SessionId, key: Key, now: int)
    | DrainSlot(probe: Probes, load: Key -> nat)
    | Settled(id: SessionId, ok: bool)

  function Apply(q: QueueState, op: Op): QueueState {
    match op
    case Reject(id, key, now) => Enqueue(q, id, key, now)
    case DrainSlot(probe, load) => Drain(q, probe, load).0
    case Settled(id, ok) => if ok then RecordSuccess(q, id) else RecordFailure(q, id)
  }

  function Run(q: QueueState, ops: seq<Op>): QueueState {
    if ops == [] then q else Apply(Run(q, ops[..|ops| - 1]), ops[|ops| - 1])
  }

  /** A session that has a wait clock both before and after keeps its clock and its bucket. */
  ghost predicate KeepsClocks(q: QueueState, r: QueueState) {
    forall id :: id in q.since && id in r.since && id in q.keyOf && id in r.keyOf ==>
      r.since[id] == q.since[id] && r.keyOf[id] == q.keyOf[id]
  }

  lemma FrontKeepsInv(q: QueueState, id: SessionId)
    requires Inv(q)
    ensures Inv(EnqueueFront(q, id))
  {
    var at := IndexOf(q.order, id);
    var r := EnqueueFront(q, id);
    if at < |q.order| {
      assert forall x :: x in q.order <==> x == id || x in Remove(q.order, at);
    }
    assert forall x :: x in r.order <==> x == id || x in q.order;
  }

  lemma PopKeepsInv(q: QueueState, at: nat)
    requires Inv(q) && at < |q.order|
    ensures Inv(PopAt(q, at))
  {
    assert forall x :: x in q.order <==> x == q.order[at] || x in Remove(q.order, at);
  }

  lemma {:induction false} DrainKeepsInv(q: QueueState, probe: Probes, load: Key -> nat)
    requires Inv(q)
    ensures Inv(Drain(q, probe, load).0)
    ensures KeepsClocks(q, Drain(q, probe, load).0)
    ensures Drain(q, probe, load).0.since.Keys <= q.since.Keys
    decreases |q.order|
  {
    if q.order != [] {
      var at := Select(q.order, q.keyOf, load);
      PopKeepsInv(q, at);
      if !Eligible(probe(q.order[at])) {
        DrainKeepsInv(Forget(PopAt(q, at), q.order[at]), probe, load);
      }
    }
  }

  lemma ApplyKeepsInv(q: QueueState, op: Op)
    requires Inv(q)
    ensures Inv(Apply(q, op)) && KeepsClocks(q, Apply(q, op))
  {
    hide Drain;
    match op
    case Reject(id, key, now) =>
    case DrainSlot(probe, load) => DrainKeepsInv(q, probe, load);
    case Settled(id, ok) =>
      if !ok && id !in q.fails { FrontKeepsInv(q.(fails := q.fails[id := 1]), id); }
  }

  /** Every run from the empty queue: no duplicates, the list is the set, clocks and
      buckets have one domain, fail counts stay in 1..2, and each step keeps the clocks. */
  lemma {:induction false} RunKeepsInv(ops: seq<Op>)
    ensures Inv(Run(EMPTY, ops))
    ensures ops != [] ==> KeepsClocks(Run(EMPTY, ops[..|ops| - 1]), Run(EMPTY, ops))
  {
    if ops != [] {
      RunKeepsInv(ops[..|ops| - 1]);
      ApplyKeepsInv(Run(EMPTY, ops[..|ops| - 1]), ops[|ops| - 1]);
    }
  }

  /** The first failure keeps the turn: the id ends at the head whatever re-queued it meanwhile,
      and nobody else moves relative to anybody else. */
  lemma FirstFailureTakesHead(q: QueueState, id: SessionId)
    requires Inv(q) && id !in q.fails
    ensures var r := RecordFailure(q, id);
      && r.order[0] == id
      && r.fails == q.fails[id := 1]
      && (id in q.order ==> exists at :: 0 <= at < |q.order| && q.order[at] == id && r.order[1..] == Remove(q.order, at))
      && (id !in q.order ==> r.order[1..] == q.order)
  {
    var at := IndexOf(q.order, id);
    assert at < |q.order| <==> id in q.order;
  }

  /** A rejected wake joins the end of the queue with its bucket, its clock running since the first
      rejection; a session that already stands in it stays where it is. */
  lemma RejectJoinsTail(q: QueueState, id: SessionId, key: Key, now: int)
    requires Inv(q)
    ensures var r := Apply(q, Reject(id, key, now));
      && r.order == q.order + (if id in q.order then [] else [id])
      && r.fails == q.fails
      && (id in q.order ==> r == q)
      && (id !in q.order && id !in q.since ==> r.since == q.since[id := now] && r.keyOf == q.keyOf[id := key])
      && (id !in q.order && id in q.since ==> r.since == q.since && r.keyOf == q.keyOf)
  {
  }

  /** A wake that succeeds clears the session's budget, clock and bucket, and nothing else. */
  lemma SuccessClears(q: QueueState, id: SessionId)
    requires Inv(q)
    ensures var r := Apply(q, Settled(id, true));
      && r.order == q.order && r.queued == q.queued
      && r.fails == q.fails - {id} && r.since == q.since - {id} && r.keyOf == q.keyOf - {id}
  {
  }

  /** The second failure rotates: the id goes to the end, or stays where a rejection has put it. */
  lemma SecondFailureRotates(q: QueueState, id: SessionId)
    requires Inv(q) && id in q.fails && q.fails[id] == 1
    ensures var r := RecordFailure(q, id);
      && r.order == q.order + (if id in q.order then [] else [id])
      && r.fails == q.fails[id := 2] && r.since == q.since && r.keyOf == q.keyOf
  {
  }

  /** The source calls the third failure an eviction. It clears the budget and the clocks, but the
      id leaves the queue only if the failed wake had not itself put it back. */
  lemma ThirdFailureForgets(q: QueueState, id: SessionId)
    requires Inv(q) && id in q.fails && q.fails[id] == MAX_ADMISSION_FAILURES - 1
    ensures var r := RecordFailure(q, id);
      && id !in r.fails && id !in r.since && id !in r.keyOf
      && r.order == q.order
      && (id in r.order <==> id in q.queued)
  {
  }

  function Failures(q: QueueState, id: SessionId): nat {
    if id in q.fails then q.fails[id] else 0
  }

  /** Whether a drain pops the id and drops it, rather than waking it or leaving it. */
  predicate DropsIn(q: QueueState, probe: Probes, load: Key -> nat, id: SessionId) {
    var r := Drain(q, probe, load);
    id in q.order && id !in r.0.order && r.1 != Some(id)
  }

  function CountAfter(q: QueueState, op: Op, id: SessionId, count: nat): nat {
    match op
    case Reject(_, _, _) => count
    case Settled(x, ok) => if x != id then count else if ok then 0 else count + 1
    case DrainSlot(probe, load) => if DropsIn(q, probe, load, id) then 0 else count
  }

  /** Failures of `id` since its last success or drop, as a caller would count them. */
  function Consecutive(q: QueueState, ops: seq<Op>, id: SessionId): nat {
    if ops == [] then 0
    else
      var before := ops[..|ops| - 1];
      CountAfter(Run(q, before), ops[|ops| - 1], id, Consecutive(q, before, id))
  }

  lemma {:induction false} DrainOnlyRemoves(q: QueueState, probe: Probes, load: Key -> nat)
    requires Inv(q)
    ensures var r := Drain(q, probe, load);
      && (forall x :: x in r.0.order ==> x in q.order)
      && (r.1.Some? ==> r.1.value in q.order && r.1.value !in r.0.order)
    decreases |q.order|
  {
    if q.order != [] {
      var at := Select(q.order, q.keyOf, load);
      PopKeepsInv(q, at);
      assert q.order[at] !in PopAt(q, at).queued;
      if !Eligible(probe(q.order[at])) {
        DrainOnlyRemoves(Forget(PopAt(q, at), q.order[at]), probe, load);
      }
    }
  }

  /** One dropped entry: whom the drain drops is that entry, or dropped by the rest. */
  lemma DropsFirstOrRest(q: QueueState, probe: Probes, load: Key -> nat, at: nat, id: SessionId)
    requires Inv(q) && at < |q.order|
    requires var next := Forget(PopAt(q, at), q.order[at]);
      Inv(next) && Drain(q, probe, load) == Drain(next, probe, load)
    ensures DropsIn(q, probe, load, id)
      <==> id == q.order[at] || DropsIn(Forget(PopAt(q, at), q.order[at]), probe, load, id)
  {
    var next := Forget(PopAt(q, at), q.order[at]);
    DrainOnlyRemoves(next, probe, load);
    assert q.order[at] !in next.queued;
    assert forall x :: x in q.order <==> x == q.order[at] || x in next.order;
    hide Drain, Inv;
  }

  lemma {:induction false} DrainForgetsDropped(q: QueueState, probe: Probes, load: Key -> nat, id: SessionId)
    requires Inv(q)
    ensures Failures(Drain(q, probe, load).0, id) == if DropsIn(q, probe, load, id) then 0 else Failures(q, id)
    decreases |q.order|
  {
    if q.order != [] {
      var at := Select(q.order, q.keyOf, load);
      PopKeepsInv(q, at);
      if !Eligible(probe(q.order[at])) {
        var next := Forget(PopAt(q, at), q.order[at]);
        DropsFirstOrRest(q, probe, load, at, id);
        DrainForgetsDropped(next, probe, load, id);
        if id == q.order[at] { NoFailuresStay(next, probe, load, id); }
      }
    }
  }

  lemma {:induction false} NoFailuresStay(q: QueueState, probe: Probes, load: Key -> nat, id: SessionId)
    requires Failures(q, id) == 0 && id !in q.fails
    ensures Failures(Drain(q, probe, load).0, id) == 0
    decreases |q.order|
  {
    if q.order != [] {
      var at := Select(q.order, q.keyOf, load);
      if !Eligible(probe(q.order[at])) {
        NoFailuresStay(Forget(PopAt(q, at), q.order[at]), probe, load, id);
      }
    }
  }

  lemma RejectKeepsBudget(q: QueueState, x: SessionId, key: Key, now: int, id: SessionId)
    ensures Failures(Enqueue(q, x, key, now), id) == Failures(q, id)
  {
  }

  lemma SettledBudget(q: QueueState, x: SessionId, ok: bool, id: SessionId)
    requires Inv(q)
    ensures Failures(if ok then RecordSuccess(q, x) else RecordFailure(q, x), id) ==
      if x != id then Failures(q, id) else if ok then 0 else (Failures(q, id) + 1) % MAX_ADMISSION_FAILURES
  {
    assert id in q.fails ==> 1 <= q.fails[id] < MAX_ADMISSION_FAILURES;
    hide Inv, IndexOf, Remove;
  }

  lemma BudgetStep(q: QueueState, op: Op, id: SessionId, count: nat)
    requires Inv(q) && Failures(q, id) == count % MAX_ADMISSION_FAILURES
    ensures Failures(Apply(q, op), id) == CountAfter(q, op, id, count) % MAX_ADMISSION_FAILURES
  {
    hide Failures, Inv, Enqueue, RecordSuccess, RecordFailure, Drain, DropsIn;
    match op
    case Reject(x, key, now) => RejectKeepsBudget(q, x, key, now, id);
    case Settled(x, ok) => SettledBudget(q, x, ok, id);
    case DrainSlot(probe, load) => DrainForgetsDropped(q, probe, load, id);
  }

  /** The stored budget is the number of consecutive failures modulo three, over every run. */
  lemma {:induction false} BudgetCountsModuloThree(ops: seq<Op>, id: SessionId)
    ensures Failures(Run(EMPTY, ops), id) == Consecutive(EMPTY, ops, id) % MAX_ADMISSION_FAILURES
  {
    if ops != [] {
      var before := ops[..|ops| - 1];
      RunKeepsInv(before);
      BudgetCountsModuloThree(before, id);
      BudgetStep(Run(EMPTY, before), ops[|ops| - 1], id, Consecutive(EMPTY, before, id));
    }
  }

  // ---------------------------------------------------------------- drain = filter, then pick

  /** Entry i is taken before entry j: smaller bucket load, or the same load and further left. */
  ghost predicate Before(q: QueueState, load: Key -> nat, i: nat, j: nat)
    requires i < |q.order| && j < |q.order|
  {
    var hi, hj := Held(q.keyOf, load, q.order[i]), Held(q.keyOf, load, q.order[j]);
    hi < hj || (hi == hj && i < j)
  }

  /** `p` is the entry that filtering first and picking least-loaded-leftmost second would choose. */
  ghost predicate FilteredPick(q: QueueState, probe: Probes, load: Key -> nat, p: nat) {
    && p < |q.order|
    && Eligible(probe(q.order[p]))
    && (forall i :: 0 <= i < |q.order| && i != p && Eligible(probe(q.order[i])) ==> Before(q, load, p, i))
  }

  /** The survivors of a drain keep their relative order: `r` is `s` with entries left out. */
  ghost predicate Subsequence(r: seq<SessionId>, s: seq<SessionId>) {
    r == [] || (s != [] && ((r[0] == s[0] && Subsequence(r[1..], s[1..])) || Subsequence(r, s[1..])))
  }

  lemma {:induction false} SubsequenceOfSelf(s: seq<SessionId>)
    ensures Subsequence(s, s)
  {
    if s != [] { SubsequenceOfSelf(s[1..]); }
  }

  lemma {:induction false} SubsequenceOfRemoved(r: seq<SessionId>, s: seq<SessionId>, at: nat)
    requires at < |s| && Subsequence(r, Remove(s, at))
    ensures Subsequence(r, s)
  {
    if r != [] {
      if at == 0 {
        assert Remove(s, 0) == s[1..];
      } else {
        assert Remove(s, at)[1..] == Remove(s[1..], at - 1);
        if r[0] == s[0] && Subsequence(r[1..], Remove(s, at)[1..]) {
          SubsequenceOfRemoved(r[1..], s[1..], at - 1);
        } else {
          SubsequenceOfRemoved(r, s[1..], at - 1);
        }
      }
    }
  }

  /** One drain of a reachable queue is "filter, then pick": it wakes the eligible entry that
      filtering first would choose; what survives is exactly what comes after that entry, in order;
      and with nothing eligible the queue is emptied. */
  ghost predicate FilterThenPick(q: QueueState, probe: Probes, load: Key -> nat,
                                 r: QueueState, wake: Option<SessionId>) {
    && Subsequence(r.order, q.order)
    && (wake.None? ==> r.order == [] && forall i :: 0 <= i < |q.order| ==> !Eligible(probe(q.order[i])))
    && (wake.Some? ==> exists p :: Picks(q, probe, load, r, wake.value, p))
  }

  ghost predicate Picks(q: QueueState, probe: Probes, load: Key -> nat, r: QueueState, id: SessionId, p: nat) {
    && FilteredPick(q, probe, load, p)
    && q.order[p] == id && id !in r.order
    && (forall i :: 0 <= i < |q.order| ==> (q.order[i] in r.order <==> Before(q, load, p, i)))
  }

  lemma {:induction false} DrainIsFilterThenPick(q: QueueState, probe: Probes, load: Key -> nat)
    requires Inv(q)
    ensures FilterThenPick(q, probe, load, Drain(q, probe, load).0, Drain(q, probe, load).1)
    decreases |q.order|
  {
    if q.order != [] {
      var at := Select(q.order, q.keyOf, load);
      var x := q.order[at];
      var popped := PopAt(q, at);
      PopKeepsInv(q, at);
      if Eligible(probe(x)) {
        SubsequenceOfSelf(popped.order);
        SubsequenceOfRemoved(popped.order, q.order, at);
        assert Picks(q, probe, load, popped, x, at);
      } else {
        DrainIsFilterThenPick(Forget(popped, x), probe, load);
        DrainOnlyRemoves(Forget(popped, x), probe, load);
        DropKeepsOutcome(q, probe, load, at, Drain(q, probe, load).0, Drain(q, probe, load).1);
      }
    }
  }

  function Shifted(at: nat, i: nat): nat
    requires i != at
  {
    if i < at then i else i - 1
  }

  /** Entries other than the dropped one keep their place, their load and their order. */
  lemma ShiftKeepsOrder(q: QueueState, load: Key -> nat, at: nat, i: nat, j: nat)
    requires Inv(q) && at < |q.order| && i < |q.order| && j < |q.order| && i != at && j != at
    ensures var next := Forget(PopAt(q, at), q.order[at]);
      && Shifted(at, i) < |next.order| && Shifted(at, j) < |next.order|
      && next.order[Shifted(at, i)] == q.order[i]
      && (Before(q, load, i, j) <==> Before(next, load, Shifted(at, i), Shifted(at, j)))
  {
    var next := Forget(PopAt(q, at), q.order[at]);
    assert next.order[Shifted(at, i)] == q.order[i] && next.order[Shifted(at, j)] == q.order[j];
    assert q.order[i] != q.order[at] && q.order[j] != q.order[at];
    assert Held(q.keyOf, load, q.order[i]) == Held(next.keyOf, load, q.order[i]);
    assert Held(q.keyOf, load, q.order[j]) == Held(next.keyOf, load, q.order[j]);
    hide Forget, PopAt, Held, Inv;
  }

  lemma LiftPick(q: QueueState, probe: Probes, load: Key -> nat, at: nat, r: QueueState, id: SessionId, p: nat)
    requires Inv(q) && LeftmostLeast(q.order, q.keyOf, load, at) && !Eligible(probe(q.order[at]))
    requires Picks(Forget(PopAt(q, at), q.order[at]), probe, load, r, id, p)
    requires q.order[at] !in r.order
    ensures Picks(q, probe, load, r, id, if p < at then p else p + 1)
  {
    var next := Forget(PopAt(q, at), q.order[at]);
    var lifted := if p < at then p else p + 1;
    hide Inv, LeftmostLeast, Held, Eligible, Forget;
    forall i: nat | i < |q.order| && i != at
      ensures MatchesAt(q, next, load, at, lifted, p, i)
    {
      ShiftKeepsOrder(q, load, at, lifted, i);
    }
    LeastGoesFirst(q, load, at, lifted);
    assert next.order == Remove(q.order, at);
    hide Before, PopAt;
    assert MatchesAt(q, next, load, at, lifted, p, lifted);
    forall i: nat | i < |q.order| && i != lifted && Eligible(probe(q.order[i])) ensures Before(q, load, lifted, i) {
      assert i != at && MatchesAt(q, next, load, at, lifted, p, i);
    }
    forall i: nat | i < |q.order| ensures q.order[i] in r.order <==> Before(q, load, lifted, i) {
      if i != at { assert MatchesAt(q, next, load, at, lifted, p, i); }
    }
  }

  /** Entry i of the queue and its place once entry `at` is dropped, compared with the pick. */
  ghost predicate MatchesAt(q: QueueState, next: QueueState, load: Key -> nat, at: nat, lifted: nat, p: nat, i: nat)
    requires i != at && i < |q.order| && lifted < |q.order| && p < |next.order|
  {
    && Shifted(at, i) < |next.order| && q.order[i] == next.order[Shifted(at, i)]
    && (Before(q, load, lifted, i) <==> Before(next, load, p, Shifted(at, i)))
  }

  lemma LeastGoesFirst(q: QueueState, load: Key -> nat, at: nat, i: nat)
    requires LeftmostLeast(q.order, q.keyOf, load, at) && i < |q.order| && i != at
    ensures !Before(q, load, i, at)
  {
  }

  /** Dropping the ineligible front-runner does not change what the rest of the drain picks. */
  lemma DropKeepsOutcome(q: QueueState, probe: Probes, load: Key -> nat, at: nat, r: QueueState, wake: Option<SessionId>)
    requires Inv(q) && LeftmostLeast(q.order, q.keyOf, load, at) && !Eligible(probe(q.order[at]))
    requires FilterThenPick(Forget(PopAt(q, at), q.order[at]), probe, load, r, wake)
    requires forall x :: x in r.order ==> x in Remove(q.order, at)
    ensures FilterThenPick(q, probe, load, r, wake)
  {
    SubsequenceOfRemoved(r.order, q.order, at);
    if wake.Some? {
      assert q.order[at] !in r.order;
      var p :| Picks(Forget(PopAt(q, at), q.order[at]), probe, load, r, wake.value, p);
      hide Subsequence, LeftmostLeast, Inv, Picks;
      LiftPick(q, probe, load, at, r, wake.value, p);
    } else {
      NoneEligible(q, probe, at);
      hide Subsequence, LeftmostLeast, Inv;
    }
  }

  lemma NoneEligible(q: QueueState, probe: Probes, at: nat)
    requires at < |q.order| && !Eligible(probe(q.order[at]))
    requires var rest := Remove(q.order, at); forall i :: 0 <= i < |rest| ==> !Eligible(probe(rest[i]))
    ensures forall i :: 0 <= i < |q.order| ==> !Eligible(probe(q.order[i]))
  {
    hide Eligible;
    var rest := Remove(q.order, at);
    assert forall i :: 0 <= i < |q.order| && i != at ==> q.order[i] == rest[if i < at then i else i - 1];
  }
}
