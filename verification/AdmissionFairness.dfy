/** Fairness of least-loaded-first over successive admissions (src/admission-queue.ts:147-179). */
module AdmissionFairness {
  import opened AdmissionQueue
  import opened Wrappers

  // ---------------------------------------------------------------- no starvation

  function Drains(ops: seq<Op>): nat {
    if ops == [] then 0 else Drains(ops[..|ops| - 1]) + if ops[|ops| - 1].DrainSlot? then 1 else 0
  }

  /** A first failure, which puts its session at the head. */
  predicate TakesHead(q: QueueState, op: Op) {
    op.Settled? && !op.ok && op.id !in q.fails
  }

  /** How often another session took the head. */
  function Heads(q: QueueState, ops: seq<Op>, id: SessionId): nat {
    if ops == [] then 0
    else
      var before := ops[..|ops| - 1];
      var op := ops[|ops| - 1];
      Heads(q, before, id) + if TakesHead(Run(q, before), op) && op.id != id then 1 else 0
  }

  /** The session's bucket holds no slot whenever a drain picks. */
  ghost predicate Unserved(q: QueueState, ops: seq<Op>, id: SessionId) {
    forall i :: 0 <= i < |ops| && ops[i].DrainSlot? ==> Held(Run(q, ops[..i]).keyOf, ops[i].load, id) == 0
  }

  lemma {:induction false} IndexIs(s: seq<SessionId>, id: SessionId, i: nat)
    requires NoDuplicates(s) && i < |s| && s[i] == id
    ensures IndexOf(s, id) == i
  {
  }

  /** A drain moves a session without slots towards the head, if it does not take it off. */
  lemma {:induction false} DrainAdvances(q: QueueState, probe: Probes, load: Key -> nat, id: SessionId)
    requires Inv(q) && id in q.order && Held(q.keyOf, load, id) == 0
    ensures id in Drain(q, probe, load).0.order ==> IndexOf(Drain(q, probe, load).0.order, id) < IndexOf(q.order, id)
    ensures id !in Drain(q, probe, load).0.order ==> Drain(q, probe, load).1 == Some(id) || !Eligible(probe(id))
    decreases |q.order|
  {
    hide Inv, Eligible, Held, IndexOf, NoDuplicates;
    var at := Select(q.order, q.keyOf, load);
    var popped := PopAt(q, at);
    PopAdvances(q, load, at, id);
    if id in popped.order {
      if !Eligible(probe(q.order[at])) { DrainAdvances(Forget(popped, q.order[at]), probe, load, id); }
    } else if !Eligible(probe(id)) {
      DrainOnlyRemoves(Forget(popped, id), probe, load);
    }
  }

  /** The entry that is popped is the session itself, or one before it. */
  lemma PopAdvances(q: QueueState, load: Key -> nat, at: nat, id: SessionId)
    requires Inv(q) && id in q.order && Held(q.keyOf, load, id) == 0 && LeftmostLeast(q.order, q.keyOf, load, at)
    ensures var popped := PopAt(q, at);
      && Inv(popped) && Inv(Forget(popped, q.order[at]))
      && (id in popped.order <==> id != q.order[at])
      && (id != q.order[at] ==>
            IndexOf(popped.order, id) < IndexOf(q.order, id) && Held(Forget(popped, q.order[at]).keyOf, load, id) == 0)
  {
    PopKeepsInv(q, at);
    ForgetKeepsInv(PopAt(q, at), q.order[at]);
    PopShifts(q, at, id);
    hide Inv, IndexOf, NoDuplicates, Remove;
    if id != q.order[at] {
      var p := IndexOf(q.order, id);
      assert q.order[p] == id;
      assert at <= p;
    }
  }

  lemma ForgetKeepsInv(q: QueueState, id: SessionId)
    requires Inv(q)
    ensures Inv(Forget(q, id))
  {
    hide NoDuplicates;
  }

  /** Popping another entry moves the session up if that stood before it. */
  lemma PopShifts(q: QueueState, at: nat, id: SessionId)
    requires at < |q.order| && id in q.order && Inv(q) && Inv(PopAt(q, at))
    ensures id in PopAt(q, at).order <==> id != q.order[at]
    ensures id != q.order[at] && at <= IndexOf(q.order, id) ==> IndexOf(PopAt(q, at).order, id) < IndexOf(q.order, id)
  {
    var p, order := IndexOf(q.order, id), PopAt(q, at).order;
    if id == q.order[at] {
      assert id !in PopAt(q, at).queued;
    } else if at < p {
      assert order[p - 1] == id;
      IndexIs(order, id, p - 1);
    } else {
      assert order[p] == id;
    }
    hide IndexOf, Forget;
  }

  /** No other step takes a session off, and only another's first failure moves it back, by one. */
  lemma OthersPushByOne(q: QueueState, op: Op, id: SessionId)
    requires Inv(q) && id in q.order && !op.DrainSlot?
    ensures id in Apply(q, op).order
    ensures IndexOf(Apply(q, op).order, id) <= IndexOf(q.order, id) + if TakesHead(q, op) && op.id != id then 1 else 0
  {
    var r := Apply(q, op);
    ApplyKeepsInv(q, op);
    if TakesHead(q, op) {
      HeadPushes(q, op.id, id);
    } else {
      TailOnly(q, op);
      var p := IndexOf(q.order, id);
      assert r.order[p] == q.order[p];
      hide Apply;
      IndexIs(r.order, id, p);
    }
  }

  lemma TailOnly(q: QueueState, op: Op)
    requires Inv(q) && !op.DrainSlot? && !TakesHead(q, op)
    ensures q.order <= Apply(q, op).order
  {
  }

  lemma HeadPushes(q: QueueState, x: SessionId, id: SessionId)
    requires Inv(q) && id in q.order && x !in q.fails && Inv(RecordFailure(q, x))
    ensures id in RecordFailure(q, x).order
    ensures IndexOf(RecordFailure(q, x).order, id) <= IndexOf(q.order, id) + if x != id then 1 else 0
  {
    var r := RecordFailure(q, x);
    FirstFailureTakesHead(q, x);
    var p := IndexOf(q.order, id);
    if x == id {
      IndexIs(r.order, id, 0);
    } else {
      var p' := HeadShift(q, x, p);
      hide RecordFailure;
      IndexIs(r.order, id, p');
    }
  }

  lemma HeadShift(q: QueueState, x: SessionId, p: nat) returns (p': nat)
    requires Inv(q) && p < |q.order| && q.order[p] != x && x !in q.fails
    ensures p <= p' <= p + 1 && p' < |RecordFailure(q, x).order| && RecordFailure(q, x).order[p'] == q.order[p]
  {
    hide Inv;
    var at := IndexOf(q.order, x);
    p' := if at < p then p else p + 1;
  }

  lemma OneMoreOp(q: QueueState, ops: seq<Op>, i: nat)
    requires i < |ops|
    ensures Run(q, ops[..i + 1]) == Apply(Run(q, ops[..i]), ops[i])
  {
    assert ops[..i + 1][..i] == ops[..i];
  }

  lemma {:induction false} RunFromKeepsInv(q: QueueState, ops: seq<Op>)
    requires Inv(q)
    ensures Inv(Run(q, ops))
  {
    if ops != [] {
      RunFromKeepsInv(q, ops[..|ops| - 1]);
      ApplyKeepsInv(Run(q, ops[..|ops| - 1]), ops[|ops| - 1]);
    }
  }

  /** Where a session without slots stands after the first n steps, unless one of them took it off. */
  lemma {:induction false} ComesForward(q: QueueState, ops: seq<Op>, id: SessionId, n: nat) returns (gone: Option<nat>)
    requires Inv(q) && id in q.order && n <= |ops| && Unserved(q, ops, id)
    ensures gone.None? ==> IsForward(q, ops, id, n)
    ensures gone.Some? ==> gone.value < n && TakesOff(q, ops, gone.value, id)
  {
    hide *;
    if n == 0 {
      StandsAtFirst(q, ops, id);
      return None;
    }
    gone := ComesForward(q, ops, id, n - 1);
    if gone.None? { gone := OneStepForward(q, ops, id, n - 1); }
  }

  /** The bound after the first n steps. */
  ghost predicate IsForward(q: QueueState, ops: seq<Op>, id: SessionId, n: nat)
    requires n <= |ops|
  {
    var r := Run(q, ops[..n]);
    id in r.order && IndexOf(r.order, id) + Drains(ops[..n]) <= IndexOf(q.order, id) + Heads(q, ops[..n], id)
  }

  lemma StandsAtFirst(q: QueueState, ops: seq<Op>, id: SessionId)
    requires id in q.order
    ensures IsForward(q, ops, id, 0)
  {
    assert ops[..0] == [];
  }

  lemma OneStepForward(q: QueueState, ops: seq<Op>, id: SessionId, n: nat) returns (gone: Option<nat>)
    requires Inv(q) && n < |ops| && Unserved(q, ops, id) && IsForward(q, ops, id, n)
    ensures gone.None? ==> IsForward(q, ops, id, n + 1)
    ensures gone.Some? ==> gone == Some(n) && TakesOff(q, ops, n, id)
  {
    var before, op := Run(q, ops[..n]), ops[n];
    RunFromKeepsInv(q, ops[..n]);
    OneMoreOp(q, ops, n);
    assert ops[..n + 1][..n] == ops[..n];
    assert op.DrainSlot? ==> Held(before.keyOf, op.load, id) == 0;
    hide Inv, Run, Unserved, IndexOf, TakesHead, Eligible, Drain, Held;
    gone := None;
    if op.DrainSlot? {
      DrainAdvances(before, op.probe, op.load, id);
      if id !in Run(q, ops[..n + 1]).order { gone := Some(n); }
    } else {
      OthersPushByOne(before, op, id);
    }
  }

  /** Step i is a drain that takes the session off: it is woken, or not eligible at all. */
  ghost predicate TakesOff(q: QueueState, ops: seq<Op>, i: nat, id: SessionId)
    requires i < |ops|
  {
    && ops[i].DrainSlot?
    && id in Run(q, ops[..i]).order && id !in Run(q, ops[..i + 1]).order
    && (Drain(Run(q, ops[..i]), ops[i].probe, ops[i].load).1 == Some(id) || !Eligible(ops[i].probe(id)))
  }

  /** Main result: over any run of rejections, drains and settled wakes, from any reachable queue, a
      session at position p whose bucket holds no slot is taken off within p + 1 drains and one more
      for each other session that took the head, whatever the other loads do: woken, or dropped
      because there is nothing to wake. */
  lemma NoStarvation(past: seq<Op>, ops: seq<Op>, p: nat) returns (i: nat)
    requires var q := Run(EMPTY, past);
      p < |q.order| && Unserved(q, ops, q.order[p]) && Drains(ops) >= p + 1 + Heads(q, ops, q.order[p])
    ensures i < |ops| && TakesOff(Run(EMPTY, past), ops, i, Run(EMPTY, past).order[p])
  {
    var q := Run(EMPTY, past);
    RunKeepsInv(past);
    IndexIs(q.order, q.order[p], p);
    assert ops[..|ops|] == ops;
    hide Inv, Run, Unserved, IndexOf, TakesOff;
    var gone := ComesForward(q, ops, q.order[p], |ops|);
    i := gone.value;
  }

  // ---------------------------------------------------------------- first in, first out

  /** All queued sessions compete with the same bucket load. */
  ghost predicate EvenLoad(q: QueueState, load: Key -> nat) {
    forall a, b :: a in q.order && b in q.order ==> Held(q.keyOf, load, a) == Held(q.keyOf, load, b)
  }

  /** A drain takes the entries before k off, from the head: the last of them is woken, the others
      are not eligible. */
  ghost predicate TakesFirst(q: QueueState, probe: Probes, r: QueueState, wake: Option<SessionId>, k: nat) {
    && k <= |q.order| && r.order == q.order[k..]
    && (wake.None? ==> k == |q.order|)
    && (wake.Some? ==> k > 0 && wake.value == q.order[k - 1] && Eligible(probe(wake.value)))
    && (forall i :: 0 <= i < (if wake.Some? then k - 1 else k) ==> !Eligible(probe(q.order[i])))
  }

  lemma {:induction false} EvenDrainIsFifo(q: QueueState, probe: Probes, load: Key -> nat)
    requires Inv(q) && EvenLoad(q, load)
    ensures var r := Drain(q, probe, load);
      |r.0.order| <= |q.order| && TakesFirst(q, probe, r.0, r.1, |q.order| - |r.0.order|)
    decreases |q.order|
  {
    hide *;
    if q.order == [] {
      NothingTaken(q, probe, load);
    } else {
      HeadIsPicked(q, probe, load);
      if Eligible(probe(q.order[0])) {
        OneTaken(q, probe);
      } else {
        EvenRest(q, load);
        var next := Forget(PopAt(q, 0), q.order[0]);
        EvenDrainIsFifo(next, probe, load);
        ShiftTaken(q, probe, next, Drain(next, probe, load).0, Drain(next, probe, load).1);
      }
    }
  }

  lemma NothingTaken(q: QueueState, probe: Probes, load: Key -> nat)
    requires q.order == []
    ensures Drain(q, probe, load) == (q, None) && TakesFirst(q, probe, q, None, 0)
  {
  }

  lemma OneTaken(q: QueueState, probe: Probes)
    requires q.order != [] && Eligible(probe(q.order[0]))
    ensures |PopAt(q, 0).order| == |q.order| - 1 && TakesFirst(q, probe, PopAt(q, 0), Some(q.order[0]), 1)
  {
    assert PopAt(q, 0).order == q.order[1..];
  }

  lemma HeadIsPicked(q: QueueState, probe: Probes, load: Key -> nat)
    requires q.order != [] && EvenLoad(q, load)
    ensures PopAt(q, 0).order == q.order[1..]
    ensures Drain(q, probe, load) ==
      if Eligible(probe(q.order[0])) then (PopAt(q, 0), Some(q.order[0]))
      else Drain(Forget(PopAt(q, 0), q.order[0]), probe, load)
  {
    var at := Select(q.order, q.keyOf, load);
    assert q.order[at] in q.order && q.order[0] in q.order;
    hide Eligible, Held, Forget;
  }

  lemma EvenRest(q: QueueState, load: Key -> nat)
    requires Inv(q) && q.order != [] && EvenLoad(q, load)
    ensures var next := Forget(PopAt(q, 0), q.order[0]); Inv(next) && EvenLoad(next, load) && next.order == q.order[1..]
  {
    PopKeepsInv(q, 0);
    var next := Forget(PopAt(q, 0), q.order[0]);
    assert next.order == q.order[1..];
    hide Inv;
    forall a, b | a in next.order && b in next.order ensures Held(next.keyOf, load, a) == Held(next.keyOf, load, b) {
      RestHolds(q, load, a);
      RestHolds(q, load, b);
    }
  }

  lemma RestHolds(q: QueueState, load: Key -> nat, a: SessionId)
    requires Inv(q) && q.order != [] && a in q.order[1..]
    ensures a in q.order && Held(Forget(PopAt(q, 0), q.order[0]).keyOf, load, a) == Held(q.keyOf, load, a)
  {
    assert q.order == [q.order[0]] + q.order[1..];
    var i :| 0 <= i < |q.order[1..]| && q.order[1..][i] == a;
    assert q.order[i + 1] == a;
  }

  lemma ShiftTaken(q: QueueState, probe: Probes, next: QueueState, r: QueueState, wake: Option<SessionId>)
    requires q.order != [] && next.order == q.order[1..] && !Eligible(probe(q.order[0]))
    requires |r.order| <= |next.order| && TakesFirst(next, probe, r, wake, |next.order| - |r.order|)
    ensures TakesFirst(q, probe, r, wake, |q.order| - |r.order|)
  {
    hide Eligible;
    assert next.order[|next.order| - |r.order|..] == q.order[|q.order| - |r.order|..];
  }

  /** Who joins the end: the rejected, and second failures, unless they already stand in the queue. */
  function Joins(q: QueueState, op: Op): seq<SessionId> {
    match op
    case Reject(id, _, _) => if id in q.order then [] else [id]
    case Settled(id, ok) => if !ok && id in q.fails && q.fails[id] == 1 && id !in q.order then [id] else []
    case DrainSlot(_, _) => []
  }

  function Joined(q: QueueState, ops: seq<Op>): seq<SessionId> {
    if ops == [] then []
    else Joined(q, ops[..|ops| - 1]) + Joins(Run(q, ops[..|ops| - 1]), ops[|ops| - 1])
  }

  /** What a drain takes off a queue of equal loads, in order. */
  function TakenBy(q: QueueState, op: Op): seq<SessionId> {
    match op
    case DrainSlot(probe, load) =>
      var left := Drain(q, probe, load).0.order;
      if |left| <= |q.order| then q.order[..|q.order| - |left|] else []
    case _ => []
  }

  function Taken(q: QueueState, ops: seq<Op>): seq<SessionId> {
    if ops == [] then []
    else Taken(q, ops[..|ops| - 1]) + TakenBy(Run(q, ops[..|ops| - 1]), ops[|ops| - 1])
  }

  /** Whenever a drain picks all loads are equal, and nobody takes the head. */
  ghost predicate EvenRun(q: QueueState, ops: seq<Op>) {
    forall i :: 0 <= i < |ops| ==>
      && (ops[i].DrainSlot? ==> EvenLoad(Run(q, ops[..i]), ops[i].load))
      && !TakesHead(Run(q, ops[..i]), ops[i])
  }

  lemma StepIsFifo(q: QueueState, op: Op)
    requires Inv(q) && !TakesHead(q, op) && (op.DrainSlot? ==> EvenLoad(q, op.load))
    ensures TakenBy(q, op) + Apply(q, op).order == q.order + Joins(q, op)
  {
    hide EvenLoad, Drain, Eligible, IndexOf, EnqueueFront;
    match op
    case DrainSlot(probe, load) => EvenDrainIsFifo(q, probe, load);
    case Reject(id, key, now) => RejectJoinsTail(q, id, key, now);
    case Settled(id, ok) =>
      if !ok && id in q.fails && q.fails[id] == 1 { SecondFailureRotates(q, id); }
  }

  /** Main result: while loads are equal and nobody takes the head, the queue is first-in first-out.
      Those taken off by the drains of a run, in the order taken, and then those still queued, are
      those queued at its start in their order, and then the rejected and rotated in theirs. */
  lemma {:induction false} EqualLoadsAreFifo(past: seq<Op>, ops: seq<Op>)
    requires EvenRun(Run(EMPTY, past), ops)
    ensures var q := Run(EMPTY, past); Taken(q, ops) + Run(q, ops).order == q.order + Joined(q, ops)
    decreases |ops|
  {
    var q := Run(EMPTY, past);
    RunKeepsInv(past);
    if ops != [] {
      var before, op := ops[..|ops| - 1], ops[|ops| - 1];
      EvenBefore(q, ops);
      RunFromKeepsInv(q, before);
      hide Inv, EvenRun, TakenBy, Joins, Apply, TakesHead, EvenLoad;
      EqualLoadsAreFifo(past, before);
      StepIsFifo(Run(q, before), op);
      var r := Run(q, before);
      assert Taken(q, ops) == Taken(q, before) + TakenBy(r, op) && Joined(q, ops) == Joined(q, before) + Joins(r, op);
      assert Run(q, ops) == Apply(r, op);
      hide *;
      Conserved(Taken(q, before), TakenBy(r, op), Apply(r, op).order, r.order, Joins(r, op), q.order, Joined(q, before));
    }
  }

  lemma EvenBefore(q: QueueState, ops: seq<Op>)
    requires ops != [] && EvenRun(q, ops)
    ensures var before, op := ops[..|ops| - 1], ops[|ops| - 1];
      && EvenRun(q, before) && !TakesHead(Run(q, before), op)
      && (op.DrainSlot? ==> EvenLoad(Run(q, before), op.load))
  {
    hide Run, EvenLoad, TakesHead;
    var before := ops[..|ops| - 1];
    forall i | 0 <= i < |before| ensures before[..i] == ops[..i] && before[i] == ops[i] {}
  }

  lemma Conserved(taken: seq<SessionId>, off: seq<SessionId>, left: seq<SessionId>, order: seq<SessionId>,
                  joins: seq<SessionId>, first: seq<SessionId>, joined: seq<SessionId>)
    requires off + left == order + joins && taken + order == first + joined
    ensures (taken + off) + left == first + (joined + joins)
  {
    assert (taken + off) + left == taken + (off + left);
    assert taken + (order + joins) == (taken + order) + joins;
  }

  // ---------------------------------------------------------------- balance

  /** Per bucket: the registered slots, which picks compare, and the spawns on their way to one. */
  datatype Book = Book(load: Key -> nat, starting: Key -> nat)

  /** What happens to a book: a slot is given back; a session starts, by a wake of its own or because
      it was picked, its bucket among those of the sessions it was picked from; a starting session
      registers, or never will; or something else happens. */
  datatype Move =
    | Leaves(bucket: Key)
    | Starts(bucket: Key)
    | Picked(bucket: Key, among: set<Key>)
    | Lands(bucket: Key)
    | Fails(bucket: Key)
    | Other

  /** Only one bucket changes, by so many slots and so many starting sessions. */
  ghost predicate Shifts(b: Book, b': Book, bucket: Key, slots: int, starts: int) {
    forall k ::
      && b'.load(k) == b.load(k) + (if k == bucket then slots else 0)
      && b'.starting(k) == b.starting(k) + (if k == bucket then starts else 0)
  }

  /** A bucket a pick may take: none of those it chose from holds fewer slots. */
  ghost predicate Least(bucket: Key, among: set<Key>, load: Key -> nat) {
    bucket in among && forall k :: k in among ==> load(bucket) <= load(k)
  }

  ghost predicate Moves(b: Book, m: Move, b': Book) {
    match m
    case Leaves(k) => Shifts(b, b', k, -1, 0)
    case Starts(k) => Shifts(b, b', k, 0, 1)
    case Picked(k, among) => Least(k, among, b.load) && Shifts(b, b', k, 0, 1)
    case Lands(k) => Shifts(b, b', k, 1, -1)
    case Fails(k) => Shifts(b, b', k, 0, -1)
    case Other => forall k :: b'.load(k) == b.load(k) && b'.starting(k) == b.starting(k)
  }

  /** The source's scan takes such a bucket among those of the queued sessions. */
  lemma SelectTakesLeast(order: seq<SessionId>, keyOf: map<SessionId, Key>, load: Key -> nat)
    requires order != [] && forall i :: 0 <= i < |order| ==> order[i] in keyOf
    ensures Least(keyOf[order[Select(order, keyOf, load)]], set i | 0 <= i < |order| :: keyOf[order[i]], load)
  {
    var at := Select(order, keyOf, load);
    var buckets := set i | 0 <= i < |order| :: keyOf[order[i]];
    forall k | k in buckets ensures load(keyOf[order[at]]) <= load(k) {
      var i :| 0 <= i < |order| && keyOf[order[i]] == k;
      assert Held(keyOf, load, order[at]) <= Held(keyOf, load, order[i]);
    }
  }

  /** At every pick a session of the bucket is among those it chose from. */
  ghost predicate Backlogged(m: Move, bucket: Key) {
    m.Picked? ==> bucket in m.among
  }

  /** What one move may add to another bucket's lead over a backlogged one. */
  function Excuse(m: Move, waiting: Key, other: Key): nat {
    (if m == Leaves(waiting) then 1 else 0) + (if m == Starts(other) then 1 else 0)
  }

  lemma MoveKeepsLead(b: Book, m: Move, b': Book, waiting: Key, other: Key, lead: nat)
    requires Moves(b, m, b') && Backlogged(m, waiting) && b'.starting(other) <= lead
    requires b.load(other) + b.starting(other) <= b.load(waiting) + lead
    ensures b'.load(other) + b'.starting(other) <= b'.load(waiting) + lead + Excuse(m, waiting, other)
  {
    match m
    case Picked(k, among) => assert b.load(k) <= b.load(waiting);
    case _ =>
  }

  ghost predicate IsHistory(books: seq<Book>, moves: seq<Move>) {
    |books| == |moves| + 1 && forall i :: 0 <= i < |moves| ==> Moves(books[i], moves[i], books[i + 1])
  }

  function Excuses(moves: seq<Move>, n: nat, waiting: Key, other: Key): nat
    requires n <= |moves|
  {
    if n == 0 then 0 else Excuses(moves, n - 1, waiting, other) + Excuse(moves[n - 1], waiting, other)
  }

  /** Main result: over any history, of a bucket that is backlogged at every pick no other gets
      further ahead than it was at the start, or than it ever had sessions starting at once, but for
      the slots the waiting bucket itself gave back and the other's wakes past the queue. */
  lemma {:induction false} NoBucketPullsAhead(
      books: seq<Book>, moves: seq<Move>, n: nat, waiting: Key, other: Key, lead: nat)
    requires IsHistory(books, moves) && n <= |moves|
    requires forall i :: 0 <= i < n ==> Backlogged(moves[i], waiting)
    requires books[0].load(other) + books[0].starting(other) <= books[0].load(waiting) + lead
    requires forall i :: 0 <= i <= n ==> books[i].starting(other) <= lead
    ensures books[n].load(other) + books[n].starting(other) <=
      books[n].load(waiting) + lead + Excuses(moves, n, waiting, other)
    decreases n
  {
    hide Moves, Backlogged, Excuse;
    if n > 0 {
      NoBucketPullsAhead(books, moves, n - 1, waiting, other, lead);
      MoveKeepsLead(books[n - 1], moves[n - 1], books[n], waiting, other, lead + Excuses(moves, n - 1, waiting, other));
    }
  }

  /** No slot of the bucket is given back. */
  ghost predicate Stays(moves: seq<Move>, bucket: Key) {
    forall i :: 0 <= i < |moves| ==> moves[i] != Leaves(bucket)
  }

  /** No wake of the bucket goes past the queue. */
  ghost predicate Queues(moves: seq<Move>, bucket: Key) {
    forall i :: 0 <= i < |moves| ==> moves[i] != Starts(bucket)
  }

  lemma {:induction false} NoExcuses(moves: seq<Move>, n: nat, waiting: Key, other: Key)
    requires n <= |moves| && Stays(moves, waiting) && Queues(moves, other)
    ensures Excuses(moves, n, waiting, other) == 0
  {
    if n > 0 { NoExcuses(moves, n - 1, waiting, other); }
  }

  /** Picks register one at a time: none of the bucket is on its way when the next is taken. */
  ghost predicate OneAtATime(books: seq<Book>, bucket: Key) {
    forall i :: 0 <= i < |books| ==> books[i].starting(bucket) <= 1
  }

  /** A lead of at most one slot stays at most one while the waiting bucket keeps its slots and the
      other comes through the queue one at a time, whatever the rest do. */
  lemma OneSlotAhead(books: seq<Book>, moves: seq<Move>, waiting: Key, other: Key)
    requires IsHistory(books, moves) && Stays(moves, waiting) && Queues(moves, other) && OneAtATime(books, other)
    requires forall i :: 0 <= i < |moves| ==> Backlogged(moves[i], waiting)
    requires books[0].load(other) + books[0].starting(other) <= books[0].load(waiting) + 1
    ensures books[|moves|].load(other) + books[|moves|].starting(other) <= books[|moves|].load(waiting) + 1
  {
    hide Moves, Backlogged;
    NoBucketPullsAhead(books, moves, |moves|, waiting, other, 1);
    NoExcuses(moves, |moves|, waiting, other);
  }

  /** Two such buckets that start at most one slot apart never differ by more. */
  lemma BackloggedBucketsStayLevel(books: seq<Book>, moves: seq<Move>, a: Key, b: Key)
    requires IsHistory(books, moves)
    requires Stays(moves, a) && Queues(moves, a) && OneAtATime(books, a)
    requires Stays(moves, b) && Queues(moves, b) && OneAtATime(books, b)
    requires forall i :: 0 <= i < |moves| ==> Backlogged(moves[i], a) && Backlogged(moves[i], b)
    requires books[0].load(a) + books[0].starting(a) <= books[0].load(b) + 1
    requires books[0].load(b) + books[0].starting(b) <= books[0].load(a) + 1
    ensures -1 <= books[|moves|].load(a) - books[|moves|].load(b) <= 1
  {
    hide Moves, Backlogged;
    OneSlotAhead(books, moves, a, b);
    OneSlotAhead(books, moves, b, a);
  }
}
