/** The bounded worker pool of a delivery poll (src/delivery.ts:242-264): a shared queue of sessions
    and workers that each take the next one when their last drain ends, however it ended. */
module DrainPool {

  type SessionId = nat

  datatype Worker = Fresh | Busy(session: SessionId) | Finished

  datatype Pool = Pool(queue: seq<SessionId>, workers: seq<Worker>, started: seq<SessionId>, drained: seq<SessionId>)

  function Created(sessions: seq<SessionId>, limit: int): Pool {
    var n := if limit <= 0 then 0 else if limit < |sessions| then limit else |sessions|;
    Pool(sessions, seq(n, _ => Fresh), [], [])
  }

  /** Worker k takes the next session, or ends when there is none. */
  function Take(p: Pool, k: nat): Pool
    requires k < |p.workers|
  {
    if p.queue == [] then p.(workers := p.workers[k := Finished])
    else Pool(p.queue[1..], p.workers[k := Busy(p.queue[0])], p.started + [p.queue[0]], p.drained)
  }

  /** Workers 0 to k have had their first turn: creating one runs it up to its first wait. */
  function Launch(p: Pool, k: nat): Pool
    requires k <= |p.workers|
    ensures |Launch(p, k).workers| == |p.workers|
  {
    if k == 0 then p else Take(Launch(p, k - 1), k - 1)
  }

  function Start(sessions: seq<SessionId>, limit: int): Pool {
    var p := Created(sessions, limit);
    Launch(p, |p.workers|)
  }

  /** Worker k's drain ends, delivered or thrown. */
  function DrainEnds(p: Pool, k: nat): Pool
    requires k < |p.workers| && p.workers[k].Busy?
  {
    Take(p.(drained := p.drained + [p.workers[k].session]), k)
  }

  ghost predicate IsRun(states: seq<Pool>, ends: seq<nat>, sessions: seq<SessionId>, limit: int) {
    && |states| == |ends| + 1 && states[0] == Start(sessions, limit)
    && (forall i :: 0 <= i < |ends| ==>
          ends[i] < |states[i].workers| && states[i].workers[ends[i]].Busy? && states[i + 1] == DrainEnds(states[i], ends[i]))
  }

  predicate Over(p: Pool) {
    forall k :: 0 <= k < |p.workers| ==> p.workers[k].Finished?
  }

  // ---------------------------------------------------------------- the pool as the source runs it

  class DrainPass {
    var queue: seq<SessionId>
    var workers: seq<Worker>
    var started: seq<SessionId>
    var drained: seq<SessionId>

    ghost function State(): Pool
      reads this
    {
      Pool(queue, workers, started, drained)
    }

    constructor (sessions: seq<SessionId>, limit: int)
      ensures State() == Start(sessions, limit)
    {
      var n := if limit <= 0 then 0 else if limit < |sessions| then limit else |sessions|;
      queue, started, drained := sessions, [], [];
      workers := seq(n, _ => Fresh);
      new;
      ghost var p := Created(sessions, limit);
      for k := 0 to n
        invariant |workers| == n == |p.workers|
        invariant State() == Launch(p, k)
      {
        ShiftNext(k);
      }
    }

    method ShiftNext(k: nat)
      requires k < |workers|
      modifies this
      ensures State() == Take(old(State()), k)
    {
      if queue == [] {
        workers := workers[k := Finished];
      } else {
        var session := queue[0];
        queue := queue[1..];
        workers := workers[k := Busy(session)];
        started := started + [session];
      }
    }

    method OnDrainEnds(k: nat)
      requires k < |workers| && workers[k].Busy?
      modifies this
      ensures State() == DrainEnds(old(State()), k)
    {
      drained := drained + [workers[k].session];
      ShiftNext(k);
    }
  }

  // ---------------------------------------------------------------- the invariant

  function Times(q: seq<SessionId>, s: SessionId): nat {
    multiset(q)[s]
  }

  /** How many workers are draining a session. */
  function BusyWith(ws: seq<Worker>, s: SessionId): nat {
    if ws == [] then 0 else BusyWith(ws[..|ws| - 1], s) + Holds(ws[|ws| - 1], s)
  }

  function Holds(w: Worker, s: SessionId): nat {
    if w == Busy(s) then 1 else 0
  }

  lemma {:induction false} BusyWithAfter(ws: seq<Worker>, k: nat, w: Worker, s: SessionId)
    requires k < |ws|
    ensures BusyWith(ws[k := w], s) + Holds(ws[k], s) == BusyWith(ws, s) + Holds(w, s)
    ensures BusyWith(ws, s) >= Holds(ws[k], s)
  {
    var init := ws[..|ws| - 1];
    if k == |ws| - 1 {
      assert ws[k := w][..|ws| - 1] == init;
    } else {
      BusyWithAfter(init, k, w, s);
      assert ws[k := w][..|ws| - 1] == init[k := w];
    }
  }

  /** Nothing is skipped, and no worker stops while sessions wait. */
  ghost predicate InOrder(p: Pool, sessions: seq<SessionId>, n: nat) {
    && p.started + p.queue == sessions
    && |p.workers| == n
    && (p.queue != [] ==> forall k :: 0 <= k < n ==> !p.workers[k].Finished?)
  }

  /** A session that was taken has been drained or is being drained. */
  ghost predicate Accounted(p: Pool, s: SessionId) {
    Times(p.started, s) == Times(p.drained, s) + BusyWith(p.workers, s)
  }

  lemma TakeKeepsOrder(p: Pool, k: nat, sessions: seq<SessionId>, n: nat)
    requires k < |p.workers| && InOrder(p, sessions, n)
    ensures InOrder(Take(p, k), sessions, n)
  {
    if p.queue != [] {
      assert p.queue == [p.queue[0]] + p.queue[1..];
      assert p.started + [p.queue[0]] + p.queue[1..] == sessions;
    }
  }

  lemma TakeAccounts(p: Pool, k: nat, s: SessionId)
    requires k < |p.workers|
    requires Times(p.started, s) + Holds(p.workers[k], s) == Times(p.drained, s) + BusyWith(p.workers, s)
    ensures Accounted(Take(p, k), s)
  {
    BusyWithAfter(p.workers, k, Take(p, k).workers[k], s);
  }

  lemma {:induction false} LaunchKeepsRest(p: Pool, k: nat)
    requires k <= |p.workers|
    ensures forall j :: k <= j < |p.workers| ==> Launch(p, k).workers[j] == p.workers[j]
  {
    if k > 0 { LaunchKeepsRest(p, k - 1); }
  }

  lemma {:induction false} LaunchInv(p: Pool, sessions: seq<SessionId>, k: nat, s: SessionId)
    requires k <= |p.workers| && InOrder(p, sessions, |p.workers|) && Accounted(p, s)
    requires forall j :: 0 <= j < |p.workers| ==> p.workers[j].Fresh?
    ensures InOrder(Launch(p, k), sessions, |p.workers|) && Accounted(Launch(p, k), s)
  {
    if k > 0 {
      LaunchInv(p, sessions, k - 1, s);
      LaunchKeepsRest(p, k - 1);
      var q := Launch(p, k - 1);
      assert q.workers[k - 1] == Fresh && Launch(p, k) == Take(q, k - 1);
      hide InOrder, Launch, Take, BusyWith, Times;
      TakeKeepsOrder(q, k - 1, sessions, |p.workers|);
      TakeAccounts(q, k - 1, s);
    }
  }

  lemma {:induction false} FreshHoldNothing(ws: seq<Worker>, s: SessionId)
    requires forall k :: 0 <= k < |ws| ==> !ws[k].Busy?
    ensures BusyWith(ws, s) == 0
  {
    if ws != [] { FreshHoldNothing(ws[..|ws| - 1], s); }
  }

  lemma {:induction false} NoFreshLeft(states: seq<Pool>, ends: seq<nat>, sessions: seq<SessionId>, limit: int, n: nat)
    requires IsRun(states, ends, sessions, limit) && n < |states|
    ensures forall k :: 0 <= k < |states[n].workers| ==> !states[n].workers[k].Fresh?
  {
    if n > 0 {
      NoFreshLeft(states, ends, sessions, limit, n - 1);
      assert states[n - 1 + 1] == DrainEnds(states[n - 1], ends[n - 1]);
    } else {
      LaunchLeavesNoneFresh(Created(sessions, limit), |Created(sessions, limit).workers|);
    }
  }

  lemma {:induction false} LaunchLeavesNoneFresh(p: Pool, k: nat)
    requires k <= |p.workers|
    ensures forall j :: 0 <= j < k ==> !Launch(p, k).workers[j].Fresh?
  {
    if k > 0 { LaunchLeavesNoneFresh(p, k - 1); }
  }

  lemma EndKeepsInv(p: Pool, k: nat, sessions: seq<SessionId>, s: SessionId)
    requires k < |p.workers| && p.workers[k].Busy? && InOrder(p, sessions, |p.workers|) && Accounted(p, s)
    ensures InOrder(DrainEnds(p, k), sessions, |p.workers|) && Accounted(DrainEnds(p, k), s)
  {
    hide BusyWith, Take;
    var ended := p.(drained := p.drained + [p.workers[k].session]);
    TakeKeepsOrder(ended, k, sessions, |p.workers|);
    TakeAccounts(ended, k, s);
  }

  lemma {:induction false} RunInv(states: seq<Pool>, ends: seq<nat>, sessions: seq<SessionId>, limit: int, n: nat, s: SessionId)
    requires IsRun(states, ends, sessions, limit) && n < |states|
    ensures InOrder(states[n], sessions, |Created(sessions, limit).workers|) && Accounted(states[n], s)
  {
    if n == 0 {
      var p := Created(sessions, limit);
      FreshHoldNothing(p.workers, s);
      hide BusyWith;
      LaunchInv(p, sessions, |p.workers|, s);
    } else {
      RunInv(states, ends, sessions, limit, n - 1, s);
      assert states[n - 1 + 1] == DrainEnds(states[n - 1], ends[n - 1]);
      hide Take;
      EndKeepsInv(states[n - 1], ends[n - 1], sessions, s);
    }
  }

  // ---------------------------------------------------------------- main results

  /** Whatever order the drains end in: sessions start in list order, each as often as it is listed,
      never more at once than the limit, and every worker is at work while sessions wait. */
  lemma PassIsBoundedAndInOrder(states: seq<Pool>, ends: seq<nat>, sessions: seq<SessionId>, limit: int, n: nat)
    requires IsRun(states, ends, sessions, limit) && n < |states|
    ensures states[n].started <= sessions
    ensures limit >= 1 ==> |states[n].workers| == (if limit < |sessions| then limit else |sessions|)
    ensures states[n].queue != [] ==> forall k :: 0 <= k < |states[n].workers| ==> states[n].workers[k].Busy?
  {
    RunInv(states, ends, sessions, limit, n, 0);
    NoFreshLeft(states, ends, sessions, limit, n);
  }

  /** Main result: a pass that is over has drained every session as often as it was listed, unless
      the limit left it without a worker. */
  lemma OverMeansAllDrained(states: seq<Pool>, ends: seq<nat>, sessions: seq<SessionId>, limit: int, n: nat, s: SessionId)
    requires IsRun(states, ends, sessions, limit) && n < |states| && Over(states[n])
    ensures Times(states[n].drained, s) == if limit >= 1 then Times(sessions, s) else 0
  {
    var p := states[n];
    RunInv(states, ends, sessions, limit, n, s);
    FreshHoldNothing(p.workers, s);
    if limit >= 1 {
      assert sessions != [] ==> p.workers[0].Finished?;
      assert p.queue == [];
      assert p.started == sessions;
    } else {
      NoWorkersNoDrain(states, ends, sessions, limit, n);
    }
  }

  lemma NoWorkersNoDrain(states: seq<Pool>, ends: seq<nat>, sessions: seq<SessionId>, limit: int, n: nat)
    requires IsRun(states, ends, sessions, limit) && n < |states| && limit < 1
    ensures n == 0 && states[n].drained == []
  {
    assert |states[0].workers| == 0;
  }

  /** A pass ends: each drain that ends leaves less to do, so there are at most as many as sessions. */
  lemma PassTerminates(states: seq<Pool>, ends: seq<nat>, sessions: seq<SessionId>, limit: int, n: nat)
    requires IsRun(states, ends, sessions, limit) && n < |states|
    ensures |states[n].drained| == n <= |sessions|
  {
    DrainedCount(states, ends, sessions, limit, n);
    var p := states[n];
    RunInv(states, ends, sessions, limit, n, 0);
    forall s ensures multiset(p.drained)[s] <= multiset(p.started)[s] {
      RunInv(states, ends, sessions, limit, n, s);
      assert Times(p.drained, s) <= Times(p.started, s);
    }
    var rest := multiset(p.started) - multiset(p.drained);
    assert multiset(p.started) == multiset(p.drained) + rest;
    assert |multiset(p.started)| == |p.started| && |multiset(p.drained)| == |p.drained|;
  }

  lemma {:induction false} DrainedCount(states: seq<Pool>, ends: seq<nat>, sessions: seq<SessionId>, limit: int, n: nat)
    requires IsRun(states, ends, sessions, limit) && n < |states|
    ensures |states[n].drained| == n
  {
    if n > 0 {
      DrainedCount(states, ends, sessions, limit, n - 1);
      assert states[n - 1 + 1] == DrainEnds(states[n - 1], ends[n - 1]);
    } else {
      LaunchDrainsNothing(Created(sessions, limit), |Created(sessions, limit).workers|);
    }
  }

  lemma {:induction false} LaunchDrainsNothing(p: Pool, k: nat)
    requires k <= |p.workers|
    ensures Launch(p, k).drained == p.drained
  {
    if k > 0 { LaunchDrainsNothing(p, k - 1); }
  }
}
