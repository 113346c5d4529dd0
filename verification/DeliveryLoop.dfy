/** The drain loop in the source's own form (src/delivery.ts:290-485): each pass of it is a run of the
    state machine in Delivery. */
module DeliveryLoop {
  import opened Delivery
  import opened OutboundContract
  import opened Wrappers

  /** The state a list of events leads to; None when one of them is not enabled. */
  ghost function Replay(rows: Rows, s: Session, events: seq<Event>): Option<Session> {
    if events == [] then Some(s)
    else
      match Replay(rows, s, events[..|events| - 1])
      case None => None
      case Some(x) =>
        var e := events[|events| - 1];
        if Enabled(x, e) then Some(Step(rows, x, e)) else None
  }

  lemma ReplayOneMore(rows: Rows, s: Session, events: seq<Event>, e: Event)
    requires Replay(rows, s, events).Some? && Enabled(Replay(rows, s, events).value, e)
    ensures Replay(rows, s, events + [e]) == Some(Step(rows, Replay(rows, s, events).value, e))
  {
    assert (events + [e])[..|events|] == events;
  }

  /** How an awaited adapter call ends. */
  datatype SendOutcome = Ok | Err | Timeout

  /** How the calls made for one row end: the adapter's, the delivered mark, the progress update,
      and the catch arm's write. */
  datatype Fate = Fate(result: SendOutcome, marked: bool, progressThrows: bool, noted: bool)

  /** Whether the loop goes on after a row, and the table it leaves. */
  function RowTable(rows: Rows, t: Table, id: RowId, fate: Fate, now: int): (Table, bool) {
    if !rows(id).usage && !ParseOutboundContent(rows(id).payload) then
      (NoteFailure(t, id, true, fate.noted, now), false)
    else if (!rows(id).usage && fate.result != Ok) || !fate.marked then (NoteFailure(t, id, false, fate.noted, now), false)
    else (MarkDelivered(t, id), rows(id).usage || !fate.progressThrows)
  }

  /** The table after a drain nobody interrupts. */
  function DrainTable(rows: Rows, t: Table, todo: seq<RowId>, fate: RowId -> Fate, now: int): Table
    decreases |todo|
  {
    if todo == [] then t
    else
      var (t', go) := RowTable(rows, t, todo[0], fate(todo[0]), now);
      if go then DrainTable(rows, t', todo[1..], fate, now) else t'
  }

  class SessionDelivery {
    var delivered: Table
    var inflight: bool
    ghost var jobs: seq<Job>
    ghost var wire: map<RowId, Tally>

    ghost function State(): Session
      reads this
    {
      Session(delivered, inflight, jobs, wire)
    }

    constructor ()
      ensures State() == FRESH
    {
      delivered, inflight, jobs, wire := map[], false, [], map[];
    }

    /** Take one step of the drain on the ghost side. */
    ghost method Account(rows: Rows, s0: Session, events: seq<Event>, e: Event) returns (after: seq<Event>)
      requires Replay(rows, s0, events).Some? && Enabled(Replay(rows, s0, events).value, e)
      modifies this`jobs, this`wire
      ensures after == events + [e]
      ensures Replay(rows, s0, after) == Some(Step(rows, Replay(rows, s0, events).value, e))
      ensures jobs == Replay(rows, s0, after).value.jobs && wire == Replay(rows, s0, after).value.wire
    {
      ReplayOneMore(rows, s0, events, e);
      after := events + [e];
      jobs := Replay(rows, s0, after).value.jobs;
      wire := Replay(rows, s0, after).value.wire;
    }

    /** The rest of the pass once a copy has landed. */
    method MarkSent(rows: Rows, ghost s0: Session, ghost before: seq<Event>, ghost due: seq<RowId>, todo: seq<RowId>,
                      fate: Fate, now: int)
      returns (go: bool, ghost events: seq<Event>)
      requires todo != [] && inflight && jobs == [Job(due, todo, Sent)]
      requires Replay(rows, s0, before) == Some(State())
      modifies this
      ensures go ==> inflight && jobs == [Job(due, todo[1..], Next)]
      ensures !go ==> !inflight && jobs == []
      ensures Replay(rows, s0, events) == Some(State())
      ensures go == (fate.marked && !fate.progressThrows)
      ensures delivered ==
        if fate.marked then MarkDelivered(old(delivered), todo[0])
        else NoteFailure(old(delivered), todo[0], false, fate.noted, now)
    {
      hide Replay, RecordFailure, NoteFailure, FailureTally, MarkDelivered, On;
      var id := todo[0];
      go := false;
      if !fate.marked {
        events := Account(rows, s0, before, MarkFails(0, fate.noted, now));
        delivered := NoteFailure(delivered, id, false, fate.noted, now);
        inflight := false;
        return;
      }
      events := Account(rows, s0, before, Mark(0));
      delivered := MarkDelivered(delivered, id);
      if fate.progressThrows {
        events := Account(rows, s0, events, ProgressFails(0, now));
        delivered := NoteFailure(delivered, id, false, fate.noted, now);
        MarkIsKept(old(delivered), id, fate.noted, now);
        inflight := false;
        return;
      }
      events := Account(rows, s0, events, Continue(0));
      go := true;
    }

    /** The rest of the pass once the send has begun. */
    method SendRow(rows: Rows, ghost s0: Session, ghost before: seq<Event>, ghost due: seq<RowId>, todo: seq<RowId>,
                   fate: Fate, now: int)
      returns (go: bool, ghost events: seq<Event>)
      requires todo != [] && inflight && jobs == [Job(due, todo, Sending)]
      requires Replay(rows, s0, before) == Some(State())
      modifies this
      ensures go ==> inflight && jobs == [Job(due, todo[1..], Next)]
      ensures !go ==> !inflight && jobs == []
      ensures Replay(rows, s0, events) == Some(State())
      ensures go == (fate.result == Ok && fate.marked && !fate.progressThrows)
      ensures delivered ==
        if fate.result == Ok && fate.marked then MarkDelivered(old(delivered), todo[0])
        else NoteFailure(old(delivered), todo[0], false, fate.noted, now)
    {
      hide Replay, RecordFailure, NoteFailure, FailureTally, MarkDelivered, On;
      if fate.result == Ok {
        events := Account(rows, s0, before, SendOk(0));
        go, events := MarkSent(rows, s0, events, due, todo, fate, now);
      } else {
        events := Account(rows, s0, before, SendFails(0, fate.result == Timeout, fate.noted, now));
        delivered := NoteFailure(delivered, todo[0], false, fate.noted, now);
        go, inflight := false, false;
      }
    }

    /** One pass of the loop body; `go` is false after the break. */
    method HandleRow(rows: Rows, ghost s0: Session, ghost before: seq<Event>, ghost due: seq<RowId>, todo: seq<RowId>,
                     fate: Fate, now: int)
      returns (go: bool, ghost events: seq<Event>)
      requires todo != [] && inflight && jobs == [Job(due, todo, Next)]
      requires Replay(rows, s0, before) == Some(State())
      modifies this
      ensures go ==> inflight && jobs == [Job(due, todo[1..], Next)]
      ensures !go ==> !inflight && jobs == []
      ensures Replay(rows, s0, events) == Some(State())
      ensures (delivered, go) == RowTable(rows, old(delivered), todo[0], fate, now)
    {
      hide Replay, RecordFailure, NoteFailure, FailureTally, MarkDelivered, ParseOutboundContent, On;
      var id := todo[0];
      go := false;
      events := Account(rows, s0, before, Advance(0, fate.marked, fate.noted, now));
      if rows(id).usage {
        if fate.marked {
          delivered := MarkDelivered(delivered, id);
          go := true;
        } else {
          delivered := NoteFailure(delivered, id, false, fate.noted, now);
          inflight := false;
        }
        return;
      }
      if !ParseOutboundContent(rows(id).payload) {
        delivered := NoteFailure(delivered, id, true, fate.noted, now);
        inflight := false;
        return;
      }
      go, events := SendRow(rows, s0, events, due, todo, fate, now);
    }

    /** One uninterrupted poll of the session: the guard, the filter, and the loop that stops at the
        first failure. Its table is DrainTable's, and it is a run of the state machine above. */
    method DeliverSessionMessages(rows: Rows, due: seq<RowId>, fate: RowId -> Fate, now: int)
      returns (ghost events: seq<Event>)
      requires Distinct(due) && Serial(State())
      modifies this
      ensures Replay(rows, old(State()), events) == Some(State())
      ensures if old(inflight) then State() == old(State()) else !inflight && jobs == []
      ensures !old(inflight) ==>
        delivered == DrainTable(rows, old(delivered), Undelivered(due, old(delivered), now), fate, now)
    {
      ghost var s0 := State();
      assert Replay(rows, s0, []) == Some(s0);
      hide Replay, Undelivered, RowTable;
      events := Account(rows, s0, [], Poll(due, now));
      if inflight { return; }
      var todo := Undelivered(due, delivered, now);
      if todo == [] { return; }
      inflight := true;
      var go := true;
      while go && todo != []
        invariant go ==> inflight && jobs == [Job(due, todo, Next)]
        invariant !go ==> !inflight && jobs == []
        invariant Replay(rows, s0, events) == Some(State())
        invariant DrainTable(rows, old(delivered), Undelivered(due, old(delivered), now), fate, now)
               == if go then DrainTable(rows, delivered, todo, fate, now) else delivered
        decreases |todo|
      {
        go, events := HandleRow(rows, s0, events, due, todo, fate(todo[0]), now);
        todo := todo[1..];
      }
      if go {
        events := Account(rows, s0, events, Advance(0, true, true, now));
        inflight := false;
      }
    }
  }
}
