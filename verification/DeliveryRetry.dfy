/** When a failed row is sent again (src/delivery.ts:394-458 over src/db/session-db.ts:436-507): the
    recorded delays, and that no poll sends it early or passes it over when it is due. */
module DeliveryRetry {
  import opened Delivery
  import opened OutboundContract
  import opened Wrappers

  /** Seconds from the n-th recorded failure of a row to its next attempt. */
  function DelayAfter(n: nat): nat {
    if n <= 1 then 60 else if n == 2 then 300 else if n == 3 then 1800 else if n == 4 then 7200 else 21600
  }

  /** The entry the n-th recorded failure leaves at time `now`: the tenth is the last. */
  predicate FailedEntry(entry: Option<Entry>, n: nat, now: int) {
    entry.Some? && !entry.value.delivered && entry.value.attempts == n
    && entry.value.retryAt == if n < 10 then Some(now + DelayAfter(n)) else None
  }

  predicate Sendable(rows: Rows, id: RowId) {
    rows(id).usage || ParseOutboundContent(rows(id).payload)
  }

  /** The events that carry a clock; of the others no entry's failure depends on one. */
  function TimeOf(e: Event): int {
    match e
    case Poll(_, now) => now
    case Advance(_, _, _, now) => now
    case SendFails(_, _, _, now) => now
    case MarkFails(_, _, now) => now
    case ProgressFails(_, now) => now
    case _ => 0
  }

  // ---------------------------------------------------------------- one step

  lemma NotedFailure(t: Table, id: RowId, x: RowId, noted: bool, now: int)
    ensures noted ==> NoteFailure(t, id, false, noted, now) == RecordFailure(t, id, false, now)
    ensures var t' := NoteFailure(t, id, false, noted, now);
      || EntryOf(t', x) == EntryOf(t, x)
      || (x == id && !IsDelivered(EntryOf(t, x)) && FailedEntry(EntryOf(t', x), Failures(EntryOf(t, x)) + 1, now))
  {
  }

  /** A step leaves a row's entry, marks it delivered, or records its next failure. */
  ghost predicate EntryMoves(before: Option<Entry>, after: Option<Entry>, now: int) {
    || after == before
    || (!IsDelivered(before) && IsDelivered(after) && Failures(after) == Failures(before))
    || (!IsDelivered(before) && FailedEntry(after, Failures(before) + 1, now))
  }

  lemma StepMovesEntry(rows: Rows, s: Session, e: Event, id: RowId)
    requires Enabled(s, e) && Sendable(rows, id)
    ensures EntryMoves(EntryOf(s.table, id), EntryOf(Step(rows, s, e).table, id), TimeOf(e))
  {
    hide CrashWire, Undelivered, ParseOutboundContent, NoteFailure, RecordFailure, FailureTally, On, FailedEntry;
    match e
    case Advance(k, _, noted, now) =>
      if s.jobs[k].todo != [] {
        NotedFailure(s.table, s.jobs[k].todo[0], id, noted, now);
        if s.jobs[k].todo[0] != id { OtherRowKept(s.table, s.jobs[k].todo[0], id, noted, now); }
      }
    case SendFails(k, _, noted, now) => NotedFailure(s.table, s.jobs[k].todo[0], id, noted, now);
    case MarkFails(k, noted, now) => NotedFailure(s.table, s.jobs[k].todo[0], id, noted, now);
    case ProgressFails(k, now) =>
      NotedFailure(s.table, s.jobs[k].todo[0], id, true, now);
    case _ =>
  }

  lemma OtherRowKept(t: Table, id: RowId, x: RowId, noted: bool, now: int)
    requires x != id
    ensures EntryOf(NoteFailure(t, id, true, noted, now), x) == EntryOf(t, x)
  {
  }

  // ---------------------------------------------------------------- over runs

  lemma StepAt(rows: Rows, states: seq<Session>, events: seq<Event>, i: nat)
    requires IsRun(rows, states, events) && i + 1 < |states|
    ensures i < |events| && Enabled(states[i], events[i]) && states[i + 1] == Step(rows, states[i], events[i])
  {
    hide Step, Enabled;
  }

  lemma RunMovesEntry(rows: Rows, states: seq<Session>, events: seq<Event>, i: nat, id: RowId)
    requires IsRun(rows, states, events) && i + 1 < |states| && Sendable(rows, id)
    ensures i < |events| && EntryMoves(EntryOf(states[i].table, id), EntryOf(states[i + 1].table, id), TimeOf(events[i]))
  {
    hide *;
    StepAt(rows, states, events, i);
    StepMovesEntry(rows, states[i], events[i], id);
  }

  /** The n-th failure of a row is the one recorded by step i. */
  ghost predicate FailsAt(states: seq<Session>, i: nat, id: RowId, n: nat)
    requires i + 1 < |states|
  {
    Failures(EntryOf(states[i].table, id)) + 1 == Failures(EntryOf(states[i + 1].table, id)) == n
  }

  /** After the n-th recorded failure, at time t, the entry says: again at t plus 60, 300, 1800, 7200,
      and from then on 21600 seconds; after the tenth: never. */
  lemma FailureIsScheduled(rows: Rows, states: seq<Session>, events: seq<Event>, i: nat, id: RowId, n: nat)
    requires IsRun(rows, states, events) && i + 1 < |states| && Sendable(rows, id) && FailsAt(states, i, id, n)
    ensures i < |events| && FailedEntry(EntryOf(states[i + 1].table, id), n, TimeOf(events[i]))
  {
    RunMovesEntry(rows, states, events, i, id);
    hide IsRun, TimeOf;
  }

  /** Between the two states no failure of the row is recorded, and it is not delivered. */
  ghost predicate NoNews(states: seq<Session>, i: nat, j: nat, id: RowId)
    requires i <= j < |states|
  {
    Failures(EntryOf(states[i].table, id)) == Failures(EntryOf(states[j].table, id)) && !IsDelivered(EntryOf(states[j].table, id))
  }

  /** Failures only add up, a delivery is final, and without either an entry is as it was. */
  ghost predicate Follows(before: Option<Entry>, after: Option<Entry>) {
    && Failures(before) <= Failures(after)
    && (IsDelivered(before) ==> IsDelivered(after))
    && (Failures(before) == Failures(after) && !IsDelivered(after) ==> after == before)
  }

  lemma FollowsOnward(first: Option<Entry>, before: Option<Entry>, after: Option<Entry>, now: int)
    requires Follows(first, before) && EntryMoves(before, after, now)
    ensures Follows(first, after)
  {
  }

  lemma FollowsItself(entry: Option<Entry>)
    ensures Follows(entry, entry)
  {
  }

  /** Until the next recorded failure or the delivery the entry stays as that failure left it. */
  lemma {:induction false} ScheduleStands(
      rows: Rows, states: seq<Session>, events: seq<Event>, i: nat, j: nat, id: RowId)
    requires IsRun(rows, states, events) && i <= j < |states| && Sendable(rows, id)
    ensures Follows(EntryOf(states[i].table, id), EntryOf(states[j].table, id))
    decreases j
  {
    hide *;
    if i == j {
      FollowsItself(EntryOf(states[i].table, id));
    } else {
      ScheduleStands(rows, states, events, i, j - 1, id);
      RunMovesEntry(rows, states, events, j - 1, id);
      FollowsOnward(EntryOf(states[i].table, id), EntryOf(states[j - 1].table, id), EntryOf(states[j].table, id),
                    TimeOf(events[j - 1]));
    }
  }

  // ---------------------------------------------------------------- polls

  /** The live drain has yet to settle the row. */
  predicate InDrain(s: Session, id: RowId) {
    s.jobs != [] && id in s.jobs[0].todo && !(s.jobs[0].stage == Marked && s.jobs[0].todo[0] == id)
  }

  lemma PollTakes(rows: Rows, s: Session, due: seq<RowId>, now: int, id: RowId)
    requires Serial(s) && !s.guard && Distinct(due)
    ensures InDrain(Step(rows, s, Poll(due, now)), id) <==> id in due && !Undeliverable(s.table, id, now)
  {
    FilterFacts(due, s.table, now);
    hide HeadFirst, Undelivered, Undeliverable;
  }

  /** A poll that finds no drain running takes a failed row exactly when the row is listed, fewer
      than ten failures are recorded, and the delay of the last one is over. */
  lemma TakenExactlyWhenDue(rows: Rows, states: seq<Session>, events: seq<Event>, i: nat, j: nat,
                            due: seq<RowId>, now: int, id: RowId, n: nat)
    requires IsRun(rows, states, events) && i < j < |events| && Sendable(rows, id) && FailsAt(states, i, id, n)
    requires NoNews(states, i + 1, j, id) && events[j] == Poll(due, now) && !states[j].guard
    ensures InDrain(states[j + 1], id) <==> id in due && n < 10 && TimeOf(events[i]) + DelayAfter(n) <= now
  {
    FailureIsScheduled(rows, states, events, i, id, n);
    ScheduleStands(rows, states, events, i + 1, j, id);
    RunIsSerial(rows, states, events, j);
    StepAt(rows, states, events, j);
    hide IsRun, Serial, InDrain, Step, NoNews, FailsAt;
    PollTakes(rows, states[j], due, now, id);
  }

  /** How a row gets into the live drain: by a poll that finds it due, or it was there, unsettled. */
  lemma StepKeepsDrain(rows: Rows, s: Session, e: Event, id: RowId)
    requires Serial(s) && Enabled(s, e) && InDrain(Step(rows, s, e), id)
    ensures || (e.Poll? && !s.guard && id in e.due && !Undeliverable(s.table, id, e.now))
            || (InDrain(s, id) && EntryOf(Step(rows, s, e).table, id) == EntryOf(s.table, id))
  {
    if e.Poll? && !s.guard {
      PollTakes(rows, s, e.due, e.now, id);
    } else {
      StillInDrain(rows, s, e, id);
    }
    hide *;
  }

  lemma StillInDrain(rows: Rows, s: Session, e: Event, id: RowId)
    requires Serial(s) && Enabled(s, e) && InDrain(Step(rows, s, e), id) && !(e.Poll? && !s.guard)
    ensures InDrain(s, id) && EntryOf(Step(rows, s, e).table, id) == EntryOf(s.table, id)
  {
    hide HeadFirst, Undelivered, Undeliverable, NoteFailure, FailureTally, On, CrashWire, ParseOutboundContent, Retriable;
  }

  /** A row in the live drain was taken by a poll that found it due, and its entry is as it was then. */
  lemma {:induction false} TakenByPoll(rows: Rows, states: seq<Session>, events: seq<Event>, k: nat, id: RowId)
    returns (j: nat)
    requires IsRun(rows, states, events) && k < |states| && InDrain(states[k], id)
    ensures j < k <= |events| && events[j].Poll? && !states[j].guard && id in events[j].due
    ensures !Undeliverable(states[j].table, id, events[j].now)
    ensures EntryOf(states[j].table, id) == EntryOf(states[k].table, id)
    ensures forall l :: j < l <= k ==> InDrain(states[l], id)
    decreases k
  {
    if k == 0 { assert false; }
    RunIsSerial(rows, states, events, k - 1);
    StepAt(rows, states, events, k - 1);
    var s, e := states[k - 1], events[k - 1];
    hide Serial, Enabled, InDrain, Undeliverable, EntryOf;
    StepKeepsDrain(rows, s, e, id);
    if e.Poll? && !s.guard && id in e.due && !Undeliverable(s.table, id, e.now) {
      PollLeavesTable(rows, s, e, id);
      j := k - 1;
    } else {
      j := TakenByPoll(rows, states, events, k - 1, id);
    }
  }

  lemma PollLeavesTable(rows: Rows, s: Session, e: Event, id: RowId)
    requires Enabled(s, e) && e.Poll?
    ensures Step(rows, s, e).table == s.table
  {
  }

  /** Step k begins a send of the row. */
  ghost predicate BeginsSend(states: seq<Session>, k: nat, id: RowId)
    requires k + 1 < |states|
  {
    On(states[k + 1].wire, id).begun > On(states[k].wire, id).begun
  }

  lemma SendIsOfHead(rows: Rows, s: Session, e: Event, id: RowId)
    requires Serial(s) && Enabled(s, e) && On(Step(rows, s, e).wire, id).begun > On(s.wire, id).begun
    ensures e.Advance? && InDrain(s, id)
  {
    hide HeadFirst, Undelivered, NoteFailure, ScheduledBy, ParseOutboundContent, Retriable;
    if e == Crash && s.guard {
      assert s.jobs[1..] == [];
      assert CrashWire(s.wire, s.jobs[1..]) == s.wire;
    }
  }

  /** No send of a failed row begins before its delay is over: whenever one begins, a poll after the
      n-th failure, at or past its time plus the delay, took the row; and n is below ten. */
  lemma NoSendBeforeDue(rows: Rows, states: seq<Session>, events: seq<Event>, i: nat, k: nat, id: RowId, n: nat)
    returns (j: nat)
    requires IsRun(rows, states, events) && i < k && k + 1 < |states| && Sendable(rows, id)
    requires FailsAt(states, i, id, n) && NoNews(states, i + 1, k, id) && BeginsSend(states, k, id)
    ensures n < 10 && i < j < k <= |events| && events[j].Poll? && id in events[j].due
    ensures events[j].now >= TimeOf(events[i]) + DelayAfter(n)
  {
    RunIsSerial(rows, states, events, k);
    StepAt(rows, states, events, k);
    SendIsOfHead(rows, states[k], events[k], id);
    j := TakenByPoll(rows, states, events, k, id);
    if j <= i { FailedLeavesDrain(rows, states, events, i, id, n); }
    FailureIsScheduled(rows, states, events, i, id, n);
    ScheduleStands(rows, states, events, i + 1, j, id);
    ScheduleStands(rows, states, events, j, k, id);
    hide IsRun, Serial, InDrain, Step, FailsAt, BeginsSend;
  }

  /** A recorded failure ends the drain. */
  lemma FailedLeavesDrain(rows: Rows, states: seq<Session>, events: seq<Event>, i: nat, id: RowId, n: nat)
    requires IsRun(rows, states, events) && i + 1 < |states| && FailsAt(states, i, id, n)
    ensures !InDrain(states[i + 1], id)
  {
    RunIsSerial(rows, states, events, i);
    StepAt(rows, states, events, i);
    hide IsRun, HeadFirst;
    StepLeavesDrain(rows, states[i], events[i], id);
  }

  lemma StepLeavesDrain(rows: Rows, s: Session, e: Event, id: RowId)
    requires Serial(s) && Enabled(s, e) && EntryOf(Step(rows, s, e).table, id) != EntryOf(s.table, id)
    ensures !InDrain(Step(rows, s, e), id)
  {
    if InDrain(Step(rows, s, e), id) {
      StepKeepsDrain(rows, s, e, id);
      if e.Poll? { PollLeavesTable(rows, s, e, id); }
    }
    hide *;
  }
}
