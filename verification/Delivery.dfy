/** Outbound delivery of one session (src/delivery.ts:290-485 over the `delivered` table of
    src/db/session-db.ts:436-507): overlapping polls, a per-session guard, persistent retries,
    timeouts that may land late, table writes that throw, and crashes that keep only the tables. */
module Delivery {
  import OutboundContract
  import opened Wrappers

  type RowId = nat

  /** An outbound row as the container wrote it; it never changes. */
  datatype Row = Row(usage: bool, payload: OutboundContract.Payload)
  type Rows = RowId -> Row

  const DELIVERY_MAX_ATTEMPTS := 10
  const DELIVERY_BACKOFF_SCHEDULE_SEC: seq<nat> := [60, 300, 1800, 7200, 21600]

  /** One row of the `delivered` table; without `delivered` the row is a failure. */
  datatype Entry = Entry(delivered: bool, attempts: nat, retryAt: Option<int>)
  type Table = map<RowId, Entry>

  // ---------------------------------------------------------------- the table helpers

  /** Insert, or flip a failed row; a delivered row is left alone and the attempt count is kept. */
  function MarkDelivered(t: Table, id: RowId): Table {
    if id !in t then t[id := Entry(true, 0, None)]
    else if t[id].delivered then t else t[id := t[id].(delivered := true)]
  }

  /** Insert, or update a failed row; gated so that a success is never downgraded. */
  function MarkDeliveryFailed(t: Table, id: RowId, attempts: nat, retryAt: Option<int>): Table {
    if id in t && t[id].delivered then t else t[id := Entry(false, attempts, retryAt)]
  }

  function Attempts(t: Table, id: RowId): nat {
    if id in t && !t[id].delivered then t[id].attempts else 0
  }

  predicate Undeliverable(t: Table, id: RowId, now: int) {
    id in t &&
    (t[id].delivered || t[id].attempts >= DELIVERY_MAX_ATTEMPTS || t[id].retryAt.None? || t[id].retryAt.value > now)
  }

  function Backoff(attempts: nat): nat
    requires attempts >= 1
  {
    var last := |DELIVERY_BACKOFF_SCHEDULE_SEC| - 1;
    DELIVERY_BACKOFF_SCHEDULE_SEC[if attempts - 1 < last then attempts - 1 else last]
  }

  /** The catch arm: count the attempt, then dead-letter or schedule. */
  function RecordFailure(t: Table, id: RowId, permanent: bool, now: int): Table {
    var attempts := Attempts(t, id) + 1;
    if permanent || attempts >= DELIVERY_MAX_ATTEMPTS then MarkDeliveryFailed(t, id, attempts, None)
    else MarkDeliveryFailed(t, id, attempts, Some(now + Backoff(attempts)))
  }

  /** The catch arm when its own write may throw: then the row's entry stays as it was. */
  function NoteFailure(t: Table, id: RowId, permanent: bool, noted: bool, now: int): Table {
    if noted then RecordFailure(t, id, permanent, now) else t
  }

  /** A failure after the mark changes nothing, whether its write throws or not. */
  lemma MarkIsKept(t: Table, id: RowId, noted: bool, now: int)
    ensures NoteFailure(MarkDelivered(t, id), id, false, noted, now) == MarkDelivered(t, id)
    ensures RecordFailure(MarkDelivered(t, id), id, false, now) == MarkDelivered(t, id)
  {
  }

  function Undelivered(due: seq<RowId>, t: Table, now: int): seq<RowId> {
    if due == [] then []
    else if Undeliverable(t, due[0], now) then Undelivered(due[1..], t, now)
    else [due[0]] + Undelivered(due[1..], t, now)
  }

  // ---------------------------------------------------------------- one session as a state machine

  /** Where a drain stands with the first row of `todo`. */
  datatype Stage = Next | Sending | Sent | Marked
  datatype Job = Job(due: seq<RowId>, todo: seq<RowId>, stage: Stage)

  /** What happened to a row outside the host: sends begun, copies landed, copies that may still
      land, and how the attempts ended: `unmarked` counts the delivered marks that threw, `unnoted` the
      failures that could not be recorded. `scheduled` sums the backoff the host has ordered. */
  datatype Tally = Tally(begun: nat, landed: nat, late: nat, errors: nat, timeouts: nat, crashes: nat,
                         unmarked: nat, unnoted: nat, scheduled: nat)
  const UNTOUCHED := Tally(0, 0, 0, 0, 0, 0, 0, 0, 0)

  /** `guard` is membership of the session in the in-flight set. */
  datatype Session = Session(table: Table, guard: bool, jobs: seq<Job>, wire: map<RowId, Tally>)
  const FRESH := Session(map[], false, [], map[])

  function On(wire: map<RowId, Tally>, id: RowId): Tally {
    if id in wire then wire[id] else UNTOUCHED
  }

  function Finish(s: Session, k: nat): Session
    requires k < |s.jobs|
  {
    s.(guard := false, jobs := s.jobs[..k] + s.jobs[k + 1..])
  }

  function PutJob(s: Session, k: nat, job: Job): Session
    requires k < |s.jobs|
  {
    s.(jobs := s.jobs[k := job])
  }

  datatype Event =
    | Poll(due: seq<RowId>, now: int)
    | Advance(k: nat, marked: bool, noted: bool, now: int)
    | SendOk(k: nat)
    | SendFails(k: nat, timeout: bool, noted: bool, now: int)
    | Mark(k: nat)
    | MarkFails(k: nat, noted: bool, now: int)
    | Continue(k: nat)
    | ProgressFails(k: nat, now: int)
    | LateLanding(id: RowId)
    | Crash

  ghost predicate Distinct(s: seq<RowId>) {
    forall i, j :: 0 <= i < j < |s| ==> s[i] != s[j]
  }

  predicate At(s: Session, k: nat, stage: Stage) {
    k < |s.jobs| && s.jobs[k].stage == stage && (stage == Next || s.jobs[k].todo != [])
  }

  ghost predicate Enabled(s: Session, e: Event) {
    match e
    case Poll(due, _) => Distinct(due)
    case Advance(k, _, _, _) => At(s, k, Next)
    case SendOk(k) => At(s, k, Sending)
    case SendFails(k, _, _, _) => At(s, k, Sending)
    case Mark(k) => At(s, k, Sent)
    case MarkFails(k, _, _) => At(s, k, Sent)
    case Continue(k) => At(s, k, Marked)
    case ProgressFails(k, _) => At(s, k, Marked)
    case LateLanding(id) => On(s.wire, id).late > 0
    case Crash => true
  }

  function PollStep(s: Session, due: seq<RowId>, now: int): Session {
    if s.guard then s
    else
      var todo := Undelivered(due, s.table, now);
      if todo == [] then s else s.(guard := true, jobs := s.jobs + [Job(due, todo, Next)])
  }

  function ScheduledBy(t: Table, id: RowId): nat {
    var attempts := Attempts(t, id) + 1;
    if attempts >= DELIVERY_MAX_ATTEMPTS then 0 else Backoff(attempts)
  }

  /** The catch arm's share of a row's accounts. */
  function FailureTally(t: Tally, table: Table, id: RowId, noted: bool): Tally {
    if noted then t.(scheduled := t.scheduled + ScheduledBy(table, id)) else t.(unnoted := t.unnoted + 1)
  }

  /** A delivered mark that throws: the catch arm treats the attempt as failed. */
  function UnmarkedStep(s: Session, k: nat, noted: bool, now: int): Session
    requires k < |s.jobs| && s.jobs[k].todo != []
  {
    var id := s.jobs[k].todo[0];
    var t := On(s.wire, id);
    Finish(s.(table := NoteFailure(s.table, id, false, noted, now),
              wire := s.wire[id := FailureTally(t.(unmarked := t.unmarked + 1), s.table, id, noted)]), k)
  }

  /** The head of the drain loop. */
  function AdvanceStep(rows: Rows, s: Session, k: nat, marked: bool, noted: bool, now: int): Session
    requires At(s, k, Next)
  {
    var job := s.jobs[k];
    if job.todo == [] then Finish(s, k)
    else
      var id := job.todo[0];
      if rows(id).usage then
        if marked then PutJob(s.(table := MarkDelivered(s.table, id)), k, job.(todo := job.todo[1..]))
        else UnmarkedStep(s, k, noted, now)
      else if !OutboundContract.ParseOutboundContent(rows(id).payload) then
        Finish(s.(table := NoteFailure(s.table, id, true, noted, now)), k)
      else
        var t := On(s.wire, id);
        PutJob(s.(wire := s.wire[id := t.(begun := t.begun + 1)]), k, job.(stage := Sending))
  }

  function SendOkStep(s: Session, k: nat): Session
    requires At(s, k, Sending)
  {
    var id := s.jobs[k].todo[0];
    var t := On(s.wire, id);
    PutJob(s.(wire := s.wire[id := t.(landed := t.landed + 1)]), k, s.jobs[k].(stage := Sent))
  }

  /** A timeout may have landed, or land later; an error did not land. */
  function SendFailsStep(s: Session, k: nat, timeout: bool, noted: bool, now: int): Session
    requires At(s, k, Sending)
  {
    var id := s.jobs[k].todo[0];
    var t := On(s.wire, id);
    var t' := if timeout then t.(timeouts := t.timeouts + 1, late := t.late + 1) else t.(errors := t.errors + 1);
    Finish(s.(table := NoteFailure(s.table, id, false, noted, now),
              wire := s.wire[id := FailureTally(t', s.table, id, noted)]), k)
  }

  function MarkStep(s: Session, k: nat): Session
    requires At(s, k, Sent)
  {
    PutJob(s.(table := MarkDelivered(s.table, s.jobs[k].todo[0])), k, s.jobs[k].(stage := Marked))
  }

  function ContinueStep(s: Session, k: nat): Session
    requires At(s, k, Marked)
  {
    PutJob(s, k, s.jobs[k].(todo := s.jobs[k].todo[1..], stage := Next))
  }

  /** A throw after the delivered mark reaches the same catch arm, whose write then changes nothing. */
  function ProgressFailsStep(s: Session, k: nat, now: int): Session
    requires At(s, k, Marked)
  {
    Finish(s.(table := RecordFailure(s.table, s.jobs[k].todo[0], false, now)), k)
  }

  /** The in-memory guard and drains vanish; a request already sent may still land. */
  function CrashWire(wire: map<RowId, Tally>, jobs: seq<Job>): map<RowId, Tally> {
    if jobs == [] then wire
    else
      var job := jobs[0];
      var rest := CrashWire(wire, jobs[1..]);
      if job.todo == [] then rest
      else
        var id := job.todo[0];
        var t := On(rest, id);
        if job.stage == Sending then rest[id := t.(crashes := t.crashes + 1, late := t.late + 1)]
        else if job.stage == Sent then rest[id := t.(crashes := t.crashes + 1)]
        else rest
  }

  function Step(rows: Rows, s: Session, e: Event): Session
    requires Enabled(s, e)
  {
    match e
    case Poll(due, now) => PollStep(s, due, now)
    case Advance(k, marked, noted, now) => AdvanceStep(rows, s, k, marked, noted, now)
    case SendOk(k) => SendOkStep(s, k)
    case SendFails(k, timeout, noted, now) => SendFailsStep(s, k, timeout, noted, now)
    case Mark(k) => MarkStep(s, k)
    case MarkFails(k, noted, now) => UnmarkedStep(s, k, noted, now)
    case Continue(k) => ContinueStep(s, k)
    case ProgressFails(k, now) => ProgressFailsStep(s, k, now)
    case LateLanding(id) =>
      var t := On(s.wire, id);
      s.(wire := s.wire[id := t.(late := t.late - 1, landed := t.landed + 1)])
    case Crash => Session(s.table, false, [], CrashWire(s.wire, s.jobs))
  }

  ghost predicate IsRun(rows: Rows, states: seq<Session>, events: seq<Event>) {
    && |states| == |events| + 1
    && states[0] == FRESH
    && (forall i :: 0 <= i < |events| ==>
          Enabled(states[i], events[i]) && states[i + 1] == Step(rows, states[i], events[i]))
  }

  // ---------------------------------------------------------------- one drain at a time, in order

  /** The row a drain is about to handle comes, in the poll's order, after only settled rows. */
  ghost predicate HeadFirst(due: seq<RowId>, todo: seq<RowId>) {
    todo == [] ||
    ((forall i, j :: 0 <= i < j < |due| && due[j] == todo[0] ==> due[i] !in todo) && HeadFirst(due, todo[1..]))
  }

  ghost predicate Retriable(t: Table, id: RowId) {
    id in t ==> !t[id].delivered && t[id].attempts < DELIVERY_MAX_ATTEMPTS && t[id].retryAt.Some?
  }

  ghost predicate JobInv(t: Table, job: Job) {
    && Distinct(job.todo)
    && (job.stage != Next ==> job.todo != [])
    && (job.stage == Marked ==> job.todo[0] in t && t[job.todo[0]].delivered)
    && (forall i :: (if job.stage == Marked then 1 else 0) <= i < |job.todo| ==> Retriable(t, job.todo[i]))
    && HeadFirst(job.due, job.todo)
    && (forall i :: 0 <= i < |job.due| && job.due[i] !in job.todo ==> job.due[i] in t)
  }

  ghost predicate Serial(s: Session) {
    && |s.jobs| == (if s.guard then 1 else 0)
    && (s.guard ==> JobInv(s.table, s.jobs[0]))
  }

  lemma {:induction false} FilterFacts(due: seq<RowId>, t: Table, now: int)
    requires Distinct(due)
    ensures var todo := Undelivered(due, t, now);
      && Distinct(todo)
      && (forall x :: x in todo <==> x in due && !Undeliverable(t, x, now))
      && HeadFirst(due, todo)
  {
    if due != [] {
      var rest := due[1..];
      FilterFacts(rest, t, now);
      var tail := Undelivered(rest, t, now);
      assert due == [due[0]] + rest;
      assert due[0] !in rest;
      HeadFirstShift(due, tail);
    }
  }

  lemma {:induction false} HeadFirstShift(due: seq<RowId>, todo: seq<RowId>)
    requires Distinct(due) && due != [] && due[0] !in todo && HeadFirst(due[1..], todo)
    ensures HeadFirst(due, todo)
  {
    if todo != [] {
      HeadFirstShift(due, todo[1..]);
      forall i, j | 0 <= i < j < |due| && due[j] == todo[0] ensures due[i] !in todo {
        assert due[1..][j - 1] == todo[0];
        if i > 0 { assert due[1..][i - 1] == due[i]; }
      }
    }
  }

  lemma JobStep(t: Table, t': Table, job: Job)
    requires JobInv(t, job) && job.todo != []
    requires job.todo[0] in t' && t'[job.todo[0]].delivered
    requires forall x :: x != job.todo[0] ==> (x in t' <==> x in t) && (x in t ==> t'[x] == t[x])
    ensures JobInv(t', job.(stage := Marked))
    ensures JobInv(t', job.(todo := job.todo[1..], stage := Next))
  {
    var rest := job.todo[1..];
    assert forall i :: 0 <= i < |rest| ==> rest[i] == job.todo[i + 1] && rest[i] != job.todo[0];
    assert forall x :: x in job.todo <==> x == job.todo[0] || x in rest;
  }

  lemma AdvanceKeepsSerial(rows: Rows, s: Session, k: nat, marked: bool, noted: bool, now: int)
    requires Serial(s) && At(s, k, Next)
    ensures Serial(AdvanceStep(rows, s, k, marked, noted, now))
  {
    hide NoteFailure, FailureTally, On, HeadFirst, OutboundContract.ParseOutboundContent;
    var job := s.jobs[k];
    if job.todo != [] && rows(job.todo[0]).usage { JobStep(s.table, MarkDelivered(s.table, job.todo[0]), job); }
  }

  lemma StepKeepsSerial(rows: Rows, s: Session, e: Event)
    requires Serial(s) && Enabled(s, e)
    ensures Serial(Step(rows, s, e))
  {
    hide NoteFailure, FailureTally, On, RecordFailure, CrashWire, HeadFirst, Undelivered, Undeliverable,
      OutboundContract.ParseOutboundContent;
    match e
    case Poll(due, now) =>
      if !s.guard {
        FilterFacts(due, s.table, now);
        NewJob(s.table, due, now);
      }
    case Advance(k, marked, noted, now) =>
      AdvanceKeepsSerial(rows, s, k, marked, noted, now);
      hide AdvanceStep, JobInv;
    case Mark(k) => JobStep(s.table, MarkDelivered(s.table, s.jobs[k].todo[0]), s.jobs[k]);
    case Continue(k) => JobStep(s.table, s.table, s.jobs[k]);
    case _ =>
  }

  lemma NewJob(t: Table, due: seq<RowId>, now: int)
    requires Distinct(due)
    ensures JobInv(t, Job(due, Undelivered(due, t, now), Next))
  {
    FilterFacts(due, t, now);
    var todo := Undelivered(due, t, now);
    assert forall i :: 0 <= i < |todo| ==> todo[i] in todo;
  }

  lemma {:induction false} RunIsSerial(rows: Rows, states: seq<Session>, events: seq<Event>, n: nat)
    requires IsRun(rows, states, events) && n < |states|
    ensures Serial(states[n])
  {
    if n > 0 {
      RunIsSerial(rows, states, events, n - 1);
      StepKeepsSerial(rows, states[n - 1], events[n - 1]);
    }
  }

  // ---------------------------------------------------------------- what a row has been through

  function EntryOf(t: Table, id: RowId): Option<Entry> {
    if id in t then Some(t[id]) else None
  }

  /** The stage of the drain's current row, while its send is out. */
  function FlightOf(s: Session, id: RowId): Option<Stage> {
    if |s.jobs| > 0 && s.jobs[0].todo != [] && s.jobs[0].todo[0] == id && s.jobs[0].stage in {Sending, Sent}
    then Some(s.jobs[0].stage) else None
  }

  /** All backoff ordered by the first n failures. */
  function BackoffSum(n: nat): nat {
    if n == 0 then 0 else BackoffSum(n - 1) + Backoff(n)
  }

  function Failures(entry: Option<Entry>): nat {
    if entry.None? then 0 else entry.value.attempts
  }

  predicate IsDelivered(entry: Option<Entry>) {
    entry.Some? && entry.value.delivered
  }

  /** Sends begun and copies, by how the attempts ended; a usage row is never sent. */
  predicate CopiesOk(usage: bool, done: bool, t: Tally, flight: Option<Stage>) {
    if usage then flight.None? && t.begun == t.landed == t.late == t.errors == t.timeouts == t.crashes == 0
    else
      var settled := if done then 1 else 0;
      var out := if flight.Some? then 1 else 0;
      var arrived := if flight == Some(Sent) then 1 else 0;
      && t.begun == t.errors + t.timeouts + t.crashes + t.unmarked + out + settled
      && t.landed + t.late == t.timeouts + t.crashes + t.unmarked + arrived + settled
      && (arrived + settled > 0 ==> t.landed >= 1)
  }

  /** The accounts of one row: sends begun, copies, failures, and the state of its table entry. */
  ghost predicate RowOk(row: Row, entry: Option<Entry>, tally: Tally, flight: Option<Stage>) {
    if !row.usage && !OutboundContract.ParseOutboundContent(row.payload) then
      tally == UNTOUCHED && flight.None? && (entry.Some? ==> entry == Some(Entry(false, 1, None)))
    else
      var failures := Failures(entry);
      && CopiesOk(row.usage, IsDelivered(entry), tally, flight)
      && failures + tally.unnoted == tally.errors + tally.timeouts + tally.unmarked
      && failures <= DELIVERY_MAX_ATTEMPTS
      && (IsDelivered(entry) ==> failures < DELIVERY_MAX_ATTEMPTS && flight.None?)
      && (entry.Some? && !IsDelivered(entry) ==>
            failures >= 1 && (failures == DELIVERY_MAX_ATTEMPTS <==> entry.value.retryAt.None?))
      && tally.scheduled == BackoffSum(if failures < DELIVERY_MAX_ATTEMPTS then failures else DELIVERY_MAX_ATTEMPTS - 1)
  }

  ghost predicate RowInv(rows: Rows, s: Session, id: RowId) {
    RowOk(rows(id), EntryOf(s.table, id), On(s.wire, id), FlightOf(s, id))
  }

  lemma AdvanceKeepsRow(rows: Rows, s: Session, k: nat, marked: bool, noted: bool, now: int, id: RowId)
    requires Serial(s) && RowInv(rows, s, id) && At(s, k, Next)
    ensures RowInv(rows, AdvanceStep(rows, s, k, marked, noted, now), id)
  {
    if s.jobs[k].todo != [] && rows(s.jobs[k].todo[0]).usage && !marked {
      UnmarkedKeepsRow(rows, s, k, noted, now, id);
    } else {
      hide HeadFirst, OutboundContract.ParseOutboundContent, BackoffSum, UnmarkedStep;
      if s.jobs[k].todo != [] && s.jobs[k].todo[0] == id { assert Retriable(s.table, id); }
    }
  }

  lemma UnmarkedKeepsRow(rows: Rows, s: Session, k: nat, noted: bool, now: int, id: RowId)
    requires Serial(s) && RowInv(rows, s, id)
    requires At(s, k, Sent) || (At(s, k, Next) && s.jobs[k].todo != [] && rows(s.jobs[k].todo[0]).usage)
    ensures RowInv(rows, UnmarkedStep(s, k, noted, now), id)
  {
    hide HeadFirst, OutboundContract.ParseOutboundContent;
    if s.jobs[k].todo[0] == id { assert Retriable(s.table, id); }
  }

  lemma SendOkKeepsRow(rows: Rows, s: Session, k: nat, id: RowId)
    requires Serial(s) && RowInv(rows, s, id) && At(s, k, Sending)
    ensures RowInv(rows, SendOkStep(s, k), id)
  {
    hide HeadFirst, OutboundContract.ParseOutboundContent, BackoffSum;
    if s.jobs[k].todo[0] == id { assert Retriable(s.table, id); }
  }

  lemma SendFailsKeepsRow(rows: Rows, s: Session, k: nat, timeout: bool, noted: bool, now: int, id: RowId)
    requires Serial(s) && RowInv(rows, s, id) && At(s, k, Sending)
    ensures RowInv(rows, SendFailsStep(s, k, timeout, noted, now), id)
  {
    hide HeadFirst, OutboundContract.ParseOutboundContent;
    if s.jobs[k].todo[0] == id { assert Retriable(s.table, id); }
  }

  lemma MarkKeepsRow(rows: Rows, s: Session, k: nat, id: RowId)
    requires Serial(s) && RowInv(rows, s, id) && At(s, k, Sent)
    ensures RowInv(rows, MarkStep(s, k), id)
  {
    hide HeadFirst, OutboundContract.ParseOutboundContent, BackoffSum;
    if s.jobs[k].todo[0] == id { assert Retriable(s.table, id); }
  }

  lemma StepKeepsRow(rows: Rows, s: Session, e: Event, id: RowId)
    requires Serial(s) && RowInv(rows, s, id) && Enabled(s, e)
    ensures RowInv(rows, Step(rows, s, e), id)
  {
    hide HeadFirst, OutboundContract.ParseOutboundContent, AdvanceStep, SendOkStep, SendFailsStep, MarkStep,
      UnmarkedStep, BackoffSum, CrashWire;
    match e
    case Advance(k, marked, noted, now) => AdvanceKeepsRow(rows, s, k, marked, noted, now, id);
    case SendOk(k) => SendOkKeepsRow(rows, s, k, id);
    case SendFails(k, timeout, noted, now) => SendFailsKeepsRow(rows, s, k, timeout, noted, now, id);
    case Mark(k) => MarkKeepsRow(rows, s, k, id);
    case MarkFails(k, noted, now) => UnmarkedKeepsRow(rows, s, k, noted, now, id);
    case Crash => CrashKeepsRow(rows, s, id);
    case _ =>
  }

  lemma CrashKeepsRow(rows: Rows, s: Session, id: RowId)
    requires Serial(s) && RowInv(rows, s, id)
    ensures RowInv(rows, Session(s.table, false, [], CrashWire(s.wire, s.jobs)), id)
  {
    hide HeadFirst, OutboundContract.ParseOutboundContent, BackoffSum;
    if s.guard {
      assert s.jobs[1..] == [];
      assert CrashWire(s.wire, s.jobs[1..]) == s.wire;
    }
  }

  lemma {:induction false} RunKeepsRow(rows: Rows, states: seq<Session>, events: seq<Event>, n: nat, id: RowId)
    requires IsRun(rows, states, events) && n < |states|
    ensures RowInv(rows, states[n], id)
  {
    if n > 0 {
      RunKeepsRow(rows, states, events, n - 1, id);
      RunIsSerial(rows, states, events, n - 1);
      StepKeepsRow(rows, states[n - 1], events[n - 1], id);
    }
  }
}
