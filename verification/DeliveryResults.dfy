/** What every run of Delivery guarantees for one row (src/delivery.ts:290-485): copies, attempts,
    rejection, finality and order. */
module DeliveryResults {
  import opened Delivery
  import opened OutboundContract
  import opened Wrappers

  /** Over any run, a row lands at most once plus its timed-out attempts, the crashes that fell
      between its send and its mark, and the marks that threw; a delivered row did land. */
  lemma CopiesAreAccountedFor(rows: Rows, states: seq<Session>, events: seq<Event>, n: nat, id: RowId)
    requires IsRun(rows, states, events) && n < |states|
    ensures var t := On(states[n].wire, id);
      && t.landed <= 1 + t.timeouts + t.crashes + t.unmarked
      && t.begun <= 1 + t.errors + t.timeouts + t.crashes + t.unmarked
      && (!rows(id).usage && IsDelivered(EntryOf(states[n].table, id)) ==> t.landed >= 1)
  {
    RunKeepsRow(rows, states, events, n, id);
  }

  lemma BackoffTotal(n: nat)
    ensures BackoffSum(if n < DELIVERY_MAX_ATTEMPTS then n else DELIVERY_MAX_ATTEMPTS - 1) <= 117360
    ensures BackoffSum(DELIVERY_MAX_ATTEMPTS - 1) == 117360
  {
    assert BackoffSum(1) == 60 && BackoffSum(2) == 360 && BackoffSum(3) == 2160;
    assert BackoffSum(4) == 9360 && BackoffSum(5) == 30960 && BackoffSum(6) == 52560;
    assert BackoffSum(7) == 74160 && BackoffSum(8) == 95760 && BackoffSum(9) == 117360;
  }

  /** At most ten failures are ever recorded, their backoff adds up to at most 117360 s, and only a
      crash or a failure that could not be recorded can add a send beyond the ten. */
  lemma AttemptsAreBounded(rows: Rows, states: seq<Session>, events: seq<Event>, n: nat, id: RowId)
    requires IsRun(rows, states, events) && n < |states|
    ensures var t := On(states[n].wire, id);
      && Failures(EntryOf(states[n].table, id)) <= DELIVERY_MAX_ATTEMPTS
      && t.scheduled <= 117360
      && t.begun <= DELIVERY_MAX_ATTEMPTS + t.crashes + t.unnoted
  {
    hide IsRun, Serial, FlightOf, EntryOf, On, ParseOutboundContent, BackoffSum;
    RunKeepsRow(rows, states, events, n, id);
    RunIsSerial(rows, states, events, n);
    if FlightOf(states[n], id).Some? { FlightIsRetriable(states[n], id); }
    BackoffTotal(Failures(EntryOf(states[n].table, id)));
  }

  lemma FlightIsRetriable(s: Session, id: RowId)
    requires Serial(s) && FlightOf(s, id).Some?
    ensures Failures(EntryOf(s.table, id)) < DELIVERY_MAX_ATTEMPTS
  {
    assert Retriable(s.table, id);
    hide HeadFirst;
  }

  /** A row the contract rejects is never sent; once handled it is dead-lettered with one attempt. */
  lemma RejectedRowIsNeverSent(rows: Rows, states: seq<Session>, events: seq<Event>, n: nat, id: RowId)
    requires IsRun(rows, states, events) && n < |states|
    requires !rows(id).usage && !ParseOutboundContent(rows(id).payload)
    ensures On(states[n].wire, id) == UNTOUCHED && !IsDelivered(EntryOf(states[n].table, id))
    ensures id in states[n].table ==>
      states[n].table[id] == Entry(false, 1, None) && forall now :: Undeliverable(states[n].table, id, now)
  {
    RunKeepsRow(rows, states, events, n, id);
  }

  lemma StepOfRun(rows: Rows, states: seq<Session>, events: seq<Event>, i: nat)
    requires IsRun(rows, states, events) && i + 1 < |states|
    ensures i < |events| && Enabled(states[i], events[i]) && states[i + 1] == Step(rows, states[i], events[i])
  {
    hide Step, Enabled;
  }

  /** A delivered row keeps its entry for the rest of the run. */
  lemma {:induction false} DeliveredIsFinal(
      rows: Rows, states: seq<Session>, events: seq<Event>, n: nat, m: nat, id: RowId)
    requires IsRun(rows, states, events) && n <= m < |states|
    requires IsDelivered(EntryOf(states[n].table, id))
    ensures EntryOf(states[m].table, id) == EntryOf(states[n].table, id)
    decreases m
  {
    hide *;
    if n < m {
      DeliveredIsFinal(rows, states, events, n, m - 1, id);
      StepOfRun(rows, states, events, m - 1);
      StepKeepsDelivered(rows, states[m - 1], events[m - 1], id);
    }
  }

  lemma StepKeepsDelivered(rows: Rows, s: Session, e: Event, id: RowId)
    requires Enabled(s, e) && IsDelivered(EntryOf(s.table, id))
    ensures EntryOf(Step(rows, s, e).table, id) == EntryOf(s.table, id)
  {
    hide CrashWire, Undelivered, ParseOutboundContent, FailureTally, On, Attempts, Backoff;
  }

  /** When a send of a row begins, every row before it in that poll's order already has an entry:
      it was delivered, or has already failed. */
  lemma SendsFollowTheOrder(rows: Rows, states: seq<Session>, events: seq<Event>, n: nat, k: nat, now: int, i: nat, j: nat)
    requires IsRun(rows, states, events) && n < |states|
    requires At(states[n], k, Next) && states[n].jobs[k].todo != []
    requires i < j < |states[n].jobs[k].due| && states[n].jobs[k].due[j] == states[n].jobs[k].todo[0]
    ensures var earlier := states[n].jobs[k].due[i];
      earlier in states[n].table && (states[n].table[earlier].delivered || states[n].table[earlier].attempts >= 1)
  {
    RunIsSerial(rows, states, events, n);
    var job := states[n].jobs[k];
    assert HeadFirst(job.due, job.todo);
    assert job.due[i] !in job.todo;
    RunKeepsRow(rows, states, events, n, job.due[i]);
  }
}
