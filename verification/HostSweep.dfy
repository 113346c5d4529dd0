/** The stuck-container rules and the inbound retry sweep (src/host-sweep.ts:153-206, 246-267,
    576-636), with the rows they read and write (src/db/session-db.ts:251-253, 287-349). Times are
    milliseconds; timestamps written by the database are whole seconds. */
module HostSweep {
  import opened Wrappers

  type MsgId = nat

  const CLAIM_STUCK_MS := 60000
  const DEFAULT_CONTAINER_TIMEOUT_MS := 1800000
  const MAX_TRIES := 5
  const BACKOFF_BASE_SEC := 5

  function Max(a: int, b: int): int {
    if a < b then b else a
  }

  // ---------------------------------------------------------------- is a container stuck?

  /** What the container last said it was doing, and the timeout it declared for it. */
  datatype ContainerState = ContainerState(inBash: bool, declaredTimeoutMs: Option<int>)

  /** A message the container holds, and when it took it; None when the stamp does not parse. */
  datatype Claim = Claim(messageId: MsgId, claimedAt: Option<nat>)

  datatype StuckDecision =
    | Ok
    | KillCeiling(heartbeatAgeMs: int, ceilingMs: int)
    | KillClaim(messageId: MsgId, claimAgeMs: int, toleranceMs: int)

  function BashTimeoutMs(state: Option<ContainerState>): Option<int> {
    if state.None? || !state.value.inBash then None else state.value.declaredTimeoutMs
  }

  function Declared(state: Option<ContainerState>): int {
    if BashTimeoutMs(state).Some? then BashTimeoutMs(state).value else 0
  }

  /** The idle ceiling of a host: unset, unreadable and 0 mean the default; never under a minute. */
  function AbsoluteCeiling(containerTimeout: Option<int>): int {
    var unset := containerTimeout.None? || containerTimeout.value == 0;
    Max(60000, if unset then DEFAULT_CONTAINER_TIMEOUT_MS else containerTimeout.value)
  }

  function Ceiling(containerTimeout: Option<int>, state: Option<ContainerState>): int {
    Max(AbsoluteCeiling(containerTimeout), Declared(state))
  }

  function Tolerance(state: Option<ContainerState>): int {
    Max(CLAIM_STUCK_MS, Declared(state))
  }

  /** The ceiling rule; a heartbeat of 0 means there is none yet. */
  predicate CeilingFires(now: int, heartbeat: nat, ceiling: int) {
    heartbeat != 0 && now - heartbeat > ceiling
  }

  /** The claim rule for one claim. */
  predicate ClaimFires(now: int, heartbeat: nat, tolerance: int, c: Claim) {
    c.claimedAt.Some? && now - c.claimedAt.value > tolerance && heartbeat <= c.claimedAt.value
  }

  predicate SomeClaimFires(now: int, heartbeat: nat, tolerance: int, claims: seq<Claim>) {
    exists i :: 0 <= i < |claims| && ClaimFires(now, heartbeat, tolerance, claims[i])
  }

  predicate FirstStuck(now: int, heartbeat: nat, tolerance: int, claims: seq<Claim>, i: nat)
    requires i < |claims|
  {
    && ClaimFires(now, heartbeat, tolerance, claims[i])
    && (forall j :: 0 <= j < i ==> !ClaimFires(now, heartbeat, tolerance, claims[j]))
  }

  /** The first rule that fires decides; the claim named is the first stuck one. */
  method DecideStuckAction(containerTimeout: Option<int>, now: int, heartbeat: nat,
                           state: Option<ContainerState>, claims: seq<Claim>)
    returns (d: StuckDecision)
    ensures d.Ok? <==>
      !CeilingFires(now, heartbeat, Ceiling(containerTimeout, state)) &&
      !SomeClaimFires(now, heartbeat, Tolerance(state), claims)
    ensures d.KillCeiling? <==> CeilingFires(now, heartbeat, Ceiling(containerTimeout, state))
    ensures d.KillCeiling? ==> d == KillCeiling(now - heartbeat, Ceiling(containerTimeout, state))
    ensures d.KillClaim? ==>
      (exists i :: 0 <= i < |claims| && FirstStuck(now, heartbeat, Tolerance(state), claims, i) &&
         d == KillClaim(claims[i].messageId, now - claims[i].claimedAt.value, Tolerance(state)))
  {
    var declared := Declared(state);
    if heartbeat != 0 {
      var heartbeatAge := now - heartbeat;
      var ceiling := Max(AbsoluteCeiling(containerTimeout), declared);
      if heartbeatAge > ceiling { return KillCeiling(heartbeatAge, ceiling); }
    }
    var tolerance := Max(CLAIM_STUCK_MS, declared);
    for i := 0 to |claims|
      invariant forall j :: 0 <= j < i ==> !ClaimFires(now, heartbeat, tolerance, claims[j])
    {
      if claims[i].claimedAt.None? { continue; }
      var claimedAt := claims[i].claimedAt.value;
      var claimAge := now - claimedAt;
      if claimAge <= tolerance { continue; }
      if heartbeat > claimedAt { continue; }
      return KillClaim(claims[i].messageId, claimAge, tolerance);
    }
    d := Ok;
  }

  /** The larger of the two limits. */
  predicate IsLarger(x: int, a: int, b: int) {
    x >= a && x >= b && (x == a || x == b)
  }

  /** The limits in numbers: 30 minutes, or what the host sets, but a minute at least; a minute for a
      claim; and either is raised to the timeout a running Bash command declares. */
  lemma LimitsAre(containerTimeout: Option<int>, state: Option<ContainerState>)
    ensures var base := AbsoluteCeiling(containerTimeout);
      var bash := state.Some? && state.value.inBash && state.value.declaredTimeoutMs.Some?;
      && IsLarger(base, 60000, if containerTimeout.Some? && containerTimeout.value != 0 then containerTimeout.value else 1800000)
      && (if bash then IsLarger(Ceiling(containerTimeout, state), base, state.value.declaredTimeoutMs.value)
          else Ceiling(containerTimeout, state) == base)
      && (if bash then IsLarger(Tolerance(state), 60000, state.value.declaredTimeoutMs.value) else Tolerance(state) == 60000)
  {
  }

  // ---------------------------------------------------------------- a container that keeps beating

  /** The instants a container touches its heartbeat file, in order. */
  ghost predicate IsTimeline(beats: seq<nat>) {
    (forall i :: 0 <= i < |beats| ==> beats[i] > 0) && (forall i, j :: 0 <= i < j < |beats| ==> beats[i] < beats[j])
  }

  /** What the file shows at an instant: the latest touch up to then, 0 before the first. */
  function LastBeat(beats: seq<nat>, now: int): nat {
    if beats == [] then 0
    else if beats[|beats| - 1] <= now then beats[|beats| - 1]
    else LastBeat(beats[..|beats| - 1], now)
  }

  lemma {:induction false} LastBeatIsLatest(beats: seq<nat>, now: int)
    requires IsTimeline(beats)
    ensures LastBeat(beats, now) == 0 || (LastBeat(beats, now) in beats && LastBeat(beats, now) <= now)
    ensures forall b :: b in beats && b <= now ==> b <= LastBeat(beats, now)
  {
    if beats != [] && beats[|beats| - 1] > now {
      var init := beats[..|beats| - 1];
      LastBeatIsLatest(init, now);
      assert beats == init + [beats[|beats| - 1]];
    }
  }

  /** From its first beat on, the container beats at least once per ceiling, up to `now`. */
  ghost predicate BeatsPerCeiling(beats: seq<nat>, now: int, ceiling: int) {
    && (forall i :: 0 < i < |beats| ==> beats[i] - beats[i - 1] <= ceiling)
    && (beats != [] ==> now - beats[|beats| - 1] <= ceiling)
  }

  /** It beats after taking a message, within the tolerance, unless that time has yet to pass. */
  ghost predicate BeatsAfterClaim(beats: seq<nat>, now: int, c: Claim) {
    c.claimedAt.Some? ==>
      now - c.claimedAt.value <= CLAIM_STUCK_MS ||
      exists b :: b in beats && c.claimedAt.value < b <= c.claimedAt.value + CLAIM_STUCK_MS
  }

  lemma {:induction false} NoGapExceedsCeiling(beats: seq<nat>, now: int, ceiling: int)
    requires IsTimeline(beats) && BeatsPerCeiling(beats, now, ceiling)
    ensures LastBeat(beats, now) != 0 ==> now - LastBeat(beats, now) <= ceiling
  {
    if beats != [] && beats[|beats| - 1] > now {
      NoGapExceedsCeiling(beats[..|beats| - 1], now, ceiling);
    }
  }

  /** Main result: whatever Bash timeout it declares, a container that beats after each claim within
      the tolerance and at least once per ceiling is never killed: neither rule fires. */
  lemma BeatingContainerIsNeverKilled(containerTimeout: Option<int>, beats: seq<nat>, now: int,
                                      state: Option<ContainerState>, claims: seq<Claim>)
    requires IsTimeline(beats) && BeatsPerCeiling(beats, now, AbsoluteCeiling(containerTimeout))
    requires forall i :: 0 <= i < |claims| ==> BeatsAfterClaim(beats, now, claims[i])
    ensures !CeilingFires(now, LastBeat(beats, now), Ceiling(containerTimeout, state))
    ensures !SomeClaimFires(now, LastBeat(beats, now), Tolerance(state), claims)
  {
    NoGapExceedsCeiling(beats, now, AbsoluteCeiling(containerTimeout));
    LastBeatIsLatest(beats, now);
    forall i | 0 <= i < |claims| ensures !ClaimFires(now, LastBeat(beats, now), Tolerance(state), claims[i]) {
      var c := claims[i];
      if c.claimedAt.Some? && now - c.claimedAt.value > Tolerance(state) {
        var b :| b in beats && c.claimedAt.value < b <= c.claimedAt.value + CLAIM_STUCK_MS;
      }
    }
  }

  /** And exactly: a container survives a sweep iff it has not beaten at all or has within the
      ceiling, and has beaten since it took each message it holds for longer than the tolerance. */
  lemma SurvivesIffHeard(containerTimeout: Option<int>, beats: seq<nat>, now: int,
                         state: Option<ContainerState>, claims: seq<Claim>)
    requires IsTimeline(beats)
    ensures
      !CeilingFires(now, LastBeat(beats, now), Ceiling(containerTimeout, state)) &&
      !SomeClaimFires(now, LastBeat(beats, now), Tolerance(state), claims)
      <==>
      ((forall b :: b in beats ==> b > now) ||
       exists b :: b in beats && now - Ceiling(containerTimeout, state) <= b <= now) &&
      (forall i :: 0 <= i < |claims| && claims[i].claimedAt.Some? && now - claims[i].claimedAt.value > Tolerance(state) ==>
         exists b :: b in beats && claims[i].claimedAt.value < b <= now)
  {
    var last := LastBeat(beats, now);
    LastBeatIsLatest(beats, now);
    assert (forall b :: b in beats ==> b > now) || exists b :: b in beats && 0 < b <= now;
    assert !CeilingFires(now, last, Ceiling(containerTimeout, state)) <==>
      (forall b :: b in beats ==> b > now) ||
      exists b :: b in beats && now - Ceiling(containerTimeout, state) <= b <= now;
    forall i | 0 <= i < |claims| && claims[i].claimedAt.Some?
      ensures last > claims[i].claimedAt.value <==> exists b :: b in beats && claims[i].claimedAt.value < b <= now
    {
    }
  }

  // ---------------------------------------------------------------- the retry tables

  datatype Status = Pending | Failed | Completed

  /** An inbound row; `processAfter` is None when null or unreadable. */
  datatype Row = Row(status: Status, tries: nat, processAfter: Option<int>)
  type Table = map<MsgId, Row>

  datatype AckStatus = Processing | Done
  /** A row of the container's `processing_ack` table; Done stands for `completed` and `failed`. */
  datatype Ack = Ack(messageId: MsgId, status: AckStatus)

  /** The database clock: whole seconds. */
  function Floor(ms: nat): nat {
    ms / 1000 * 1000
  }

  function Pow2(n: nat): nat {
    if n == 0 then 1 else 2 * Pow2(n - 1)
  }

  function RetryWithBackoff(r: Row, stamp: nat): Row {
    r.(tries := r.tries + 1, processAfter := Some(Floor(stamp) + BACKOFF_BASE_SEC * Pow2(r.tries) * 1000))
  }

  predicate Rescheduled(r: Row, now: int) {
    r.processAfter.Some? && r.processAfter.value > now
  }

  /** What a reset does to the row of a claimed message: `now` is the host's clock at its start,
      `stamp` the database's at the update. */
  function ResetRow(r: Row, now: nat, stamp: nat): Row {
    if r.status != Pending || Rescheduled(r, now) then r
    else if r.tries >= MAX_TRIES then r.(status := Failed)
    else RetryWithBackoff(r, stamp)
  }

  function Claims(acks: seq<Ack>): seq<MsgId> {
    if acks == [] then []
    else (if acks[0].status == Processing then [acks[0].messageId] else []) + Claims(acks[1..])
  }

  function WithoutClaims(acks: seq<Ack>): seq<Ack> {
    if acks == [] then []
    else (if acks[0].status == Processing then [] else [acks[0]]) + WithoutClaims(acks[1..])
  }

  function ResetRows(rows: Table, claims: seq<MsgId>, now: nat, stamp: nat): Table {
    map id | id in rows :: if id in claims then ResetRow(rows[id], now, stamp) else rows[id]
  }

  lemma ResetTwiceInOnePass(r: Row, now: nat, stamp: nat)
    requires now <= stamp
    ensures ResetRow(ResetRow(r, now, stamp), now, stamp) == ResetRow(r, now, stamp)
  {
    assert Pow2(r.tries) >= 1 by { PowPositive(r.tries); }
  }

  lemma {:induction false} PowPositive(n: nat)
    ensures Pow2(n) >= 1
  {
    if n > 0 { PowPositive(n - 1); }
  }

  /** Resetting one more claim, even one seen before in the pass, is resetting it last. */
  lemma ResetOneMore(rows: Table, claims: seq<MsgId>, id: MsgId, now: nat, stamp: nat)
    requires now <= stamp
    ensures var done := ResetRows(rows, claims, now, stamp);
      ResetRows(rows, claims + [id], now, stamp) ==
      if id in done then done[id := ResetRow(done[id], now, stamp)] else done
  {
    if id in rows { ResetTwiceInOnePass(rows[id], now, stamp); }
    hide ResetRow;
  }

  /** A session's two databases, as the sweep sees them. */
  class SessionDbs {
    var rows: Table
    var acks: seq<Ack>

    method MarkMessageFailed(id: MsgId)
      modifies this`rows
      ensures rows == if id in old(rows) then old(rows)[id := old(rows)[id].(status := Failed)] else old(rows)
    {
      if id in rows { rows := rows[id := rows[id].(status := Failed)]; }
    }

    method Retry(id: MsgId, backoffSec: nat, stamp: nat)
      modifies this`rows
      ensures rows ==
        if id in old(rows)
        then old(rows)[id := old(rows)[id].(tries := old(rows)[id].tries + 1,
                                            processAfter := Some(Floor(stamp) + backoffSec * 1000))]
        else old(rows)
    {
      if id in rows {
        rows := rows[id := rows[id].(tries := rows[id].tries + 1, processAfter := Some(Floor(stamp) + backoffSec * 1000))];
      }
    }

    /** One pass of the loop: the claimed message, if it is there, pending and due. */
    method ResetOne(id: MsgId, now: nat, stamp: nat)
      modifies this`rows
      ensures rows == if id in old(rows) then old(rows)[id := ResetRow(old(rows)[id], now, stamp)] else old(rows)
    {
      if id !in rows || rows[id].status != Pending { return; }
      if Rescheduled(rows[id], now) { return; }
      if rows[id].tries >= MAX_TRIES {
        MarkMessageFailed(id);
      } else {
        Retry(id, BACKOFF_BASE_SEC * Pow2(rows[id].tries), stamp);
      }
    }

    /** Reschedules or fails every claimed pending message once; then drops the claims, which may fail. */
    method ResetStuckProcessingRows(now: nat, stamp: nat, cleared: bool)
      requires now <= stamp
      modifies this
      ensures rows == ResetRows(old(rows), Claims(old(acks)), now, stamp)
      ensures acks == if cleared then WithoutClaims(old(acks)) else old(acks)
    {
      var claims := Claims(acks);
      var k := 0;
      assert rows == ResetRows(rows, [], now, stamp);
      while k < |claims|
        invariant k <= |claims|
        invariant rows == ResetRows(old(rows), claims[..k], now, stamp)
        invariant acks == old(acks)
      {
        ResetOneMore(old(rows), claims[..k], claims[k], now, stamp);
        ResetOne(claims[k], now, stamp);
        k := k + 1;
        assert claims[..k] == claims[..k - 1] + [claims[k - 1]];
      }
      assert claims[..k] == claims;
      if cleared { acks := WithoutClaims(acks); }
    }
  }

  // ---------------------------------------------------------------- the pass over all sessions

  type SessionId = nat

  /** Whether sweeping a session throws may depend on everything swept before it. */
  type Sweep = (seq<SessionId>, SessionId) -> bool

  function Failures(sessions: seq<SessionId>, throws: Sweep): nat {
    if sessions == [] then 0
    else
      var before := sessions[..|sessions| - 1];
      Failures(before, throws) + if throws(before, sessions[|sessions| - 1]) then 1 else 0
  }

  /** Every session is swept in turn, whichever of the sweeps before it threw. */
  method SweepEachSession(sessions: seq<SessionId>, throws: Sweep)
    returns (visited: seq<SessionId>, swept: nat, failed: nat)
    ensures visited == sessions
    ensures failed == Failures(sessions, throws) && swept + failed == |sessions|
  {
    visited, swept, failed := [], 0, 0;
    for i := 0 to |sessions|
      invariant visited == sessions[..i]
      invariant failed == Failures(sessions[..i], throws) && swept + failed == i
    {
      assert sessions[..i + 1][..i] == sessions[..i];
      var threw := throws(visited, sessions[i]);
      visited := visited + [sessions[i]];
      if threw { failed := failed + 1; } else { swept := swept + 1; }
    }
    assert sessions[..|sessions|] == sessions;
  }

  // ---------------------------------------------------------------- repeating the reset

  function RetryDelaySec(tries: nat): nat
    requires tries < 5
  {
    if tries == 0 then 5 else if tries == 1 then 10 else if tries == 2 then 20 else if tries == 3 then 40 else 80
  }

  /** Exactly what a reset does to a claimed message: one that is pending and due waits 5, 10, 20, 40
      and 80 seconds after its five retries, from the whole second of the update, and then fails. */
  lemma ResetIsExact(r: Row, now: nat, stamp: nat)
    ensures var due := r.status == Pending && (r.processAfter.None? || r.processAfter.value <= now);
      ResetRow(r, now, stamp) ==
        if !due then r
        else if r.tries < 5
        then Row(Pending, r.tries + 1, Some(stamp - stamp % 1000 + RetryDelaySec(r.tries) * 1000))
        else r.(status := Failed)
  {
    assert Pow2(1) == 2 && Pow2(2) == 4 && Pow2(3) == 8 && Pow2(4) == 16;
  }

  /** Repeating the reset changes no message that is inside its backoff window, and a message just
      rescheduled is inside it for 5·2^tries seconds, less what the database clock rounds off. */
  lemma RepeatingTheResetIsIdle(rows: Table, claims: seq<MsgId>, now: nat, stamp: nat, again: seq<MsgId>, now': nat, stamp': nat)
    requires now <= stamp <= now' <= stamp'
    ensures var once := ResetRows(rows, claims, now, stamp);
      forall id :: id in rows ==>
        (once[id] != rows[id] && now' < Floor(stamp) + BACKOFF_BASE_SEC * Pow2(rows[id].tries) * 1000 ==>
           ResetRows(once, again, now', stamp')[id] == once[id]) &&
        (Rescheduled(once[id], now') || once[id].status != Pending ==> ResetRows(once, again, now', stamp')[id] == once[id])
  {
  }

  // ---------------------------------------------------------------- one message over a whole run

  /** `first` is the instant of the first reschedule since the message was new or requeued;
      `scheduledSec` sums the backoffs since then. */
  datatype World = World(clock: nat, row: Row, ack: Option<AckStatus>, first: Option<nat>, scheduledSec: nat)

  datatype Event =
    | Tick(now: nat)
    | TakeMessage
    | DropClaim
    | Acknowledge
    | Reset(stamp: nat, cleared: bool)
    | SyncAcks
    | Requeue

  predicate Due(w: World) {
    w.row.processAfter.None? || w.row.processAfter.value <= w.clock
  }

  predicate Enabled(w: World, e: Event) {
    match e
    case Tick(now) => w.clock <= now
    case TakeMessage => w.row.status == Pending && w.ack.None? && Due(w)
    case DropClaim => w.ack == Some(Processing)
    case Acknowledge => w.ack == Some(Processing)
    case Reset(stamp, _) => w.clock <= stamp
    case _ => true
  }

  function ResetStep(w: World, stamp: nat, cleared: bool): World {
    if w.ack != Some(Processing) then w.(clock := stamp)
    else
      var row := ResetRow(w.row, w.clock, stamp);
      var retried := row.tries > w.row.tries;
      World(stamp, row, if cleared then None else w.ack,
            if retried && w.first.None? then Some(stamp) else w.first,
            if retried then w.scheduledSec + BACKOFF_BASE_SEC * Pow2(w.row.tries) else w.scheduledSec)
  }

  function Step(w: World, e: Event): World
    requires Enabled(w, e)
  {
    match e
    case Tick(now) => w.(clock := now)
    case TakeMessage => w.(ack := Some(Processing))
    case DropClaim => w.(ack := None)
    case Acknowledge => w.(ack := Some(Done))
    case Reset(stamp, cleared) => ResetStep(w, stamp, cleared)
    case SyncAcks => if w.ack == Some(Done) then w.(row := w.row.(status := Completed)) else w
    case Requeue =>
      if w.row.status == Failed then w.(row := Row(Pending, 0, None), first := None, scheduledSec := 0) else w
  }

  function AckOf(acks: seq<Ack>, id: MsgId): Option<AckStatus> {
    if acks == [] then None
    else if acks[0].messageId == id then Some(acks[0].status)
    else AckOf(acks[1..], id)
  }

  ghost predicate PrimaryKey(acks: seq<Ack>) {
    forall i, j :: 0 <= i < j < |acks| ==> acks[i].messageId != acks[j].messageId
  }

  lemma {:induction false} ClaimsMatchAcks(acks: seq<Ack>, id: MsgId)
    requires PrimaryKey(acks)
    ensures id in Claims(acks) <==> AckOf(acks, id) == Some(Processing)
    ensures AckOf(WithoutClaims(acks), id) == if AckOf(acks, id) == Some(Processing) then None else AckOf(acks, id)
    ensures AckOf(acks, id).None? <==> forall i :: 0 <= i < |acks| ==> acks[i].messageId != id
  {
    if acks != [] {
      var rest := acks[1..];
      ClaimsMatchAcks(rest, id);
      assert forall i :: 0 <= i < |rest| ==> rest[i] == acks[i + 1];
      assert acks[0].messageId == id ==> AckOf(rest, id).None?;
      assert [] + WithoutClaims(rest) == WithoutClaims(rest) && ([acks[0]] + WithoutClaims(rest))[1..] == WithoutClaims(rest);
    }
  }

  /** What the reset of a whole session does, seen from one of its messages, is the step below. */
  lemma ResetActsOnEachMessage(rows: Table, acks: seq<Ack>, id: MsgId, w: World, stamp: nat, cleared: bool)
    requires PrimaryKey(acks) && id in rows && w.clock <= stamp
    requires w.row == rows[id] && w.ack == AckOf(acks, id)
    ensures var w' := ResetStep(w, stamp, cleared);
      && w'.row == ResetRows(rows, Claims(acks), w.clock, stamp)[id]
      && w'.ack == AckOf(if cleared then WithoutClaims(acks) else acks, id)
  {
    ClaimsMatchAcks(acks, id);
  }

  function NewMessage(now: nat, processAfter: Option<int>): World {
    World(now, Row(Pending, 0, processAfter), None, None, 0)
  }

  ghost predicate IsRun(states: seq<World>, events: seq<Event>) {
    && |states| == |events| + 1
    && (exists now, processAfter :: states[0] == NewMessage(now, processAfter))
    && (forall i :: 0 <= i < |events| ==> Enabled(states[i], events[i]) && states[i + 1] == Step(states[i], events[i]))
  }

  /** The backoffs of the first k reschedules: 5, 10, 20, 40, 80 seconds. */
  function TotalSec(k: nat): nat {
    if k == 0 then 0 else TotalSec(k - 1) + BACKOFF_BASE_SEC * Pow2(k - 1)
  }

  /** From the first reschedule on, the next attempt is due no earlier than the backoffs add up to. */
  ghost predicate OnSchedule(row: Row, first: Option<nat>, scheduledSec: nat) {
    && row.tries <= MAX_TRIES
    && scheduledSec == TotalSec(row.tries)
    && (row.tries == 0 <==> first.None?)
    && (first.Some? ==>
          && row.processAfter.Some?
          && row.processAfter.value >= Floor(first.value) + scheduledSec * 1000
          && row.processAfter.value % 1000 == 0)
  }

  /** A message is given up after five reschedules and all their backoffs, not before. */
  ghost predicate FailedOnTime(clock: nat, row: Row, first: Option<nat>) {
    row.status == Failed ==>
      row.tries == MAX_TRIES && first.Some? && Floor(clock) >= Floor(first.value) + TotalSec(MAX_TRIES) * 1000
  }

  ghost predicate WorldInv(w: World) {
    && OnSchedule(w.row, w.first, w.scheduledSec)
    && FailedOnTime(w.clock, w.row, w.first)
  }

  lemma FloorFacts(v: int, t: nat, u: nat)
    requires t <= u
    ensures Floor(t) % 1000 == 0 && Floor(u) % 1000 == 0 && Floor(t) <= Floor(u) && t - 1000 < Floor(t) <= t
    ensures v % 1000 == 0 && v <= t ==> v <= Floor(t)
  {
  }

  lemma ResetKeepsInv(w: World, stamp: nat, cleared: bool)
    requires WorldInv(w) && w.clock <= stamp
    ensures WorldInv(ResetStep(w, stamp, cleared))
  {
    hide Floor, Pow2;
    FloorFacts(if w.row.processAfter.Some? then w.row.processAfter.value else 0, w.clock, stamp);
    PowPositive(w.row.tries);
    assert TotalSec(w.row.tries + 1) == TotalSec(w.row.tries) + BACKOFF_BASE_SEC * Pow2(w.row.tries);
  }

  lemma StepKeepsInv(w: World, e: Event)
    requires WorldInv(w) && Enabled(w, e)
    ensures WorldInv(Step(w, e))
  {
    match e
    case Reset(stamp, cleared) => ResetKeepsInv(w, stamp, cleared);
    case Tick(now) => hide ResetStep; FloorFacts(0, w.clock, now);
    case _ => hide ResetStep, Floor;
  }

  lemma {:induction false} RunKeepsInv(states: seq<World>, events: seq<Event>, n: nat)
    requires IsRun(states, events) && n < |states|
    ensures WorldInv(states[n])
  {
    if n > 0 {
      RunKeepsInv(states, events, n - 1);
      hide WorldInv, Step;
      StepKeepsInv(states[n - 1], events[n - 1]);
    }
  }

  /** How often the message was rescheduled in the first n steps. */
  ghost function Reschedules(states: seq<World>, n: nat): nat
    requires n < |states|
  {
    if n == 0 then 0
    else Reschedules(states, n - 1) + if states[n].row.tries > states[n - 1].row.tries then 1 else 0
  }

  lemma TriesCountReschedules(w: World, e: Event)
    requires Enabled(w, e) && !e.Requeue?
    ensures Step(w, e).row.tries == w.row.tries + (if Step(w, e).row.tries > w.row.tries then 1 else 0)
  {
    hide Floor, Pow2;
  }

  lemma {:induction false} TriesCountAll(states: seq<World>, events: seq<Event>, n: nat)
    requires IsRun(states, events) && n < |states|
    requires forall i :: 0 <= i < n ==> !events[i].Requeue?
    ensures Reschedules(states, n) == states[n].row.tries
  {
    if n > 0 {
      TriesCountAll(states, events, n - 1);
      hide Step;
      TriesCountReschedules(states[n - 1], events[n - 1]);
    }
  }

  lemma BackoffsAddUp(k: nat)
    requires k <= MAX_TRIES
    ensures TotalSec(k) == BACKOFF_BASE_SEC * (Pow2(k) - 1) && TotalSec(k) <= 155 && TotalSec(MAX_TRIES) == 155
  {
    assert Pow2(1) == 2 && Pow2(2) == 4 && Pow2(3) == 8 && Pow2(4) == 16 && Pow2(5) == 32;
    assert TotalSec(1) == 5 && TotalSec(2) == 15 && TotalSec(3) == 35 && TotalSec(4) == 75 && TotalSec(5) == 155;
  }

  /** Main result: until an operator requeues it, a message is rescheduled at most five times, for
      155 seconds in all; once failed it has had all five, and all their seconds have passed. */
  lemma RetriesAreBounded(states: seq<World>, events: seq<Event>, n: nat)
    requires IsRun(states, events) && n < |states|
    requires forall i :: 0 <= i < n ==> !events[i].Requeue?
    ensures Reschedules(states, n) <= MAX_TRIES
    ensures states[n].scheduledSec == BACKOFF_BASE_SEC * (Pow2(Reschedules(states, n)) - 1) <= 155
    ensures states[n].row.status == Failed ==>
      Reschedules(states, n) == MAX_TRIES && states[n].first.Some? &&
      states[n].clock > states[n].first.value + 154000
  {
    RunKeepsInv(states, events, n);
    TriesCountAll(states, events, n);
    var w := states[n];
    BackoffsAddUp(w.row.tries);
    if w.row.status == Failed {
      FloorFacts(0, w.first.value, w.first.value);
      FloorFacts(0, w.clock, w.clock);
    }
  }

  /** A message fails exactly when a reset finds it claimed, due and out of tries. */
  lemma FailsExactlyWhenSpent(states: seq<World>, events: seq<Event>, n: nat)
    requires IsRun(states, events) && n < |events|
    ensures
      states[n].row.status != Failed && states[n + 1].row.status == Failed <==>
      && events[n].Reset? && states[n].ack == Some(Processing)
      && states[n].row.status == Pending && !Rescheduled(states[n].row, states[n].clock)
      && states[n].row.tries == MAX_TRIES
  {
    hide Floor, Pow2;
    RunKeepsInv(states, events, n);
    assert states[n + 1] == Step(states[n], events[n]);
  }

  /** A failed message stays failed, unless a container answers for it after all or an operator
      requeues it. */
  lemma {:induction false} FailedForGood(states: seq<World>, events: seq<Event>, i: nat, n: nat)
    requires IsRun(states, events) && i <= n < |states|
    requires states[i].row.status == Failed && states[i].ack != Some(Done)
    requires forall j :: i <= j < n ==> !events[j].Acknowledge? && !events[j].Requeue?
    ensures states[n].row == states[i].row && states[n].ack != Some(Done)
  {
    if i < n {
      FailedForGood(states, events, i, n - 1);
      assert states[n - 1 + 1] == Step(states[n - 1], events[n - 1]);
    }
  }
}
