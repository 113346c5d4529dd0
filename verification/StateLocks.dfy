/** Thread locks with expiry (src/state-sqlite.ts:85-115, 173-178), over every run of acquires,
    releases, extensions, forced releases and cleanups under a nondecreasing clock. */
module StateLocks {
  type ThreadId = nat
  type Token = nat

  datatype Row = Row(token: Token, expiresAt: int)
  type Table = map<ThreadId, Row>

  // ---------------------------------------------------------------- the statements

  function DeleteExpired(t: Table, thread: ThreadId, now: int): Table {
    if thread in t && t[thread].expiresAt < now then t - {thread} else t
  }

  function Acquire(t: Table, thread: ThreadId, token: Token, ttl: int, now: int): (Table, bool) {
    var t' := DeleteExpired(t, thread, now);
    if thread in t' then (t', false) else (t'[thread := Row(token, now + ttl)], true)
  }

  predicate Holds(t: Table, thread: ThreadId, token: Token) {
    thread in t && t[thread].token == token
  }

  function Release(t: Table, thread: ThreadId, token: Token): Table {
    if Holds(t, thread, token) then t - {thread} else t
  }

  function Extend(t: Table, thread: ThreadId, token: Token, ttl: int, now: int): (Table, bool) {
    if Holds(t, thread, token) then (t[thread := Row(token, now + ttl)], true) else (t, false)
  }

  function Cleanup(t: Table, now: int): Table {
    map thread | thread in t && t[thread].expiresAt >= now :: t[thread]
  }

  /** The handle a caller keeps; an extension moves its expiry. */
  class Lock {
    const threadId: ThreadId
    const token: Token
    var expiresAt: int

    constructor (threadId: ThreadId, token: Token, expiresAt: int)
      ensures this.threadId == threadId && this.token == token && this.expiresAt == expiresAt
    {
      this.threadId, this.token, this.expiresAt := threadId, token, expiresAt;
    }
  }

  class LockTable {
    var rows: Table

    constructor ()
      ensures rows == map[]
    {
      rows := map[];
    }

    method AcquireLock(threadId: ThreadId, token: Token, ttlMs: int, now: int) returns (lock: Lock?)
      modifies this
      ensures (rows, lock != null) == Acquire(old(rows), threadId, token, ttlMs, now)
      ensures lock != null ==> fresh(lock) && lock.threadId == threadId && lock.token == token && lock.expiresAt == now + ttlMs
      ensures lock != null ==> rows[threadId] == Row(token, lock.expiresAt)
    {
      if threadId in rows && rows[threadId].expiresAt < now { rows := rows - {threadId}; }
      if threadId in rows { return null; }
      rows := rows[threadId := Row(token, now + ttlMs)];
      lock := new Lock(threadId, token, now + ttlMs);
    }

    method ReleaseLock(lock: Lock)
      modifies this
      ensures rows == Release(old(rows), lock.threadId, lock.token)
    {
      if lock.threadId in rows && rows[lock.threadId].token == lock.token { rows := rows - {lock.threadId}; }
    }

    method ExtendLock(lock: Lock, ttlMs: int, now: int) returns (ok: bool)
      modifies this, lock
      ensures (rows, ok) == Extend(old(rows), lock.threadId, lock.token, ttlMs, now)
      ensures lock.expiresAt == if ok then now + ttlMs else old(lock.expiresAt)
      ensures ok ==> rows[lock.threadId] == Row(lock.token, lock.expiresAt)
    {
      ok := lock.threadId in rows && rows[lock.threadId].token == lock.token;
      if ok {
        rows := rows[lock.threadId := Row(lock.token, now + ttlMs)];
        lock.expiresAt := now + ttlMs;
      }
    }

    method ForceReleaseLock(threadId: ThreadId)
      modifies this
      ensures rows == old(rows) - {threadId}
    {
      rows := rows - {threadId};
    }

    method CleanupLocks(now: int)
      modifies this
      ensures rows == Cleanup(old(rows), now)
    {
      rows := map thread | thread in rows && rows[thread].expiresAt >= now :: rows[thread];
    }
  }

  // ---------------------------------------------------------------- runs

  /** How a lock that is gone came to an end; an expiry records when it was noticed. */
  datatype End = Released | Forced | Expired(noticedAt: int)

  /** When a lock was granted or last extended, and for how long. */
  datatype Term = Term(since: int, ttl: int)

  /** `issued`, `terms` and `ended` are history: every token ever granted, its latest term, and how
      its hold ended. `handles` is the expiry each caller's handle shows. */
  datatype World = World(
    table: Table, now: int, handles: map<Token, int>,
    issued: map<Token, ThreadId>, terms: map<Token, Term>, ended: map<Token, End>)

  datatype Event =
    | Tick(now: int)
    | AcquireLock(thread: ThreadId, token: Token, ttl: int)
    | ReleaseLock(token: Token)
    | ExtendLock(token: Token, ttl: int)
    | ForceRelease(thread: ThreadId)
    | RunCleanup

  /** Tokens are fresh when drawn, and callers only use handles they were given. */
  predicate Enabled(w: World, e: Event) {
    match e
    case Tick(now) => now >= w.now
    case AcquireLock(_, token, _) => token !in w.issued
    case ReleaseLock(token) => token in w.issued
    case ExtendLock(token, _) => token in w.issued
    case _ => true
  }

  function EndOne(w: World, thread: ThreadId, end: End): map<Token, End>
    requires thread in w.table
  {
    w.ended[w.table[thread].token := end]
  }

  function AcquireStep(w: World, thread: ThreadId, token: Token, ttl: int): World {
    var (table, ok) := Acquire(w.table, thread, token, ttl, w.now);
    var ended := if thread in w.table && w.table[thread].expiresAt < w.now
                 then EndOne(w, thread, Expired(w.now)) else w.ended;
    if !ok then w.(table := table, ended := ended)
    else
      w.(table := table, ended := ended, issued := w.issued[token := thread],
         handles := w.handles[token := w.now + ttl], terms := w.terms[token := Term(w.now, ttl)])
  }

  function ExtendStep(w: World, token: Token, ttl: int): World
    requires token in w.issued
  {
    var (table, ok) := Extend(w.table, w.issued[token], token, ttl, w.now);
    if !ok then w
    else w.(table := table, handles := w.handles[token := w.now + ttl], terms := w.terms[token := Term(w.now, ttl)])
  }

  function Expiring(w: World): set<Token> {
    set thread | thread in w.table && w.table[thread].expiresAt < w.now :: w.table[thread].token
  }

  function Step(w: World, e: Event): World
    requires Enabled(w, e)
  {
    match e
    case Tick(now) => w.(now := now)
    case AcquireLock(thread, token, ttl) => AcquireStep(w, thread, token, ttl)
    case ReleaseLock(token) =>
      var thread := w.issued[token];
      w.(table := Release(w.table, thread, token),
         ended := if Holds(w.table, thread, token) then EndOne(w, thread, Released) else w.ended)
    case ExtendLock(token, ttl) => ExtendStep(w, token, ttl)
    case ForceRelease(thread) =>
      w.(table := w.table - {thread}, ended := if thread in w.table then EndOne(w, thread, Forced) else w.ended)
    case RunCleanup =>
      w.(table := Cleanup(w.table, w.now),
         ended := w.ended + (map token | token in Expiring(w) :: Expired(w.now)))
  }

  ghost predicate IsRun(states: seq<World>, events: seq<Event>) {
    && |states| == |events| + 1
    && states[0] == World(map[], states[0].now, map[], map[], map[], map[])
    && (forall i :: 0 <= i < |events| ==> Enabled(states[i], events[i]) && states[i + 1] == Step(states[i], events[i]))
  }

  /** Every granted token either holds its thread's row or has ended, never both. */
  ghost predicate HoldsOrEnded(w: World) {
    && (forall thread :: thread in w.table ==>
          w.table[thread].token in w.issued && w.issued[w.table[thread].token] == thread)
    && (forall token :: token in w.issued ==> (token in w.ended <==> !Holds(w.table, w.issued[token], token)))
    && (forall token :: token in w.ended ==> token in w.issued)
  }

  /** While it holds the row, row and handle show the end of its term; if it expired, its term was
      over when that was noticed. */
  ghost predicate TermShows(w: World, token: Token) {
    token in w.issued ==>
      && token in w.terms && token in w.handles
      && (Holds(w.table, w.issued[token], token) ==>
            w.table[w.issued[token]].expiresAt == w.handles[token] == w.terms[token].since + w.terms[token].ttl)
      && (token in w.ended && w.ended[token].Expired? ==>
            w.terms[token].since + w.terms[token].ttl < w.ended[token].noticedAt <= w.now)
  }

  ghost predicate WorldInv(w: World) {
    HoldsOrEnded(w) && forall token :: TermShows(w, token)
  }

  /** History only grows: an end is final and a token keeps its thread. */
  ghost predicate HistoryGrows(w: World, w': World) {
    && (forall token :: token in w.ended ==> token in w'.ended && w'.ended[token] == w.ended[token])
    && (forall token :: token in w.issued ==> token in w'.issued && w'.issued[token] == w.issued[token])
  }

  lemma CleanupKeepsHolds(w: World)
    requires HoldsOrEnded(w)
    ensures HoldsOrEnded(Step(w, RunCleanup)) && HistoryGrows(w, Step(w, RunCleanup))
  {
    var w' := Step(w, RunCleanup);
    forall token | token in w.issued
      ensures token in w'.ended <==> !Holds(w'.table, w.issued[token], token)
    {
    }
  }

  lemma AcquireKeepsHolds(w: World, thread: ThreadId, token: Token, ttl: int)
    requires HoldsOrEnded(w) && token !in w.issued
    ensures HoldsOrEnded(AcquireStep(w, thread, token, ttl)) && HistoryGrows(w, AcquireStep(w, thread, token, ttl))
  {
  }

  lemma StepKeepsHolds(w: World, e: Event)
    requires HoldsOrEnded(w) && Enabled(w, e)
    ensures HoldsOrEnded(Step(w, e)) && HistoryGrows(w, Step(w, e))
  {
    hide AcquireStep, Cleanup, Expiring;
    match e
    case AcquireLock(thread, token, ttl) => AcquireKeepsHolds(w, thread, token, ttl);
    case RunCleanup => CleanupKeepsHolds(w);
    case _ =>
  }

  lemma StepKeepsTerm(w: World, e: Event, token: Token)
    requires HoldsOrEnded(w) && Enabled(w, e) && TermShows(w, token)
    requires e.AcquireLock? && e.thread in w.table ==> TermShows(w, w.table[e.thread].token)
    ensures TermShows(Step(w, e), token)
  {
    if e == RunCleanup && token in w.issued { CleanupNotices(w, token); }
  }

  lemma CleanupNotices(w: World, token: Token)
    requires HoldsOrEnded(w) && token in w.issued
    ensures var w' := Step(w, RunCleanup);
      && (Holds(w'.table, w.issued[token], token) ==>
            Holds(w.table, w.issued[token], token) && w'.table[w.issued[token]] == w.table[w.issued[token]])
      && (token in w'.ended ==>
            || (token in w.ended && w'.ended[token] == w.ended[token])
            || (Holds(w.table, w.issued[token], token) && w.table[w.issued[token]].expiresAt < w.now
                && w'.ended[token] == Expired(w.now)))
  {
  }

  lemma StepKeepsInv(w: World, e: Event)
    requires WorldInv(w) && Enabled(w, e)
    ensures WorldInv(Step(w, e)) && HistoryGrows(w, Step(w, e))
  {
    StepKeepsHolds(w, e);
    hide Step, Enabled, HoldsOrEnded, TermShows, HistoryGrows;
    forall token { StepKeepsTerm(w, e, token); }
  }

  lemma {:induction false} RunKeepsInv(states: seq<World>, events: seq<Event>, n: nat)
    requires IsRun(states, events) && n < |states|
    ensures WorldInv(states[n])
  {
    if n > 0 {
      RunKeepsInv(states, events, n - 1);
      StepKeepsInv(states[n - 1], events[n - 1]);
    }
  }

  /** A hold that ended stays ended, and keeps the way it ended. */
  lemma {:induction false} EndedStaysEnded(states: seq<World>, events: seq<Event>, n: nat, m: nat, token: Token)
    requires IsRun(states, events) && n <= m < |states| && token in states[n].ended
    ensures token in states[m].ended && states[m].ended[token] == states[n].ended[token]
    ensures token in states[m].issued && token in states[n].issued && states[m].issued[token] == states[n].issued[token]
    decreases m
  {
    RunKeepsInv(states, events, n);
    if n < m {
      EndedStaysEnded(states, events, n, m - 1, token);
      RunKeepsInv(states, events, m - 1);
      StepKeepsInv(states[m - 1], events[m - 1]);
    }
  }

  /** When a lock is granted, every earlier handle of that thread had been released, force-released
      or had expired; and ever after, none of them can release or extend anything. */
  lemma GrantIsExclusive(states: seq<World>, events: seq<Event>, n: nat, m: nat, token: Token, old': Token)
    requires IsRun(states, events) && n < m < |states|
    requires events[n].AcquireLock? && events[n].token == token && token in states[n + 1].issued
    requires old' in states[n].issued && states[n].issued[old'] == events[n].thread
    ensures Holds(states[n + 1].table, events[n].thread, token)
    ensures old' in states[n + 1].ended
    ensures states[n + 1].ended[old'].Expired? ==>
      old' in states[n + 1].terms && states[n + 1].terms[old'].since + states[n + 1].terms[old'].ttl < states[n + 1].now
    ensures Release(states[m].table, events[n].thread, old') == states[m].table
    ensures forall ttl, now :: Extend(states[m].table, events[n].thread, old', ttl, now) == (states[m].table, false)
  {
    RunKeepsInv(states, events, n);
    RunKeepsInv(states, events, n + 1);
    RunKeepsInv(states, events, m);
    GrantEnds(states[n], events[n].thread, token, events[n].ttl, old');
    assert TermShows(states[n + 1], old');
    hide Step, Enabled, HoldsOrEnded, AcquireStep;
    EndedStaysEnded(states, events, n + 1, m, old');
    EndedIsPowerless(states[m], old');
  }

  lemma GrantEnds(w: World, thread: ThreadId, token: Token, ttl: int, old': Token)
    requires HoldsOrEnded(w) && token !in w.issued && token in AcquireStep(w, thread, token, ttl).issued
    requires old' in w.issued && w.issued[old'] == thread
    ensures var w' := AcquireStep(w, thread, token, ttl);
      Holds(w'.table, thread, token) && old' in w'.ended && old' in w'.issued && w'.issued[old'] == thread
  {
  }

  lemma EndedIsPowerless(w: World, old': Token)
    requires HoldsOrEnded(w) && old' in w.ended
    ensures old' in w.issued && Release(w.table, w.issued[old'], old') == w.table
    ensures forall ttl, now :: Extend(w.table, w.issued[old'], old', ttl, now) == (w.table, false)
  {
  }

  lemma RefusalMeansHeld(w: World, thread: ThreadId, token: Token, ttl: int)
    requires WorldInv(w) && token !in w.issued
    ensures Acquire(w.table, thread, token, ttl, w.now).1 <==> !(thread in w.table && w.table[thread].expiresAt >= w.now)
    ensures !Acquire(w.table, thread, token, ttl, w.now).1 ==> Step(w, AcquireLock(thread, token, ttl)) == w
  {
  }

  /** And a lock is refused exactly when some earlier handle of the thread has not ended: it was
      neither released nor forced, and had not expired. */
  lemma RefusedIffHeld(states: seq<World>, events: seq<Event>, n: nat)
    requires IsRun(states, events) && n < |events| && events[n].AcquireLock?
    ensures events[n].token !in states[n + 1].issued <==>
      exists t :: t in states[n].issued && states[n].issued[t] == events[n].thread && t !in states[n + 1].ended
  {
    var w, e := states[n], events[n];
    RunKeepsInv(states, events, n);
    RefusalMeansHeld(w, e.thread, e.token, e.ttl);
    if e.token in states[n + 1].issued {
      forall t | t in w.issued && w.issued[t] == e.thread ensures t in states[n + 1].ended {
        GrantIsExclusive(states, events, n, n + 1, e.token, t);
      }
    } else {
      var t := w.table[e.thread].token;
      assert t in w.issued && w.issued[t] == e.thread && t !in w.ended;
    }
  }

  // ---------------------------------------------------------------- how long a lock lasts

  /** Step n grants or extends the token's lock on the thread for `ttl` milliseconds. */
  ghost predicate Begins(states: seq<World>, events: seq<Event>, n: nat, thread: ThreadId, token: Token, ttl: int)
    requires IsRun(states, events) && n < |events|
  {
    || (events[n] == AcquireLock(thread, token, ttl) && token in states[n + 1].issued)
    || (events[n] == ExtendLock(token, ttl) && states[n].issued[token] == thread && Holds(states[n].table, thread, token))
  }

  /** Nothing the holder or an operator does touches the lock. */
  predicate LeavesAlone(e: Event, thread: ThreadId, token: Token) {
    match e
    case ReleaseLock(t) => t != token
    case ExtendLock(t, _) => t != token
    case ForceRelease(t) => t != thread
    case _ => true
  }

  /** The row of a term that is not over. */
  ghost predicate Stands(w: World, thread: ThreadId, token: Token, until: int) {
    thread in w.table && w.table[thread] == Row(token, until) && token in w.issued && w.issued[token] == thread
  }

  /** Step n + 1 to m leave the lock alone. */
  ghost predicate AloneUntil(events: seq<Event>, n: nat, m: nat, thread: ThreadId, token: Token)
    requires m <= |events|
  {
    forall i :: n < i < m ==> LeavesAlone(events[i], thread, token)
  }

  /** In steps n + 1 to m nobody else is granted the thread's lock. */
  ghost predicate NobodyElse(states: seq<World>, events: seq<Event>, n: nat, m: nat, thread: ThreadId)
    requires IsRun(states, events) && m <= |events|
  {
    forall i :: n < i < m && events[i].AcquireLock? && events[i].thread == thread ==> events[i].token !in states[i + 1].issued
  }

  lemma RunStep(states: seq<World>, events: seq<Event>, i: nat)
    requires IsRun(states, events) && i < |events|
    ensures i + 1 < |states| && Enabled(states[i], events[i]) && states[i + 1] == Step(states[i], events[i])
  {
    hide Step, Enabled;
  }

  lemma BeginsStanding(states: seq<World>, events: seq<Event>, n: nat, thread: ThreadId, token: Token, ttl: int)
    requires IsRun(states, events) && n < |events| && Begins(states, events, n, thread, token, ttl)
    ensures Stands(states[n + 1], thread, token, states[n].now + ttl) && states[n + 1].now == states[n].now
  {
    RunKeepsInv(states, events, n);
  }

  predicate Grants(w: World, e: Event, thread: ThreadId)
    requires Enabled(w, e)
  {
    e.AcquireLock? && e.thread == thread && e.token in Step(w, e).issued
  }

  /** One step of a term nobody touches: its row stands until it is over; later it may go, and the
      row is then free until somebody is granted the lock. */
  lemma TermStep(w: World, e: Event, thread: ThreadId, token: Token, until: int)
    requires WorldInv(w) && Enabled(w, e) && LeavesAlone(e, thread, token)
    requires thread !in w.table || Stands(w, thread, token, until) || w.now > until
    ensures w.now <= Step(w, e).now
    ensures Stands(w, thread, token, until) && w.now <= until ==> Stands(Step(w, e), thread, token, until)
    ensures (thread !in w.table || Stands(w, thread, token, until)) && !Grants(w, e, thread) ==>
      thread !in Step(w, e).table || Stands(Step(w, e), thread, token, until)
  {
    hide Expiring;
  }

  /** The state of a term while nobody touches it: its row stands until the term is over, and beyond
      that until it is cleaned up or taken over. */
  lemma {:induction false} TermRuns(
      states: seq<World>, events: seq<Event>, n: nat, m: nat, thread: ThreadId, token: Token, ttl: int)
    requires IsRun(states, events) && n < m <= |events| && Begins(states, events, n, thread, token, ttl)
    requires AloneUntil(events, n, m, thread, token)
    ensures states[n].now <= states[m].now
    ensures states[m].now <= states[n].now + ttl ==> Stands(states[m], thread, token, states[n].now + ttl)
    ensures NobodyElse(states, events, n, m, thread) ==>
      thread !in states[m].table || Stands(states[m], thread, token, states[n].now + ttl)
    decreases m
  {
    hide Begins, Step, Enabled, Stands, WorldInv, LeavesAlone;
    BeginsStanding(states, events, n, thread, token, ttl);
    if n + 1 < m {
      TermRuns(states, events, n, m - 1, thread, token, ttl);
      RunStep(states, events, m - 1);
      RunKeepsInv(states, events, m - 1);
      TermStep(states[m - 1], events[m - 1], thread, token, states[n].now + ttl);
    }
  }

  /** A lock lasts: granted or last extended at time t for d milliseconds, and neither released nor
      forced since, it makes every other acquire of the thread up to t + d refused. */
  lemma LockLasts(states: seq<World>, events: seq<Event>, n: nat, m: nat, thread: ThreadId, token: Token, ttl: int)
    requires IsRun(states, events) && n < m < |events| && Begins(states, events, n, thread, token, ttl)
    requires AloneUntil(events, n, m, thread, token) && events[m].AcquireLock? && events[m].thread == thread
    ensures states[m].now <= states[n].now + ttl ==> events[m].token !in states[m + 1].issued
  {
    TermRuns(states, events, n, m, thread, token, ttl);
    RunKeepsInv(states, events, m);
    RunStep(states, events, m);
    RefusalMeansHeld(states[m], thread, events[m].token, events[m].ttl);
    hide Begins, IsRun;
  }

  /** And no longer: unless someone else was granted it meanwhile, an acquire is granted exactly from
      after t + d on. */
  lemma LockLapses(states: seq<World>, events: seq<Event>, n: nat, m: nat, thread: ThreadId, token: Token, ttl: int)
    requires IsRun(states, events) && n < m < |events| && Begins(states, events, n, thread, token, ttl)
    requires AloneUntil(events, n, m, thread, token) && events[m].AcquireLock? && events[m].thread == thread
    requires NobodyElse(states, events, n, m, thread)
    ensures events[m].token in states[m + 1].issued <==> states[m].now > states[n].now + ttl
  {
    TermRuns(states, events, n, m, thread, token, ttl);
    RunKeepsInv(states, events, m);
    RunStep(states, events, m);
    RefusalMeansHeld(states[m], thread, events[m].token, events[m].ttl);
    hide Begins, IsRun;
  }
}
