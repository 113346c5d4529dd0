/** Reserve-before-send for roster messages (src/delivery.ts:1058-1141 over
    src/db/dm-grants.ts:643-801): one budget, charged once per message whatever its attempts do, and
    shared with the invites of src/roster-invite.ts. */
module RosterReservation {
  import SetFacts
  import opened Wrappers

  type MsgId = nat
  type GrantId = nat

  datatype Grant = Grant(maxSends: int, used: nat, revoked: bool)

  datatype Bucket =
    | OfGrant(grant: GrantId)
    | OfParticipant(participant: nat)
    | OfScope(scope: nat)
    | OfDeploy
    | OfDeployDaily
    | OfInviteScope(scope: nat)

  /** A ledger row: a bucket and the start of one of its windows. */
  datatype LedgerKey = LedgerKey(bucket: Bucket, start: int)

  datatype Window = Window(windowSec: nat, limit: nat)
  const INVITE_SCOPE_WINDOW := Window(60, 3)
  datatype Config = Config(grant: Window, participant: Window, scope: Window, deploy: Window, daily: Window)
  datatype RateKeys = RateKeys(grant: GrantId, participant: nat, scope: nat)

  /** What a message was charged to. The source stores only which messages are charged, and of the
      invites only their counts. */
  datatype Charge = Charge(grant: GrantId, keys: seq<LedgerKey>)

  datatype Books = Books(grants: map<GrantId, Grant>, ledger: map<LedgerKey, nat>, charges: map<MsgId, Charge>,
                         invites: multiset<LedgerKey>)

  function WindowStart(now: int, windowSec: nat): (start: int)
    requires windowSec > 0
    ensures start <= now < start + windowSec * 1000
  {
    now / (windowSec * 1000) * (windowSec * 1000)
  }

  /** The windows tumble from time zero on: two times share one exactly if the later is less than a
      window's length after its start. */
  lemma WindowsTumble(now: int, other: int, windowSec: nat)
    requires windowSec > 0
    ensures WindowStart(0, windowSec) == 0
    ensures WindowStart(now, windowSec) == WindowStart(other, windowSec) <==>
      WindowStart(now, windowSec) <= other < WindowStart(now, windowSec) + windowSec * 1000
  {
    var length := windowSec * 1000;
    var p, q := now / length, other / length;
    if p < q { NextWindow(p, q, length); }
    if q < p { NextWindow(q, p, length); }
  }

  lemma NextWindow(p: int, q: int, length: nat)
    requires p < q
    ensures p * length + length <= q * length
  {
    assert (q - p - 1) * length >= 0;
  }

  /** The buckets a send is charged to, in order; the daily bucket only when its cap is on. */
  function Buckets(cfg: Config, keys: RateKeys): seq<Bucket> {
    [OfGrant(keys.grant), OfParticipant(keys.participant), OfScope(keys.scope), OfDeploy]
    + if cfg.daily.limit > 0 then [OfDeployDaily] else []
  }

  function WindowOf(cfg: Config, b: Bucket): Window {
    match b
    case OfGrant(_) => cfg.grant
    case OfParticipant(_) => cfg.participant
    case OfScope(_) => cfg.scope
    case OfDeploy => cfg.deploy
    case OfDeployDaily => cfg.daily
    case OfInviteScope(_) => INVITE_SCOPE_WINDOW
  }

  /** A zero-length window makes the source throw when it formats the window start. */
  predicate Sound(cfg: Config) {
    cfg.grant.windowSec > 0 && cfg.participant.windowSec > 0 && cfg.scope.windowSec > 0
    && cfg.deploy.windowSec > 0 && cfg.daily.windowSec > 0
  }

  function KeyAt(cfg: Config, b: Bucket, now: int): LedgerKey
    requires WindowOf(cfg, b).windowSec > 0
  {
    LedgerKey(b, WindowStart(now, WindowOf(cfg, b).windowSec))
  }

  function KeysAt(cfg: Config, keys: RateKeys, now: int): (ks: seq<LedgerKey>)
    requires Sound(cfg)
    ensures |ks| == |Buckets(cfg, keys)|
    ensures forall i :: 0 <= i < |ks| ==> ks[i] == KeyAt(cfg, Buckets(cfg, keys)[i], now)
  {
    seq(|Buckets(cfg, keys)|, i requires 0 <= i < |Buckets(cfg, keys)| => KeyAt(cfg, Buckets(cfg, keys)[i], now))
  }

  /** The rows an invite is charged to: its own window of the scope, and the daily row of the sends. */
  function InviteKeys(cfg: Config, scope: nat, now: int): seq<LedgerKey>
    requires cfg.daily.windowSec > 0
  {
    [KeyAt(cfg, OfInviteScope(scope), now)]
    + if cfg.daily.limit > 0 then [KeyAt(cfg, OfDeployDaily, now)] else []
  }

  function CountAt(ledger: map<LedgerKey, nat>, k: LedgerKey): nat {
    if k in ledger then ledger[k] else 0
  }

  /** Check-then-bump key by key; the first key at its limit aborts. */
  function ChargeAll(cfg: Config, ledger: map<LedgerKey, nat>, ks: seq<LedgerKey>): Option<map<LedgerKey, nat>>
    decreases |ks|
  {
    if ks == [] then Some(ledger)
    else if CountAt(ledger, ks[0]) >= WindowOf(cfg, ks[0].bucket).limit then None
    else ChargeAll(cfg, ledger[ks[0] := CountAt(ledger, ks[0]) + 1], ks[1..])
  }

  /** Decrement existing rows, never below zero. */
  function RefundAll(ledger: map<LedgerKey, nat>, ks: seq<LedgerKey>): map<LedgerKey, nat>
    decreases |ks|
  {
    if ks == [] then ledger
    else if ks[0] in ledger && ledger[ks[0]] > 0
    then RefundAll(ledger[ks[0] := ledger[ks[0]] - 1], ks[1..])
    else RefundAll(ledger, ks[1..])
  }

  datatype ReserveResult = Reserved(isNew: bool) | OverMaxSends | RateLimited | Threw

  predicate MayCharge(g: Grant) {
    !g.revoked && (g.maxSends <= 0 || g.maxSends > g.used)
  }

  /** A first consent opens a grant; a renewed one only lifts its revocation. */
  function Consent(b: Books, g: GrantId, maxSends: int): Books {
    var grant := if g in b.grants then b.grants[g].(revoked := false)
                 else Grant(if maxSends > 0 then maxSends else 0, 0, false);
    b.(grants := b.grants[g := grant])
  }

  function ChargeGrant(g: Grant): Grant {
    Grant(g.maxSends, g.used + 1, g.revoked || (g.maxSends > 0 && g.used + 1 >= g.maxSends))
  }

  function RefundGrant(g: Grant): Grant {
    var used := if g.used > 0 then g.used - 1 else 0;
    Grant(g.maxSends, used,
          if g.maxSends > 0 && g.used >= g.maxSends then false else g.revoked)
  }

  function Reserve(cfg: Config, b: Books, m: MsgId, keys: RateKeys, now: int): (Books, ReserveResult) {
    if m in b.charges then (b, Reserved(false))
    else if keys.grant !in b.grants || !MayCharge(b.grants[keys.grant]) then (b, OverMaxSends)
    else if !Sound(cfg) then (b, Threw)
    else
      match ChargeAll(cfg, b.ledger, KeysAt(cfg, keys, now))
      case None => (b, RateLimited)
      case Some(ledger) =>
        (b.(grants := b.grants[keys.grant := ChargeGrant(b.grants[keys.grant])],
            ledger := ledger,
            charges := b.charges[m := Charge(keys.grant, KeysAt(cfg, keys, now))]),
         Reserved(true))
  }

  function Rollback(cfg: Config, b: Books, m: MsgId, keys: RateKeys, now: int): Books
    requires Sound(cfg)
  {
    if m !in b.charges then b
    else
      b.(grants := if keys.grant in b.grants then b.grants[keys.grant := RefundGrant(b.grants[keys.grant])] else b.grants,
         ledger := RefundAll(b.ledger, KeysAt(cfg, keys, now)),
         charges := b.charges - {m})
  }

  /** An invite is charged before its card is sent, and never refunded. */
  function Invite(cfg: Config, b: Books, scope: nat, now: int): (Books, bool)
    requires cfg.daily.windowSec > 0
  {
    match ChargeAll(cfg, b.ledger, InviteKeys(cfg, scope, now))
    case None => (b, false)
    case Some(ledger) => (b.(ledger := ledger, invites := b.invites + multiset(InviteKeys(cfg, scope, now))), true)
  }

  // ---------------------------------------------------------------- counting

  function ChargedTo(charges: map<MsgId, Charge>, g: GrantId): set<MsgId> {
    set m | m in charges && charges[m].grant == g
  }

  function ChargedAt(charges: map<MsgId, Charge>, k: LedgerKey): set<MsgId> {
    set m | m in charges && k in charges[m].keys
  }

  ghost predicate Distinct(ks: seq<LedgerKey>) {
    forall i, j :: 0 <= i < j < |ks| ==> ks[i] != ks[j]
  }

  lemma KeysAreDistinct(cfg: Config, keys: RateKeys, now: int)
    requires Sound(cfg)
    ensures Distinct(KeysAt(cfg, keys, now))
  {
  }

  lemma {:induction false} ChargeAllCounts(cfg: Config, ledger: map<LedgerKey, nat>, ks: seq<LedgerKey>, k: LedgerKey)
    requires Distinct(ks) && ChargeAll(cfg, ledger, ks).Some?
    decreases |ks|
    ensures CountAt(ChargeAll(cfg, ledger, ks).value, k) == CountAt(ledger, k) + (if k in ks then 1 else 0)
    ensures k in ks ==> CountAt(ledger, k) < WindowOf(cfg, k.bucket).limit
  {
    if ks != [] {
      ChargeAllCounts(cfg, ledger[ks[0] := CountAt(ledger, ks[0]) + 1], ks[1..], k);
      assert ks == [ks[0]] + ks[1..];
      assert ks[0] !in ks[1..];
    }
  }

  lemma {:induction false} RefundAllCounts(ledger: map<LedgerKey, nat>, ks: seq<LedgerKey>, k: LedgerKey)
    requires Distinct(ks)
    decreases |ks|
    ensures CountAt(RefundAll(ledger, ks), k) ==
      if k in ks && CountAt(ledger, k) > 0 then CountAt(ledger, k) - 1 else CountAt(ledger, k)
  {
    if ks != [] {
      var next := if ks[0] in ledger && ledger[ks[0]] > 0 then ledger[ks[0] := ledger[ks[0]] - 1] else ledger;
      RefundAllCounts(next, ks[1..], k);
      assert ks == [ks[0]] + ks[1..];
      assert ks[0] !in ks[1..];
    }
  }

  // ---------------------------------------------------------------- attempts over time

  /** An attempt between its reservation and the end of its adapter call; the reservation's own
      timestamp is kept for the rollback. */
  datatype Flight = Flight(isNew: bool, keys: RateKeys, reservedAt: int)

  /** `maybe` holds the messages of which a copy may have landed. */
  datatype World = World(books: Books, flights: map<MsgId, Flight>, maybe: set<MsgId>)
  const EMPTY := World(Books(map[], map[], map[], multiset{}), map[], {})

  datatype Event =
    | GiveConsent(g: GrantId, maxSends: int)
    | SendInvite(scope: nat, now: int)
    | Begin(m: MsgId, keys: RateKeys, now: int)
    | SendOk(m: MsgId)
    | SendError(m: MsgId)
    | SendTimeout(m: MsgId)
    | Revoke(g: GrantId)
    | Crash

  predicate Enabled(w: World, e: Event) {
    match e
    case GiveConsent(_, _) => true
    case SendInvite(_, _) => true
    case Begin(m, _, _) => m !in w.flights
    case SendOk(m) => m in w.flights
    case SendError(m) => m in w.flights
    case SendTimeout(m) => m in w.flights
    case Revoke(g) => g in w.books.grants
    case Crash => true
  }

  function BeginStep(cfg: Config, w: World, m: MsgId, keys: RateKeys, now: int): World {
    var (books, result) := Reserve(cfg, w.books, m, keys, now);
    match result
    case Reserved(isNew) => w.(books := books, flights := w.flights[m := Flight(isNew, keys, now)])
    case _ => w
  }

  function ErrorStep(cfg: Config, w: World, m: MsgId): World
    requires Sound(cfg) && m in w.flights
  {
    var f := w.flights[m];
    w.(books := if f.isNew then Rollback(cfg, w.books, m, f.keys, f.reservedAt) else w.books, flights := w.flights - {m})
  }

  function Step(cfg: Config, w: World, e: Event): World
    requires Sound(cfg) && Enabled(w, e)
  {
    match e
    case GiveConsent(g, maxSends) => w.(books := Consent(w.books, g, maxSends))
    case SendInvite(scope, now) => w.(books := Invite(cfg, w.books, scope, now).0)
    case Begin(m, keys, now) => BeginStep(cfg, w, m, keys, now)
    case SendOk(m) => w.(maybe := w.maybe + {m}, flights := w.flights - {m})
    case SendError(m) => ErrorStep(cfg, w, m)
    case SendTimeout(m) => w.(maybe := w.maybe + {m}, flights := w.flights - {m})
    case Revoke(g) => w.(books := w.books.(grants := w.books.grants[g := w.books.grants[g].(revoked := true)]))
    case Crash => w.(maybe := w.maybe + w.flights.Keys, flights := map[])
  }

  ghost predicate IsRun(cfg: Config, states: seq<World>, events: seq<Event>) {
    && Sound(cfg)
    && |states| == |events| + 1
    && states[0] == EMPTY
    && (forall i :: 0 <= i < |events| ==>
          Enabled(states[i], events[i]) && states[i + 1] == Step(cfg, states[i], events[i]))
  }

  /** Each grant's counter is the number of messages charged to it, and stays within its cap. */
  ghost predicate GrantsBalance(b: Books) {
    && (forall m :: m in b.charges ==> b.charges[m].grant in b.grants)
    && (forall g :: g in b.grants ==>
          b.grants[g].used == |ChargedTo(b.charges, g)| && (b.grants[g].maxSends > 0 ==> b.grants[g].used <= b.grants[g].maxSends))
  }

  /** Each ledger row is the number of standing charges and of invites of its window, and stays
      within the limit they share. */
  ghost predicate LedgerBalances(cfg: Config, b: Books) {
    forall k :: CountAt(b.ledger, k) == |ChargedAt(b.charges, k)| + b.invites[k] <= WindowOf(cfg, k.bucket).limit
  }

  /** Sends and invites share no row but the daily one. */
  ghost predicate RowsApart(b: Books) {
    && (forall m, k :: m in b.charges && k in b.charges[m].keys ==> !k.bucket.OfInviteScope?)
    && (forall k :: k in b.invites ==> k.bucket.OfInviteScope? || k.bucket.OfDeployDaily?)
  }

  /** A message that may have landed is charged; a fresh attempt is charged as it will be refunded,
      and no earlier copy of it can have landed. */
  ghost predicate ChargesStand(cfg: Config, w: World)
    requires Sound(cfg)
  {
    && w.maybe <= w.books.charges.Keys
    && (forall m :: m in w.flights ==> m in w.books.charges)
    && (forall m :: m in w.flights && w.flights[m].isNew ==>
          m !in w.maybe &&
          w.books.charges[m] == Charge(w.flights[m].keys.grant, KeysAt(cfg, w.flights[m].keys, w.flights[m].reservedAt)))
  }

  ghost predicate WorldInv(cfg: Config, w: World)
    requires Sound(cfg)
  {
    GrantsBalance(w.books) && LedgerBalances(cfg, w.books) && RowsApart(w.books) && ChargesStand(cfg, w)
  }

  lemma ChargedToInsert(charges: map<MsgId, Charge>, m: MsgId, c: Charge, g: GrantId)
    requires m !in charges
    ensures |ChargedTo(charges[m := c], g)| == |ChargedTo(charges, g)| + (if c.grant == g then 1 else 0)
  {
    assert ChargedTo(charges[m := c], g) == ChargedTo(charges, g) + (if c.grant == g then {m} else {});
  }

  lemma ChargedToRemove(charges: map<MsgId, Charge>, m: MsgId, g: GrantId)
    requires m in charges
    ensures |ChargedTo(charges, g)| == |ChargedTo(charges - {m}, g)| + (if charges[m].grant == g then 1 else 0)
  {
    assert ChargedTo(charges, g) == ChargedTo(charges - {m}, g) + (if charges[m].grant == g then {m} else {});
  }

  lemma ChargedAtInsert(charges: map<MsgId, Charge>, m: MsgId, c: Charge, k: LedgerKey)
    requires m !in charges
    ensures |ChargedAt(charges[m := c], k)| == |ChargedAt(charges, k)| + (if k in c.keys then 1 else 0)
  {
    assert ChargedAt(charges[m := c], k) == ChargedAt(charges, k) + (if k in c.keys then {m} else {});
  }

  lemma ChargedAtRemove(charges: map<MsgId, Charge>, m: MsgId, k: LedgerKey)
    requires m in charges
    ensures |ChargedAt(charges, k)| == |ChargedAt(charges - {m}, k)| + (if k in charges[m].keys then 1 else 0)
  {
    assert ChargedAt(charges, k) == ChargedAt(charges - {m}, k) + (if k in charges[m].keys then {m} else {});
  }

  lemma ReserveKeepsGrants(cfg: Config, b: Books, m: MsgId, keys: RateKeys, now: int)
    requires GrantsBalance(b)
    ensures GrantsBalance(Reserve(cfg, b, m, keys, now).0)
  {
    hide ChargedTo, ChargeAll, KeysAt;
    var (b', result) := Reserve(cfg, b, m, keys, now);
    if result == Reserved(true) {
      forall g | g in b'.grants
        ensures b'.grants[g].used == |ChargedTo(b'.charges, g)|
      {
        ChargedToInsert(b.charges, m, b'.charges[m], g);
      }
    }
  }

  lemma ReserveKeepsLedger(cfg: Config, b: Books, m: MsgId, keys: RateKeys, now: int)
    requires LedgerBalances(cfg, b)
    ensures LedgerBalances(cfg, Reserve(cfg, b, m, keys, now).0)
  {
    hide ChargedAt, ChargeAll, KeysAt, CountAt;
    var (b', result) := Reserve(cfg, b, m, keys, now);
    if result == Reserved(true) {
      var ks := KeysAt(cfg, keys, now);
      KeysAreDistinct(cfg, keys, now);
      forall k
        ensures CountAt(b'.ledger, k) == |ChargedAt(b'.charges, k)| + b'.invites[k] <= WindowOf(cfg, k.bucket).limit
      {
        ChargeAllCounts(cfg, b.ledger, ks, k);
        ChargedAtInsert(b.charges, m, b'.charges[m], k);
      }
    }
  }

  lemma RollbackKeepsGrants(cfg: Config, b: Books, m: MsgId, keys: RateKeys, now: int)
    requires Sound(cfg) && GrantsBalance(b) && m in b.charges
    requires b.charges[m] == Charge(keys.grant, KeysAt(cfg, keys, now))
    ensures GrantsBalance(Rollback(cfg, b, m, keys, now))
  {
    hide ChargedTo, RefundAll, KeysAt;
    var b' := Rollback(cfg, b, m, keys, now);
    forall g | g in b'.grants
      ensures b'.grants[g].used == |ChargedTo(b'.charges, g)|
    {
      ChargedToRemove(b.charges, m, g);
    }
  }

  lemma RollbackKeepsLedger(cfg: Config, b: Books, m: MsgId, keys: RateKeys, now: int)
    requires Sound(cfg) && LedgerBalances(cfg, b) && m in b.charges
    requires b.charges[m] == Charge(keys.grant, KeysAt(cfg, keys, now))
    ensures LedgerBalances(cfg, Rollback(cfg, b, m, keys, now))
  {
    hide ChargedAt, RefundAll, KeysAt, CountAt;
    var b' := Rollback(cfg, b, m, keys, now);
    KeysAreDistinct(cfg, keys, now);
    forall k
      ensures CountAt(b'.ledger, k) == |ChargedAt(b'.charges, k)| + b'.invites[k] <= WindowOf(cfg, k.bucket).limit
    {
      RefundAllCounts(b.ledger, KeysAt(cfg, keys, now), k);
      ChargedAtRemove(b.charges, m, k);
    }
  }

  lemma InviteKeepsLedger(cfg: Config, b: Books, scope: nat, now: int)
    requires Sound(cfg) && LedgerBalances(cfg, b)
    ensures LedgerBalances(cfg, Invite(cfg, b, scope, now).0)
  {
    hide ChargedAt, ChargeAll, CountAt;
    var (b', sent) := Invite(cfg, b, scope, now);
    if sent {
      forall k
        ensures CountAt(b'.ledger, k) == |ChargedAt(b'.charges, k)| + b'.invites[k] <= WindowOf(cfg, k.bucket).limit
      {
        ChargeAllCounts(cfg, b.ledger, InviteKeys(cfg, scope, now), k);
      }
    }
  }

  lemma ReserveKeepsRowsApart(cfg: Config, b: Books, m: MsgId, keys: RateKeys, now: int)
    requires RowsApart(b)
    ensures RowsApart(Reserve(cfg, b, m, keys, now).0) && Reserve(cfg, b, m, keys, now).0.invites == b.invites
  {
    hide ChargeAll, WindowOf, ChargeGrant, MayCharge;
  }

  lemma InviteKeepsRowsApart(cfg: Config, b: Books, scope: nat, now: int)
    requires Sound(cfg) && RowsApart(b)
    ensures RowsApart(Invite(cfg, b, scope, now).0) && b.invites <= Invite(cfg, b, scope, now).0.invites
  {
    hide ChargeAll, WindowOf;
  }

  lemma StepKeepsRowsApart(cfg: Config, w: World, e: Event)
    requires Sound(cfg) && RowsApart(w.books) && Enabled(w, e)
    ensures RowsApart(Step(cfg, w, e).books)
    ensures w.books.invites <= Step(cfg, w, e).books.invites
  {
    match e
    case Begin(m, keys, now) =>
      ReserveKeepsRowsApart(cfg, w.books, m, keys, now);
      hide RowsApart, Reserve;
    case SendInvite(scope, now) =>
      InviteKeepsRowsApart(cfg, w.books, scope, now);
      hide RowsApart, Invite;
    case _ =>
      hide KeysAt, RefundAll, RefundGrant;
  }

  lemma StepKeepsCharges(cfg: Config, w: World, e: Event)
    requires Sound(cfg) && ChargesStand(cfg, w) && Enabled(w, e)
    ensures ChargesStand(cfg, Step(cfg, w, e))
  {
    hide KeysAt, ChargeAll, RefundAll;
  }

  lemma StepKeepsInv(cfg: Config, w: World, e: Event)
    requires Sound(cfg) && WorldInv(cfg, w) && Enabled(w, e)
    ensures WorldInv(cfg, Step(cfg, w, e))
  {
    StepKeepsCharges(cfg, w, e);
    StepKeepsRowsApart(cfg, w, e);
    hide ChargedTo, ChargedAt, KeysAt, CountAt, Reserve, Rollback, Invite, RowsApart;
    match e
    case Begin(m, keys, now) =>
      ReserveKeepsGrants(cfg, w.books, m, keys, now);
      ReserveKeepsLedger(cfg, w.books, m, keys, now);
      hide GrantsBalance, LedgerBalances, ChargesStand;
    case SendError(m) =>
      var f := w.flights[m];
      if f.isNew {
        RollbackKeepsGrants(cfg, w.books, m, f.keys, f.reservedAt);
        RollbackKeepsLedger(cfg, w.books, m, f.keys, f.reservedAt);
      }
      hide GrantsBalance, LedgerBalances, ChargesStand;
    case GiveConsent(g, maxSends) =>
      ConsentKeepsGrants(w.books, g, maxSends);
      hide GrantsBalance, ChargesStand;
    case SendInvite(scope, now) =>
      InviteKeepsLedger(cfg, w.books, scope, now);
      InviteKeepsGrants(cfg, w.books, scope, now);
      hide GrantsBalance, LedgerBalances, ChargesStand;
    case Revoke(g) =>
      hide ChargesStand;
    case _ =>
      hide GrantsBalance, LedgerBalances, ChargesStand;
  }

  lemma InviteKeepsGrants(cfg: Config, b: Books, scope: nat, now: int)
    requires Sound(cfg) && GrantsBalance(b)
    ensures GrantsBalance(Invite(cfg, b, scope, now).0)
  {
    hide ChargedTo, ChargeAll, InviteKeys;
  }

  lemma ConsentKeepsGrants(b: Books, g: GrantId, maxSends: int)
    requires GrantsBalance(b)
    ensures GrantsBalance(Consent(b, g, maxSends))
  {
    if g !in b.grants { assert ChargedTo(b.charges, g) == {}; }
  }

  /** Over any run of consents, invites, attempts, timeouts, errors, revocations and crashes the
      books balance. */
  lemma {:induction false} RunKeepsInv(cfg: Config, states: seq<World>, events: seq<Event>, n: nat)
    requires IsRun(cfg, states, events) && n < |states|
    ensures WorldInv(cfg, states[n])
  {
    if n > 0 {
      RunKeepsInv(cfg, states, events, n - 1);
      StepKeepsInv(cfg, states[n - 1], events[n - 1]);
    }
  }

  // ---------------------------------------------------------------- main results

  function PossiblyLanded(w: World, g: GrantId): set<MsgId> {
    set m | m in w.maybe && m in w.books.charges && w.books.charges[m].grant == g
  }

  /** Over any run every message that may have landed is charged to one grant, a grant's counter
      is the number of its charged messages, and so no capped grant can have let more distinct
      messages land than its cap. */
  lemma LandedWithinCap(cfg: Config, states: seq<World>, events: seq<Event>, n: nat, g: GrantId)
    requires IsRun(cfg, states, events) && n < |states| && g in states[n].books.grants
    ensures var w := states[n];
      && w.maybe <= w.books.charges.Keys
      && w.books.grants[g].used == |ChargedTo(w.books.charges, g)|
      && (w.books.grants[g].maxSends > 0 ==> |PossiblyLanded(w, g)| <= w.books.grants[g].maxSends)
  {
    RunKeepsInv(cfg, states, events, n);
    SetFacts.SubsetSize(PossiblyLanded(states[n], g), ChargedTo(states[n].books.charges, g));
  }

  /** Once a copy may have landed, the message keeps that same charge for the rest of the run. */
  lemma {:induction false} LandedKeepsCharge(cfg: Config, states: seq<World>, events: seq<Event>, n: nat, k: nat, m: MsgId)
    requires IsRun(cfg, states, events) && n <= k < |states| && m in states[n].maybe
    ensures m in states[k].maybe && m in states[n].books.charges && m in states[k].books.charges
    ensures states[k].books.charges[m] == states[n].books.charges[m]
    decreases k
  {
    RunKeepsInv(cfg, states, events, n);
    if n < k {
      LandedKeepsCharge(cfg, states, events, n, k - 1, m);
      RunKeepsInv(cfg, states, events, k - 1);
      StepKeepsLandedCharge(cfg, states[k - 1], events[k - 1], m);
    }
  }

  lemma StepKeepsLandedCharge(cfg: Config, w: World, e: Event, m: MsgId)
    requires Sound(cfg) && ChargesStand(cfg, w) && Enabled(w, e) && m in w.maybe
    ensures var w' := Step(cfg, w, e);
      m in w'.maybe && m in w'.books.charges && w'.books.charges[m] == w.books.charges[m]
  {
    hide KeysAt, ChargeAll, RefundAll;
  }

  lemma {:induction false} GrantsAreKept(cfg: Config, states: seq<World>, events: seq<Event>, n: nat, k: nat, g: GrantId)
    requires IsRun(cfg, states, events) && n <= k < |states| && g in states[n].books.grants
    ensures g in states[k].books.grants && states[k].books.grants[g].maxSends == states[n].books.grants[g].maxSends
    decreases k
  {
    if n < k {
      GrantsAreKept(cfg, states, events, n, k - 1, g);
      StepKeepsCap(cfg, states[k - 1], events[k - 1], g);
    }
  }

  lemma StepKeepsCap(cfg: Config, w: World, e: Event, g: GrantId)
    requires Sound(cfg) && Enabled(w, e) && g in w.books.grants
    ensures var w' := Step(cfg, w, e);
      g in w'.books.grants && w'.books.grants[g].maxSends == w.books.grants[g].maxSends
  {
    hide KeysAt, InviteKeys, ChargeAll, RefundAll;
  }

  /** The cap of a first consent is for life: however often the person opts out and consents anew,
      and whatever cap a later consent names, no more distinct messages land under the grant. */
  lemma RenewedConsentKeepsCap(cfg: Config, states: seq<World>, events: seq<Event>, n: nat, k: nat, g: GrantId)
    requires IsRun(cfg, states, events) && n <= k < |states|
    requires g in states[n].books.grants && states[n].books.grants[g].maxSends > 0
    ensures |PossiblyLanded(states[k], g)| <= states[n].books.grants[g].maxSends
  {
    GrantsAreKept(cfg, states, events, n, k, g);
    LandedWithinCap(cfg, states, events, k, g);
  }

  /** A ledger window never counts more standing charges and invites than its limit allows; only
      the daily row counts both. */
  lemma WindowsWithinLimit(cfg: Config, states: seq<World>, events: seq<Event>, n: nat, k: LedgerKey)
    requires IsRun(cfg, states, events) && n < |states|
    ensures var b := states[n].books;
      && CountAt(b.ledger, k) == |ChargedAt(b.charges, k)| + b.invites[k] <= WindowOf(cfg, k.bucket).limit
      && (k.bucket.OfInviteScope? ==> |ChargedAt(b.charges, k)| == 0 && b.invites[k] <= 3)
      && (!k.bucket.OfInviteScope? && !k.bucket.OfDeployDaily? ==> b.invites[k] == 0)
  {
    RunKeepsInv(cfg, states, events, n);
    if k.bucket.OfInviteScope? { assert ChargedAt(states[n].books.charges, k) == {}; }
  }

  lemma {:induction false} InvitesOnlyGrow(cfg: Config, states: seq<World>, events: seq<Event>, n: nat, m: nat)
    requires IsRun(cfg, states, events) && n <= m < |states|
    ensures states[n].books.invites <= states[m].books.invites
    decreases m
  {
    hide *;
    if n < m {
      InvitesOnlyGrow(cfg, states, events, n, m - 1);
      RunKeepsApart(cfg, states, events, m - 1);
      StepOfRun(cfg, states, events, m - 1);
      StepKeepsRowsApart(cfg, states[m - 1], events[m - 1]);
    }
  }

  lemma RunKeepsApart(cfg: Config, states: seq<World>, events: seq<Event>, n: nat)
    requires IsRun(cfg, states, events) && n < |states|
    ensures RowsApart(states[n].books)
  {
    RunKeepsInv(cfg, states, events, n);
  }

  lemma StepOfRun(cfg: Config, states: seq<World>, events: seq<Event>, i: nat)
    requires IsRun(cfg, states, events) && i + 1 < |states|
    ensures Sound(cfg) && i < |events| && Enabled(states[i], events[i]) && states[i + 1] == Step(cfg, states[i], events[i])
  {
    hide Step, Enabled, Sound;
  }

  /** An invite keeps its share of the daily row for good: whatever fails and is refunded later, the
      sends that stand in that window and the invites made so far stay within the cap. */
  lemma InvitesAreNeverRefunded(cfg: Config, states: seq<World>, events: seq<Event>, n: nat, m: nat, k: LedgerKey)
    requires IsRun(cfg, states, events) && n <= m < |states|
    ensures CountAt(states[m].books.ledger, k) >= states[n].books.invites[k]
    ensures |ChargedAt(states[m].books.charges, k)| + states[n].books.invites[k] <= WindowOf(cfg, k.bucket).limit
  {
    InvitesOnlyGrow(cfg, states, events, n, m);
    RunKeepsInv(cfg, states, events, m);
  }

  /** An invite goes out exactly when its scope made fewer than three in this minute and, with a
      daily cap, sends and invites together are below it; then both rows count one more. */
  lemma InviteAllowedIff(cfg: Config, states: seq<World>, events: seq<Event>, n: nat, scope: nat, now: int)
    requires IsRun(cfg, states, events) && n < |states|
    ensures var b, own, day := states[n].books, KeyAt(cfg, OfInviteScope(scope), now), KeyAt(cfg, OfDeployDaily, now);
      var (b', sent) := Invite(cfg, b, scope, now);
      && (sent <==>
            && b.invites[own] < 3
            && (cfg.daily.limit > 0 ==> |ChargedAt(b.charges, day)| + b.invites[day] < cfg.daily.limit))
      && (forall k :: CountAt(b'.ledger, k) ==
            CountAt(b.ledger, k) + (if sent && (k == own || (cfg.daily.limit > 0 && k == day)) then 1 else 0))
  {
    hide ChargedAt, CountAt;
    var b, own, day := states[n].books, KeyAt(cfg, OfInviteScope(scope), now), KeyAt(cfg, OfDeployDaily, now);
    var ks := InviteKeys(cfg, scope, now);
    WindowsWithinLimit(cfg, states, events, n, own);
    WindowsWithinLimit(cfg, states, events, n, day);
    ChargeAllIff(cfg, b.ledger, ks);
    hide ChargeAll;
    assert forall k :: k in ks <==> k == own || (cfg.daily.limit > 0 && k == day);
    if Invite(cfg, b, scope, now).1 {
      forall k { ChargeAllCounts(cfg, b.ledger, ks, k); }
    }
  }

  /** Charges and invites in the bucket's window of that time are below the limit. */
  ghost predicate HasRoom(cfg: Config, b: Books, bucket: Bucket, now: int, limit: nat)
    requires Sound(cfg)
  {
    var k := KeyAt(cfg, bucket, now);
    |ChargedAt(b.charges, k)| + b.invites[k] < limit
  }

  /** In every reachable state a message not charged yet is reserved afresh exactly when its grant
      exists, is not revoked and has fewer messages charged than its cap, if it has one, and every
      window of the send has room. */
  lemma ReserveAllowedIff(
      cfg: Config, states: seq<World>, events: seq<Event>, n: nat, m: MsgId, keys: RateKeys, now: int)
    requires IsRun(cfg, states, events) && n < |states| && m !in states[n].books.charges
    ensures var b, g := states[n].books, keys.grant;
      Reserve(cfg, b, m, keys, now).1 == Reserved(true) <==>
        && g in b.grants && !b.grants[g].revoked
        && (b.grants[g].maxSends > 0 ==> |ChargedTo(b.charges, g)| < b.grants[g].maxSends)
        && HasRoom(cfg, b, OfGrant(g), now, cfg.grant.limit)
        && HasRoom(cfg, b, OfParticipant(keys.participant), now, cfg.participant.limit)
        && HasRoom(cfg, b, OfScope(keys.scope), now, cfg.scope.limit)
        && HasRoom(cfg, b, OfDeploy, now, cfg.deploy.limit)
        && (cfg.daily.limit > 0 ==> HasRoom(cfg, b, OfDeployDaily, now, cfg.daily.limit))
  {
    var b := states[n].books;
    RunKeepsInv(cfg, states, events, n);
    KeysAreDistinct(cfg, keys, now);
    ChargeAllIff(cfg, b.ledger, KeysAt(cfg, keys, now));
    AllBelowIff(cfg, b, keys, now);
    hide ChargeAll, KeysAt, CountAt, ChargedAt, ChargedTo, HasRoom, IsRun;
  }

  /** What a fresh reservation leaves: the message charged, each of its rows one up, and the grant
      revoked exactly when that was the last message of its cap. */
  lemma FreshReserveIsExact(
      cfg: Config, states: seq<World>, events: seq<Event>, n: nat, m: MsgId, keys: RateKeys, now: int)
    requires IsRun(cfg, states, events) && n < |states|
    requires m !in states[n].books.charges && Reserve(cfg, states[n].books, m, keys, now).1 == Reserved(true)
    ensures var b, b', g := states[n].books, Reserve(cfg, states[n].books, m, keys, now).0, keys.grant;
      && b'.charges == b.charges[m := Charge(g, KeysAt(cfg, keys, now))] && b'.invites == b.invites
      && g in b.grants && g in b'.grants
      && (b'.grants[g].revoked <==> b.grants[g].maxSends > 0 && |ChargedTo(b'.charges, g)| == b.grants[g].maxSends)
      && b'.grants == b.grants[g := b'.grants[g]] && b'.grants[g].maxSends == b.grants[g].maxSends
      && (forall k :: CountAt(b'.ledger, k) == CountAt(b.ledger, k) + if k in KeysAt(cfg, keys, now) then 1 else 0)
  {
    var b := states[n].books;
    RunKeepsInv(cfg, states, events, n);
    ReserveKeepsGrants(cfg, b, m, keys, now);
    KeysAreDistinct(cfg, keys, now);
    hide KeysAt, CountAt, ChargedTo, LedgerBalances, RowsApart, ChargesStand, IsRun;
    forall k { ChargeAllCounts(cfg, b.ledger, KeysAt(cfg, keys, now), k); }
    hide ChargeAll;
  }

  /** A standing reservation is used again and charges nothing. */
  lemma ReserveIsIdempotent(cfg: Config, b: Books, m: MsgId, keys: RateKeys, now: int)
    requires m in b.charges
    ensures Reserve(cfg, b, m, keys, now) == (b, Reserved(false))
  {
  }

  /** Consent, first or renewed, leaves the grant not revoked; a renewed one keeps count and cap, and
      nothing else changes. */
  lemma ConsentLiftsRevocation(b: Books, g: GrantId, maxSends: int)
    ensures var b' := Consent(b, g, maxSends);
      && g in b'.grants && !b'.grants[g].revoked && b' == b.(grants := b.grants[g := b'.grants[g]])
      && (g in b.grants ==> b'.grants[g].used == b.grants[g].used && b'.grants[g].maxSends == b.grants[g].maxSends)
      && (g !in b.grants ==> b'.grants[g].used == 0 && b'.grants[g].maxSends == if maxSends > 0 then maxSends else 0)
  {
  }

  lemma AllBelowIff(cfg: Config, b: Books, keys: RateKeys, now: int)
    requires Sound(cfg) && LedgerBalances(cfg, b)
    ensures (forall k :: k in KeysAt(cfg, keys, now) ==> CountAt(b.ledger, k) < WindowOf(cfg, k.bucket).limit) <==>
      && HasRoom(cfg, b, OfGrant(keys.grant), now, cfg.grant.limit)
      && HasRoom(cfg, b, OfParticipant(keys.participant), now, cfg.participant.limit)
      && HasRoom(cfg, b, OfScope(keys.scope), now, cfg.scope.limit)
      && HasRoom(cfg, b, OfDeploy, now, cfg.deploy.limit)
      && (cfg.daily.limit > 0 ==> HasRoom(cfg, b, OfDeployDaily, now, cfg.daily.limit))
  {
    hide ChargedAt, CountAt, WindowStart;
    var ks := KeysAt(cfg, keys, now);
    assert ks[0] == KeyAt(cfg, OfGrant(keys.grant), now) && ks[1] == KeyAt(cfg, OfParticipant(keys.participant), now);
    assert ks[2] == KeyAt(cfg, OfScope(keys.scope), now) && ks[3] == KeyAt(cfg, OfDeploy, now);
    if cfg.daily.limit > 0 { assert ks[4] == KeyAt(cfg, OfDeployDaily, now); }
    assert forall i :: 0 <= i < |ks| ==> ks[i] in ks;
  }

  ghost predicate StaysRevoked(states: seq<World>, n: nat, m: nat, g: GrantId)
    requires n <= m < |states|
  {
    forall i :: n <= i <= m ==> g in states[i].books.grants && states[i].books.grants[g].revoked
  }

  lemma RevokedStepChargesNothing(cfg: Config, w: World, e: Event, g: GrantId)
    requires Sound(cfg) && Enabled(w, e) && g in w.books.grants && w.books.grants[g].revoked
    ensures ChargedTo(Step(cfg, w, e).books.charges, g) <= ChargedTo(w.books.charges, g)
  {
    hide KeysAt, InviteKeys, ChargeAll, RefundAll, RefundGrant, ChargeGrant;
  }

  /** What can lift a revocation: a consent, or a failed fresh send of a grant at its cap. */
  predicate MayLift(w: World, e: Event, g: GrantId)
    requires Enabled(w, e)
  {
    || (e.GiveConsent? && e.g == g)
    || (e.SendError? && w.flights[e.m].isNew && w.flights[e.m].keys.grant == g && g in w.books.grants
        && 0 < w.books.grants[g].maxSends <= w.books.grants[g].used)
  }

  predicate IsRevoked(b: Books, g: GrantId) {
    g in b.grants && b.grants[g].revoked
  }

  lemma StepKeepsRevoked(cfg: Config, w: World, e: Event, g: GrantId)
    requires Sound(cfg) && Enabled(w, e) && IsRevoked(w.books, g) && !MayLift(w, e, g)
    ensures IsRevoked(Step(cfg, w, e).books, g)
  {
    hide KeysAt, InviteKeys, ChargeAll, RefundAll;
  }

  lemma {:induction false} RevocationStands(cfg: Config, states: seq<World>, events: seq<Event>, n: nat, m: nat, g: GrantId)
    requires IsRun(cfg, states, events) && n < m < |states| && m <= |events| && events[n] == Revoke(g)
    requires forall i :: n < i < m ==> Enabled(states[i], events[i]) && !MayLift(states[i], events[i], g)
    ensures IsRevoked(states[m].books, g)
    decreases m
  {
    hide Step, IsRun, Sound, IsRevoked, MayLift;
    StepOfRun(cfg, states, events, m - 1);
    if n < m - 1 {
      RevocationStands(cfg, states, events, n, m - 1, g);
      StepKeepsRevoked(cfg, states[m - 1], events[m - 1], g);
    } else {
      RevokeRevokes(cfg, states[n], g);
    }
  }

  lemma RevokeRevokes(cfg: Config, w: World, g: GrantId)
    requires Sound(cfg) && Enabled(w, Revoke(g))
    ensures IsRevoked(Step(cfg, w, Revoke(g)).books, g)
  {
  }

  /** Main result: an opt-out ends the charging. Until the person consents anew, or a rollback at the
      cap lifts it, no message is newly charged to the grant. */
  lemma OptOutEndsCharging(cfg: Config, states: seq<World>, events: seq<Event>, n: nat, m: nat, g: GrantId)
    requires IsRun(cfg, states, events) && n < m < |states| && m <= |events| && events[n] == Revoke(g)
    requires forall i :: n < i < m ==> Enabled(states[i], events[i]) && !MayLift(states[i], events[i], g)
    ensures ChargedTo(states[m].books.charges, g) <= ChargedTo(states[n + 1].books.charges, g)
  {
    forall i | n + 1 <= i <= m ensures IsRevoked(states[i].books, g) {
      RevocationStands(cfg, states, events, n, i, g);
    }
    hide IsRun, MayLift, ChargedTo, Enabled;
    RevokedTakesNoCharge(cfg, states, events, n + 1, m, g);
  }

  /** A crash refunds nothing, and every message in flight counts as one that may have landed. */
  lemma CrashRefundsNothing(cfg: Config, w: World)
    requires Sound(cfg)
    ensures var w' := Step(cfg, w, Crash); w'.books == w.books && w.flights.Keys <= w'.maybe && w'.flights == map[]
  {
  }

  /** While a grant stays revoked no message is newly charged to it, whatever else happens. */
  lemma {:induction false} RevokedTakesNoCharge(
      cfg: Config, states: seq<World>, events: seq<Event>, n: nat, m: nat, g: GrantId)
    requires IsRun(cfg, states, events) && n <= m < |states| && StaysRevoked(states, n, m, g)
    ensures ChargedTo(states[m].books.charges, g) <= ChargedTo(states[n].books.charges, g)
    decreases m
  {
    hide Step, Enabled, ChargedTo, IsRun, Sound;
    if n < m {
      StepOfRun(cfg, states, events, m - 1);
      RevokedTakesNoCharge(cfg, states, events, n, m - 1, g);
      RevokedStepChargesNothing(cfg, states[m - 1], events[m - 1], g);
    }
  }

  /** A rollback undoes its reservation; the ledger is restored exactly when the rollback falls in
      the same window of every bucket, which is why both use one timestamp. */
  lemma RollbackUndoesReserve(cfg: Config, b: Books, m: MsgId, keys: RateKeys, now: int, later: int)
    requires Sound(cfg) && Reserve(cfg, b, m, keys, now).1 == Reserved(true)
    ensures var b' := Rollback(cfg, Reserve(cfg, b, m, keys, now).0, m, keys, later);
      && b'.charges == b.charges && b'.grants == b.grants
      && ((forall k :: CountAt(b'.ledger, k) == CountAt(b.ledger, k)) <==> KeysAt(cfg, keys, now) == KeysAt(cfg, keys, later))
  {
    hide ChargeAll, RefundAll, KeysAt, CountAt;
    var ks, ks' := KeysAt(cfg, keys, now), KeysAt(cfg, keys, later);
    var reserved := Reserve(cfg, b, m, keys, now).0;
    var b' := Rollback(cfg, reserved, m, keys, later);
    KeysAreDistinct(cfg, keys, now);
    KeysAreDistinct(cfg, keys, later);
    assert b'.charges == b.charges;
    forall k
      ensures CountAt(reserved.ledger, k) == CountAt(b.ledger, k) + (if k in ks then 1 else 0)
      ensures CountAt(b'.ledger, k) ==
        if k in ks' && CountAt(reserved.ledger, k) > 0 then CountAt(reserved.ledger, k) - 1 else CountAt(reserved.ledger, k)
    {
      ChargeAllCounts(cfg, b.ledger, ks, k);
      RefundAllCounts(reserved.ledger, ks', k);
    }
    if ks != ks' {
      var i := DifferentKey(cfg, keys, now, later);
      assert ks[i] in ks;
      assert CountAt(b'.ledger, ks[i]) != CountAt(b.ledger, ks[i]);
    }
  }

  lemma DifferentKey(cfg: Config, keys: RateKeys, now: int, later: int) returns (i: nat)
    requires Sound(cfg) && KeysAt(cfg, keys, now) != KeysAt(cfg, keys, later)
    ensures i < |KeysAt(cfg, keys, now)| && KeysAt(cfg, keys, now)[i] !in KeysAt(cfg, keys, later)
  {
    var ks, ks' := KeysAt(cfg, keys, now), KeysAt(cfg, keys, later);
    assert exists j :: 0 <= j < |ks| && ks[j] != ks'[j];
    i :| 0 <= i < |ks| && ks[i] != ks'[i];
  }

  /** The source says an independently revoked grant stays revoked through a rollback. It does
      exactly when fewer messages than the cap are charged to it at that moment. */
  lemma RevocationSurvivesRollbackIff(cfg: Config, states: seq<World>, events: seq<Event>, n: nat, m: MsgId)
    requires IsRun(cfg, states, events) && n < |events| && events[n] == SendError(m)
    requires states[n].flights[m].isNew
    ensures var w, g := states[n], states[n].flights[m].keys.grant;
      && g in w.books.grants && g in states[n + 1].books.grants
      && (w.books.grants[g].revoked ==>
            (states[n + 1].books.grants[g].revoked <==>
              !(0 < w.books.grants[g].maxSends <= |ChargedTo(w.books.charges, g)|)))
  {
    hide KeysAt, RefundAll;
    RunKeepsInv(cfg, states, events, n);
  }

  /** An opt-out between the last allowed reservation and its failed send is lost. */
  lemma OptOutCanBeLost(cfg: Config, m: MsgId, keys: RateKeys, now: int)
    requires Sound(cfg)
    requires cfg.grant.limit > 0 && cfg.participant.limit > 0 && cfg.scope.limit > 0 && cfg.deploy.limit > 0
    ensures var minted := Step(cfg, EMPTY, GiveConsent(keys.grant, 1));
      var sending := Step(cfg, minted, Begin(m, keys, now));
      m in sending.flights && keys.grant in sending.books.grants &&
      var optedOut := Step(cfg, sending, Revoke(keys.grant));
      optedOut.books.grants[keys.grant].revoked &&
      var failed := Step(cfg, optedOut, SendError(m));
      !failed.books.grants[keys.grant].revoked
  {
    ChargeAllIff(cfg, map[], KeysAt(cfg, keys, now));
  }

  lemma {:induction false} ChargeAllIff(cfg: Config, ledger: map<LedgerKey, nat>, ks: seq<LedgerKey>)
    requires Distinct(ks)
    ensures ChargeAll(cfg, ledger, ks).Some? <==> (forall k :: k in ks ==> CountAt(ledger, k) < WindowOf(cfg, k.bucket).limit)
    decreases |ks|
  {
    if ks != [] {
      assert ks == [ks[0]] + ks[1..];
      assert ks[0] !in ks[1..];
      assert ks[0] in ks;
      ChargeAllIff(cfg, ledger[ks[0] := CountAt(ledger, ks[0]) + 1], ks[1..]);
    }
  }

  /** Reading both rows before bumping either is no different from charging row by row. */
  lemma ChecksThenBumps(cfg: Config, ledger: map<LedgerKey, nat>, scope: nat, now: int)
    requires cfg.daily.windowSec > 0
    ensures var own, day := KeyAt(cfg, OfInviteScope(scope), now), KeyAt(cfg, OfDeployDaily, now);
      ChargeAll(cfg, ledger, InviteKeys(cfg, scope, now)) ==
        if CountAt(ledger, own) >= INVITE_SCOPE_WINDOW.limit then None
        else if cfg.daily.limit > 0 && CountAt(ledger, day) >= cfg.daily.limit then None
        else
          var bumped := ledger[own := CountAt(ledger, own) + 1];
          Some(if cfg.daily.limit > 0 then bumped[day := CountAt(bumped, day) + 1] else bumped)
  {
    var ks := InviteKeys(cfg, scope, now);
    if CountAt(ledger, ks[0]) < INVITE_SCOPE_WINDOW.limit {
      var bumped := ledger[ks[0] := CountAt(ledger, ks[0]) + 1];
      assert ChargeAll(cfg, ledger, ks) == ChargeAll(cfg, bumped, ks[1..]);
      if cfg.daily.limit > 0 {
        var day := KeyAt(cfg, OfDeployDaily, now);
        assert ks[1..] == [day] && [day][1..] == [];
        assert CountAt(bumped, day) < cfg.daily.limit ==>
          ChargeAll(cfg, bumped, [day]) == ChargeAll(cfg, bumped[day := CountAt(bumped, day) + 1], []);
      }
    }
  }

  // ---------------------------------------------------------------- the tables

  datatype SendOutcome = Ok | Err | Timeout

  class Ledger {
    const cfg: Config
    var grants: map<GrantId, Grant>
    var counts: map<LedgerKey, nat>
    ghost var charges: map<MsgId, Charge>
    ghost var invites: multiset<LedgerKey>
    var markers: set<MsgId>

    ghost function State(): Books
      reads this
    {
      Books(grants, counts, charges, invites)
    }

    ghost predicate Valid()
      reads this
    {
      markers == charges.Keys
    }

    constructor (cfg: Config)
      ensures this.cfg == cfg && Valid() && State() == EMPTY.books
    {
      this.cfg := cfg;
      grants, counts, charges, invites, markers := map[], map[], map[], multiset{}, {};
    }

    /** The transaction: every check and charge on a copy, committed only at the end. */
    method ReserveRosterSend(m: MsgId, keys: RateKeys, now: int) returns (result: ReserveResult)
      requires Valid()
      modifies this
      ensures Valid() && (State(), result) == Reserve(cfg, old(State()), m, keys, now)
    {
      if m in markers { return Reserved(false); }
      if keys.grant !in grants || !MayCharge(grants[keys.grant]) { return OverMaxSends; }
      if !Sound(cfg) { return Threw; }
      var ks := KeysAt(cfg, keys, now);
      var ledger: map<LedgerKey, nat> := counts;
      var i := 0;
      while i < |ks|
        invariant i <= |ks|
        invariant ChargeAll(cfg, counts, ks) == ChargeAll(cfg, ledger, ks[i..])
      {
        if CountAt(ledger, ks[i]) >= WindowOf(cfg, ks[i].bucket).limit { return RateLimited; }
        ledger := ledger[ks[i] := CountAt(ledger, ks[i]) + 1];
        i := i + 1;
      }
      grants := grants[keys.grant := ChargeGrant(grants[keys.grant])];
      counts := ledger;
      markers := markers + {m};
      charges := charges[m := Charge(keys.grant, ks)];
      result := Reserved(true);
    }

    /** One row per slot and participant: the insert, or on conflict the lifted revocation. */
    method InsertDmGrant(g: GrantId, maxSends: int)
      requires Valid()
      modifies this
      ensures Valid() && State() == Consent(old(State()), g, maxSends)
    {
      if g in grants {
        grants := grants[g := grants[g].(revoked := false)];
      } else {
        grants := grants[g := Grant(if maxSends > 0 then maxSends else 0, 0, false)];
      }
    }

    /** All checks first, then all bumps. */
    method ChargeInvite(scope: nat, now: int) returns (allowed: bool)
      requires Valid() && cfg.daily.windowSec > 0
      modifies this
      ensures Valid() && (State(), allowed) == Invite(cfg, old(State()), scope, now)
    {
      var own, day := KeyAt(cfg, OfInviteScope(scope), now), KeyAt(cfg, OfDeployDaily, now);
      ChecksThenBumps(cfg, counts, scope, now);
      hide ChargeAll, CountAt, KeyAt, InviteKeys, WindowOf;
      if CountAt(counts, own) >= INVITE_SCOPE_WINDOW.limit { return false; }
      if cfg.daily.limit > 0 && CountAt(counts, day) >= cfg.daily.limit { return false; }
      var bumped: map<LedgerKey, nat> := counts[own := CountAt(counts, own) + 1];
      if cfg.daily.limit > 0 { bumped := bumped[day := CountAt(bumped, day) + 1]; }
      counts := bumped;
      invites := invites + multiset(InviteKeys(cfg, scope, now));
      allowed := true;
    }

    method RollbackRosterReservation(m: MsgId, keys: RateKeys, now: int) returns (done: bool)
      requires Valid() && Sound(cfg)
      modifies this
      ensures Valid() && State() == Rollback(cfg, old(State()), m, keys, now)
      ensures done <==> m in old(markers)
    {
      if m !in markers { return false; }
      if keys.grant in grants { grants := grants[keys.grant := RefundGrant(grants[keys.grant])]; }
      var ks := KeysAt(cfg, keys, now);
      ghost var before := counts;
      var i := 0;
      while i < |ks|
        invariant i <= |ks|
        invariant RefundAll(before, ks) == RefundAll(counts, ks[i..])
        invariant State() == old(State()).(grants := grants, ledger := counts) && markers == old(markers)
        invariant grants == if keys.grant in old(grants)
          then old(grants)[keys.grant := RefundGrant(old(grants)[keys.grant])] else old(grants)
      {
        if ks[i] in counts && counts[ks[i]] > 0 { counts := counts[ks[i] := counts[ks[i]] - 1]; }
        i := i + 1;
      }
      markers := markers - {m};
      charges := charges - {m};
      done := true;
    }

    /** Reserve, send, and take the reservation back only for a fresh explicit failure: the attempt
        as one begin event and one outcome event of the world above. */
    method SendReserved(ghost w: World, m: MsgId, keys: RateKeys, outcome: SendOutcome, now: int)
      returns (result: ReserveResult, ghost after: World)
      requires Valid() && Sound(cfg) && w.books == State() && m !in w.flights
      modifies this
      ensures Valid() && after.books == State()
      ensures result == Reserve(cfg, w.books, m, keys, now).1
      ensures after ==
        if result.Reserved? then
          Step(cfg, BeginStep(cfg, w, m, keys, now),
               match outcome case Ok => SendOk(m) case Err => SendError(m) case Timeout => SendTimeout(m))
        else w
    {
      hide Rollback;
      result := ReserveRosterSend(m, keys, now);
      if !result.Reserved? { return result, w; }
      after := BeginStep(cfg, w, m, keys, now);
      match outcome
      case Ok => after := Step(cfg, after, SendOk(m));
      case Timeout => after := Step(cfg, after, SendTimeout(m));
      case Err =>
        after := Step(cfg, after, SendError(m));
        if result.isNew {
          var _ := RollbackRosterReservation(m, keys, now);
        }
    }
  }
}
