/** The host's signing proxy (src/gateway-signing-proxy.ts:218-437) over its token table
    (src/db/gateway-proxy-token.ts:76-186) and audit table (src/db/gateway-audit.ts:77-144). A request
    is two atomic steps: everything up to the forward, and the backend's answer. */
module SigningProxy {
  import opened JsonTree
  import opened Wrappers
  import CanonicalJson
  import RateLimiter

  type Token = nat
  type Jti = RateLimiter.Jti
  type SessionId = nat
  type Ip = nat
  type RequestId = nat
  type SigningKey = nat
  datatype Group = Group(text: string)

  /** The paths the proxy will sign, and any other. */
  datatype Path =
    | Describe | Authorize | TaskStatus | MemoryGet | MemorySearch
    | Execute | BulkExecute | MemoryUpsert | MemoryFeedback
    | Other(text: string)

  // ---------------------------------------------------------------- the body that is signed

  type Member = CanonicalJson.Member

  /** What a reader takes a key to mean when the first, or the last, of its members wins. */
  function FirstOf(ms: seq<Member>, key: string): Option<Json> {
    if ms == [] then None else if ms[0].0 == key then Some(ms[0].1) else FirstOf(ms[1..], key)
  }

  function LastOf(ms: seq<Member>, key: string): Option<Json> {
    if ms == [] then None
    else if ms[|ms| - 1].0 == key then Some(ms[|ms| - 1].1)
    else LastOf(ms[..|ms| - 1], key)
  }

  /** Setting a key on an object: in place if it is there, else at the end. */
  function Put(ms: seq<Member>, m: Member): seq<Member> {
    if ms == [] then [m]
    else if ms[0].0 == m.0 then [m] + ms[1..]
    else [ms[0]] + Put(ms[1..], m)
  }

  function PutAll(ms: seq<Member>): seq<Member> {
    if ms == [] then [] else Put(PutAll(ms[..|ms| - 1]), ms[|ms| - 1])
  }

  function ParsedItems(v: Json): (r: seq<Json>)
    requires v.Arr?
    ensures |r| == |v.items| && forall i :: 0 <= i < |r| ==> r[i] == Parsed(v.items[i])
    decreases v, 0
  {
    seq(|v.items|, i requires 0 <= i < |v.items| => Parsed(v.items[i]))
  }

  function ParsedMembers(v: Json): (r: seq<Member>)
    requires v.Obj?
    ensures |r| == |v.members| && forall i :: 0 <= i < |r| ==> r[i] == (v.members[i].0, Parsed(v.members[i].1))
    decreases v, 0
  {
    seq(|v.members|, i requires 0 <= i < |v.members| => (v.members[i].0, Parsed(v.members[i].1)))
  }

  /** The value the engine reads from a text whose objects may repeat keys. */
  function Parsed(v: Json): Json
    decreases v, 1
  {
    match v
    case Arr(_) => Arr(ParsedItems(v))
    case Obj(_) => Obj(PutAll(ParsedMembers(v)))
    case _ => v
  }

  lemma {:induction false} PutKeeps(ms: seq<Member>, m: Member)
    requires CanonicalJson.DistinctKeys(ms)
    ensures CanonicalJson.DistinctKeys(Put(ms, m))
    ensures forall x :: x in Put(ms, m) <==> x == m || (x in ms && x.0 != m.0)
    ensures forall k :: FirstOf(Put(ms, m), k) == if k == m.0 then Some(m.1) else FirstOf(ms, k)
  {
    if ms != [] {
      var rest := ms[1..];
      assert ms == [ms[0]] + rest;
      assert forall x :: x in rest ==> x.0 != ms[0].0;
      if ms[0].0 == m.0 {
        assert ([m] + rest)[1..] == rest;
        assert CanonicalJson.DistinctKeys([m] + rest);
      } else {
        PutKeeps(rest, m);
        var put := Put(rest, m);
        assert ([ms[0]] + put)[1..] == put;
        forall i | 0 <= i < |put| ensures put[i].0 != ms[0].0 {
          assert put[i] in put;
        }
      }
    }
  }

  lemma {:induction false} PutAllIsLastWins(ms: seq<Member>)
    ensures CanonicalJson.DistinctKeys(PutAll(ms))
    ensures forall x :: x in PutAll(ms) ==> x in ms
    ensures forall k :: FirstOf(PutAll(ms), k) == LastOf(ms, k)
  {
    if ms != [] {
      PutAllIsLastWins(ms[..|ms| - 1]);
      PutKeeps(PutAll(ms[..|ms| - 1]), ms[|ms| - 1]);
    }
  }

  lemma {:induction false} DistinctFirstIsLast(ms: seq<Member>, key: string)
    requires CanonicalJson.DistinctKeys(ms)
    ensures FirstOf(ms, key) == LastOf(ms, key)
    ensures FirstOf(ms, key).None? <==> forall i :: 0 <= i < |ms| ==> ms[i].0 != key
  {
    if |ms| == 1 {
      assert ms[1..] == [] && ms[..0] == [];
    } else if ms != [] {
      var rest, init := ms[1..], ms[..|ms| - 1];
      DistinctFirstIsLast(rest, key);
      DistinctFirstIsLast(init, key);
      assert rest[..|rest| - 1] == init[1..];
      DistinctFirstIsLast(init[1..], key);
      assert forall i :: 0 <= i < |rest| ==> rest[i] == ms[i + 1];
    }
  }

  /** Main result: the body that is signed repeats no key at any depth ... */
  lemma {:induction false} SignedBodyIsUnambiguous(v: Json)
    ensures CanonicalJson.WellFormed(Parsed(v))
    decreases v
  {
    match v
    case Arr(xs) =>
      forall i | 0 <= i < |xs| ensures CanonicalJson.WellFormed(Parsed(xs[i])) { SignedBodyIsUnambiguous(xs[i]); }
    case Obj(ms) =>
      var ps := ParsedMembers(v);
      forall i | 0 <= i < |ms| ensures CanonicalJson.WellFormed(ps[i].1) { SignedBodyIsUnambiguous(ms[i].1); }
      PutAllIsLastWins(ps);
      forall i | 0 <= i < |PutAll(ps)| ensures CanonicalJson.WellFormed(PutAll(ps)[i].1) {
        assert PutAll(ps)[i] in ps;
      }
    case _ =>
  }

  /** ... so a reader for whom the first member wins and one for whom the last wins agree on it. */
  lemma ReadersAgree(v: Json, key: string)
    requires v.Obj?
    ensures FirstOf(Parsed(v).members, key) == LastOf(Parsed(v).members, key) == LastOf(ParsedMembers(v), key)
  {
    SignedBodyIsUnambiguous(v);
    PutAllIsLastWins(ParsedMembers(v));
    DistinctFirstIsLast(Parsed(v).members, key);
  }

  lemma {:induction false} PutAtEnd(ms: seq<Member>, m: Member)
    requires forall i :: 0 <= i < |ms| ==> ms[i].0 != m.0
    ensures Put(ms, m) == ms + [m]
  {
    if ms != [] { PutAtEnd(ms[1..], m); }
  }

  lemma {:induction false} PutAllOfDistinct(ms: seq<Member>)
    requires CanonicalJson.DistinctKeys(ms)
    ensures PutAll(ms) == ms
  {
    if ms != [] {
      PutAllOfDistinct(ms[..|ms| - 1]);
      PutAtEnd(ms[..|ms| - 1], ms[|ms| - 1]);
    }
  }

  /** A body that repeats no key is signed as it came. */
  lemma {:induction false} CleanBodyIsSignedAsIs(v: Json)
    requires CanonicalJson.WellFormed(v)
    ensures Parsed(v) == v
    decreases v
  {
    match v
    case Arr(xs) =>
      forall i | 0 <= i < |xs| ensures Parsed(xs[i]) == xs[i] { CleanBodyIsSignedAsIs(xs[i]); }
      assert ParsedItems(v) == xs;
    case Obj(ms) =>
      forall i | 0 <= i < |ms| ensures Parsed(ms[i].1) == ms[i].1 { CleanBodyIsSignedAsIs(ms[i].1); }
      assert ParsedMembers(v) == ms;
      PutAllOfDistinct(ms);
    case _ =>
  }

  /** Main result: the tree that is signed is the one received exactly when that repeats no key. */
  lemma SignedAsReceivedIff(v: Json)
    ensures Parsed(v) == v <==> CanonicalJson.WellFormed(v)
  {
    SignedBodyIsUnambiguous(v);
    if CanonicalJson.WellFormed(v) { CleanBodyIsSignedAsIs(v); }
  }

  /** Two `agent` members: the last one is signed, in the place of the first. */
  lemma RepeatedKeyIsCollapsed(x: Json, y: Json, z: Json)
    requires CanonicalJson.WellFormed(y) && CanonicalJson.WellFormed(z)
    ensures Parsed(Obj([("agent", x), ("operation", z), ("agent", y)])) == Obj([("agent", y), ("operation", z)])
  {
    CleanBodyIsSignedAsIs(y);
    CleanBodyIsSignedAsIs(z);
    var v := Obj([("agent", x), ("operation", z), ("agent", y)]);
    assert ParsedMembers(v) == [("agent", Parsed(x)), ("operation", z), ("agent", y)];
    assert "agent"[0] != "operation"[0];
    hide PutAll, ParsedMembers, CanonicalJson.WellFormed;
    LastOfThree(("agent", Parsed(x)), ("operation", z), ("agent", y));
  }

  lemma LastOfThree(a1: Member, o: Member, a2: Member)
    requires a1.0 == a2.0 != o.0
    ensures PutAll([a1, o, a2]) == [a2, o]
  {
    assert PutAll([]) == [] && [] + [a1] == [a1] && [a1] + [o] + [a2] == [a1, o, a2];
    PutOneMore([], a1);
    PutOneMore([a1], o);
    PutOneMore([a1] + [o], a2);
  }

  lemma PutOneMore(ms: seq<Member>, m: Member)
    ensures PutAll(ms + [m]) == Put(PutAll(ms), m)
  {
    assert (ms + [m])[..|ms|] == ms;
  }

  // ---------------------------------------------------------------- the tables

  datatype TokenRow = TokenRow(
    jti: Jti, session: SessionId, group: Group, allowed: set<Path>, sourceIp: Option<Ip>, expiresAt: int, revoked: bool)

  /** `settled` is audit_phase 'final'; `ok` is status 'ok'. */
  datatype AuditRow = AuditRow(
    jti: Jti, group: Group, signedAs: Option<Group>, path: Path, mismatch: bool, settled: bool, ok: bool)

  /** A request sent on: under which token, signed with which key over which body, when, and in
      which life of the host process. */
  datatype Forward = Forward(
    id: RequestId, token: Token, jti: Jti, group: Group, key: SigningKey, ip: Ip, path: Path, body: Json, at: int, life: nat)

  datatype World = World(
    cfg: RateLimiter.Config,
    tokens: map<Token, TokenRow>,
    buckets: RateLimiter.Buckets,
    audit: map<RequestId, AuditRow>,
    nextId: RequestId,
    inflight: set<RequestId>,
    forwards: seq<Forward>,
    asked: seq<RateLimiter.Request>,
    life: nat)

  /** `body` is None when it is not JSON; `keys` holds the groups that can be signed for; the three
      flags say whether the database takes the intent, a refusal's note, and its finalisation. */
  datatype Request = Request(
    post: bool, path: Path, token: Option<Token>, ip: Ip, body: Option<Json>, now: int,
    keys: map<Group, SigningKey>, intentOk: bool, noteOk: bool, finalizeOk: bool)

  datatype Verdict =
    | MethodNotAllowed | MissingToken | TokenRefused | RateLimited | ForbiddenPath | BadBody
    | IdentityMismatch | NoSigningKey | AuditUnavailable | Forwarded

  /** The agent group a parsed body claims, to a reader for whom the first member wins ... */
  function FirstClaim(body: Json): Option<Group>
    requires body.Obj?
  {
    var agent := FirstOf(body.members, "agent");
    if agent.None? || !agent.value.Obj? then None
    else
      var id := FirstOf(agent.value.members, "agentGroupId");
      if id.None? || !id.value.Str? then None else Some(Group(id.value.s))
  }

  /** ... and to one for whom the last does. */
  function LastClaim(body: Json): Option<Group>
    requires body.Obj?
  {
    var agent := LastOf(body.members, "agent");
    if agent.None? || !agent.value.Obj? then None
    else
      var id := LastOf(agent.value.members, "agentGroupId");
      if id.None? || !id.value.Str? then None else Some(Group(id.value.s))
  }

  lemma FirstOfIsMember(ms: seq<Member>, key: string)
    ensures FirstOf(ms, key).Some? ==> exists i :: 0 <= i < |ms| && ms[i].1 == FirstOf(ms, key).value
  {
    if ms != [] && ms[0].0 != key {
      FirstOfIsMember(ms[1..], key);
      assert forall i :: 0 <= i < |ms| - 1 ==> ms[1..][i] == ms[i + 1];
    }
  }

  lemma ClaimsAgree(body: Json)
    requires body.Obj? && CanonicalJson.WellFormed(body)
    ensures FirstClaim(body) == LastClaim(body)
  {
    DistinctFirstIsLast(body.members, "agent");
    var agent := FirstOf(body.members, "agent");
    if agent.Some? && agent.value.Obj? {
      FirstOfIsMember(body.members, "agent");
      assert CanonicalJson.WellFormed(agent.value);
      DistinctFirstIsLast(agent.value.members, "agentGroupId");
    }
  }

  function ClaimedGroup(body: Json): Option<Group>
    requires body.Obj?
  {
    FirstClaim(Parsed(body))
  }

  predicate TokenOk(tokens: map<Token, TokenRow>, t: Token, ip: Ip, now: int) {
    t in tokens && !tokens[t].revoked && tokens[t].expiresAt > now &&
    (tokens[t].sourceIp.None? || tokens[t].sourceIp == Some(ip))
  }

  predicate Verified(w: World, q: Request) {
    q.post && q.token.Some? && TokenOk(w.tokens, q.token.value, q.ip, q.now)
  }

  function RateRequest(w: World, q: Request): RateLimiter.Request
    requires Verified(w, q)
  {
    RateLimiter.Request(w.tokens[q.token.value].jti, q.now)
  }

  predicate RateOk(w: World, q: Request)
    requires Verified(w, q)
  {
    RateLimiter.AllowGc(w.cfg, w.buckets, RateRequest(w, q)).1
  }

  /** The gates behind token and rate, in order; the first one shut names the refusal. */
  function GatesOf(row: TokenRow, q: Request): Verdict {
    if q.path.Other? || q.path !in row.allowed then ForbiddenPath
    else if q.body.None? || !q.body.value.Obj? then BadBody
    else if ClaimedGroup(q.body.value) != Some(row.group) then IdentityMismatch
    else if row.group !in q.keys then NoSigningKey
    else if !q.intentOk then AuditUnavailable
    else Forwarded
  }

  function VerdictOf(w: World, q: Request): Verdict {
    if !q.post then MethodNotAllowed
    else if q.token.None? then MissingToken
    else if !Verified(w, q) then TokenRefused
    else
      var row := w.tokens[q.token.value];
      if !RateOk(w, q) then RateLimited else GatesOf(row, q)
  }

  function NoteRow(row: TokenRow, q: Request, v: Verdict): AuditRow {
    AuditRow(row.jti, row.group, if v == IdentityMismatch then None else Some(row.group), q.path, v == IdentityMismatch,
             (v == IdentityMismatch || v == NoSigningKey) && q.finalizeOk, false)
  }

  /** Gates and note do not look at the pin. */
  lemma GatesIgnorePin(row: TokenRow, q: Request, unpinned: TokenRow)
    requires row == unpinned.(sourceIp := row.sourceIp)
    ensures GatesOf(row, q) == GatesOf(unpinned, q)
    ensures forall v :: NoteRow(row, q, v) == NoteRow(unpinned, q, v)
  {
    hide ClaimedGroup;
  }

  function ForwardOf(w: World, q: Request): Forward
    requires VerdictOf(w, q) == Forwarded
  {
    var row := w.tokens[q.token.value];
    Forward(w.nextId, q.token.value, row.jti, row.group, q.keys[row.group], q.ip, q.path, Parsed(q.body.value), q.now, w.life)
  }

  function RequestStep(w: World, q: Request): World {
    if !Verified(w, q) then w
    else
      var v := VerdictOf(w, q);
      var row := w.tokens[q.token.value];
      var noted := v == Forwarded || ((v == IdentityMismatch || v == NoSigningKey) && q.noteOk);
      w.(tokens := w.tokens[q.token.value := row.(sourceIp := Some(q.ip))],
         buckets := RateLimiter.AllowGc(w.cfg, w.buckets, RateRequest(w, q)).0,
         asked := w.asked + [RateRequest(w, q)],
         audit := if noted then w.audit[w.nextId := NoteRow(row, q, v)] else w.audit,
         nextId := if v in {IdentityMismatch, NoSigningKey, AuditUnavailable, Forwarded} then w.nextId + 1 else w.nextId,
         inflight := if v == Forwarded then w.inflight + {w.nextId} else w.inflight,
         forwards := if v == Forwarded then w.forwards + [ForwardOf(w, q)] else w.forwards)
  }

  function Settle(audit: map<RequestId, AuditRow>, id: RequestId, ok: bool): map<RequestId, AuditRow> {
    if id in audit && !audit[id].settled then audit[id := audit[id].(settled := true, ok := ok)] else audit
  }

  function RevokeSession(tokens: map<Token, TokenRow>, session: SessionId): map<Token, TokenRow> {
    map t | t in tokens :: if tokens[t].session == session then tokens[t].(revoked := true) else tokens[t]
  }

  function RevokeAll(tokens: map<Token, TokenRow>): map<Token, TokenRow> {
    map t | t in tokens :: tokens[t].(revoked := true)
  }

  function ReconcileOrphans(audit: map<RequestId, AuditRow>): map<RequestId, AuditRow> {
    map id | id in audit :: if audit[id].settled then audit[id] else audit[id].(settled := true, ok := false)
  }

  // ---------------------------------------------------------------- the proxy

  class Proxy {
    const cfg: RateLimiter.Config
    var tokens: map<Token, TokenRow>
    var buckets: RateLimiter.Buckets
    var audit: map<RequestId, AuditRow>
    var nextId: RequestId
    var inflight: set<RequestId>
    var forwards: seq<Forward>
    ghost var asked: seq<RateLimiter.Request>
    var life: nat

    ghost function State(): World
      reads this
    {
      World(cfg, tokens, buckets, audit, nextId, inflight, forwards, asked, life)
    }

    /** Trust on first use: the first address to present a token is the only one that may. */
    method VerifyProxyToken(t: Token, ip: Ip, now: int) returns (ok: bool)
      modifies this`tokens
      ensures ok <==> TokenOk(old(tokens), t, ip, now)
      ensures tokens == if ok then old(tokens)[t := old(tokens)[t].(sourceIp := Some(ip))] else old(tokens)
    {
      if t !in tokens { return false; }
      var row := tokens[t];
      if row.revoked { return false; }
      if row.expiresAt <= now { return false; }
      if row.sourceIp.None? {
        tokens := tokens[t := row.(sourceIp := Some(ip))];
      } else if row.sourceIp.value != ip {
        return false;
      } else {
        assert tokens == tokens[t := tokens[t].(sourceIp := Some(ip))];
      }
      ok := true;
    }

    /** A refusal's audit: intent, then outcome, both best effort. */
    method NoteRefusal(row: TokenRow, q: Request, v: Verdict)
      requires v == IdentityMismatch || v == NoSigningKey
      modifies this`nextId, this`audit
      ensures nextId == old(nextId) + 1
      ensures audit == if q.noteOk then old(audit)[old(nextId) := NoteRow(row, q, v)] else old(audit)
    {
      var id := nextId;
      nextId := id + 1;
      if q.noteOk {
        var signedAs := if v == IdentityMismatch then None else Some(row.group);
        audit := audit[id := AuditRow(row.jti, row.group, signedAs, q.path, v == IdentityMismatch, false, false)];
        if q.finalizeOk { audit := Settle(audit, id, false); }
      }
    }

    /** The intent goes in before the request goes out; if it cannot, nothing is signed. */
    method RecordAndForward(row: TokenRow, q: Request) returns (forwarded: bool)
      requires q.token.Some? && q.body.Some? && row.group in q.keys
      modifies this`nextId, this`audit, this`inflight, this`forwards
      ensures forwarded == q.intentOk && nextId == old(nextId) + 1
      ensures !forwarded ==> audit == old(audit) && inflight == old(inflight) && forwards == old(forwards)
      ensures forwarded ==>
        && audit == old(audit)[old(nextId) := NoteRow(row, q, Forwarded)]
        && inflight == old(inflight) + {old(nextId)}
        && forwards == old(forwards) + [Forward(old(nextId), q.token.value, row.jti, row.group, q.keys[row.group], q.ip, q.path,
                                                Parsed(q.body.value), q.now, life)]
    {
      var id := nextId;
      nextId := id + 1;
      if !q.intentOk { return false; }
      audit := audit[id := AuditRow(row.jti, row.group, Some(row.group), q.path, false, false, false)];
      inflight := inflight + {id};
      forwards := forwards + [Forward(id, q.token.value, row.jti, row.group, q.keys[row.group], q.ip, q.path,
                                      Parsed(q.body.value), q.now, life)];
      forwarded := true;
    }

    /** From the path on: refuse, note the refusal, or record and forward. */
    method SignIfAllowed(row: TokenRow, q: Request) returns (v: Verdict)
      requires q.token.Some?
      modifies this`nextId, this`audit, this`inflight, this`forwards
      ensures v == GatesOf(row, q)
      ensures nextId == if v in {IdentityMismatch, NoSigningKey, AuditUnavailable, Forwarded} then old(nextId) + 1 else old(nextId)
      ensures audit ==
        if v == Forwarded || ((v == IdentityMismatch || v == NoSigningKey) && q.noteOk)
        then old(audit)[old(nextId) := NoteRow(row, q, v)] else old(audit)
      ensures v != Forwarded ==> inflight == old(inflight) && forwards == old(forwards)
      ensures v == Forwarded ==>
        && inflight == old(inflight) + {old(nextId)}
        && forwards == old(forwards) + [Forward(old(nextId), q.token.value, row.jti, row.group, q.keys[row.group], q.ip, q.path,
                                                Parsed(q.body.value), q.now, life)]
    {
      hide Parsed, ClaimedGroup, NoteRow;
      if q.path.Other? || q.path !in row.allowed { return ForbiddenPath; }
      if q.body.None? || !q.body.value.Obj? { return BadBody; }
      if ClaimedGroup(q.body.value) != Some(row.group) {
        NoteRefusal(row, q, IdentityMismatch);
        return IdentityMismatch;
      }
      if row.group !in q.keys {
        NoteRefusal(row, q, NoSigningKey);
        return NoSigningKey;
      }
      var forwarded := RecordAndForward(row, q);
      v := if forwarded then Forwarded else AuditUnavailable;
    }

    /** Up to the forward: every effect in the order the handler has it. */
    method ProcessSigningProxyRequest(q: Request) returns (v: Verdict)
      modifies this
      ensures v == VerdictOf(old(State()), q) && State() == RequestStep(old(State()), q)
    {
      hide Parsed, ClaimedGroup, GatesOf, RateLimiter.AllowGc;
      if !q.post { return MethodNotAllowed; }
      if q.token.None? { return MissingToken; }
      var verified := VerifyProxyToken(q.token.value, q.ip, q.now);
      if !verified { return TokenRefused; }
      var row := tokens[q.token.value];
      var ask := RateLimiter.Request(row.jti, q.now);
      var (left, allowed) := RateLimiter.AllowGc(cfg, buckets, ask);
      buckets, asked := left, asked + [ask];
      if !allowed { return RateLimited; }
      GatesIgnorePin(row, q, old(tokens)[q.token.value]);
      v := SignIfAllowed(row, q);
    }

    /** The backend's answer, or its failure: the row is finalised, best effort. */
    method OnAnswer(id: RequestId, ok: bool, finalizeOk: bool)
      requires id in inflight
      modifies this`inflight, this`audit
      ensures inflight == old(inflight) - {id}
      ensures audit == if finalizeOk then Settle(old(audit), id, ok) else old(audit)
    {
      inflight := inflight - {id};
      if finalizeOk { audit := Settle(audit, id, ok); }
    }

    /** One live token per session: minting revokes the session's earlier ones. */
    method MintProxyToken(t: Token, row: TokenRow)
      requires t !in tokens && !row.revoked && row.sourceIp.None?
      modifies this`tokens
      ensures tokens == RevokeSession(old(tokens), row.session)[t := row]
    {
      tokens := RevokeSession(tokens, row.session);
      tokens := tokens[t := row];
    }
  }

  // ---------------------------------------------------------------- runs

  datatype Event =
    | Ask(q: Request)
    | Answer(id: RequestId, ok: bool, finalizeOk: bool)
    | Mint(t: Token, row: TokenRow)
    | Revoke(session: SessionId)
    | Restart(reconciled: bool)

  /** Tokens and their ids are fresh when minted. */
  predicate Enabled(w: World, e: Event) {
    match e
    case Ask(q) => w.asked != [] ==> RateLimiter.Last(w.asked).now <= q.now
    case Answer(id, _, _) => id in w.inflight
    case Mint(t, row) =>
      && t !in w.tokens && !row.revoked && row.sourceIp.None?
      && forall u :: u in w.tokens ==> w.tokens[u].jti != row.jti
    case _ => true
  }

  function Step(w: World, e: Event): World
    requires Enabled(w, e)
  {
    match e
    case Ask(q) => RequestStep(w, q)
    case Answer(id, ok, finalizeOk) =>
      w.(inflight := w.inflight - {id}, audit := if finalizeOk then Settle(w.audit, id, ok) else w.audit)
    case Mint(t, row) => w.(tokens := RevokeSession(w.tokens, row.session)[t := row])
    case Revoke(session) => w.(tokens := RevokeSession(w.tokens, session))
    case Restart(reconciled) =>
      w.(tokens := RevokeAll(w.tokens), buckets := map[], inflight := {}, asked := [], life := w.life + 1,
         audit := if reconciled then ReconcileOrphans(w.audit) else w.audit)
  }

  function Start(cfg: RateLimiter.Config): World {
    World(cfg, map[], map[], map[], 0, {}, [], [], 0)
  }

  ghost predicate IsRun(states: seq<World>, events: seq<Event>) {
    && |states| == |events| + 1
    && states[0] == Start(states[0].cfg)
    && (forall i :: 0 <= i < |events| ==> Enabled(states[i], events[i]) && states[i + 1] == Step(states[i], events[i]))
  }

  // ---------------------------------------------------------------- the invariant

  /** The trail of one forward: its token is pinned to its caller, and its audit row names the
      token's group as the one signed for. */
  ghost predicate OnRecord(tokens: map<Token, TokenRow>, audit: map<RequestId, AuditRow>, f: Forward) {
    && f.token in tokens && tokens[f.token].jti == f.jti && tokens[f.token].group == f.group
    && tokens[f.token].sourceIp == Some(f.ip) && f.path in tokens[f.token].allowed
    && f.id in audit && audit[f.id].signedAs == Some(f.group) && audit[f.id].jti == f.jti && audit[f.id].path == f.path
    && !audit[f.id].mismatch
  }

  /** The body repeats no key and claims the group it is signed for. */
  ghost predicate ClaimsItsGroup(f: Forward) {
    f.body.Obj? && CanonicalJson.WellFormed(f.body) && FirstClaim(f.body) == Some(f.group)
  }

  ghost predicate AllClaim(forwards: seq<Forward>) {
    forall i :: 0 <= i < |forwards| ==> ClaimsItsGroup(forwards[i])
  }

  ghost predicate AllOnRecord(tokens: map<Token, TokenRow>, audit: map<RequestId, AuditRow>, forwards: seq<Forward>) {
    forall i :: 0 <= i < |forwards| ==> OnRecord(tokens, audit, forwards[i])
  }

  /** Each request is forwarded at most once, in the order of ids. */
  ghost predicate IdsIncrease(forwards: seq<Forward>, nextId: RequestId) {
    && (forall i, j :: 0 <= i < j < |forwards| ==> forwards[i].id < forwards[j].id)
    && (forall i :: 0 <= i < |forwards| ==> forwards[i].id < nextId)
  }

  ghost predicate OneLiveToken(tokens: map<Token, TokenRow>) {
    forall t, u :: t in tokens && u in tokens && tokens[t].session == tokens[u].session ==>
      tokens[t].revoked || tokens[u].revoked || t == u
  }

  ghost predicate DistinctJtis(tokens: map<Token, TokenRow>) {
    forall t, u :: t in tokens && u in tokens && tokens[t].jti == tokens[u].jti ==> t == u
  }

  ghost predicate IsForwarded(forwards: seq<Forward>, id: RequestId) {
    exists i :: 0 <= i < |forwards| && forwards[i].id == id
  }

  /** A row says ok only of a request that was forwarded, and only once it is settled. */
  ghost predicate OkMeansForwarded(
      audit: map<RequestId, AuditRow>, forwards: seq<Forward>, nextId: RequestId, inflight: set<RequestId>) {
    && (forall id :: id in audit ==> id < nextId && (audit[id].ok ==> audit[id].settled && IsForwarded(forwards, id)))
    && (forall id :: id in inflight ==> IsForwarded(forwards, id))
  }

  ghost predicate WorldInv(w: World) {
    && AllOnRecord(w.tokens, w.audit, w.forwards)
    && AllClaim(w.forwards)
    && IdsIncrease(w.forwards, w.nextId)
    && OneLiveToken(w.tokens)
    && DistinctJtis(w.tokens)
    && OkMeansForwarded(w.audit, w.forwards, w.nextId, w.inflight)
  }

  lemma RequestKeepsTokens(w: World, q: Request)
    requires OneLiveToken(w.tokens) && DistinctJtis(w.tokens)
    ensures OneLiveToken(RequestStep(w, q).tokens) && DistinctJtis(RequestStep(w, q).tokens)
  {
    hide VerdictOf, RateLimiter.AllowGc, NoteRow, ForwardOf;
  }

  lemma RequestKeepsRecords(w: World, q: Request)
    requires AllOnRecord(w.tokens, w.audit, w.forwards) && IdsIncrease(w.forwards, w.nextId)
    ensures var w' := RequestStep(w, q); AllOnRecord(w'.tokens, w'.audit, w'.forwards) && IdsIncrease(w'.forwards, w'.nextId)
  {
    hide ClaimedGroup, RateOk, Parsed, RateLimiter.AllowGc;
  }

  lemma RequestKeepsClaims(w: World, q: Request)
    requires AllClaim(w.forwards)
    ensures AllClaim(RequestStep(w, q).forwards)
  {
    if VerdictOf(w, q) == Forwarded {
      SignedBodyIsUnambiguous(q.body.value);
      assert ClaimsItsGroup(ForwardOf(w, q)) by { hide FirstClaim, RateOk, RateLimiter.AllowGc, TokenOk, CanonicalJson.WellFormed; }
    }
    hide ClaimsItsGroup, VerdictOf, RateLimiter.AllowGc, NoteRow, ForwardOf;
  }

  lemma RequestKeepsOutcomes(w: World, q: Request)
    requires OkMeansForwarded(w.audit, w.forwards, w.nextId, w.inflight)
    ensures var w' := RequestStep(w, q); OkMeansForwarded(w'.audit, w'.forwards, w'.nextId, w'.inflight)
  {
    hide ClaimedGroup, RateOk, Parsed, RateLimiter.AllowGc, TokenOk;
    var w' := RequestStep(w, q);
    if Verified(w, q) && VerdictOf(w, q) == Forwarded {
      assert IsForwarded(w'.forwards, w.nextId) by { assert w'.forwards[|w.forwards|].id == w.nextId; }
    }
    forall id | IsForwarded(w.forwards, id) ensures IsForwarded(w'.forwards, id) {
      var i :| 0 <= i < |w.forwards| && w.forwards[i].id == id;
      assert w'.forwards[i].id == id;
    }
  }

  lemma TokenEventKeepsInv(w: World, e: Event)
    requires WorldInv(w) && Enabled(w, e) && (e.Mint? || e.Revoke?)
    ensures WorldInv(Step(w, e))
  {
    hide IdsIncrease, OkMeansForwarded, AllClaim;
  }

  lemma AnswerKeepsInv(w: World, id: RequestId, ok: bool, finalizeOk: bool)
    requires WorldInv(w) && id in w.inflight
    ensures WorldInv(Step(w, Answer(id, ok, finalizeOk)))
  {
    hide IdsIncrease, OneLiveToken, DistinctJtis, AllClaim;
  }

  lemma RestartKeepsInv(w: World, reconciled: bool)
    requires WorldInv(w)
    ensures WorldInv(Step(w, Restart(reconciled)))
  {
    hide IdsIncrease, AllClaim;
  }

  lemma StepKeepsInv(w: World, e: Event)
    requires WorldInv(w) && Enabled(w, e)
    ensures WorldInv(Step(w, e))
  {
    match e
    case Ask(q) =>
      RequestKeepsTokens(w, q);
      RequestKeepsRecords(w, q);
      RequestKeepsClaims(w, q);
      RequestKeepsOutcomes(w, q);
      hide RequestStep, AllOnRecord, AllClaim, IdsIncrease, OneLiveToken, DistinctJtis, OkMeansForwarded;
    case Answer(id, ok, finalizeOk) =>
      AnswerKeepsInv(w, id, ok, finalizeOk);
      hide Step, WorldInv;
    case Restart(reconciled) =>
      RestartKeepsInv(w, reconciled);
      hide Step, WorldInv;
    case _ =>
      TokenEventKeepsInv(w, e);
      hide Step, WorldInv;
  }

  lemma {:induction false} RunKeepsInv(states: seq<World>, events: seq<Event>, n: nat)
    requires IsRun(states, events) && n < |states|
    ensures WorldInv(states[n])
  {
    if n > 0 {
      RunKeepsInv(states, events, n - 1);
      hide WorldInv, Step, Enabled;
      StepKeepsInv(states[n - 1], events[n - 1]);
    }
  }

  // ---------------------------------------------------------------- main results

  lemma RunStarts(states: seq<World>, events: seq<Event>)
    requires IsRun(states, events)
    ensures |states| == |events| + 1 && states[0] == Start(states[0].cfg) && states[0].forwards == []
  {
    hide Step, Enabled;
  }

  lemma StepOfRun(states: seq<World>, events: seq<Event>, m: nat)
    requires IsRun(states, events) && m < |events|
    ensures m + 1 < |states| && Enabled(states[m], events[m]) && states[m + 1] == Step(states[m], events[m])
  {
    hide Step, Enabled;
  }

  /** Every gate at once, in no order. */
  predicate Open(w: World, q: Request) {
    && q.post && q.token.Some? && q.token.value in w.tokens
    && !w.tokens[q.token.value].revoked && w.tokens[q.token.value].expiresAt > q.now
    && (w.tokens[q.token.value].sourceIp.Some? ==> w.tokens[q.token.value].sourceIp.value == q.ip)
    && RateOk(w, q) && !q.path.Other? && q.path in w.tokens[q.token.value].allowed
    && q.body.Some? && q.body.value.Obj? && ClaimedGroup(q.body.value) == Some(w.tokens[q.token.value].group)
    && w.tokens[q.token.value].group in q.keys && q.intentOk
  }

  /** `f` is what the proxy signs for the request: its own id, the caller's token and address, and
      its group's key over its body as parsed. */
  predicate Serves(f: Forward, w: World, q: Request) {
    && f.id == w.nextId && Some(f.token) == q.token && f.ip == q.ip && f.path == q.path
    && f.token in w.tokens && f.group == w.tokens[f.token].group
    && f.group in q.keys && f.key == q.keys[f.group]
    && q.body.Some? && f.body == Parsed(q.body.value)
  }

  lemma ForwardedIff(w: World, q: Request)
    ensures if Open(w, q)
      then VerdictOf(w, q) == Forwarded && RequestStep(w, q).forwards == w.forwards + [ForwardOf(w, q)]
        && Serves(ForwardOf(w, q), w, q)
      else RequestStep(w, q).forwards == w.forwards
  {
    hide ClaimedGroup, RateOk, Parsed, RateLimiter.AllowGc, NoteRow;
  }

  lemma StepForwards(states: seq<World>, events: seq<Event>, m: nat)
    requires IsRun(states, events) && m < |events|
    ensures if events[m].Ask? && Open(states[m], events[m].q)
      then |states[m + 1].forwards| == |states[m].forwards| + 1 && states[m].forwards < states[m + 1].forwards
        && Serves(states[m + 1].forwards[|states[m].forwards|], states[m], events[m].q)
      else states[m + 1].forwards == states[m].forwards
  {
    StepOfRun(states, events, m);
    hide IsRun;
    if events[m].Ask? { ForwardedIff(states[m], events[m].q); }
    hide Open, Serves, RequestStep, Enabled, VerdictOf;
  }

  /** No gate can be passed by: each forward of a run was made by one request that found every gate
      open, and serves that request. */
  lemma {:induction false} EveryForwardPassedTheGates(states: seq<World>, events: seq<Event>, n: nat, i: nat) returns (m: nat)
    requires IsRun(states, events) && n < |states| && i < |states[n].forwards|
    ensures m < n && events[m].Ask? && Open(states[m], events[m].q)
    ensures |states[m].forwards| == i && Serves(states[n].forwards[i], states[m], events[m].q)
    decreases n
  {
    hide *;
    RunStarts(states, events);
    StepForwards(states, events, n - 1);
    if i < |states[n - 1].forwards| {
      m := EveryForwardPassedTheGates(states, events, n - 1, i);
    } else {
      m := n - 1;
    }
  }

  /** No gate is missing from the list: a request that finds them all open is forwarded, and what
      was forwarded for it stays as the next forward of every longer run. */
  lemma {:induction false} OpenGatesForward(states: seq<World>, events: seq<Event>, m: nat, n: nat)
    requires IsRun(states, events) && m < n < |states| && events[m].Ask? && Open(states[m], events[m].q)
    ensures var i := |states[m].forwards|;
      i < |states[n].forwards| && Serves(states[n].forwards[i], states[m], events[m].q)
    decreases n
  {
    hide *;
    RunStarts(states, events);
    StepForwards(states, events, n - 1);
    if m < n - 1 { OpenGatesForward(states, events, m, n - 1); }
  }

  /** Main result: in every run each forward has its own audit row, naming the group of the token
      it came with as the group signed for, and that token answers to the caller's address only. */
  lemma EveryForwardIsOnRecord(states: seq<World>, events: seq<Event>, n: nat, i: nat)
    requires IsRun(states, events) && n < |states| && i < |states[n].forwards|
    ensures OnRecord(states[n].tokens, states[n].audit, states[n].forwards[i])
    ensures forall j :: 0 <= j < |states[n].forwards| && j != i ==> states[n].forwards[j].id != states[n].forwards[i].id
  {
    RunKeepsInv(states, events, n);
  }

  /** Every body ever signed claims the group it is signed for, whichever of repeated members its
      reader lets win. */
  lemma SignedBodiesClaimTheirGroup(states: seq<World>, events: seq<Event>, n: nat, i: nat)
    requires IsRun(states, events) && n < |states| && i < |states[n].forwards|
    ensures var f := states[n].forwards[i];
      f.body.Obj? && FirstClaim(f.body) == Some(f.group) && LastClaim(f.body) == Some(f.group)
  {
    RunKeepsInv(states, events, n);
    assert ClaimsItsGroup(states[n].forwards[i]);
    ClaimsAgree(states[n].forwards[i].body);
  }

  /** One token never serves two addresses, and one session never has two live tokens. */
  lemma TokensAreExclusive(states: seq<World>, events: seq<Event>, n: nat)
    requires IsRun(states, events) && n < |states|
    ensures forall f, g :: f in states[n].forwards && g in states[n].forwards && f.token == g.token ==> f.ip == g.ip
    ensures OneLiveToken(states[n].tokens)
  {
    RunKeepsInv(states, events, n);
    var w := states[n];
    forall f | f in w.forwards ensures f.token in w.tokens && w.tokens[f.token].sourceIp == Some(f.ip) {
      var i :| 0 <= i < |w.forwards| && w.forwards[i] == f;
      assert OnRecord(w.tokens, w.audit, w.forwards[i]);
    }
  }

  predicate IsRevoked(tokens: map<Token, TokenRow>, t: Token) {
    t in tokens && tokens[t].revoked
  }

  lemma RevokedStaysRevoked(w: World, e: Event, t: Token)
    requires Enabled(w, e) && IsRevoked(w.tokens, t)
    ensures IsRevoked(Step(w, e).tokens, t)
    ensures w.forwards <= Step(w, e).forwards
    ensures forall i :: |w.forwards| <= i < |Step(w, e).forwards| ==> Step(w, e).forwards[i].token != t
  {
    hide ClaimedGroup, RateOk, Parsed, RateLimiter.AllowGc, NoteRow, Settle, ReconcileOrphans;
  }

  /** Main result: once a token is revoked, by its container's exit, a later mint or a restart,
      nothing is forwarded under it again. */
  lemma {:induction false} RevokedTokenForwardsNothing(states: seq<World>, events: seq<Event>, i: nat, n: nat, t: Token)
    requires IsRun(states, events) && i <= n < |states| && IsRevoked(states[i].tokens, t)
    ensures IsRevoked(states[n].tokens, t) && states[i].forwards <= states[n].forwards
    ensures forall k :: |states[i].forwards| <= k < |states[n].forwards| ==> states[n].forwards[k].token != t
  {
    if i < n {
      RevokedTokenForwardsNothing(states, events, i, n - 1, t);
      RevokedStaysRevoked(states[n - 1], events[n - 1], t);
      assert states[n - 1 + 1] == Step(states[n - 1], events[n - 1]);
      hide Step, Enabled, IsRun, IsRevoked;
    }
  }

  /** A container's exit, a later token of the session, or a restart. */
  predicate RevokesTokensOf(e: Event, session: SessionId) {
    e == Revoke(session) || (e.Mint? && e.row.session == session) || e.Restart?
  }

  lemma EventRevokes(w: World, e: Event, t: Token)
    requires Enabled(w, e) && t in w.tokens && RevokesTokensOf(e, w.tokens[t].session)
    ensures IsRevoked(Step(w, e).tokens, t) && Step(w, e).forwards == w.forwards
  {
  }

  /** Main result: after a session's container has exited, after its next token, and after a restart
      nothing is forwarded under any token the session had before. */
  lemma ExitEndsForwarding(states: seq<World>, events: seq<Event>, i: nat, n: nat, t: Token)
    requires IsRun(states, events) && i < n < |states| && t in states[i].tokens
    requires RevokesTokensOf(events[i], states[i].tokens[t].session)
    ensures states[i].forwards <= states[n].forwards
    ensures forall k :: |states[i].forwards| <= k < |states[n].forwards| ==> states[n].forwards[k].token != t
  {
    RunStarts(states, events);
    StepOfRun(states, events, i);
    EventRevokes(states[i], events[i], t);
    hide IsRun, Step, Enabled, IsRevoked;
    RevokedTokenForwardsNothing(states, events, i + 1, n, t);
  }

  /** What came of a forward: its answer settles the row it left, as the answer was. */
  lemma AnswerIsRecorded(w: World, id: RequestId, ok: bool)
    requires Enabled(w, Answer(id, ok, true)) && id in w.audit && !w.audit[id].settled
    ensures Step(w, Answer(id, ok, true)).audit == w.audit[id := w.audit[id].(settled := true, ok := ok)]
    ensures id !in Step(w, Answer(id, ok, true)).inflight
  {
  }

  /** A request that claims another group is not forwarded, and the attempt is on record under the
      token's own group, if the database takes it. */
  lemma MismatchIsRecorded(w: World, q: Request)
    requires Verified(w, q) && RateOk(w, q)
    requires !q.path.Other? && q.path in w.tokens[q.token.value].allowed && q.body.Some? && q.body.value.Obj?
    requires ClaimedGroup(q.body.value) != Some(w.tokens[q.token.value].group)
    ensures var w', row := RequestStep(w, q), w.tokens[q.token.value];
      && w'.forwards == w.forwards && w'.inflight == w.inflight
      && (q.noteOk ==>
            w'.audit == w.audit[w.nextId := AuditRow(row.jti, row.group, None, q.path, true, q.finalizeOk, false)])
  {
    hide ClaimedGroup, RateLimiter.AllowGc;
  }

  lemma SettledStays(w: World, e: Event, id: RequestId)
    requires Enabled(w, e) && WorldInv(w) && id in w.audit && w.audit[id].settled
    ensures id in Step(w, e).audit && Step(w, e).audit[id] == w.audit[id]
  {
    hide ClaimedGroup, RateOk, Parsed, RateLimiter.AllowGc, NoteRow, RevokeSession, RevokeAll, AllOnRecord, IdsIncrease;
  }

  lemma RunKeepsSettled(states: seq<World>, events: seq<Event>, n: nat, id: RequestId)
    requires IsRun(states, events) && n < |events|
    ensures id in states[n].audit && states[n].audit[id].settled ==>
      id in states[n + 1].audit && states[n + 1].audit[id] == states[n].audit[id]
  {
    RunKeepsInv(states, events, n);
    var w := states[n];
    assert states[n + 1] == Step(w, events[n]);
    hide Step, Enabled, WorldInv;
    if id in w.audit && w.audit[id].settled { SettledStays(w, events[n], id); }
  }

  /** A settled audit row never changes again. */
  lemma {:induction false} SettledForGood(states: seq<World>, events: seq<Event>, i: nat, n: nat, id: RequestId)
    requires IsRun(states, events) && i <= n < |states| == |events| + 1 && id in states[i].audit && states[i].audit[id].settled
    ensures id in states[n].audit && states[n].audit[id] == states[i].audit[id]
  {
    hide *;
    if i < n {
      RunKeepsSettled(states, events, n - 1, id);
      SettledForGood(states, events, i, n - 1, id);
    }
  }

  /** A restart that reconciles leaves no row open, and none it closes says ok. */
  lemma RestartSettlesEveryRow(states: seq<World>, events: seq<Event>, n: nat, id: RequestId)
    requires IsRun(states, events) && n < |events| && events[n] == Restart(true) && id in states[n + 1].audit
    ensures states[n + 1].audit[id].settled && id in states[n].audit
    ensures states[n + 1].audit[id].ok ==> states[n].audit[id].ok && IsForwarded(states[n].forwards, id)
  {
    RunKeepsInv(states, events, n);
    assert states[n + 1] == Step(states[n], events[n]);
    hide IsRun, AllOnRecord, IdsIncrease, OneLiveToken, DistinctJtis, RevokeAll;
  }

  // ---------------------------------------------------------------- forwards against the limiter

  predicate Counts(f: Forward, jti: Jti, life: nat, from: int, windowMs: int) {
    f.jti == jti && f.life == life && from <= f.at < from + windowMs
  }

  function ForwardsIn(forwards: seq<Forward>, jti: Jti, life: nat, from: int, windowMs: int): nat {
    if forwards == [] then 0
    else ForwardsIn(forwards[..|forwards| - 1], jti, life, from, windowMs) +
         if Counts(forwards[|forwards| - 1], jti, life, from, windowMs) then 1 else 0
  }

  lemma {:induction false} ForwardsInGrows(forwards: seq<Forward>, f: Forward, jti: Jti, life: nat, from: int, windowMs: int)
    ensures ForwardsIn(forwards + [f], jti, life, from, windowMs) ==
      ForwardsIn(forwards, jti, life, from, windowMs) + if Counts(f, jti, life, from, windowMs) then 1 else 0
  {
    assert (forwards + [f])[..|forwards|] == forwards;
  }

  lemma {:induction false} NoneInALaterLife(forwards: seq<Forward>, jti: Jti, life: nat, from: int, windowMs: int)
    requires forall i :: 0 <= i < |forwards| ==> forwards[i].life < life
    ensures ForwardsIn(forwards, jti, life, from, windowMs) == 0
  {
    if forwards != [] { NoneInALaterLife(forwards[..|forwards| - 1], jti, life, from, windowMs); }
  }

  /** The limiter's buckets are those of the requests it was asked about in this life of the host,
      and no more was forwarded than it granted. */
  ghost predicate WithinGrants(w: World, jti: Jti, from: int) {
    && RateLimiter.Nondecreasing(w.asked)
    && w.buckets == RateLimiter.RunGc(w.cfg, w.asked)
    && (forall i :: 0 <= i < |w.forwards| ==> w.forwards[i].life <= w.life)
    && ForwardsIn(w.forwards, jti, w.life, from, w.cfg.windowMs) <= RateLimiter.Granted(w.cfg, w.asked, jti, from)
  }

  lemma AskedGrows(cfg: RateLimiter.Config, asked: seq<RateLimiter.Request>, r: RateLimiter.Request, jti: Jti, from: int)
    requires RateLimiter.Nondecreasing(asked) && (asked != [] ==> RateLimiter.Last(asked).now <= r.now)
    ensures RateLimiter.Nondecreasing(asked + [r])
    ensures RateLimiter.RunGc(cfg, asked + [r]) == RateLimiter.AllowGc(cfg, RateLimiter.RunGc(cfg, asked), r).0
    ensures RateLimiter.Granted(cfg, asked + [r], jti, from) ==
      RateLimiter.Granted(cfg, asked, jti, from) +
      if r.jti == jti && from <= r.now < from + cfg.windowMs &&
         RateLimiter.AllowGc(cfg, RateLimiter.RunGc(cfg, asked), r).1 then 1 else 0
  {
    hide RateLimiter.AllowGc, RateLimiter.Allow;
    var all := asked + [r];
    assert RateLimiter.Init(all) == asked && RateLimiter.Last(all) == r;
    assert RateLimiter.Nondecreasing(all);
    RateLimiter.RunsCollected(cfg, all);
  }

  lemma RequestStaysWithinGrants(w: World, q: Request, jti: Jti, from: int)
    requires WithinGrants(w, jti, from) && Enabled(w, Ask(q))
    ensures WithinGrants(RequestStep(w, q), jti, from)
  {
    hide ClaimedGroup, Parsed, NoteRow, TokenOk;
    hide RateLimiter.AllowGc, RateLimiter.RunGc, RateLimiter.Granted, RateLimiter.Nondecreasing;
    if Verified(w, q) {
      AskedGrows(w.cfg, w.asked, RateRequest(w, q), jti, from);
      if VerdictOf(w, q) == Forwarded {
        ForwardsInGrows(w.forwards, ForwardOf(w, q), jti, w.life, from, w.cfg.windowMs);
      }
    }
  }

  lemma StepStaysWithinGrants(w: World, e: Event, jti: Jti, from: int)
    requires WithinGrants(w, jti, from) && Enabled(w, e)
    ensures WithinGrants(Step(w, e), jti, from)
  {
    match e
    case Ask(q) =>
      RequestStaysWithinGrants(w, q, jti, from);
      hide RequestStep, WithinGrants;
    case Restart(_) =>
      NoneInALaterLife(w.forwards, jti, w.life + 1, from, w.cfg.windowMs);
    case _ =>
      hide ForwardsIn, RateLimiter.RunGc, RateLimiter.Granted, RateLimiter.Nondecreasing;
  }

  lemma {:induction false} RunStaysWithinGrants(states: seq<World>, events: seq<Event>, n: nat, jti: Jti, from: int)
    requires IsRun(states, events) && n < |states|
    ensures WithinGrants(states[n], jti, from)
  {
    hide *;
    RunStarts(states, events);
    if n > 0 {
      RunStaysWithinGrants(states, events, n - 1, jti, from);
      StepOfRun(states, events, n - 1);
      StepStaysWithinGrants(states[n - 1], events[n - 1], jti, from);
    } else {
      NothingForwardedYet(states[0].cfg, jti, from);
    }
  }

  lemma NothingForwardedYet(cfg: RateLimiter.Config, jti: Jti, from: int)
    ensures WithinGrants(Start(cfg), jti, from)
  {
  }

  /** Main result: within one life of the host, fewer than twice the limit are forwarded under one
      token in any interval of the window's length, refused requests counted against it as well. */
  lemma ForwardsAreRateLimited(states: seq<World>, events: seq<Event>, n: nat, jti: Jti, from: int)
    requires IsRun(states, events) && n < |states| && states[n].cfg.windowMs > 0
    ensures var w := states[n];
      ForwardsIn(w.forwards, jti, w.life, from, w.cfg.windowMs) < 2 * RateLimiter.Capacity(w.cfg)
  {
    RunStaysWithinGrants(states, events, n, jti, from);
    RateLimiter.GrantsAreBounded(states[n].cfg, states[n].asked, jti, from);
    hide IsRun, ForwardsIn, RateLimiter.Granted, RateLimiter.RunGc, RateLimiter.Run;
  }
}
