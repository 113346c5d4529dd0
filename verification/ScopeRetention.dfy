/** Expiry of abandoned per-user state scopes (src/scope-retention.ts:116-337, with the access marker
    of src/state-scope.ts:92-108), over any sequence of ticks, spawns and restarts. */
module ScopeRetention {
  import opened Wrappers

  /** One `agentGroupId/scopeKey` pair. */
  type Key = nat

  const DAY_MS := 86400000

  // ---------------------------------------------------------------- the sessions table as evidence

  /** `key` is None for a session without an owner; the two stamps are None when they do not parse. */
  datatype Session = Session(key: Option<Key>, active: bool, lastActive: Option<int>, createdAt: Option<int>)

  datatype Index = Index(live: set<Key>, lastUse: map<Key, int>)

  function StampOf(s: Session): Option<int> {
    if s.lastActive.Some? then s.lastActive else s.createdAt
  }

  predicate Vouches(s: Session, key: Key) {
    s.key == Some(key) && StampOf(s).Some?
  }

  predicate IsLive(sessions: seq<Session>, key: Key) {
    exists s :: s in sessions && s.active && s.key == Some(key)
  }

  /** The newest stamp among the sessions that vouch for a scope, whatever their status. */
  function Newest(sessions: seq<Session>, key: Key): Option<int> {
    if sessions == [] then None
    else
      var s := sessions[|sessions| - 1];
      var before := Newest(sessions[..|sessions| - 1], key);
      if Vouches(s, key) && (before.None? || StampOf(s).value > before.value) then StampOf(s) else before
  }

  lemma {:induction false} NewestIsNewest(sessions: seq<Session>, key: Key)
    ensures Newest(sessions, key).None? <==> forall s :: s in sessions ==> !Vouches(s, key)
    ensures Newest(sessions, key).Some? ==>
      (exists s :: s in sessions && Vouches(s, key) && StampOf(s) == Newest(sessions, key)) &&
      (forall s :: s in sessions && Vouches(s, key) ==> StampOf(s).value <= Newest(sessions, key).value)
  {
    if sessions != [] {
      var init := sessions[..|sessions| - 1];
      NewestIsNewest(init, key);
      assert sessions == init + [sessions[|sessions| - 1]];
    }
  }

  function Evidence(index: Index, key: Key): Option<int> {
    if key in index.lastUse then Some(index.lastUse[key]) else None
  }

  ghost function IndexOf(sessions: seq<Session>): Index {
    var keys := set s | s in sessions && s.key.Some? :: s.key.value;
    Index(set k | k in keys && IsLive(sessions, k),
          map k | k in keys && Newest(sessions, k).Some? :: Newest(sessions, k).value)
  }

  lemma IndexIsExact(sessions: seq<Session>, key: Key)
    ensures key in IndexOf(sessions).live <==> IsLive(sessions, key)
    ensures Evidence(IndexOf(sessions), key) == Newest(sessions, key)
  {
    NewestIsNewest(sessions, key);
  }

  /** One pass over the sessions table gives both views. */
  method IndexScopes(sessions: seq<Session>) returns (index: Index)
    ensures index == IndexOf(sessions)
  {
    var live: set<Key>, lastUse: map<Key, int> := {}, map[];
    for i := 0 to |sessions|
      invariant forall k :: k in live <==> IsLive(sessions[..i], k)
      invariant forall k :: Evidence(Index(live, lastUse), k) == Newest(sessions[..i], k)
    {
      var s := sessions[i];
      assert sessions[..i + 1] == sessions[..i] + [s] && sessions[..i + 1][..i] == sessions[..i];
      if s.key.None? { continue; }
      var key := s.key.value;
      if s.active { live := live + {key}; }
      var stamp := StampOf(s);
      if stamp.Some? {
        if key !in lastUse || stamp.value > lastUse[key] { lastUse := lastUse[key := stamp.value]; }
      }
    }
    assert sessions[..|sessions|] == sessions;
    index := Index(live, lastUse);
    SameIndex(sessions, index);
  }

  lemma SameIndex(sessions: seq<Session>, index: Index)
    requires forall k :: k in index.live <==> IsLive(sessions, k)
    requires forall k :: Evidence(index, k) == Newest(sessions, k)
    ensures index == IndexOf(sessions)
  {
    hide Newest;
    var that := IndexOf(sessions);
    forall k
      ensures k in index.live <==> k in that.live
      ensures Evidence(index, k) == Evidence(that, k)
    {
      IndexIsExact(sessions, k);
    }
    forall k
      ensures k in index.lastUse <==> k in that.lastUse
      ensures k in index.lastUse ==> index.lastUse[k] == that.lastUse[k]
    {
      assert Evidence(index, k) == Evidence(that, k);
    }
    assert index.live == that.live && index.lastUse == that.lastUse;
  }

  // ---------------------------------------------------------------- one scope, one tick

  datatype Policy = Policy(now: int, days: nat, preview: bool)

  /** What the disk and the audit table do: a stamp may be written and back-dated, written only, or
      refused; a recursive delete that fails may have taken the marker with it. */
  datatype StampIo = Landed | Untimed | Refused
  datatype RemoveIo = Gone | Partial(markerGone: bool)
  datatype Io = Io(stamp: StampIo, auditOk: bool, remove: RemoveIo)
  type Disk = Key -> Io

  /** The scope directories with their markers, the audit rows of expiries, and the keys audited but
      not yet deleted (process memory). */
  datatype Store = Store(scopes: map<Key, Option<int>>, audit: seq<Key>, pending: set<Key>)

  datatype Result = Result(scanned: nat, adopted: nat, removed: nat, skippedLive: nat, wouldRemove: nat)

  const NOTHING := Result(0, 0, 0, 0, 0)

  function Cutoff(p: Policy): int {
    p.now - p.days * DAY_MS
  }

  /** The clock a scope is judged by: its marker, else its newest session, else now. */
  function Accessed(marker: Option<int>, evidence: Option<int>, now: int): int {
    if marker.Some? then marker.value else if evidence.Some? then evidence.value else now
  }

  function Touched(marker: Option<int>, at: int, now: int, io: StampIo): Option<int> {
    match io
    case Landed => Some(at)
    case Untimed => Some(now)
    case Refused => marker
  }

  datatype Fate = Live | Kept | Previewed | Unaudited | Removed | Stuck

  function FateOf(marker: Option<int>, audited: bool, key: Key, index: Index, p: Policy, io: Io): Fate {
    if key in index.live then Live
    else if Accessed(marker, Evidence(index, key), p.now) > Cutoff(p) then Kept
    else if p.preview then Previewed
    else if !audited && !io.auditOk then Unaudited
    else if io.remove.Gone? then Removed
    else Stuck
  }

  function Adopted(marker: Option<int>, key: Key, index: Index, p: Policy, io: Io): Option<int> {
    if marker.Some? || key in index.live || p.preview then marker
    else Touched(marker, Accessed(marker, Evidence(index, key), p.now), p.now, io.stamp)
  }

  function SweepScope(s: Store, r: Result, key: Key, index: Index, p: Policy, io: Io): (Store, Result)
    requires key in s.scopes
  {
    var fate := FateOf(s.scopes[key], key in s.pending, key, index, p, io);
    var marker := Adopted(s.scopes[key], key, index, p, io);
    var scopes :=
      if fate == Removed then s.scopes - {key}
      else s.scopes[key := if fate == Stuck && io.remove.markerGone then None else marker];
    var audit := if (fate == Removed || fate == Stuck) && key !in s.pending then s.audit + [key] else s.audit;
    var pending := if fate == Removed then s.pending - {key} else if fate == Stuck then s.pending + {key} else s.pending;
    (Store(scopes, audit, pending),
     Result(r.scanned + 1,
            r.adopted + (if fate != Live && s.scopes[key].None? && !p.preview && io.stamp.Landed? then 1 else 0),
            r.removed + (if fate == Removed then 1 else 0),
            r.skippedLive + (if fate == Live then 1 else 0),
            r.wouldRemove + (if fate == Previewed then 1 else 0)))
  }

  ghost predicate Distinct(keys: seq<Key>) {
    forall i, j :: 0 <= i < j < |keys| ==> keys[i] != keys[j]
  }

  ghost predicate Listed(s: Store, keys: seq<Key>) {
    Distinct(keys) && forall i :: 0 <= i < |keys| ==> keys[i] in s.scopes
  }

  ghost function SweepAll(s: Store, keys: seq<Key>, index: Index, p: Policy, io: Disk): (res: (Store, Result))
    requires Listed(s, keys)
    ensures forall k :: k in s.scopes && k !in keys ==> k in res.0.scopes
  {
    if keys == [] then (s, NOTHING)
    else
      var last := keys[|keys| - 1];
      var (s', r) := SweepAll(s, keys[..|keys| - 1], index, p, io);
      SweepScope(s', r, last, index, p, io(last))
  }

  /** The directory listings of a tick: None where one cannot be read. */
  type Listing = Option<seq<Option<seq<Key>>>>

  function Flatten(dirs: seq<Option<seq<Key>>>): seq<Key> {
    if dirs == [] then []
    else Flatten(dirs[..|dirs| - 1]) + (if dirs[|dirs| - 1].Some? then dirs[|dirs| - 1].value else [])
  }

  function Keys(root: Listing): seq<Key> {
    if root.Some? then Flatten(root.value) else []
  }

  ghost function SweepTick(s: Store, root: Listing, sessions: seq<Session>, p: Policy, io: Disk): (Store, Result)
    requires Listed(s, Keys(root))
  {
    if p.days == 0 then (s, NOTHING) else SweepAll(s, Keys(root), IndexOf(sessions), p, io)
  }

  // ---------------------------------------------------------------- the sweep

  class Retention {
    var scopes: map<Key, Option<int>>
    var audit: seq<Key>
    var auditedPendingDelete: set<Key>

    ghost function State(): Store
      reads this
    {
      Store(scopes, audit, auditedPendingDelete)
    }

    method TouchScopeAccess(key: Key, at: int, now: int, io: StampIo) returns (stamped: bool)
      requires key in scopes
      modifies this`scopes
      ensures scopes == old(scopes)[key := Touched(old(scopes)[key], at, now, io)]
      ensures stamped <==> io.Landed?
    {
      match io
      case Landed =>
        scopes := scopes[key := Some(at)];
        return true;
      case Untimed =>
        scopes := scopes[key := Some(now)];
        return false;
      case Refused =>
        assert scopes == scopes[key := scopes[key]];
        return false;
    }

    /** The audit row goes in before the delete, and a refused row aborts it. */
    method ExpireScope(key: Key, io: Io) returns (removed: bool)
      requires key in scopes
      modifies this
      ensures removed <==> (key in old(auditedPendingDelete) || io.auditOk) && io.remove.Gone?
      ensures scopes ==
        if removed then old(scopes) - {key}
        else if (key in old(auditedPendingDelete) || io.auditOk) && io.remove.markerGone then old(scopes)[key := None]
        else old(scopes)
      ensures audit == if key !in old(auditedPendingDelete) && io.auditOk then old(audit) + [key] else old(audit)
      ensures auditedPendingDelete ==
        if removed then old(auditedPendingDelete) - {key}
        else if key in old(auditedPendingDelete) || io.auditOk then old(auditedPendingDelete) + {key}
        else old(auditedPendingDelete)
    {
      if key !in auditedPendingDelete {
        if !io.auditOk { return false; }
        audit := audit + [key];
        auditedPendingDelete := auditedPendingDelete + {key};
      }
      assert auditedPendingDelete == old(auditedPendingDelete) + {key};
      match io.remove
      case Gone =>
        scopes := scopes - {key};
        auditedPendingDelete := auditedPendingDelete - {key};
        assert auditedPendingDelete == old(auditedPendingDelete) - {key};
        return true;
      case Partial(markerGone) =>
        if markerGone { scopes := scopes[key := None]; }
        return false;
    }

    method VisitScope(key: Key, index: Index, p: Policy, io: Io, r: Result) returns (r': Result)
      requires key in scopes
      modifies this
      ensures (State(), r') == SweepScope(old(State()), r, key, index, p, io)
    {
      r' := r.(scanned := r.scanned + 1);
      if key in index.live {
        assert scopes == scopes[key := scopes[key]];
        return r'.(skippedLive := r'.skippedLive + 1);
      }
      var marker := scopes[key];
      var accessed: int;
      if marker.Some? {
        accessed := marker.value;
        assert scopes == scopes[key := scopes[key]];
      } else {
        accessed := if key in index.lastUse then index.lastUse[key] else p.now;
        if !p.preview {
          var stamped := TouchScopeAccess(key, accessed, p.now, io.stamp);
          if stamped { r' := r'.(adopted := r'.adopted + 1); }
        } else {
          assert scopes == scopes[key := scopes[key]];
        }
      }
      if accessed > Cutoff(p) { return; }
      if p.preview { return r'.(wouldRemove := r'.wouldRemove + 1); }
      var removed := ExpireScope(key, io);
      assert scopes == if removed then old(scopes) - {key} else old(scopes)[key := scopes[key]];
      if removed { r' := r'.(removed := r'.removed + 1); }
    }

    method SweepExpiredScopes(p: Policy, sessions: seq<Session>, root: Listing, io: Disk) returns (r: Result)
      requires Listed(State(), Keys(root))
      modifies this
      ensures (State(), r) == SweepTick(old(State()), root, sessions, p, io)
    {
      hide *;
      r := NOTHING;
      TickCases(State(), root, sessions, p, io);
      if p.days == 0 || root.None? { return; }
      var index := IndexScopes(sessions);
      var dirs := root.value;
      ghost var was := State();
      for a := 0 to |dirs|
        invariant Listed(was, Flatten(dirs[..a]))
        invariant (State(), r) == SweepAll(was, Flatten(dirs[..a]), index, p, io)
      {
        FlattenPrefix(dirs, a);
        ListedPrefix(was, Flatten(dirs), Flatten(dirs[..a + 1]));
        assert dirs[a].None? ==> Flatten(dirs[..a + 1]) == Flatten(dirs[..a]);
        if dirs[a].Some? { r := SweepAgentScopes(dirs[a].value, index, p, io, r, was, Flatten(dirs[..a])); }
      }
      assert dirs[..|dirs|] == dirs;
    }

    method SweepAgentScopes(keys: seq<Key>, index: Index, p: Policy, io: Disk, r: Result, ghost was: Store, ghost done: seq<Key>)
      returns (r': Result)
      requires Listed(was, done) && Listed(was, done + keys)
      requires (State(), r) == SweepAll(was, done, index, p, io)
      modifies this
      ensures (State(), r') == SweepAll(was, done + keys, index, p, io)
    {
      hide SweepAll, SweepScope;
      r' := r;
      assert done + keys[..0] == done;
      for j := 0 to |keys|
        invariant Listed(was, done + keys[..j])
        invariant (State(), r') == SweepAll(was, done + keys[..j], index, p, io)
      {
        var next := done + keys[..j + 1];
        assert next == (done + keys[..j]) + [keys[j]];
        assert next == (done + keys)[..|next|];
        SweepOneMore(was, done + keys[..j], keys[j], index, p, io);
        r' := VisitScope(keys[j], index, p, io(keys[j]), r');
      }
      assert keys[..|keys|] == keys;
    }
  }

  lemma ListedPrefix(s: Store, keys: seq<Key>, first: seq<Key>)
    requires Listed(s, keys) && first <= keys
    ensures Listed(s, first)
  {
    assert forall i :: 0 <= i < |first| ==> first[i] == keys[i];
  }

  lemma TickCases(s: Store, root: Listing, sessions: seq<Session>, p: Policy, io: Disk)
    requires Listed(s, Keys(root))
    ensures p.days == 0 || root.None? ==> SweepTick(s, root, sessions, p, io) == (s, NOTHING)
    ensures p.days > 0 && root.Some? ==>
      && Listed(s, Flatten(root.value)) && Flatten(root.value[..0]) == [] && Listed(s, [])
      && SweepAll(s, [], IndexOf(sessions), p, io) == (s, NOTHING)
      && SweepTick(s, root, sessions, p, io) == SweepAll(s, Flatten(root.value), IndexOf(sessions), p, io)
  {
    hide SweepScope, IndexOf;
  }

  lemma SweepOneMore(s: Store, done: seq<Key>, key: Key, index: Index, p: Policy, io: Disk)
    requires Listed(s, done + [key])
    ensures Listed(s, done) && key in SweepAll(s, done, index, p, io).0.scopes
    ensures SweepAll(s, done + [key], index, p, io) ==
      var (s', r) := SweepAll(s, done, index, p, io);
      SweepScope(s', r, key, index, p, io(key))
  {
    hide SweepScope;
    var all := done + [key];
    assert forall i :: 0 <= i < |done| ==> all[i] == done[i];
    assert all[..|all| - 1] == done && all[|all| - 1] == key && key !in done;
  }

  /** The listings up to and including the a-th are the start of the whole list. */
  lemma {:induction false} FlattenPrefix(dirs: seq<Option<seq<Key>>>, a: nat)
    requires a < |dirs|
    ensures Flatten(dirs[..a + 1]) == Flatten(dirs[..a]) + (if dirs[a].Some? then dirs[a].value else [])
    ensures Flatten(dirs[..a + 1]) <= Flatten(dirs)
    decreases |dirs|
  {
    assert dirs[..a + 1][..a] == dirs[..a];
    if a + 1 < |dirs| {
      var init := dirs[..|dirs| - 1];
      FlattenPrefix(init, a);
      assert init[..a + 1] == dirs[..a + 1];
    } else {
      assert dirs[..a + 1] == dirs;
    }
  }

  // ---------------------------------------------------------------- what one tick does to one scope

  function Rows(s: Store, key: Key): nat {
    multiset(s.audit)[key]
  }

  ghost predicate SameAt(s: Store, s': Store, key: Key) {
    && (key in s.scopes <==> key in s'.scopes)
    && (key in s.scopes ==> s'.scopes[key] == s.scopes[key])
    && (key in s.pending <==> key in s'.pending)
    && Rows(s', key) == Rows(s, key)
  }

  ghost predicate ActsAt(s: Store, s': Store, key: Key, index: Index, p: Policy, io: Io)
    requires key in s.scopes
  {
    var fate := FateOf(s.scopes[key], key in s.pending, key, index, p, io);
    && (key in s'.scopes <==> fate != Removed)
    && (key in s'.scopes ==>
          s'.scopes[key] == if fate == Stuck && io.remove.markerGone then None else Adopted(s.scopes[key], key, index, p, io))
    && (key in s'.pending <==> fate == Stuck || (key in s.pending && fate != Removed))
    && Rows(s', key) == Rows(s, key) + (if (fate == Stuck || fate == Removed) && key !in s.pending then 1 else 0)
  }

  lemma SweepScopeActs(s: Store, r: Result, key: Key, index: Index, p: Policy, io: Io)
    requires key in s.scopes
    ensures ActsAt(s, SweepScope(s, r, key, index, p, io).0, key, index, p, io)
    ensures forall k :: k != key ==> SameAt(s, SweepScope(s, r, key, index, p, io).0, k)
  {
    hide FateOf, Adopted;
  }

  lemma Compose(s: Store, s1: Store, s2: Store, key: Key, index: Index, p: Policy, io: Io)
    ensures SameAt(s, s1, key) && SameAt(s1, s2, key) ==> SameAt(s, s2, key)
    ensures key in s.scopes && ActsAt(s, s1, key, index, p, io) && SameAt(s1, s2, key) ==> ActsAt(s, s2, key, index, p, io)
    ensures SameAt(s, s1, key) && key in s1.scopes && ActsAt(s1, s2, key, index, p, io) ==>
      key in s.scopes && ActsAt(s, s2, key, index, p, io)
  {
    hide FateOf, Adopted, Rows;
  }

  /** Each listed scope is judged once, on what the tick found; the others are left alone. */
  lemma {:induction false} SweepActsOnEach(s: Store, keys: seq<Key>, index: Index, p: Policy, io: Disk, key: Key)
    requires Listed(s, keys)
    ensures var s' := SweepAll(s, keys, index, p, io).0;
      if key in keys then key in s.scopes && ActsAt(s, s', key, index, p, io(key)) else SameAt(s, s', key)
    decreases |keys|
  {
    if keys != [] {
      var init, last := keys[..|keys| - 1], keys[|keys| - 1];
      assert keys == init + [last] && last !in init;
      SweepOneMore(s, init, last, index, p, io);
      hide SweepAll, FateOf, Adopted, SweepScope, ActsAt, SameAt, Listed;
      SweepActsOnEach(s, init, index, p, io, key);
      var (s1, r1) := SweepAll(s, init, index, p, io);
      SweepScopeActs(s1, r1, last, index, p, io(last));
      Compose(s, s1, SweepScope(s1, r1, last, index, p, io(last)).0, key, index, p, io(key));
    }
  }

  /** The tick's result counts what happened: each listed scope once, and each scope that is gone. */
  lemma {:induction false} ResultCounts(s: Store, keys: seq<Key>, index: Index, p: Policy, io: Disk)
    requires Listed(s, keys)
    ensures var (s', r) := SweepAll(s, keys, index, p, io);
      r.scanned == |keys| && |s'.scopes| + r.removed == |s.scopes|
    decreases |keys|
  {
    if keys != [] {
      var init, last := keys[..|keys| - 1], keys[|keys| - 1];
      assert keys == init + [last] && last !in init;
      SweepOneMore(s, init, last, index, p, io);
      hide SweepAll, SweepScope, Listed;
      ResultCounts(s, init, index, p, io);
      var (s1, r1) := SweepAll(s, init, index, p, io);
      SweepScopeCounts(s1, r1, last, index, p, io(last));
    }
  }

  lemma SweepScopeCounts(s: Store, r: Result, key: Key, index: Index, p: Policy, io: Io)
    requires key in s.scopes
    ensures var (s', r') := SweepScope(s, r, key, index, p, io);
      r'.scanned == r.scanned + 1 && |s'.scopes| + r'.removed == |s.scopes| + r.removed
  {
    hide FateOf, Adopted;
    var (s', r') := SweepScope(s, r, key, index, p, io);
    if key in s'.scopes {
      assert s'.scopes.Keys == s.scopes.Keys;
    } else {
      assert s'.scopes.Keys == s.scopes.Keys - {key};
    }
  }

  ghost predicate Skipped(index: Index, key: Key) {
    key in index.live
  }

  /** Unmarked, not live, and its stamp lands. */
  ghost predicate IsAdopted(s: Store, index: Index, p: Policy, io: Disk, key: Key) {
    key in s.scopes && s.scopes[key].None? && key !in index.live && !p.preview && io(key).stamp.Landed?
  }

  /** What a dry run would remove: not live, and past the cutoff by its marker or its evidence. */
  ghost predicate WouldExpire(s: Store, index: Index, p: Policy, key: Key) {
    && key in s.scopes && key !in index.live && p.preview
    && match s.scopes[key]
       case Some(at) => at <= p.now - p.days * 86400000
       case None => match Evidence(index, key)
         case Some(at) => at <= p.now - p.days * 86400000
         case None => p.days == 0
  }

  ghost function SkippedOf(keys: seq<Key>, index: Index): set<Key> {
    set k | k in keys && Skipped(index, k)
  }

  ghost function AdoptedOf(s: Store, keys: seq<Key>, index: Index, p: Policy, io: Disk): set<Key> {
    set k | k in keys && IsAdopted(s, index, p, io, k)
  }

  ghost function ExpiringOf(s: Store, keys: seq<Key>, index: Index, p: Policy): set<Key> {
    set k | k in keys && WouldExpire(s, index, p, k)
  }

  lemma OneMoreSkipped(keys: seq<Key>, last: Key, index: Index)
    requires last !in keys
    ensures |SkippedOf(keys + [last], index)| == |SkippedOf(keys, index)| + if Skipped(index, last) then 1 else 0
  {
    hide Skipped;
    assert SkippedOf(keys + [last], index) == SkippedOf(keys, index) + if Skipped(index, last) then {last} else {};
  }

  lemma OneMoreAdopted(s: Store, keys: seq<Key>, last: Key, index: Index, p: Policy, io: Disk)
    requires last !in keys
    ensures |AdoptedOf(s, keys + [last], index, p, io)| ==
      |AdoptedOf(s, keys, index, p, io)| + if IsAdopted(s, index, p, io, last) then 1 else 0
  {
    hide IsAdopted;
    assert AdoptedOf(s, keys + [last], index, p, io) ==
      AdoptedOf(s, keys, index, p, io) + if IsAdopted(s, index, p, io, last) then {last} else {};
  }

  lemma OneMoreExpiring(s: Store, keys: seq<Key>, last: Key, index: Index, p: Policy)
    requires last !in keys
    ensures |ExpiringOf(s, keys + [last], index, p)| ==
      |ExpiringOf(s, keys, index, p)| + if WouldExpire(s, index, p, last) then 1 else 0
  {
    hide WouldExpire;
    assert ExpiringOf(s, keys + [last], index, p) ==
      ExpiringOf(s, keys, index, p) + if WouldExpire(s, index, p, last) then {last} else {};
  }

  /** The other three counters: the scopes skipped as live, those adopted, and in a dry run those
      that a real tick would take. */
  lemma {:induction false} CountersCount(s: Store, keys: seq<Key>, index: Index, p: Policy, io: Disk)
    requires Listed(s, keys)
    ensures var r := SweepAll(s, keys, index, p, io).1;
      && r.skippedLive == |SkippedOf(keys, index)|
      && r.adopted == |AdoptedOf(s, keys, index, p, io)|
      && r.wouldRemove == |ExpiringOf(s, keys, index, p)|
    decreases |keys|
  {
    if keys == [] {
      assert SkippedOf(keys, index) == {} && AdoptedOf(s, keys, index, p, io) == {} && ExpiringOf(s, keys, index, p) == {};
    } else {
      var init, last := keys[..|keys| - 1], keys[|keys| - 1];
      assert keys == init + [last] && last !in init;
      SweepOneMore(s, init, last, index, p, io);
      hide SweepAll, SweepScope, Listed, SkippedOf, AdoptedOf, ExpiringOf;
      CountersCount(s, init, index, p, io);
      SweepActsOnEach(s, init, index, p, io, last);
      OneMoreSkipped(init, last, index);
      OneMoreAdopted(s, init, last, index, p, io);
      OneMoreExpiring(s, init, last, index, p);
      var (s1, r1) := SweepAll(s, init, index, p, io);
      SweepScopeCounters(s, s1, r1, last, index, p, io);
    }
  }

  lemma SweepScopeCounters(s: Store, s1: Store, r: Result, key: Key, index: Index, p: Policy, io: Disk)
    requires key in s1.scopes && SameAt(s, s1, key)
    ensures var r' := SweepScope(s1, r, key, index, p, io(key)).1;
      && r'.skippedLive == r.skippedLive + (if Skipped(index, key) then 1 else 0)
      && r'.adopted == r.adopted + (if IsAdopted(s, index, p, io, key) then 1 else 0)
      && r'.wouldRemove == r.wouldRemove + (if WouldExpire(s, index, p, key) then 1 else 0)
  {
    hide Rows;
  }

  /** Main result: a tick removes a scope exactly when retention is on, the tick is no preview, the
      scope is listed and backs no active session, its marker (or, unmarked, its newest session) is
      at or before the cutoff, the expiry is on record, and the delete succeeds. */
  lemma RemovedIff(s: Store, root: Listing, sessions: seq<Session>, p: Policy, io: Disk, key: Key)
    requires Listed(s, Keys(root)) && key in s.scopes
    ensures key !in SweepTick(s, root, sessions, p, io).0.scopes <==>
      && p.days > 0 && !p.preview && key in Keys(root) && !IsLive(sessions, key)
      && (s.scopes[key].Some? || Newest(sessions, key).Some?)
      && (if s.scopes[key].Some? then s.scopes[key].value else Newest(sessions, key).value) <= p.now - p.days * 86400000
      && (key in s.pending || io(key).auditOk) && io(key).remove.Gone?
  {
    IndexIsExact(sessions, key);
    if p.days > 0 {
      SweepActsOnEach(s, Keys(root), IndexOf(sessions), p, io, key);
      assert p.now > Cutoff(p);
      hide Keys, SweepAll, IndexOf, Newest, IsLive;
    }
  }

  lemma {:induction false} PreviewSweepKeepsAll(s: Store, keys: seq<Key>, index: Index, p: Policy, io: Disk)
    requires Listed(s, keys) && p.preview
    ensures var (s', r) := SweepAll(s, keys, index, p, io);
      s' == s && r.adopted == 0 && r.removed == 0
    decreases |keys|
  {
    if keys != [] {
      var init, last := keys[..|keys| - 1], keys[|keys| - 1];
      PreviewSweepKeepsAll(s, init, index, p, io);
      assert keys == init + [last];
      assert s.scopes[last := s.scopes[last]] == s.scopes;
    }
  }

  /** A dry run, or a tick with retention off, changes no stored state and reports no adoption or removal. */
  lemma DryRunChangesNothing(s: Store, root: Listing, sessions: seq<Session>, p: Policy, io: Disk)
    requires Listed(s, Keys(root)) && (p.preview || p.days == 0)
    ensures var (s', r) := SweepTick(s, root, sessions, p, io);
      s' == s && r.adopted == 0 && r.removed == 0
  {
    if p.preview { PreviewSweepKeepsAll(s, Keys(root), IndexOf(sessions), p, io); }
  }

  /** An adopted scope can expire on the very tick that adopts it: its evidence may be old already. */
  lemma AdoptedCanExpireAtOnce()
    ensures var s := Store(map[0 := None], [], {});
      var sessions := [Session(Some(0), false, Some(0), None)];
      var p := Policy(DAY_MS, 1, false);
      var res := SweepTick(s, Some([Some([0])]), sessions, p, (k: Key) => Io(Landed, true, Gone));
      res.0.scopes == map[] && res.1.adopted == 1 && res.1.removed == 1
  {
  }

  // ---------------------------------------------------------------- runs

  /** A tick; a spawn that mounts a scope, creating its directory if need be; a host restart. */
  datatype Event =
    | Tick(p: Policy, sessions: seq<Session>, root: Listing, io: Disk)
    | Spawn(key: Key, now: int, stamp: StampIo)
    | Restart

  datatype World = World(clock: int, store: Store)

  ghost predicate Enabled(w: World, e: Event) {
    match e
    case Tick(p, _, root, _) => w.clock <= p.now && Listed(w.store, Keys(root))
    case Spawn(_, now, _) => w.clock <= now
    case Restart => true
  }

  function Mount(s: Store, key: Key, now: int, stamp: StampIo): Store {
    var marker := if key in s.scopes then s.scopes[key] else None;
    s.(scopes := s.scopes[key := Touched(marker, now, now, stamp)])
  }

  ghost function Step(w: World, e: Event): World
    requires Enabled(w, e)
  {
    match e
    case Tick(p, sessions, root, io) => World(p.now, SweepTick(w.store, root, sessions, p, io).0)
    case Spawn(key, now, stamp) => World(now, Mount(w.store, key, now, stamp))
    case Restart => w.(store := w.store.(pending := {}))
  }

  ghost predicate IsRun(states: seq<World>, events: seq<Event>) {
    && |states| == |events| + 1
    && (forall i :: 0 <= i < |events| ==> Enabled(states[i], events[i]) && states[i + 1] == Step(states[i], events[i]))
  }

  ghost predicate RemovedAt(states: seq<World>, i: nat, key: Key)
    requires i + 1 < |states|
  {
    key in states[i].store.scopes && key !in states[i + 1].store.scopes
  }

  /** How often a scope was removed between two points of a run. */
  ghost function Removals(states: seq<World>, i: nat, n: nat, key: Key): nat
    requires i <= n < |states|
    decreases n
  {
    if i == n then 0 else Removals(states, i, n - 1, key) + if RemovedAt(states, n - 1, key) then 1 else 0
  }

  function Waiting(s: Store, key: Key): nat {
    if key in s.pending then 1 else 0
  }

  /** One step: every audit row is a removal's, or that of a delete still outstanding. */
  lemma StepAccounts(w: World, e: Event, key: Key)
    requires Enabled(w, e)
    ensures var (s, s') := (w.store, Step(w, e).store);
      var removed := if key in s.scopes && key !in s'.scopes then 1 else 0;
      Rows(s', key) + Waiting(s, key) >= Rows(s, key) + removed + Waiting(s', key) &&
      (!e.Restart? ==> Rows(s', key) + Waiting(s, key) == Rows(s, key) + removed + Waiting(s', key))
  {
    match e
    case Tick(p, sessions, root, io) =>
      if p.days > 0 { SweepActsOnEach(w.store, Keys(root), IndexOf(sessions), p, io, key); }
      hide SweepAll, Keys, IndexOf, Listed, Adopted, Rows;
    case _ =>
  }

  lemma RunLength(states: seq<World>, events: seq<Event>)
    requires IsRun(states, events)
    ensures |states| == |events| + 1
  {
  }

  /** Conservation over any run: audit rows pair up with removals and outstanding deletes, exactly
      while the process lives; a restart forgets outstanding ones, never the reverse. */
  lemma {:induction false} AuditRowsAccountForRemovals(states: seq<World>, events: seq<Event>, i: nat, n: nat, key: Key)
    requires IsRun(states, events) && i <= n < |states|
    ensures Rows(states[n].store, key) + Waiting(states[i].store, key) >=
      Rows(states[i].store, key) + Removals(states, i, n, key) + Waiting(states[n].store, key)
    ensures (forall j :: i <= j < n ==> !events[j].Restart?) ==>
      Rows(states[n].store, key) + Waiting(states[i].store, key) ==
      Rows(states[i].store, key) + Removals(states, i, n, key) + Waiting(states[n].store, key)
    decreases n
  {
    hide Step, Enabled, Rows, IsRun, Waiting;
    if i < n {
      RunLength(states, events);
      RunStep(states, events, n - 1);
      AuditRowsAccountForRemovals(states, events, i, n - 1, key);
      StepAccounts(states[n - 1], events[n - 1], key);
    }
  }

  lemma RemovalIsNotWaiting(states: seq<World>, events: seq<Event>, i: nat, key: Key)
    requires IsRun(states, events) && i < |events| && RemovedAt(states, i, key)
    ensures events[i].Tick? && key !in states[i + 1].store.pending
  {
    match events[i]
    case Tick(p, sessions, root, io) =>
      if p.days > 0 { SweepActsOnEach(states[i].store, Keys(root), IndexOf(sessions), p, io, key); }
      hide SweepAll, Keys, IndexOf, Listed, Adopted, Rows, FateOf;
    case _ =>
  }

  /** Main result: a removal is on record: an audit row for the scope was written since any point at
      which none of its deletes was outstanding, such as the start of the process. */
  lemma RemovalIsOnRecord(states: seq<World>, events: seq<Event>, i: nat, n: nat, key: Key)
    requires IsRun(states, events) && i <= n < |events|
    requires key !in states[i].store.pending && RemovedAt(states, n, key)
    ensures Rows(states[n + 1].store, key) > Rows(states[i].store, key)
  {
    AuditRowsAccountForRemovals(states, events, i, n + 1, key);
    hide IsRun, Rows;
  }

  /** So between two removals of one scope an audit row for it was written, restarts or not. */
  lemma AuditRowBetweenRemovals(states: seq<World>, events: seq<Event>, i: nat, n: nat, key: Key)
    requires IsRun(states, events) && i < n < |events|
    requires RemovedAt(states, i, key) && RemovedAt(states, n, key)
    ensures Rows(states[n + 1].store, key) > Rows(states[i + 1].store, key)
  {
    RemovalIsNotWaiting(states, events, i, key);
    RemovalIsOnRecord(states, events, i + 1, n, key);
  }

  /** A delete that keeps failing is on record once per process life, however many ticks retry it. */
  lemma StuckDeleteIsAuditedOnce(states: seq<World>, events: seq<Event>, i: nat, n: nat, key: Key)
    requires IsRun(states, events) && i <= n < |states|
    requires forall j :: i <= j < n ==> !events[j].Restart? && !RemovedAt(states, j, key)
    ensures Rows(states[n].store, key) <= Rows(states[i].store, key) + 1
    ensures key in states[i].store.pending ==> Rows(states[n].store, key) <= Rows(states[i].store, key)
  {
    AuditRowsAccountForRemovals(states, events, i, n, key);
    NoneRemoved(states, i, n, key);
    hide IsRun, Rows;
  }

  lemma {:induction false} NoneRemoved(states: seq<World>, i: nat, n: nat, key: Key)
    requires i <= n < |states| && forall j :: i <= j < n ==> !RemovedAt(states, j, key)
    ensures Removals(states, i, n, key) == 0
    decreases n
  {
    if i < n { NoneRemoved(states, i, n - 1, key); }
  }

  // ---------------------------------------------------------------- the grace window

  /** A marker no older than `since`: kept by every tick whose window reaches back before it. */
  ghost predicate StampedSince(s: Store, key: Key, since: int) {
    key in s.scopes && s.scopes[key].Some? && s.scopes[key].value >= since
  }

  lemma StepKeepsStamp(w: World, e: Event, key: Key, since: int)
    requires Enabled(w, e) && StampedSince(w.store, key, since) && w.clock >= since
    requires e.Tick? ==> e.p.days > 0 && Cutoff(e.p) < since
    ensures StampedSince(Step(w, e).store, key, since) && Step(w, e).clock >= since
  {
    match e
    case Tick(p, sessions, root, io) =>
      SweepActsOnEach(w.store, Keys(root), IndexOf(sessions), p, io, key);
      hide SweepAll, Keys, IndexOf, Listed, Rows, Cutoff, Evidence;
    case _ =>
  }

  /** Main result: a scope found with neither marker nor evidence survives that tick; if its stamp
      lands, even badly, it survives every tick whose cutoff has not passed that instant. */
  lemma {:induction false} UnvouchedScopeGetsAFullWindow(states: seq<World>, events: seq<Event>, i: nat, n: nat, key: Key)
    requires IsRun(states, events) && i < n < |states| && events[i].Tick? && events[i].p.days > 0
    requires var s := states[i].store; key in s.scopes && s.scopes[key].None?
    requires Newest(events[i].sessions, key).None?
    requires forall j :: i < j < n && events[j].Tick? ==> events[j].p.days > 0 && Cutoff(events[j].p) < events[i].p.now
    ensures key in states[i + 1].store.scopes
    ensures states[i + 1].store.scopes[key].Some? ==>
      StampedSince(states[n].store, key, events[i].p.now) && states[n].clock >= events[i].p.now
    decreases n
  {
    var e := events[i];
    assert states[i + 1] == Step(states[i], e);
    if i + 1 == n {
      FirstTickKeeps(states[i], e, key);
    } else {
      UnvouchedScopeGetsAFullWindow(states, events, i, n - 1, key);
      assert states[n - 1 + 1] == Step(states[n - 1], events[n - 1]);
      if states[i + 1].store.scopes[key].Some? {
        hide Step, Enabled, Cutoff, Newest;
        StepKeepsStamp(states[n - 1], events[n - 1], key, e.p.now);
      }
    }
  }

  lemma FirstTickKeeps(w: World, e: Event, key: Key)
    requires Enabled(w, e) && e.Tick? && e.p.days > 0
    requires key in w.store.scopes && w.store.scopes[key].None? && Newest(e.sessions, key).None?
    ensures var s' := Step(w, e).store;
      key in s'.scopes && (s'.scopes[key].Some? ==> StampedSince(s', key, e.p.now)) && Step(w, e).clock == e.p.now
  {
    IndexIsExact(e.sessions, key);
    SweepActsOnEach(w.store, Keys(e.root), IndexOf(e.sessions), e.p, e.io, key);
    assert e.p.now > Cutoff(e.p);
    hide SweepAll, Keys, IndexOf, Listed, Rows, Newest, Cutoff;
  }

  // ---------------------------------------------------------------- the clock of a scope

  /** A tick of retention that is neither off nor a dry run. */
  predicate Sweeps(e: Event) {
    e.Tick? && e.p.days > 0 && !e.p.preview
  }

  /** Neither marker nor live session, but evidence, and its stamp lands. */
  ghost predicate Adopts(w: World, e: Event, key: Key, evidence: int) {
    && Sweeps(e) && key in Keys(e.root) && key in w.store.scopes && w.store.scopes[key].None?
    && !IsLive(e.sessions, key) && Newest(e.sessions, key) == Some(evidence) && e.io(key).stamp.Landed?
  }

  /** The scope's marker says `at`. */
  predicate Stamped(s: Store, key: Key, at: int) {
    key in s.scopes && s.scopes[key] == Some(at)
  }

  /** A landed adoption writes the newest evidence, not the time of the tick. */
  lemma AdoptionStampsEvidence(w: World, e: Event, key: Key, evidence: int)
    requires Enabled(w, e) && Adopts(w, e, key, evidence)
    ensures evidence > e.p.now - e.p.days * 86400000 ==> Stamped(Step(w, e).store, key, evidence)
  {
    IndexIsExact(e.sessions, key);
    SweepActsOnEach(w.store, Keys(e.root), IndexOf(e.sessions), e.p, e.io, key);
    hide SweepAll, Keys, IndexOf, Listed, Rows, Newest, IsLive;
  }

  /** Steps that leave the marker alone: no spawn of the scope, no tick that finds it expired. */
  predicate LeavesStamp(e: Event, key: Key, at: int) {
    && (e.Spawn? ==> e.key != key)
    && (e.Tick? ==> at > e.p.now - e.p.days * 86400000)
  }

  lemma StepLeavesStamp(w: World, e: Event, key: Key, at: int)
    requires Enabled(w, e) && Stamped(w.store, key, at) && LeavesStamp(e, key, at)
    ensures Stamped(Step(w, e).store, key, at)
  {
    match e
    case Tick(p, sessions, root, io) =>
      if p.days > 0 { SweepActsOnEach(w.store, Keys(root), IndexOf(sessions), p, io, key); }
      hide SweepAll, Keys, IndexOf, Listed, Rows, Evidence;
    case _ =>
  }

  lemma {:induction false} StampStands(states: seq<World>, events: seq<Event>, i: nat, n: nat, key: Key, at: int)
    requires IsRun(states, events) && i <= n < |states| && Stamped(states[i].store, key, at)
    requires forall j :: i <= j < n ==> LeavesStamp(events[j], key, at)
    ensures Stamped(states[n].store, key, at)
    decreases n
  {
    hide *;
    if i < n {
      StampStands(states, events, i, n - 1, key, at);
      RunStep(states, events, n - 1);
      StepLeavesStamp(states[n - 1], events[n - 1], key, at);
    }
  }

  lemma RunStep(states: seq<World>, events: seq<Event>, i: nat)
    requires IsRun(states, events) && i + 1 < |states|
    ensures i < |events| && Enabled(states[i], events[i]) && states[i + 1] == Step(states[i], events[i])
  {
    hide Step, Enabled;
  }

  /** Main result: an adopted scope expires with its evidence. Until a spawn or its expiry, a later
      tick removes it exactly when it sweeps, lists the scope, finds no active session of it and the
      evidence at or before its cutoff, and the expiry can be recorded and carried out. */
  lemma AdoptedExpiresWithEvidence(states: seq<World>, events: seq<Event>, i: nat, n: nat, key: Key, evidence: int)
    requires IsRun(states, events) && i < n < |events| && Adopts(states[i], events[i], key, evidence)
    requires evidence > events[i].p.now - events[i].p.days * 86400000 && events[n].Tick?
    requires forall j :: i < j < n ==> LeavesStamp(events[j], key, evidence)
    ensures RemovedAt(states, n, key) <==>
      && Sweeps(events[n]) && key in Keys(events[n].root) && !IsLive(events[n].sessions, key)
      && evidence <= events[n].p.now - events[n].p.days * 86400000
      && (key in states[n].store.pending || events[n].io(key).auditOk) && events[n].io(key).remove.Gone?
  {
    assert states[i + 1] == Step(states[i], events[i]) && states[n + 1] == Step(states[n], events[n]);
    AdoptionStampsEvidence(states[i], events[i], key, evidence);
    StampStands(states, events, i + 1, n, key, evidence);
    var Tick(p, sessions, root, io) := events[n];
    RemovedIff(states[n].store, root, sessions, p, io, key);
    hide IsRun, SweepTick, Keys, IsLive, Newest, Listed, Adopts;
  }

  /** Use restarts the clock: a scope mounted at time t with a landed stamp is there at every later
      point up to which no tick's cutoff has reached t. */
  lemma {:induction false} UseRestartsTheClock(states: seq<World>, events: seq<Event>, i: nat, n: nat, key: Key)
    requires IsRun(states, events) && i < n < |states| && events[i].Spawn? && events[i].key == key && events[i].stamp.Landed?
    requires forall j :: i < j < n && events[j].Tick? ==>
      events[j].p.days > 0 && events[j].p.now - events[j].p.days * 86400000 < events[i].now
    ensures StampedSince(states[n].store, key, events[i].now) && states[n].clock >= events[i].now
    decreases n
  {
    RunStep(states, events, n - 1);
    if i + 1 < n {
      UseRestartsTheClock(states, events, i, n - 1, key);
      hide IsRun, Step, Enabled;
      StepKeepsStamp(states[n - 1], events[n - 1], key, events[i].now);
    }
  }
}
