/** The decode step of outbound rows (src/outbound-contract.ts:54-107). */
module OutboundContract {
  import opened JsonTree
  import opened Wrappers

  const MAX_DEPTH := 12
  const MAX_OUTBOUND_CONTENT_BYTES := 4 * 1024 * 1024
  const FORBIDDEN_KEYS := {"__proto__", "constructor", "prototype"}

  datatype Complaint = TooDeep | ForbiddenKey(key: string)

  /** The recursive scan, first complaint in document order. */
  function Scan(v: Json, depth: nat): Option<Complaint>
    decreases v, 1, 0
  {
    if depth > MAX_DEPTH then Some(TooDeep)
    else
      match v
      case Arr(_) => ScanItems(v, 0, depth)
      case Obj(_) => ScanMembers(v, 0, depth)
      case _ => None
  }

  function ScanItems(v: Json, from: nat, depth: nat): Option<Complaint>
    requires v.Arr? && from <= |v.items|
    decreases v, 0, |v.items| - from
  {
    if from == |v.items| then None
    else
      var bad := Scan(v.items[from], depth + 1);
      if bad.Some? then bad else ScanItems(v, from + 1, depth)
  }

  function ScanMembers(v: Json, from: nat, depth: nat): Option<Complaint>
    requires v.Obj? && from <= |v.members|
    decreases v, 0, |v.members| - from
  {
    if from == |v.members| then None
    else if v.members[from].0 in FORBIDDEN_KEYS then Some(ForbiddenKey(v.members[from].0))
    else
      var bad := Scan(v.members[from].1, depth + 1);
      if bad.Some? then bad else ScanMembers(v, from + 1, depth)
  }

  /** `w` occurs in `v` at nesting distance `d`. */
  ghost predicate Occurs(v: Json, w: Json, d: nat)
    decreases d
  {
    if d == 0 then v == w
    else
      match v
      case Arr(items) => exists i :: 0 <= i < |items| && Occurs(items[i], w, d - 1)
      case Obj(members) => exists i :: 0 <= i < |members| && Occurs(members[i].1, w, d - 1)
      case _ => false
  }

  predicate HasForbiddenKey(w: Json) {
    w.Obj? && exists i :: 0 <= i < |w.members| && w.members[i].0 in {"__proto__", "constructor", "prototype"}
  }

  /** What the scan looks for, without the order it looks in: something nested too deep, or an
      object with a forbidden key, anywhere. */
  ghost predicate Offends(v: Json, depth: nat) {
    exists w: Json, d: nat :: Occurs(v, w, d) && (depth + d > MAX_DEPTH || HasForbiddenKey(w))
  }

  lemma OffendsHere(v: Json, depth: nat)
    requires depth > MAX_DEPTH || HasForbiddenKey(v)
    ensures Offends(v, depth)
  {
    assert Occurs(v, v, 0);
  }

  lemma OffendsItem(v: Json, i: nat, depth: nat)
    requires v.Arr? && i < |v.items| && Offends(v.items[i], depth + 1)
    ensures Offends(v, depth)
  {
    var w: Json, d: nat :| Occurs(v.items[i], w, d) && (depth + 1 + d > MAX_DEPTH || HasForbiddenKey(w));
    assert Occurs(v, w, d + 1);
  }

  lemma OffendsMember(v: Json, i: nat, depth: nat)
    requires v.Obj? && i < |v.members| && Offends(v.members[i].1, depth + 1)
    ensures Offends(v, depth)
  {
    var w: Json, d: nat :| Occurs(v.members[i].1, w, d) && (depth + 1 + d > MAX_DEPTH || HasForbiddenKey(w));
    assert Occurs(v, w, d + 1);
  }

  /** An offence of a value within the depth bound is its own, or one of a child. */
  lemma OffenceSplits(v: Json, depth: nat)
    requires Offends(v, depth) && depth <= MAX_DEPTH && !HasForbiddenKey(v)
    ensures v.Arr? || v.Obj?
    ensures v.Arr? ==> exists i :: 0 <= i < |v.items| && Offends(v.items[i], depth + 1)
    ensures v.Obj? ==> exists i :: 0 <= i < |v.members| && Offends(v.members[i].1, depth + 1)
  {
    var w: Json, d: nat :| Occurs(v, w, d) && (depth + d > MAX_DEPTH || HasForbiddenKey(w));
    assert d > 0;
    match v
    case Arr(items) =>
      var i :| 0 <= i < |items| && Occurs(items[i], w, d - 1);
      assert depth + 1 + (d - 1) > MAX_DEPTH || HasForbiddenKey(w);
    case Obj(members) =>
      var i :| 0 <= i < |members| && Occurs(members[i].1, w, d - 1);
      assert depth + 1 + (d - 1) > MAX_DEPTH || HasForbiddenKey(w);
    case _ =>
  }

  /** The early-exit scan complains exactly when something anywhere offends. */
  lemma {:induction false} ScanIsExact(v: Json, depth: nat)
    ensures Scan(v, depth).Some? <==> Offends(v, depth)
    decreases v, 1, 0
  {
    if depth > MAX_DEPTH || HasForbiddenKey(v) { OffendsHere(v, depth); }
    if depth <= MAX_DEPTH {
      if Offends(v, depth) && !HasForbiddenKey(v) { OffenceSplits(v, depth); }
      match v
      case Arr(items) =>
        ScanItemsIsExact(v, 0, depth);
        forall i | 0 <= i < |items| && Offends(items[i], depth + 1) ensures Offends(v, depth) {
          OffendsItem(v, i, depth);
        }
      case Obj(members) =>
        ScanMembersIsExact(v, 0, depth);
        forall i | 0 <= i < |members| && Offends(members[i].1, depth + 1) ensures Offends(v, depth) {
          OffendsMember(v, i, depth);
        }
      case _ =>
    }
  }

  lemma {:induction false} ScanItemsIsExact(v: Json, from: nat, depth: nat)
    requires v.Arr? && from <= |v.items|
    ensures ScanItems(v, from, depth).Some? <==> exists i :: from <= i < |v.items| && Offends(v.items[i], depth + 1)
    decreases v, 0, |v.items| - from
  {
    if from < |v.items| {
      ScanIsExact(v.items[from], depth + 1);
      ScanItemsIsExact(v, from + 1, depth);
    }
  }

  lemma {:induction false} ScanMembersIsExact(v: Json, from: nat, depth: nat)
    requires v.Obj? && from <= |v.members|
    ensures ScanMembers(v, from, depth).Some? <==>
      exists i :: from <= i < |v.members| && (v.members[i].0 in FORBIDDEN_KEYS || Offends(v.members[i].1, depth + 1))
    decreases v, 0, |v.members| - from
  {
    if from < |v.members| {
      ScanIsExact(v.members[from].1, depth + 1);
      ScanMembersIsExact(v, from + 1, depth);
    }
  }

  /** A raw content blob: its UTF-8 size, and what JSON.parse makes of it. */
  datatype Payload = Payload(bytes: nat, parsed: Option<Json>)

  predicate ParseOutboundContent(p: Payload) {
    && p.bytes <= MAX_OUTBOUND_CONTENT_BYTES
    && p.parsed.Some?
    && p.parsed.value.Obj?
    && Scan(p.parsed.value, 0).None?
  }

  /** A payload is admitted exactly when it is small enough, an object, nested at most 12 deep,
      and free of forbidden keys at every depth. */
  lemma AdmissionIsExact(p: Payload)
    ensures ParseOutboundContent(p) <==>
      && p.bytes <= 4194304
      && p.parsed.Some? && p.parsed.value.Obj?
      && forall w: Json, d: nat :: Occurs(p.parsed.value, w, d) ==> d <= 12 && !HasForbiddenKey(w)
  {
    if p.parsed.Some? {
      ScanIsExact(p.parsed.value, 0);
      var v := p.parsed.value;
      forall w: Json, d: nat | Occurs(v, w, d) && (d > MAX_DEPTH || HasForbiddenKey(w)) ensures Offends(v, 0) {
        assert 0 + d > MAX_DEPTH || HasForbiddenKey(w);
      }
      if Offends(v, 0) {
        var w: Json, d: nat :| Occurs(v, w, d) && (0 + d > MAX_DEPTH || HasForbiddenKey(w));
        assert Occurs(p.parsed.value, w, d) && !(d <= MAX_DEPTH && !HasForbiddenKey(w));
      }
    }
  }
}
