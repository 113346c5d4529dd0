/** The canonical serialisation of an audit export (src/db/audit-export.ts:90-103). */
module CanonicalJson {
  import opened JsonTree
  import opened Wrappers

  type Member = (string, Json)

  // ---------------------------------------------------------------- sorting keys

  /** Lexicographic order of keys, character by character. */
  predicate Less(a: string, b: string)
    decreases |a|
  {
    b != [] && (a == [] || a[0] < b[0] || (a[0] == b[0] && Less(a[1..], b[1..])))
  }

  lemma {:induction false} LessTotal(a: string, b: string)
    ensures Less(a, b) || a == b || Less(b, a)
    ensures !(Less(a, b) && Less(b, a)) && !Less(a, a)
    decreases |a|
  {
    if a != [] {
      LessTotal(a[1..], a[1..]);
      if b != [] && a[0] == b[0] {
        LessTotal(a[1..], b[1..]);
        assert a == [a[0]] + a[1..] && b == [b[0]] + b[1..];
      }
    }
  }

  /** a and b agree up to k, and there a ends, or has the smaller character. */
  ghost predicate DiffersUpAt(a: string, b: string, k: nat) {
    k <= |a| && k < |b| && (forall i :: 0 <= i < k ==> a[i] == b[i]) && (k == |a| || a[k] < b[k])
  }

  /** The order is the one by the first place where two keys differ. */
  lemma {:induction false} LessIsFirstDifference(a: string, b: string)
    ensures Less(a, b) <==> exists k: nat :: DiffersUpAt(a, b, k)
    decreases |a|
  {
    if a != [] && b != [] && a[0] == b[0] {
      LessIsFirstDifference(a[1..], b[1..]);
      if Less(a, b) {
        var k: nat :| DiffersUpAt(a[1..], b[1..], k);
        assert DiffersUpAt(a, b, k + 1);
      }
      forall k: nat | DiffersUpAt(a, b, k) ensures k > 0 && DiffersUpAt(a[1..], b[1..], k - 1) {
      }
    } else if Less(a, b) {
      assert DiffersUpAt(a, b, 0);
    }
  }

  lemma {:induction false} LessTransitive(a: string, b: string, c: string)
    requires Less(a, b) && Less(b, c)
    ensures Less(a, c)
    decreases |a|
  {
    if a != [] && a[0] == b[0] == c[0] { LessTransitive(a[1..], b[1..], c[1..]); }
  }

  function Insert(m: Member, ms: seq<Member>): seq<Member> {
    if ms == [] || Less(m.0, ms[0].0) then [m] + ms else [ms[0]] + Insert(m, ms[1..])
  }

  function SortByKey(ms: seq<Member>): seq<Member> {
    if ms == [] then [] else Insert(ms[0], SortByKey(ms[1..]))
  }

  ghost predicate Sorted(ms: seq<Member>) {
    forall i, j :: 0 <= i < j < |ms| ==> Less(ms[i].0, ms[j].0)
  }

  ghost predicate DistinctKeys(ms: seq<Member>) {
    forall i, j :: 0 <= i < j < |ms| ==> ms[i].0 != ms[j].0
  }

  ghost predicate SameMembers(a: seq<Member>, b: seq<Member>) {
    forall m :: m in a <==> m in b
  }

  lemma {:induction false} InsertSorts(m: Member, ms: seq<Member>)
    requires Sorted(ms) && forall x :: x in ms ==> x.0 != m.0
    ensures Sorted(Insert(m, ms)) && |Insert(m, ms)| == |ms| + 1
    ensures forall x :: x in Insert(m, ms) <==> x == m || x in ms
  {
    if ms != [] {
      LessTotal(m.0, ms[0].0);
      assert ms == [ms[0]] + ms[1..];
      if Less(m.0, ms[0].0) {
        forall i | 1 <= i < |ms| ensures Less(m.0, ms[i].0) { LessTransitive(m.0, ms[0].0, ms[i].0); }
      } else {
        assert ms[0] in ms;
        InsertSorts(m, ms[1..]);
        var rest := Insert(m, ms[1..]);
        forall i | 0 <= i < |rest| ensures Less(ms[0].0, rest[i].0) {
          assert rest[i] in rest;
        }
      }
    }
  }

  /** Sorting loses no member and invents none. */
  lemma {:induction false} SortSorts(ms: seq<Member>)
    requires DistinctKeys(ms)
    ensures Sorted(SortByKey(ms)) && SameMembers(SortByKey(ms), ms) && |SortByKey(ms)| == |ms|
  {
    if ms != [] {
      SortSorts(ms[1..]);
      assert ms == [ms[0]] + ms[1..];
      InsertSorts(ms[0], SortByKey(ms[1..]));
    }
  }

  lemma BothEmpty(a: seq<Member>, b: seq<Member>)
    requires SameMembers(a, b)
    ensures a == [] <==> b == []
  {
    if a != [] { assert a[0] in a; }
    if b != [] { assert b[0] in b; }
  }

  /** A sorted member list is determined by its members. */
  lemma {:induction false} SortedIsUnique(a: seq<Member>, b: seq<Member>)
    requires Sorted(a) && Sorted(b) && SameMembers(a, b)
    ensures a == b
    decreases |a|
  {
    BothEmpty(a, b);
    if a != [] {
      assert a[0] in b && b[0] in a;
      HeadsAgree(a, b);
      assert a == [a[0]] + a[1..] && b == [b[0]] + b[1..];
      forall x ensures x in a[1..] <==> x in b[1..] {
        TailMembers(a, x);
        TailMembers(b, x);
      }
      SortedIsUnique(a[1..], b[1..]);
    }
  }

  lemma TailMembers(a: seq<Member>, x: Member)
    requires Sorted(a) && a != []
    ensures x in a[1..] <==> x in a && x != a[0]
  {
    LessTotal(a[0].0, a[0].0);
    assert a == [a[0]] + a[1..];
  }

  lemma HeadsAgree(a: seq<Member>, b: seq<Member>)
    requires Sorted(a) && Sorted(b) && a != [] && b != [] && a[0] in b && b[0] in a
    ensures a[0] == b[0]
  {
    LessTotal(a[0].0, b[0].0);
    var i :| 0 <= i < |b| && b[i] == a[0];
    var j :| 0 <= j < |a| && a[j] == b[0];
  }

  // ---------------------------------------------------------------- canonical trees

  function CanonItems(v: Json): (r: seq<Json>)
    requires v.Arr?
    ensures |r| == |v.items| && forall i :: 0 <= i < |r| ==> r[i] == Canon(v.items[i])
    decreases v, 0
  {
    seq(|v.items|, i requires 0 <= i < |v.items| => Canon(v.items[i]))
  }

  function CanonMembers(v: Json): (r: seq<Member>)
    requires v.Obj?
    ensures |r| == |v.members| && forall i :: 0 <= i < |r| ==> r[i] == (v.members[i].0, Canon(v.members[i].1))
    decreases v, 0
  {
    seq(|v.members|, i requires 0 <= i < |v.members| => (v.members[i].0, Canon(v.members[i].1)))
  }

  /** Sort the keys of every object, at every depth. */
  function Canon(v: Json): Json
    decreases v, 1
  {
    match v
    case Arr(_) => Arr(CanonItems(v))
    case Obj(_) => Obj(SortByKey(CanonMembers(v)))
    case _ => v
  }

  /** Objects have one member per key, at every depth. */
  ghost predicate WellFormed(v: Json) {
    match v
    case Arr(items) => forall i :: 0 <= i < |items| ==> WellFormed(items[i])
    case Obj(members) => DistinctKeys(members) && forall i :: 0 <= i < |members| ==> WellFormed(members[i].1)
    case _ => true
  }

  /** Equal up to the order of object members, at every depth. */
  ghost predicate Equivalent(a: Json, b: Json) {
    match a
    case Arr(xs) => b.Arr? && |xs| == |b.items| && forall i :: 0 <= i < |xs| ==> Equivalent(xs[i], b.items[i])
    case Obj(ms) =>
      && b.Obj? && |ms| == |b.members|
      && (forall i :: 0 <= i < |ms| ==>
            exists j :: 0 <= j < |b.members| && b.members[j].0 == ms[i].0 && Equivalent(ms[i].1, b.members[j].1))
    case _ => a == b
  }

  lemma CanonKeysDistinct(v: Json)
    requires v.Obj? && WellFormed(v)
    ensures DistinctKeys(CanonMembers(v))
  {
  }

  /** Two lists of the same length, one contained in the other, with distinct keys, hold the same. */
  lemma {:induction false} ContainedIsSame(a: seq<Member>, b: seq<Member>)
    requires DistinctKeys(a) && |a| == |b| && forall m :: m in a ==> m in b
    ensures SameMembers(a, b)
    decreases |a|
  {
    if a != [] {
      assert a[0] in b;
      var j :| 0 <= j < |b| && b[j] == a[0];
      var b' := b[..j] + b[j + 1..];
      assert a == [a[0]] + a[1..];
      assert forall x :: x in b <==> x == a[0] || x in b' by { assert b == b[..j] + [b[j]] + b[j + 1..]; }
      forall x | x in a[1..] ensures x in b' {
        assert x in b && x.0 != a[0].0;
      }
      ContainedIsSame(a[1..], b');
    }
  }

  lemma {:induction false} EquivalentHaveOneCanon(a: Json, b: Json)
    requires WellFormed(a) && WellFormed(b) && Equivalent(a, b)
    ensures Canon(a) == Canon(b)
    decreases a
  {
    match a
    case Arr(xs) =>
      forall i | 0 <= i < |xs| ensures Canon(xs[i]) == Canon(b.items[i]) {
        EquivalentHaveOneCanon(xs[i], b.items[i]);
      }
      assert CanonItems(a) == CanonItems(b);
    case Obj(ms) =>
      var ca, cb := CanonMembers(a), CanonMembers(b);
      forall m | m in ca ensures m in cb {
        var i :| 0 <= i < |ca| && ca[i] == m;
        var j :| 0 <= j < |b.members| && b.members[j].0 == ms[i].0 && Equivalent(ms[i].1, b.members[j].1);
        EquivalentHaveOneCanon(ms[i].1, b.members[j].1);
        assert cb[j] == m;
      }
      CanonKeysDistinct(a);
      CanonKeysDistinct(b);
      ContainedIsSame(ca, cb);
      SortSorts(ca);
      SortSorts(cb);
      SortedIsUnique(SortByKey(ca), SortByKey(cb));
    case _ =>
  }

  lemma {:induction false} OneCanonMeansEquivalent(a: Json, b: Json)
    requires WellFormed(a) && WellFormed(b) && Canon(a) == Canon(b)
    ensures Equivalent(a, b)
    decreases a
  {
    match a
    case Arr(xs) =>
      assert CanonItems(a) == CanonItems(b);
      forall i | 0 <= i < |xs| ensures Equivalent(xs[i], b.items[i]) {
        assert CanonItems(a)[i] == CanonItems(b)[i];
        OneCanonMeansEquivalent(xs[i], b.items[i]);
      }
    case Obj(ms) =>
      var ca, cb := CanonMembers(a), CanonMembers(b);
      CanonKeysDistinct(a);
      CanonKeysDistinct(b);
      SortSorts(ca);
      SortSorts(cb);
      assert SortByKey(ca) == SortByKey(cb);
      forall i | 0 <= i < |ms|
        ensures exists j :: 0 <= j < |b.members| && b.members[j].0 == ms[i].0 && Equivalent(ms[i].1, b.members[j].1)
      {
        assert ca[i] in SortByKey(ca);
        assert ca[i] in cb;
        var j :| 0 <= j < |cb| && cb[j] == ca[i];
        OneCanonMeansEquivalent(ms[i].1, b.members[j].1);
      }
    case _ =>
  }

  lemma {:induction false} CanonIsWellFormed(v: Json)
    requires WellFormed(v)
    ensures WellFormed(Canon(v))
    decreases v
  {
    match v
    case Arr(xs) =>
      forall i | 0 <= i < |xs| ensures WellFormed(Canon(xs[i])) { CanonIsWellFormed(xs[i]); }
    case Obj(ms) =>
      var cs := CanonMembers(v);
      forall i | 0 <= i < |ms| ensures WellFormed(cs[i].1) { CanonIsWellFormed(ms[i].1); }
      CanonKeysDistinct(v);
      SortSorts(cs);
      var sorted := SortByKey(cs);
      forall i | 0 <= i < |sorted| ensures WellFormed(sorted[i].1) {
        assert sorted[i] in cs;
      }
      forall i, j | 0 <= i < j < |sorted| ensures sorted[i].0 != sorted[j].0 {
        LessTotal(sorted[i].0, sorted[j].0);
      }
    case _ =>
  }

  lemma {:induction false} EquivalentToCanon(v: Json)
    requires WellFormed(v)
    ensures Equivalent(v, Canon(v))
    decreases v
  {
    match v
    case Arr(xs) =>
      forall i | 0 <= i < |xs| ensures Equivalent(xs[i], Canon(xs[i])) { EquivalentToCanon(xs[i]); }
    case Obj(ms) =>
      var cs := CanonMembers(v);
      CanonKeysDistinct(v);
      SortSorts(cs);
      forall i | 0 <= i < |ms|
        ensures exists j :: 0 <= j < |SortByKey(cs)| && SortByKey(cs)[j].0 == ms[i].0 && Equivalent(ms[i].1, SortByKey(cs)[j].1)
      {
        EquivalentToCanon(ms[i].1);
        assert cs[i] in SortByKey(cs);
        var j :| 0 <= j < |SortByKey(cs)| && SortByKey(cs)[j] == cs[i];
      }
    case _ =>
  }

  // ---------------------------------------------------------------- printing

  datatype Token =
    | LBrace | RBrace | LBracket | RBracket | Comma | Colon
    | NullT | BoolT(b: bool) | NumT(n: string) | StrT(s: string)

  /** The printed form as tokens; the text of one token is the engine's business. */
  function Print(v: Json): seq<Token>
    decreases v, 1, 0
  {
    match v
    case Null => [NullT]
    case Bool(b) => [BoolT(b)]
    case Num(n) => [NumT(n)]
    case Str(s) => [StrT(s)]
    case Arr(items) => if items == [] then [LBracket, RBracket] else [LBracket] + Print(items[0]) + PrintItems(v, 1)
    case Obj(ms) =>
      if ms == [] then [LBrace, RBrace] else [LBrace, StrT(ms[0].0), Colon] + Print(ms[0].1) + PrintMembers(v, 1)
  }

  function PrintItems(v: Json, from: nat): seq<Token>
    requires v.Arr? && from <= |v.items|
    decreases v, 0, |v.items| - from
  {
    if from == |v.items| then [RBracket] else [Comma] + Print(v.items[from]) + PrintItems(v, from + 1)
  }

  function PrintMembers(v: Json, from: nat): seq<Token>
    requires v.Obj? && from <= |v.members|
    decreases v, 0, |v.members| - from
  {
    if from == |v.members| then [RBrace]
    else [Comma, StrT(v.members[from].0), Colon] + Print(v.members[from].1) + PrintMembers(v, from + 1)
  }

  // ---------------------------------------------------------------- reading back

  type Rest = seq<Token>

  /** A reader of tokens, left to right: the value that comes first, and what follows it. */
  function Read(ts: Rest): (r: Option<(Json, Rest)>)
    ensures r.Some? ==> |r.value.1| < |ts|
    decreases |ts|, 1
  {
    if ts == [] then None
    else
      match ts[0]
      case NullT => Some((Null, ts[1..]))
      case BoolT(b) => Some((Bool(b), ts[1..]))
      case NumT(n) => Some((Num(n), ts[1..]))
      case StrT(s) => Some((Str(s), ts[1..]))
      case LBracket =>
        if |ts| > 1 && ts[1] == RBracket then Some((Arr([]), ts[2..]))
        else (match ReadItems(ts[1..]) case None => None case Some((items, rest)) => Some((Arr(items), rest)))
      case LBrace =>
        if |ts| > 1 && ts[1] == RBrace then Some((Obj([]), ts[2..]))
        else (match ReadMembers(ts[1..]) case None => None case Some((members, rest)) => Some((Obj(members), rest)))
      case _ => None
  }

  function ReadItems(ts: Rest): (r: Option<(seq<Json>, Rest)>)
    ensures r.Some? ==> |r.value.1| < |ts|
    decreases |ts|, 2
  {
    match Read(ts)
    case None => None
    case Some((v, rest)) =>
      if rest != [] && rest[0] == RBracket then Some(([v], rest[1..]))
      else if rest != [] && rest[0] == Comma then
        (match ReadItems(rest[1..]) case None => None case Some((vs, end)) => Some(([v] + vs, end)))
      else None
  }

  function ReadMembers(ts: Rest): (r: Option<(seq<Member>, Rest)>)
    ensures r.Some? ==> |r.value.1| < |ts|
    decreases |ts|, 2
  {
    if |ts| < 2 || !ts[0].StrT? || ts[1] != Colon then None
    else
      match Read(ts[2..])
      case None => None
      case Some((v, rest)) =>
        if rest != [] && rest[0] == RBrace then Some(([(ts[0].s, v)], rest[1..]))
        else if rest != [] && rest[0] == Comma then
          (match ReadMembers(rest[1..]) case None => None case Some((ms, end)) => Some(([(ts[0].s, v)] + ms, end)))
        else None
  }

  lemma {:induction false} StartsValue(v: Json)
    ensures Print(v) != [] && Print(v)[0] !in {RBracket, RBrace, Comma, Colon}
  {
    hide PrintItems, PrintMembers;
  }

  lemma ReadsArray(body: Rest)
    requires body != [] && body[0] != RBracket
    ensures Read([LBracket] + body) ==
      match ReadItems(body) case None => None case Some((items, rest)) => Some((Arr(items), rest))
  {
    hide ReadItems;
    assert ([LBracket] + body)[1..] == body;
  }

  lemma ReadsObject(body: Rest)
    requires body != [] && body[0] != RBrace
    ensures Read([LBrace] + body) ==
      match ReadMembers(body) case None => None case Some((members, rest)) => Some((Obj(members), rest))
  {
    hide ReadMembers;
    assert ([LBrace] + body)[1..] == body;
  }

  lemma ReadsItem(ts: Rest, v: Json, more: Rest, vs: seq<Json>, end: Rest)
    requires Read(ts) == Some((v, [Comma] + more)) && ReadItems(more) == Some((vs, end))
    ensures ReadItems(ts) == Some(([v] + vs, end))
  {
    hide Read;
    assert ([Comma] + more)[1..] == more;
  }

  lemma ReadsMember(key: string, ts: Rest, v: Json, more: Rest, ms: seq<Member>, end: Rest)
    requires Read(ts) == Some((v, [Comma] + more)) && ReadMembers(more) == Some((ms, end))
    ensures ReadMembers([StrT(key), Colon] + ts) == Some(([(key, v)] + ms, end))
  {
    hide Read;
    assert ([StrT(key), Colon] + ts)[2..] == ts && ([Comma] + more)[1..] == more;
  }

  /** The tokens from item i on, what follows the array included. */
  function ItemsFrom(v: Json, i: nat, rest: Rest): Rest
    requires v.Arr? && i < |v.items|
  {
    Print(v.items[i]) + (PrintItems(v, i + 1) + rest)
  }

  function MembersFrom(v: Json, i: nat, rest: Rest): Rest
    requires v.Obj? && i < |v.members|
  {
    [StrT(v.members[i].0), Colon] + (Print(v.members[i].1) + (PrintMembers(v, i + 1) + rest))
  }

  lemma PrintsArray(v: Json, rest: Rest)
    requires v.Arr? && v.items != []
    ensures Print(v) + rest == [LBracket] + ItemsFrom(v, 0, rest)
  {
    hide PrintItems;
  }

  lemma PrintsObject(v: Json, rest: Rest)
    requires v.Obj? && v.members != []
    ensures Print(v) + rest == [LBrace] + MembersFrom(v, 0, rest)
  {
    hide PrintMembers;
  }

  lemma PrintsItems(v: Json, i: nat, rest: Rest)
    requires v.Arr? && 0 < i <= |v.items|
    ensures PrintItems(v, i) + rest == if i == |v.items| then [RBracket] + rest else [Comma] + ItemsFrom(v, i, rest)
  {
    hide Print;
  }

  lemma PrintsMembers(v: Json, i: nat, rest: Rest)
    requires v.Obj? && 0 < i <= |v.members|
    ensures PrintMembers(v, i) + rest == if i == |v.members| then [RBrace] + rest else [Comma] + MembersFrom(v, i, rest)
  {
    hide Print;
  }

  lemma ReadsAtom(v: Json, rest: Rest)
    requires v.Arr? ==> v.items == []
    requires v.Obj? ==> v.members == []
    ensures Read(Print(v) + rest) == Some((v, rest))
  {
    hide PrintItems, PrintMembers, ReadItems, ReadMembers;
    assert (Print(v) + rest)[|Print(v)|..] == rest;
  }

  /** Whoever reads the printed tokens gets the value back, whatever follows it. */
  lemma {:induction false} ReadsBack(v: Json, rest: Rest)
    ensures Read(Print(v) + rest) == Some((v, rest))
    decreases v, 1, 0
  {
    hide *;
    if v.Arr? && v.items != [] {
      PrintsArray(v, rest);
      ItemsReadBack(v, 0, rest);
      ItemsStart(v, 0, rest);
      ReadsArray(ItemsFrom(v, 0, rest));
    } else if v.Obj? && v.members != [] {
      PrintsObject(v, rest);
      MembersReadBack(v, 0, rest);
      MembersStart(v, 0, rest);
      ReadsObject(MembersFrom(v, 0, rest));
    } else {
      ReadsAtom(v, rest);
    }
  }

  lemma ItemsStart(v: Json, i: nat, rest: Rest)
    requires v.Arr? && i < |v.items|
    ensures ItemsFrom(v, i, rest) != [] && ItemsFrom(v, i, rest)[0] != RBracket && v.items[0..] == v.items
  {
    hide Print, PrintItems;
    StartsValue(v.items[i]);
  }

  lemma MembersStart(v: Json, i: nat, rest: Rest)
    requires v.Obj? && i < |v.members|
    ensures MembersFrom(v, i, rest) != [] && MembersFrom(v, i, rest)[0] != RBrace && v.members[0..] == v.members
  {
    hide Print, PrintMembers;
  }

  lemma {:induction false} ItemsReadBack(v: Json, i: nat, rest: Rest)
    requires v.Arr? && i < |v.items|
    ensures ReadItems(ItemsFrom(v, i, rest)) == Some((v.items[i..], rest))
    decreases v, 0, |v.items| - i
  {
    var after := PrintItems(v, i + 1) + rest;
    ReadsBack(v.items[i], after);
    PrintsItems(v, i + 1, rest);
    assert ItemsFrom(v, i, rest) == Print(v.items[i]) + after;
    hide Print, Read, PrintItems, ItemsFrom;
    if i + 1 == |v.items| {
      assert after[1..] == rest && v.items[i..] == [v.items[i]];
    } else {
      hide ReadItems;
      ItemsReadBack(v, i + 1, rest);
      ReadsItem(ItemsFrom(v, i, rest), v.items[i], ItemsFrom(v, i + 1, rest), v.items[i + 1..], rest);
      assert v.items[i..] == [v.items[i]] + v.items[i + 1..];
    }
  }

  lemma {:induction false} MembersReadBack(v: Json, i: nat, rest: Rest)
    requires v.Obj? && i < |v.members|
    ensures ReadMembers(MembersFrom(v, i, rest)) == Some((v.members[i..], rest))
    decreases v, 0, |v.members| - i
  {
    var m, after := v.members[i], PrintMembers(v, i + 1) + rest;
    ReadsBack(m.1, after);
    PrintsMembers(v, i + 1, rest);
    assert MembersFrom(v, i, rest) == [StrT(m.0), Colon] + (Print(m.1) + after);
    assert MembersFrom(v, i, rest)[2..] == Print(m.1) + after;
    hide Print, Read, PrintMembers, MembersFrom;
    if i + 1 == |v.members| {
      assert after[1..] == rest && v.members[i..] == [m];
    } else {
      hide ReadMembers;
      MembersReadBack(v, i + 1, rest);
      ReadsMember(m.0, Print(m.1) + after, m.1, MembersFrom(v, i + 1, rest), v.members[i + 1..], rest);
      assert v.members[i..] == [m] + v.members[i + 1..];
    }
  }

  /** A printed value is never a proper prefix of another, so printing loses nothing. */
  lemma PrintIsInjective(a: Json, b: Json, x: Rest, y: Rest)
    requires Print(a) + x == Print(b) + y
    ensures a == b && x == y
  {
    ReadsBack(a, x);
    ReadsBack(b, y);
    hide Print, Read;
  }

  // ---------------------------------------------------------------- main results

  function CanonicalForm(v: Json): seq<Token> {
    Print(Canon(v))
  }

  /** The canonical form is a normal form: two values have the same one exactly when they are equal
      up to member order at every depth. */
  lemma SameFormIffEquivalent(a: Json, b: Json)
    requires WellFormed(a) && WellFormed(b)
    ensures CanonicalForm(a) == CanonicalForm(b) <==> Equivalent(a, b)
  {
    if CanonicalForm(a) == CanonicalForm(b) {
      PrintIsInjective(Canon(a), Canon(b), [], []);
      OneCanonMeansEquivalent(a, b);
    }
    if Equivalent(a, b) { EquivalentHaveOneCanon(a, b); }
  }

  /** Whoever reads a canonical form gets the value back up to member order, its keys in order. */
  lemma CanonicalFormReadsBack(v: Json)
    requires WellFormed(v)
    ensures exists c :: Read(CanonicalForm(v)) == Some((c, [])) && Equivalent(v, c) && KeysInOrder(c)
  {
    var c := Canon(v);
    ReadsBack(c, []);
    assert Print(c) + [] == Print(c);
    EquivalentToCanon(v);
    CanonSortsKeys(v);
  }

  /** At every depth each object's keys increase. */
  ghost predicate KeysInOrder(v: Json) {
    match v
    case Arr(items) => forall i :: 0 <= i < |items| ==> KeysInOrder(items[i])
    case Obj(members) => Sorted(members) && forall i :: 0 <= i < |members| ==> KeysInOrder(members[i].1)
    case _ => true
  }

  lemma {:induction false} CanonSortsKeys(v: Json)
    requires WellFormed(v)
    ensures KeysInOrder(Canon(v))
    decreases v
  {
    match v
    case Arr(xs) =>
      forall i | 0 <= i < |xs| ensures KeysInOrder(Canon(xs[i])) { CanonSortsKeys(xs[i]); }
    case Obj(ms) =>
      var cs := CanonMembers(v);
      forall i | 0 <= i < |ms| ensures KeysInOrder(cs[i].1) { CanonSortsKeys(ms[i].1); }
      CanonKeysDistinct(v);
      SortSorts(cs);
      var sorted := SortByKey(cs);
      forall i | 0 <= i < |sorted| ensures KeysInOrder(sorted[i].1) { assert sorted[i] in cs; }
    case _ =>
  }

  /** Canonicalising keeps the value, and doing it twice changes nothing. */
  lemma CanonIsIdempotent(v: Json)
    requires WellFormed(v)
    ensures Equivalent(v, Canon(v)) && WellFormed(Canon(v)) && Canon(Canon(v)) == Canon(v)
  {
    CanonIsWellFormed(v);
    EquivalentToCanon(v);
    EquivalentHaveOneCanon(v, Canon(v));
  }
}
