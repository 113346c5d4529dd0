/** Lists and queues kept as indexed rows (src/state-sqlite.ts:119-178). */
module StateLists {
  import opened Wrappers

  type ThreadId = nat
  type Value = nat

  datatype Row = Row(value: Value, expiresAt: Option<int>)
  /** The rows of one list key, by index. */
  type Rows = map<nat, Row>

  // ---------------------------------------------------------------- the statements

  ghost function MaxOf(s: set<nat>): (m: nat)
    requires s != {}
    ensures m in s && forall k :: k in s ==> k <= m
  {
    var x :| x in s;
    if s == {x} then x
    else
      var rest := MaxOf(s - {x});
      assert forall k :: k in s ==> k == x || k in s - {x};
      if x > rest then x else rest
  }

  ghost function NextIdx(rows: Rows): nat {
    if rows == map[] then 0 else MaxOf(rows.Keys) + 1
  }

  function Trimmed(rows: Rows, first: nat): Rows {
    map i: nat | i in rows && i >= first :: rows[i]
  }

  /** Insert after the largest index, then delete everything at or below the cutoff; a maximum
      length of zero counts as no maximum. */
  ghost function Append(rows: Rows, v: Value, maxLength: nat, expiresAt: Option<int>): Rows {
    var next := NextIdx(rows);
    var rows' := rows[next := Row(v, expiresAt)];
    if maxLength > 0 && next >= maxLength then Trimmed(rows', next - maxLength + 1) else rows'
  }

  function Cleanup(rows: Rows, now: int): Rows {
    map i: nat | i in rows && (rows[i].expiresAt.None? || rows[i].expiresAt.value >= now) :: rows[i]
  }

  method MaxIdx(rows: Rows) returns (max: Option<nat>)
    ensures max == if rows == map[] then None else Some(MaxOf(rows.Keys))
  {
    max := None;
    var rest := rows.Keys;
    while rest != {}
      invariant rest <= rows.Keys
      invariant max.None? <==> rest == rows.Keys
      invariant max.Some? ==> max.value in rows && forall k :: k in rows && k !in rest ==> k <= max.value
      decreases rest
    {
      var k :| k in rest;
      rest := rest - {k};
      if max.None? || k > max.value { max := Some(k); }
    }
  }

  method AppendToList(rows: Rows, v: Value, maxLength: nat, expiresAt: Option<int>) returns (rows': Rows)
    ensures rows' == Append(rows, v, maxLength, expiresAt)
  {
    var max := MaxIdx(rows);
    var next: nat := if max.None? then 0 else max.value + 1;
    rows' := rows[next := Row(v, expiresAt)];
    if maxLength > 0 && next >= maxLength {
      ghost var all := rows';
      rows' := map i: nat | i in rows' && i > next - maxLength :: rows'[i];
      assert rows' == Trimmed(all, next - maxLength + 1);
    }
  }

  // ---------------------------------------------------------------- the sequence behind the rows

  /** The rows are q, in order, at the indices lo, lo+1, ..., without expiry. */
  ghost predicate Represents(rows: Rows, lo: nat, q: seq<Value>) {
    && (forall i :: i in rows <==> lo <= i < lo + |q|)
    && (forall i :: 0 <= i < |q| ==> rows[lo + i] == Row(q[i], None))
  }

  function KeepLast(q: seq<Value>, max: nat): seq<Value> {
    if max > 0 && |q| > max then q[|q| - max..] else q
  }

  /** Where the kept rows start after an append; an emptied list starts again at zero. */
  function BaseAfterAppend(lo: nat, q: seq<Value>, max: nat): nat {
    var base := if q == [] then 0 else lo;
    if max > 0 && |q| + 1 > max then base + |q| + 1 - max else base
  }

  lemma NextIdxIs(rows: Rows, lo: nat, q: seq<Value>)
    requires Represents(rows, lo, q)
    ensures NextIdx(rows) == if q == [] then 0 else lo + |q|
  {
    if q == [] {
      assert rows.Keys == {};
      assert rows == map[];
    } else {
      assert lo + |q| - 1 in rows;
      assert rows != map[];
    }
  }

  lemma InsertRefines(rows: Rows, lo: nat, q: seq<Value>, v: Value)
    requires Represents(rows, lo, q)
    ensures Represents(rows[NextIdx(rows) := Row(v, None)], if q == [] then 0 else lo, q + [v])
  {
    NextIdxIs(rows, lo, q);
    hide NextIdx;
  }

  lemma TrimRefines(rows: Rows, lo: nat, q: seq<Value>, first: nat)
    requires Represents(rows, lo, q) && lo <= first <= lo + |q|
    ensures Represents(Trimmed(rows, first), first, q[first - lo..])
  {
    var rest := q[first - lo..];
    assert forall i :: 0 <= i < |rest| ==> rest[i] == q[first - lo + i] && rows[lo + (first - lo + i)] == Row(rest[i], None);
  }

  lemma NothingTrimmed(rows: Rows, lo: nat, q: seq<Value>, first: nat)
    requires Represents(rows, lo, q) && first <= lo
    ensures Trimmed(rows, first) == rows
  {
  }

  /** Deleting up to the cutoff leaves the last `max` elements. */
  lemma TrimToLast(rows: Rows, lo: nat, q: seq<Value>, max: nat)
    requires Represents(rows, lo, q) && q != []
    ensures var last := lo + |q| - 1;
      Represents(if max > 0 && last >= max then Trimmed(rows, last - max + 1) else rows,
                 if max > 0 && |q| > max then lo + |q| - max else lo,
                 KeepLast(q, max))
  {
    hide Represents, Trimmed;
    if max > 0 && lo + |q| - 1 >= max {
      if |q| > max {
        TrimRefines(rows, lo, q, lo + |q| - max);
      } else {
        NothingTrimmed(rows, lo, q, lo + |q| - max);
      }
    }
  }

  /** An append keeps exactly the last `max` elements, at contiguous indices. */
  lemma AppendRefines(rows: Rows, lo: nat, q: seq<Value>, v: Value, max: nat)
    requires Represents(rows, lo, q)
    ensures Represents(Append(rows, v, max, None), BaseAfterAppend(lo, q, max), KeepLast(q + [v], max))
  {
    NextIdxIs(rows, lo, q);
    InsertRefines(rows, lo, q, v);
    hide NextIdx, Represents, Trimmed, KeepLast;
    TrimToLast(rows[NextIdx(rows) := Row(v, None)], if q == [] then 0 else lo, q + [v], max);
  }

  lemma DequeueRefines(rows: Rows, lo: nat, q: seq<Value>)
    requires Represents(rows, lo, q) && q != []
    ensures lo in rows && (forall i :: i in rows ==> lo <= i)
    ensures Represents(rows - {lo}, lo + 1, q[1..])
  {
  }

  lemma CountRefines(rows: Rows, lo: nat, q: seq<Value>)
    requires Represents(rows, lo, q)
    ensures |rows| == |q|
    decreases |q|
  {
    if q == [] {
      assert rows == map[];
    } else {
      DequeueRefines(rows, lo, q);
      CountRefines(rows - {lo}, lo + 1, q[1..]);
      assert rows.Keys == (rows - {lo}).Keys + {lo};
      assert |rows.Keys| == |rows| && |(rows - {lo}).Keys| == |rows - {lo}|;
    }
  }

  /** Queue rows carry no expiry, so a cleanup never touches them. */
  lemma CleanupKeepsQueues(rows: Rows, lo: nat, q: seq<Value>, now: int)
    requires Represents(rows, lo, q)
    ensures Cleanup(rows, now) == rows
  {
    forall i | i in rows ensures rows[i].expiresAt.None? {
      assert rows[lo + (i - lo)] == Row(q[i - lo], None);
    }
  }

  /** A cleanup takes exactly the rows whose time is past, a row being kept through its last instant;
      cleaning up twice is cleaning up at the later time. */
  lemma CleanupTakesThePast(rows: Rows, now: int, later: int)
    requires now <= later
    ensures Cleanup(rows, now).Keys == rows.Keys - set i: nat | i in rows && rows[i].expiresAt.Some? && rows[i].expiresAt.value < now
    ensures forall i :: i in Cleanup(rows, now) ==> Cleanup(rows, now)[i] == rows[i]
    ensures Cleanup(Cleanup(rows, now), later) == Cleanup(rows, later)
  {
  }

  lemma {:induction false} RangeSize(s: set<nat>, lo: nat, n: nat)
    requires forall i :: i in s ==> lo <= i < lo + n
    ensures |s| <= n
    decreases n
  {
    if n > 0 {
      RangeSize(s - {lo + n - 1}, lo, n - 1);
    } else {
      assert s == {};
    }
  }

  /** A bounded append leaves at most `max` rows and keeps the new one, whatever expiries and
      cleanups have done to the indices before. */
  lemma AppendObeysBound(rows: Rows, v: Value, max: nat, expiresAt: Option<int>)
    requires max > 0
    ensures var rows' := Append(rows, v, max, expiresAt);
      |rows'| <= max && NextIdx(rows) in rows' && rows'[NextIdx(rows)] == Row(v, expiresAt)
  {
    var rows' := Append(rows, v, max, expiresAt);
    var next := NextIdx(rows);
    var lo := if next >= max then next - max + 1 else 0;
    assert forall i :: i in rows'.Keys ==> lo <= i < lo + max;
    RangeSize(rows'.Keys, lo, max);
    assert |rows'.Keys| == |rows'|;
  }

  // ---------------------------------------------------------------- the adapter

  class QueueAdapter {
    var lists: map<ThreadId, Rows>
    ghost var queues: map<ThreadId, seq<Value>>
    ghost var bases: map<ThreadId, nat>

    ghost predicate Valid()
      reads this
    {
      lists.Keys == queues.Keys == bases.Keys &&
      forall t :: t in lists ==> Represents(lists[t], bases[t], queues[t])
    }

    /** The queue of a thread; a thread never used has an empty one. */
    ghost function Queue(t: ThreadId): seq<Value>
      reads this
    {
      if t in queues then queues[t] else []
    }

    constructor ()
      ensures Valid() && forall t :: Queue(t) == []
    {
      lists, queues, bases := map[], map[], map[];
    }

    /** A bounded FIFO: the last maxSize of the old queue and the entry; its length is returned. */
    method Enqueue(t: ThreadId, entry: Value, maxSize: nat) returns (depth: nat)
      requires Valid()
      modifies this
      ensures Valid()
      ensures Queue(t) == KeepLast(old(Queue(t)) + [entry], maxSize) && depth == |Queue(t)|
      ensures forall u :: u != t ==> Queue(u) == old(Queue(u))
    {
      hide Represents, KeepLast, BaseAfterAppend, Append;
      var rows: Rows := if t in lists then lists[t] else map[];
      ghost var q, lo := Queue(t), if t in bases then bases[t] else 0;
      if t !in lists { EmptyIsEmpty(); }
      var rows' := AppendToList(rows, entry, maxSize, None);
      AppendRefines(rows, lo, q, entry, maxSize);
      lists := lists[t := rows'];
      queues := queues[t := KeepLast(q + [entry], maxSize)];
      bases := bases[t := BaseAfterAppend(lo, q, maxSize)];
      depth := QueueDepth(t);
    }

    method Dequeue(t: ThreadId) returns (entry: Option<Value>)
      requires Valid()
      modifies this
      ensures Valid()
      ensures old(Queue(t)) == [] ==> entry == None && Queue(t) == []
      ensures old(Queue(t)) != [] ==> entry == Some(old(Queue(t))[0]) && Queue(t) == old(Queue(t))[1..]
      ensures forall u :: u != t ==> Queue(u) == old(Queue(u))
    {
      hide Represents;
      if t !in lists { return None; }
      ghost var q, lo := queues[t], bases[t];
      var first := MinIdx(lists[t]);
      FirstIs(lists[t], lo, q);
      if first.None? { return None; }
      DequeueRefines(lists[t], lo, q);
      entry := Some(lists[t][first.value].value);
      lists := lists[t := lists[t] - {first.value}];
      queues := queues[t := q[1..]];
      bases := bases[t := lo + 1];
    }

    method QueueDepth(t: ThreadId) returns (depth: nat)
      requires Valid()
      ensures depth == |Queue(t)|
    {
      if t !in lists { return 0; }
      CountRefines(lists[t], bases[t], queues[t]);
      depth := |lists[t]|;
    }

    method RunCleanup(now: int)
      requires Valid()
      modifies this
      ensures Valid() && forall t :: Queue(t) == old(Queue(t))
    {
      forall t | t in lists ensures Cleanup(lists[t], now) == lists[t] {
        CleanupKeepsQueues(lists[t], bases[t], queues[t], now);
      }
      lists := map t | t in lists :: Cleanup(lists[t], now);
    }
  }

  lemma EmptyIsEmpty()
    ensures Represents(map[], 0, [])
  {
  }

  /** The smallest index holds the oldest element. */
  lemma FirstIs(rows: Rows, lo: nat, q: seq<Value>)
    requires Represents(rows, lo, q)
    ensures rows == map[] <==> q == []
    ensures q != [] ==> lo in rows && rows[lo] == Row(q[0], None) && forall i :: i in rows ==> lo <= i
  {
    if q != [] {
      assert lo in rows;
      assert rows[lo + 0] == Row(q[0], None);
    }
    if q == [] { assert rows == map[]; }
  }

  method MinIdx(rows: Rows) returns (min: Option<nat>)
    ensures min.None? <==> rows == map[]
    ensures min.Some? ==> min.value in rows && forall k :: k in rows ==> min.value <= k
  {
    min := None;
    var rest := rows.Keys;
    while rest != {}
      invariant rest <= rows.Keys
      invariant min.None? <==> rest == rows.Keys
      invariant min.Some? ==> min.value in rows && forall k :: k in rows && k !in rest ==> min.value <= k
      decreases rest
    {
      var k :| k in rest;
      rest := rest - {k};
      if min.None? || k < min.value { min := Some(k); }
    }
    if min.None? { assert rows.Keys == {}; }
  }
}
