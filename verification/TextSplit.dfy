/** Splitting a text into chunks for a channel limit (src/channels/chat-sdk-bridge.ts:107-121).
    A text is a sequence of UTF-16 code units. */
module TextSplit {

  newtype Unit = x: int | 0 <= x < 0x10000
  type Text = seq<Unit>

  const NEWLINE: Unit := 10
  const SPACE: Unit := 32

  /** ECMAScript white space and line terminators: what trimStart and trimEnd remove. */
  predicate IsSpace(u: Unit) {
    u in {9, 10, 11, 12, 13, 32, 0xA0, 0x1680, 0x2028, 0x2029, 0x202F, 0x205F, 0x3000, 0xFEFF} || 0x2000 <= u <= 0x200A
  }

  predicate AllSpace(t: Text) {
    forall i :: 0 <= i < |t| ==> IsSpace(t[i])
  }

  /** One past the last visible unit before `n`. */
  function VisibleEnd(t: Text, n: nat): (i: nat)
    requires n <= |t|
    ensures i <= n && (i > 0 ==> !IsSpace(t[i - 1])) && forall j :: i <= j < n ==> IsSpace(t[j])
  {
    if n == 0 || !IsSpace(t[n - 1]) then n else VisibleEnd(t, n - 1)
  }

  /** The first visible unit from `n` on. */
  function VisibleStart(t: Text, n: nat): (i: nat)
    requires n <= |t|
    ensures n <= i <= |t| && (i < |t| ==> !IsSpace(t[i])) && forall j :: n <= j < i ==> IsSpace(t[j])
    decreases |t| - n
  {
    if n == |t| || !IsSpace(t[n]) then n else VisibleStart(t, n + 1)
  }

  /** Nothing, or a visible unit last. */
  predicate EndsVisible(t: Text) {
    t == [] || !IsSpace(t[|t| - 1])
  }

  predicate StartsVisible(t: Text) {
    t == [] || !IsSpace(t[0])
  }

  function TrimEnd(t: Text): (r: Text)
    ensures r <= t && EndsVisible(r) && AllSpace(t[|r|..])
  {
    t[..VisibleEnd(t, |t|)]
  }

  function TrimStart(t: Text): (r: Text)
    ensures |r| <= |t| && t[|t| - |r|..] == r && StartsVisible(r) && AllSpace(t[..|t| - |r|])
  {
    t[VisibleStart(t, 0)..]
  }

  /** `p` occurs in `t` at `i`. */
  predicate OccursAt(t: Text, p: Text, i: int) {
    0 <= i <= |t| - |p| && t[i..i + |p|] == p
  }

  /** The last occurrence at or before `limit`, or -1. */
  function LastIndexOf(t: Text, p: Text, limit: int): (i: int)
    ensures -1 <= i
    ensures i >= 0 ==> i <= limit && OccursAt(t, p, i)
    ensures forall j :: i < j <= limit ==> !OccursAt(t, p, j)
    decreases limit + 1
  {
    if limit < 0 then -1
    else if OccursAt(t, p, limit) then limit
    else LastIndexOf(t, p, limit - 1)
  }

  /** Where a too-long text is cut: the last paragraph break within the limit, else the last line
      break, else the last space, else the limit itself; a break at position 0 does not count. */
  function CutOf(t: Text, limit: nat): (cut: nat)
    requires 1 <= limit < |t|
    ensures 1 <= cut <= limit
  {
    var paragraph := LastIndexOf(t, [NEWLINE, NEWLINE], limit);
    var line := LastIndexOf(t, [NEWLINE], limit);
    var space := LastIndexOf(t, [SPACE], limit);
    if paragraph > 0 then paragraph else if line > 0 then line else if space > 0 then space else limit
  }

  function Split(t: Text, limit: nat): seq<Text>
    requires limit >= 1
    decreases |t|
  {
    if |t| > limit then
      var cut := CutOf(t, limit);
      [TrimEnd(t[..cut])] + Split(TrimStart(t[cut..]), limit)
    else if |t| > 0 then [t] else []
  }

  method ChooseCut(remaining: Text, limit: nat) returns (cut: int)
    requires 1 <= limit < |remaining|
    ensures cut == CutOf(remaining, limit)
  {
    cut := LastIndexOf(remaining, [NEWLINE, NEWLINE], limit);
    if cut <= 0 { cut := LastIndexOf(remaining, [NEWLINE], limit); }
    if cut <= 0 { cut := LastIndexOf(remaining, [SPACE], limit); }
    if cut <= 0 { cut := limit; }
  }

  method CutChunk(remaining: Text, limit: nat) returns (chunk: Text, rest: Text)
    requires 1 <= limit < |remaining|
    ensures |rest| < |remaining| && Split(remaining, limit) == [chunk] + Split(rest, limit)
  {
    hide TrimEnd, TrimStart, CutOf, Split;
    SplitCuts(remaining, limit);
    var cut := ChooseCut(remaining, limit);
    chunk, rest := TrimEnd(remaining[..cut]), TrimStart(remaining[cut..]);
  }

  /** A text that fits is returned whole, even when it is empty. */
  method SplitForLimit(text: Text, limit: nat) returns (chunks: seq<Text>)
    requires limit >= 1
    ensures chunks == if |text| <= limit then [text] else Split(text, limit)
  {
    if |text| <= limit { return [text]; }
    hide *;
    chunks := [];
    var remaining := text;
    StillNothing(text, limit);
    while |remaining| > limit
      invariant Split(text, limit) == Still(chunks, remaining, limit)
      decreases |remaining|
    {
      var chunk, rest := CutChunk(remaining, limit);
      StillMoves(chunks, chunk, remaining, rest, limit);
      chunks, remaining := chunks + [chunk], rest;
    }
    StillEnds(chunks, remaining, limit);
    if |remaining| > 0 { chunks := chunks + [remaining]; }
  }

  /** The chunks so far and those of what remains. */
  function Still(chunks: seq<Text>, remaining: Text, limit: nat): seq<Text>
    requires limit >= 1
  {
    chunks + Split(remaining, limit)
  }

  lemma StillNothing(text: Text, limit: nat)
    requires limit >= 1
    ensures Still([], text, limit) == Split(text, limit)
  {
    hide Split;
  }

  lemma StillMoves(chunks: seq<Text>, chunk: Text, remaining: Text, rest: Text, limit: nat)
    requires limit >= 1 && Split(remaining, limit) == [chunk] + Split(rest, limit)
    ensures Still(chunks, remaining, limit) == Still(chunks + [chunk], rest, limit)
  {
    hide Split;
  }

  lemma StillEnds(chunks: seq<Text>, remaining: Text, limit: nat)
    requires |remaining| <= limit && limit >= 1
    ensures Still(chunks, remaining, limit) == if |remaining| > 0 then chunks + [remaining] else chunks
  {
    SplitEnds(remaining, limit);
    hide Split;
  }

  lemma SplitCuts(t: Text, limit: nat)
    requires 1 <= limit < |t|
    ensures |TrimStart(t[CutOf(t, limit)..])| < |t|
    ensures Split(t, limit) == [TrimEnd(t[..CutOf(t, limit)])] + Split(TrimStart(t[CutOf(t, limit)..]), limit)
  {
    hide TrimEnd, TrimStart, CutOf;
  }

  lemma SplitEnds(t: Text, limit: nat)
    requires |t| <= limit && limit >= 1
    ensures Split(t, limit) == if |t| > 0 then [t] else []
  {
  }

  ghost predicate LastWithin(t: Text, p: Text, limit: nat, i: nat) {
    1 <= i <= limit && OccursAt(t, p, i) && forall j :: i < j <= limit ==> !OccursAt(t, p, j)
  }

  ghost predicate NoneWithin(t: Text, p: Text, limit: nat) {
    forall j :: 1 <= j <= limit ==> !OccursAt(t, p, j)
  }

  ghost predicate GoodCut(t: Text, limit: nat, cut: nat) {
    || LastWithin(t, [NEWLINE, NEWLINE], limit, cut)
    || (NoneWithin(t, [NEWLINE, NEWLINE], limit) && LastWithin(t, [NEWLINE], limit, cut))
    || (NoneWithin(t, [NEWLINE, NEWLINE], limit) && NoneWithin(t, [NEWLINE], limit) && LastWithin(t, [SPACE], limit, cut))
    || (NoneWithin(t, [NEWLINE, NEWLINE], limit) && NoneWithin(t, [NEWLINE], limit) && NoneWithin(t, [SPACE], limit)
        && cut == limit)
  }

  /** The cut is the last paragraph break in 1..limit; without one the last line break; without one
      the last space; and only without any of them is a word broken, at the limit. */
  lemma CutPrefersBreaks(t: Text, limit: nat)
    requires 1 <= limit < |t|
    ensures GoodCut(t, limit, CutOf(t, limit))
  {
    hide OccursAt;
  }

  // ---------------------------------------------------------------- what the chunks are

  /** `text` begins with `chunk`, and is white space from there up to `gap`. */
  ghost predicate StartsWith(text: Text, chunk: Text, gap: nat) {
    |chunk| <= gap <= |text| && text[..|chunk|] == chunk && AllSpace(text[|chunk|..gap])
  }

  /** `text` is the chunks in order, with a gap of white space after each of them. */
  ghost predicate Joins(text: Text, chunks: seq<Text>)
    decreases |chunks|
  {
    if chunks == [] then AllSpace(text)
    else exists gap: nat :: StartsWith(text, chunks[0], gap) && Joins(text[gap..], chunks[1..])
  }

  ghost predicate ChunksFit(chunks: seq<Text>, limit: nat) {
    forall i :: 0 <= i < |chunks| ==> |chunks[i]| <= limit && (i > 0 ==> chunks[i] != [])
  }

  lemma CutJoins(t: Text, cut: nat)
    requires cut <= |t|
    ensures StartsWith(t, TrimEnd(t[..cut]), |t| - |TrimStart(t[cut..])|)
    ensures t[|t| - |TrimStart(t[cut..])|..] == TrimStart(t[cut..])
  {
    hide VisibleEnd, VisibleStart;
    var head, tail := t[..cut], t[cut..];
    var n, m := VisibleEnd(head, cut), VisibleStart(tail, 0);
    assert head[..n] == t[..n] && tail[m..] == t[cut + m..];
    forall i | n <= i < cut + m ensures IsSpace(t[i]) {
      if i < cut { assert t[i] == head[i]; } else { assert t[i] == tail[i - cut]; }
    }
  }

  lemma JoinsCons(t: Text, chunk: Text, gap: nat, chunks: seq<Text>)
    requires StartsWith(t, chunk, gap) && Joins(t[gap..], chunks)
    ensures Joins(t, [chunk] + chunks)
  {
    hide StartsWith, AllSpace;
    assert ([chunk] + chunks)[1..] == chunks;
  }

  lemma {:induction false} SplitJoins(t: Text, limit: nat)
    requires limit >= 1
    ensures Joins(t, Split(t, limit))
    decreases |t|
  {
    hide TrimEnd, TrimStart, CutOf, Joins, StartsWith;
    if |t| > limit {
      var cut := CutOf(t, limit);
      var rest := TrimStart(t[cut..]);
      SplitJoins(rest, limit);
      CutJoins(t, cut);
      JoinsCons(t, TrimEnd(t[..cut]), |t| - |rest|, Split(rest, limit));
    } else {
      WholeJoins(t);
    }
  }

  lemma WholeJoins(t: Text)
    ensures Joins(t, [t]) && (t == [] ==> Joins(t, []))
  {
    assert StartsWith(t, t, |t|);
    assert Joins(t[|t|..], []);
    JoinsCons(t, t, |t|, []);
    assert [t] + [] == [t];
  }

  lemma TrimFacts(s: Text, t: Text)
    ensures s != [] && TrimEnd(s) == [] ==> IsSpace(s[0])
    ensures TrimStart(t) != [] ==> !IsSpace(TrimStart(t)[0])
  {
    hide VisibleEnd, VisibleStart;
  }

  lemma {:induction false} SplitFits(t: Text, limit: nat)
    requires limit >= 1
    ensures forall i :: 0 <= i < |Split(t, limit)| ==> |Split(t, limit)[i]| <= limit
    ensures forall i :: 0 <= i < |Split(t, limit)| && (i > 0 || (t != [] && !IsSpace(t[0]))) ==> Split(t, limit)[i] != []
    decreases |t|
  {
    if |t| > limit {
      var cut := CutOf(t, limit);
      var chunk, rest := TrimEnd(t[..cut]), TrimStart(t[cut..]);
      SplitCuts(t, limit);
      SplitFits(rest, limit);
      TrimFacts(t[..cut], t[cut..]);
      if rest == [] { SplitEnds(rest, limit); }
      hide TrimEnd, TrimStart, CutOf, Split;
      assert t[..cut][0] == t[0];
    } else {
      SplitEnds(t, limit);
    }
  }

  /** For every text and every limit from one up: each chunk fits, only the first can be empty, and
      the text is the chunks joined by white space alone, so no other character is lost, repeated
      or moved. */
  lemma ChunksAreFaithful(text: Text, limit: nat)
    requires limit >= 1
    ensures var chunks := if |text| <= limit then [text] else Split(text, limit);
      ChunksFit(chunks, limit) && Joins(text, chunks)
  {
    if |text| <= limit {
      WholeJoins(text);
    } else {
      SplitJoins(text, limit);
      SplitFits(text, limit);
    }
  }

  /** A chunk made at a good cut: what stands before it without its trailing white space, and the
      next chunk starts at the first visible unit after it. */
  ghost predicate CutFrom(t: Text, limit: nat, chunk: Text, rest: Text, cut: nat) {
    && cut <= |t| && GoodCut(t, limit, cut)
    && |chunk| <= cut && t[..|chunk|] == chunk && AllSpace(t[|chunk|..cut]) && EndsVisible(chunk)
    && |rest| <= |t| - cut && t[|t| - |rest|..] == rest && AllSpace(t[cut..|t| - |rest|]) && StartsVisible(rest)
  }

  /** While the text is too long, the first chunk is what stands before the preferred cut, trimmed,
      and the other chunks are those of the trimmed rest. */
  lemma ChunkEndsAtCut(t: Text, limit: nat) returns (rest: Text, cut: nat)
    requires 1 <= limit < |t|
    ensures |Split(t, limit)| > 0 && CutFrom(t, limit, Split(t, limit)[0], rest, cut)
    ensures |rest| < |t| && StartsVisible(rest) && Split(t, limit)[1..] == Split(rest, limit)
  {
    hide *;
    cut := CutOf(t, limit);
    rest := TrimStart(t[cut..]);
    SplitCuts(t, limit);
    CutPrefersBreaks(t, limit);
    CutInside(t, limit);
    TrimsAround(t, limit, cut);
    RestStarts(t, limit, TrimEnd(t[..cut]), rest, cut);
  }

  lemma CutInside(t: Text, limit: nat)
    requires 1 <= limit < |t|
    ensures 1 <= CutOf(t, limit) <= limit
  {
  }

  lemma RestStarts(t: Text, limit: nat, chunk: Text, rest: Text, cut: nat)
    requires cut > 0 && CutFrom(t, limit, chunk, rest, cut)
    ensures |rest| < |t| && StartsVisible(rest)
  {
  }

  lemma TrimsAround(t: Text, limit: nat, cut: nat)
    requires cut <= |t| && GoodCut(t, limit, cut)
    ensures CutFrom(t, limit, TrimEnd(t[..cut]), TrimStart(t[cut..]), cut)
  {
    var head, tail := t[..cut], t[cut..];
    var chunk, rest := TrimEnd(head), TrimStart(tail);
    assert AllSpace(head[|chunk|..]) && EndsVisible(chunk) && chunk <= head;
    assert AllSpace(tail[..|tail| - |rest|]) && StartsVisible(rest) && tail[|tail| - |rest|..] == rest;
    hide *;
    assert t[|chunk|..cut] == head[|chunk|..];
    assert t[cut..|t| - |rest|] == tail[..|tail| - |rest|];
    assert t[|t| - |rest|..] == tail[|tail| - |rest|..];
    CutFromParts(t, limit, chunk, rest, cut);
  }

  lemma CutFromParts(t: Text, limit: nat, chunk: Text, rest: Text, cut: nat)
    requires cut <= |t| && GoodCut(t, limit, cut)
    requires |chunk| <= cut && t[..|chunk|] == chunk && AllSpace(t[|chunk|..cut]) && EndsVisible(chunk)
    requires |rest| <= |t| - cut && t[|t| - |rest|..] == rest && AllSpace(t[cut..|t| - |rest|]) && StartsVisible(rest)
    ensures CutFrom(t, limit, chunk, rest, cut)
  {
  }

  /** No chunk keeps the white space at a cut: each but the last ends in a visible unit, each but the
      first starts with one, and the last, unless it ends in one too, is the end of the text. */
  lemma {:induction false} ChunksAreTrimmed(t: Text, limit: nat)
    requires limit >= 1
    ensures TrimmedChunks(t, Split(t, limit))
    decreases |t|
  {
    if |t| > limit {
      var rest, cut := ChunkEndsAtCut(t, limit);
      ChunksAreTrimmed(rest, limit);
      StartsAsText(rest, limit);
      hide Split, IsSpace, AllSpace, GoodCut;
      ChunkBefore(t, limit, Split(t, limit), rest, cut);
    } else {
      SplitEnds(t, limit);
    }
  }

  ghost predicate TrimmedChunks(t: Text, chunks: seq<Text>) {
    forall i :: 0 <= i < |chunks| ==>
      && (i > 0 ==> StartsVisible(chunks[i]))
      && (EndsVisible(chunks[i]) || (i == |chunks| - 1 && EndsText(t, chunks[i])))
  }

  predicate EndsText(t: Text, chunk: Text) {
    |chunk| <= |t| && t[|t| - |chunk|..] == chunk
  }

  lemma ChunkBefore(t: Text, limit: nat, chunks: seq<Text>, rest: Text, cut: nat)
    requires chunks != [] && CutFrom(t, limit, chunks[0], rest, cut) && TrimmedChunks(rest, chunks[1..])
    requires chunks[1..] != [] ==> StartsVisible(chunks[1])
    ensures TrimmedChunks(t, chunks)
  {
    var others := chunks[1..];
    assert EndsVisible(chunks[0]);
    hide EndsVisible, StartsVisible, AllSpace, GoodCut;
    forall i | 0 < i < |chunks|
      ensures StartsVisible(chunks[i]) && (EndsVisible(chunks[i]) || (i == |chunks| - 1 && EndsText(t, chunks[i])))
    {
      assert chunks[i] == others[i - 1];
      if EndsText(rest, chunks[i]) { EndOfEnd(t, rest, chunks[i]); }
    }
  }

  lemma EndOfEnd(t: Text, rest: Text, chunk: Text)
    requires EndsText(t, rest) && EndsText(rest, chunk)
    ensures EndsText(t, chunk)
  {
  }

  lemma StartsAsText(t: Text, limit: nat)
    requires limit >= 1 && StartsVisible(t)
    ensures Split(t, limit) != [] ==> StartsVisible(Split(t, limit)[0])
  {
    if |t| > limit { SplitCuts(t, limit); } else { SplitEnds(t, limit); }
    hide Split, CutOf;
  }

  function Visible(t: Text): Text {
    if t == [] then [] else Shown(t[0]) + Visible(t[1..])
  }

  function Shown(u: Unit): Text {
    if IsSpace(u) then [] else [u]
  }

  function Concat(chunks: seq<Text>): Text {
    if chunks == [] then [] else chunks[0] + Concat(chunks[1..])
  }

  lemma VisibleHead(t: Text)
    requires t != []
    ensures Visible(t) == Shown(t[0]) + Visible(t[1..])
  {
  }

  lemma AppendHead(a: Text, b: Text)
    ensures a == [] ==> a + b == b
    ensures a != [] ==> a + b != [] && (a + b)[0] == a[0] && (a + b)[1..] == a[1..] + b
  {
  }

  lemma AppendAssociates(a: Text, b: Text, c: Text)
    ensures a + (b + c) == (a + b) + c
  {
  }

  lemma {:induction false} VisibleAppend(a: Text, b: Text)
    ensures Visible(a + b) == Visible(a) + Visible(b)
  {
    AppendHead(a, b);
    if a == [] {
      AppendHead(Visible(a), Visible(b));
    } else {
      VisibleAppend(a[1..], b);
      VisibleHead(a);
      VisibleHead(a + b);
      AppendAssociates(Shown(a[0]), Visible(a[1..]), Visible(b));
      hide *;
    }
  }

  lemma {:induction false} VisibleSpace(t: Text)
    requires AllSpace(t)
    ensures Visible(t) == []
  {
    if t != [] { VisibleSpace(t[1..]); }
  }

  lemma {:induction false} JoinKeepsVisible(text: Text, chunks: seq<Text>)
    requires Joins(text, chunks)
    ensures Visible(text) == Visible(Concat(chunks))
    decreases |chunks|
  {
    if chunks == [] {
      VisibleSpace(text);
    } else {
      hide Visible;
      var gap: nat :| StartsWith(text, chunks[0], gap) && Joins(text[gap..], chunks[1..]);
      JoinKeepsVisible(text[gap..], chunks[1..]);
      VisibleParts(text, chunks[0], gap);
      VisibleAppend(chunks[0], Concat(chunks[1..]));
    }
  }

  lemma VisibleParts(text: Text, chunk: Text, gap: nat)
    requires StartsWith(text, chunk, gap)
    ensures Visible(text) == Visible(chunk) + Visible(text[gap..])
  {
    hide Visible;
    var space := text[|chunk|..gap];
    assert text == chunk + (space + text[gap..]);
    VisibleAppend(chunk, space + text[gap..]);
    VisibleAppend(space, text[gap..]);
    VisibleSpace(space);
    assert [] + Visible(text[gap..]) == Visible(text[gap..]);
  }

  /** Read without white space, text and chunks are the same. */
  lemma NothingVisibleIsLost(text: Text, limit: nat)
    requires limit >= 1
    ensures Visible(Concat(if |text| <= limit then [text] else Split(text, limit))) == Visible(text)
  {
    ChunksAreFaithful(text, limit);
    JoinKeepsVisible(text, if |text| <= limit then [text] else Split(text, limit));
  }

  /** With a limit of zero the loop body maps a text that starts with a visible character to itself. */
  lemma ZeroLimitMakesNoProgress(t: Text)
    requires t != [] && !IsSpace(t[0])
    ensures LastIndexOf(t, [NEWLINE, NEWLINE], 0) <= 0 && LastIndexOf(t, [NEWLINE], 0) <= 0 && LastIndexOf(t, [SPACE], 0) <= 0
    ensures TrimStart(t[0..]) == t
  {
    assert t[0..] == t;
  }
}
