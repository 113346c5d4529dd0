/** Finding the parenthesis that closes a call (scripts/observability-coverage-lib.ts:630-710):
    an index loop with a depth counter and five flags, against a lexer with one mode. */
module ParenLexer {
  import opened Wrappers

  datatype Mode = Code | LineComment | BlockComment | SingleQuote | DoubleQuote | Template

  /** What keeps a quote from ending its string: a backslash right before it, as the source has it,
      or a backslash that is not itself escaped, as in the language that is scanned. */
  datatype Rule = PreviousChar | Pairs

  /** The lexer between two characters; `skip` means the next one belongs to the previous token. */
  datatype Lexer = Lexer(mode: Mode, skip: bool)

  predicate CharAt(source: string, i: int, c: char) {
    0 <= i < |source| && source[i] == c
  }

  predicate Quoted(mode: Mode) {
    mode.SingleQuote? || mode.DoubleQuote? || mode.Template?
  }

  function QuoteOf(mode: Mode): char
    requires Quoted(mode)
  {
    match mode
    case SingleQuote => '\''
    case DoubleQuote => '\"'
    case Template => '`'
  }

  function AfterQuoted(rule: Rule, source: string, i: nat, mode: Mode): Lexer
    requires i < |source| && Quoted(mode)
  {
    match rule
    case PreviousChar => Lexer(if source[i] == QuoteOf(mode) && !CharAt(source, i - 1, '\\') then Code else mode, false)
    case Pairs =>
      if source[i] == '\\' then Lexer(mode, true)
      else Lexer(if source[i] == QuoteOf(mode) then Code else mode, false)
  }

  function AfterCode(source: string, i: nat): Lexer
    requires i < |source|
  {
    var c := source[i];
    if c == '/' && CharAt(source, i + 1, '/') then Lexer(LineComment, true)
    else if c == '/' && CharAt(source, i + 1, '*') then Lexer(BlockComment, true)
    else if c == '\'' then Lexer(SingleQuote, false)
    else if c == '\"' then Lexer(DoubleQuote, false)
    else if c == '`' then Lexer(Template, false)
    else Lexer(Code, false)
  }

  /** One character of the lexer. */
  function After(rule: Rule, source: string, i: nat, l: Lexer): Lexer
    requires i < |source|
  {
    if l.skip then Lexer(l.mode, false)
    else
      match l.mode
      case Code => AfterCode(source, i)
      case LineComment => Lexer(if source[i] == '\n' then Code else LineComment, false)
      case BlockComment =>
        if source[i] == '*' && CharAt(source, i + 1, '/') then Lexer(Code, true) else Lexer(BlockComment, false)
      case _ => AfterQuoted(rule, source, i, l.mode)
  }

  /** The lexer before position i, started in code at `start`. */
  function Before(rule: Rule, source: string, start: nat, i: nat): Lexer
    requires start <= i <= |source|
    decreases i
  {
    if i == start then Lexer(Code, false) else After(rule, source, i - 1, Before(rule, source, start, i - 1))
  }

  predicate CodeChar(rule: Rule, source: string, start: nat, i: nat, c: char)
    requires start <= i < |source|
  {
    Before(rule, source, start, i) == Lexer(Code, false) && source[i] == c
  }

  /** Opening minus closing parentheses of code in [start, i). */
  function Depth(rule: Rule, source: string, start: nat, i: nat): int
    requires start <= i <= |source|
    decreases i
  {
    if i == start then 0
    else
      Depth(rule, source, start, i - 1)
      + if CodeChar(rule, source, start, i - 1, '(') then 1 else if CodeChar(rule, source, start, i - 1, ')') then -1 else 0
  }

  /** A closing parenthesis of code at i brings the depth back to zero. */
  predicate Closes(rule: Rule, source: string, start: nat, i: nat)
    requires start <= i < |source|
  {
    CodeChar(rule, source, start, i, ')') && Depth(rule, source, start, i + 1) == 0
  }

  ghost predicate NoneCloses(rule: Rule, source: string, start: nat, end: nat)
    requires start <= end <= |source|
  {
    forall i :: start <= i < end ==> !Closes(rule, source, start, i)
  }

  /** r is the first closing position, or -1 when there is none. */
  ghost predicate Finds(rule: Rule, source: string, start: nat, r: int)
    requires start <= |source|
  {
    if r == -1 then NoneCloses(rule, source, start, |source|)
    else start <= r < |source| && Closes(rule, source, start, r) && NoneCloses(rule, source, start, r)
  }

  // ---------------------------------------------------------------- where the two rules part

  /** The character at i is escaped: a backslash that is not escaped itself stands before it. */
  predicate Escaped(source: string, i: nat)
    requires i <= |source|
  {
    i > 0 && source[i - 1] == '\\' && !Escaped(source, i - 1)
  }

  /** How many backslashes end right before i. */
  function Run(source: string, i: nat): nat
    requires i <= |source|
  {
    if i == 0 || source[i - 1] != '\\' then 0 else Run(source, i - 1) + 1
  }

  lemma {:induction false} EscapedIffOddRun(source: string, i: nat)
    requires i <= |source|
    ensures Escaped(source, i) <==> Run(source, i) % 2 == 1
  {
    if i > 0 { EscapedIffOddRun(source, i - 1); }
  }

  /** A quote right after a backslash that is itself escaped: after a nonempty, even run of them. */
  predicate AfterEscapedBackslash(source: string, i: nat)
    requires i < |source|
  {
    CharAt(source, i - 1, '\\') && !Escaped(source, i)
  }

  lemma AfterEscapedBackslashIsEvenRun(source: string, i: nat)
    requires i < |source|
    ensures AfterEscapedBackslash(source, i) <==> Run(source, i) >= 2 && Run(source, i) % 2 == 0
  {
    EscapedIffOddRun(source, i);
  }

  /** A string that really ends at i ends right after an escaped backslash. */
  predicate EndsAfterEscape(source: string, start: nat, i: nat)
    requires start <= i < |source|
  {
    var mode := Before(Pairs, source, start, i).mode;
    Quoted(mode) && source[i] == QuoteOf(mode) && AfterEscapedBackslash(source, i)
  }

  ghost predicate NoEscapedEnd(source: string, start: nat, end: nat)
    requires start <= end <= |source|
  {
    forall i :: start <= i < end ==> !EndsAfterEscape(source, start, i)
  }

  ghost predicate SameModes(source: string, start: nat, end: nat)
    requires start <= end <= |source|
  {
    forall i :: start <= i <= end ==> Before(PreviousChar, source, start, i).mode == Before(Pairs, source, start, i).mode
  }

  /** In step: one mode, and only inside a string may the second lexer be in the middle of a pair,
      which is where the next character is escaped. */
  ghost predicate InStep(source: string, i: nat, p: Lexer, q: Lexer)
    requires i <= |source|
  {
    && p.mode == q.mode
    && (if Quoted(p.mode) then !p.skip && (q.skip <==> Escaped(source, i)) else p.skip == q.skip)
  }

  lemma StepInString(source: string, i: nat, p: Lexer, q: Lexer)
    requires i < |source| && InStep(source, i, p, q) && Quoted(p.mode)
    ensures var p', q' := After(PreviousChar, source, i, p), After(Pairs, source, i, q);
      if source[i] == QuoteOf(q.mode) && AfterEscapedBackslash(source, i)
      then p'.mode != q'.mode else InStep(source, i + 1, p', q')
  {
    assert Escaped(source, i) ==> CharAt(source, i - 1, '\\');
    assert Escaped(source, i + 1) <==> source[i] == '\\' && !Escaped(source, i);
    hide Escaped, CharAt;
  }

  lemma StepOutside(source: string, i: nat, l: Lexer)
    requires i < |source| && !Quoted(l.mode)
    ensures After(PreviousChar, source, i, l) == After(Pairs, source, i, l)
    ensures InStep(source, i + 1, After(Pairs, source, i, l), After(Pairs, source, i, l))
  {
    assert Escaped(source, i + 1) ==> source[i] == '\\';
    hide Escaped, CharAt;
  }

  lemma StepTogether(source: string, i: nat, p: Lexer, q: Lexer)
    requires i < |source| && InStep(source, i, p, q)
    ensures var p', q' := After(PreviousChar, source, i, p), After(Pairs, source, i, q);
      if Quoted(q.mode) && source[i] == QuoteOf(q.mode) && AfterEscapedBackslash(source, i)
      then p'.mode != q'.mode else InStep(source, i + 1, p', q')
  {
    if Quoted(p.mode) {
      StepInString(source, i, p, q);
    } else {
      StepOutside(source, i, p);
    }
    hide After, AfterEscapedBackslash;
  }

  /** Main result: the source's rule and the pairing rule agree on the mode at every position up to
      n exactly when no string before n ends right after an escaped backslash. */
  lemma {:induction false} LexersAgreeIff(source: string, start: nat, n: nat)
    requires start <= n <= |source|
    ensures SameModes(source, start, n) <==> NoEscapedEnd(source, start, n)
    ensures NoEscapedEnd(source, start, n) ==>
      InStep(source, n, Before(PreviousChar, source, start, n), Before(Pairs, source, start, n))
    decreases n
  {
    if n > start {
      LexersAgreeIff(source, start, n - 1);
      var p, q := Before(PreviousChar, source, start, n - 1), Before(Pairs, source, start, n - 1);
      assert NoEscapedEnd(source, start, n) <==> NoEscapedEnd(source, start, n - 1) && !EndsAfterEscape(source, start, n - 1);
      assert SameModes(source, start, n) <==>
        SameModes(source, start, n - 1) &&
        Before(PreviousChar, source, start, n).mode == Before(Pairs, source, start, n).mode;
      if NoEscapedEnd(source, start, n - 1) {
        StepTogether(source, n - 1, p, q);
        hide After, InStep;
      }
    }
  }

  /** In step, both rules see the same characters as code. */
  lemma SameCode(source: string, start: nat, i: nat, c: char)
    requires start <= i < |source| && NoEscapedEnd(source, start, i)
    ensures CodeChar(PreviousChar, source, start, i, c) <==> CodeChar(Pairs, source, start, i, c)
  {
    LexersAgreeIff(source, start, i);
    hide Before, Escaped;
  }

  lemma {:induction false} SameDepth(source: string, start: nat, i: nat)
    requires start <= i <= |source| && NoEscapedEnd(source, start, i)
    ensures Depth(PreviousChar, source, start, i) == Depth(Pairs, source, start, i)
    decreases i
  {
    if i > start {
      assert NoEscapedEnd(source, start, i - 1);
      SameDepth(source, start, i - 1);
      SameCode(source, start, i - 1, '(');
      SameCode(source, start, i - 1, ')');
      hide CodeChar, NoEscapedEnd;
    }
  }

  lemma SameCloses(source: string, start: nat, i: nat)
    requires start <= i < |source| && NoEscapedEnd(source, start, i)
    ensures Closes(PreviousChar, source, start, i) <==> Closes(Pairs, source, start, i)
  {
    SameCode(source, start, i, ')');
    if CodeChar(Pairs, source, start, i, ')') {
      assert NoEscapedEnd(source, start, i + 1);
      SameDepth(source, start, i + 1);
    }
    hide Depth, CodeChar, NoEscapedEnd;
  }

  /** Up to where the search stops: what it returns, or the end of the text. */
  function Stop(source: string, r: int): (end: nat)
    requires r < |source|
    ensures end <= |source|
  {
    if r < 0 then |source| else r
  }

  /** The search's answer is the right one when no string ends after an escaped backslash up to
      where it stops; and so is the right answer what the search returns. */
  lemma SearchIsRight(source: string, start: nat, r: int)
    requires start <= |source| && -1 <= r < |source|
    requires r == -1 || start <= r
    requires NoEscapedEnd(source, start, Stop(source, r))
    ensures Finds(PreviousChar, source, start, r) <==> Finds(Pairs, source, start, r)
  {
    var end := Stop(source, r);
    forall i | start <= i < end
      ensures Closes(PreviousChar, source, start, i) <==> Closes(Pairs, source, start, i)
    {
      assert NoEscapedEnd(source, start, i);
      SameCloses(source, start, i);
    }
    if r >= 0 { SameCloses(source, start, r); }
    hide Closes, NoEscapedEnd;
  }

  // ---------------------------------------------------------------- the loop

  /** The five flags as one mode. */
  function ModeOf(single: bool, double: bool, template: bool, line: bool, block: bool): Mode {
    if line then LineComment else if block then BlockComment else if single then SingleQuote
    else if double then DoubleQuote else if template then Template else Code
  }

  function Count(b: bool): nat {
    if b then 1 else 0
  }

  /** What the search knows at an index: the mode, the depth, and that nothing closed before. */
  ghost predicate At(source: string, start: nat, index: nat, mode: Mode, depth: int)
    requires start <= |source|
  {
    && start <= index <= |source|
    && Before(PreviousChar, source, start, index) == Lexer(mode, false)
    && Depth(PreviousChar, source, start, index) == depth
    && NoneCloses(PreviousChar, source, start, index)
  }

  /** One character, or the two of a comment's delimiter. */
  lemma Pass(source: string, start: nat, index: nat, mode: Mode, depth: int)
    requires start <= |source| && At(source, start, index, mode, depth) && index < |source|
    ensures var l := After(PreviousChar, source, index, Lexer(mode, false));
      var c := source[index];
      var depth' := if mode.Code? && c == '(' then depth + 1 else if mode.Code? && c == ')' then depth - 1 else depth;
      if mode.Code? && c == ')' && depth' == 0 then Finds(PreviousChar, source, start, index)
      else if l.skip then index + 2 <= |source| && At(source, start, index + 2, l.mode, depth')
      else At(source, start, index + 1, l.mode, depth')
  {
    assert NoneCloses(PreviousChar, source, start, index + 1) <==> !Closes(PreviousChar, source, start, index);
    if After(PreviousChar, source, index, Lexer(mode, false)).skip {
      assert !CodeChar(PreviousChar, source, start, index + 1, ')');
      assert !Closes(PreviousChar, source, start, index + 1);
    }
  }

  /** The first closing position under the source's rule, or -1 when there is none; the right one
      when no string ends after an escaped backslash before it; and at most one flag is ever set. */
  method FindMatchingParenIndex(source: string, openParenIndex: nat) returns (r: int)
    requires openParenIndex <= |source|
    ensures r == -1 || openParenIndex <= r < |source|
    ensures Finds(PreviousChar, source, openParenIndex, r)
    ensures NoEscapedEnd(source, openParenIndex, Stop(source, r)) ==> Finds(Pairs, source, openParenIndex, r)
  {
    Begin(source, openParenIndex);
    hide At, Finds, NoEscapedEnd;
    var depth := 0;
    var inSingleQuote, inDoubleQuote, inTemplateString, inLineComment, inBlockComment := false, false, false, false, false;
    var index := openParenIndex;
    while index < |source|
      invariant Count(inSingleQuote) + Count(inDoubleQuote) + Count(inTemplateString) + Count(inLineComment)
              + Count(inBlockComment) <= 1
      invariant index <= |source|
      invariant At(source, openParenIndex, index,
                   ModeOf(inSingleQuote, inDoubleQuote, inTemplateString, inLineComment, inBlockComment), depth)
    {
      Pass(source, openParenIndex, index,
           ModeOf(inSingleQuote, inDoubleQuote, inTemplateString, inLineComment, inBlockComment), depth);
      var current := source[index];
      if inLineComment {
        if current == '\n' { inLineComment := false; }
        index := index + 1;
        continue;
      }
      if inBlockComment {
        if current == '*' && index + 1 < |source| && source[index + 1] == '/' {
          inBlockComment := false;
          index := index + 1;
        }
        index := index + 1;
        continue;
      }
      var escaped := index > 0 && source[index - 1] == '\\';
      if inSingleQuote {
        if current == '\'' && !escaped { inSingleQuote := false; }
        index := index + 1;
        continue;
      }
      if inDoubleQuote {
        if current == '\"' && !escaped { inDoubleQuote := false; }
        index := index + 1;
        continue;
      }
      if inTemplateString {
        if current == '`' && !escaped { inTemplateString := false; }
        index := index + 1;
        continue;
      }
      if current == '/' && index + 1 < |source| && source[index + 1] == '/' {
        inLineComment := true;
        index := index + 2;
        continue;
      }
      if current == '/' && index + 1 < |source| && source[index + 1] == '*' {
        inBlockComment := true;
        index := index + 2;
        continue;
      }
      if current == '\'' {
        inSingleQuote := true;
      } else if current == '\"' {
        inDoubleQuote := true;
      } else if current == '`' {
        inTemplateString := true;
      } else if current == '(' {
        depth := depth + 1;
      } else if current == ')' {
        depth := depth - 1;
        if depth == 0 {
          Found(source, openParenIndex, index);
          return index;
        }
      }
      index := index + 1;
    }
    Exhausted(source, openParenIndex, index,
              ModeOf(inSingleQuote, inDoubleQuote, inTemplateString, inLineComment, inBlockComment), depth);
    r := -1;
  }

  lemma Begin(source: string, start: nat)
    requires start <= |source|
    ensures At(source, start, start, Code, 0)
  {
  }

  lemma Found(source: string, start: nat, index: nat)
    requires start <= |source| && index < |source| && Finds(PreviousChar, source, start, index)
    ensures start <= index
    ensures NoEscapedEnd(source, start, Stop(source, index)) ==> Finds(Pairs, source, start, index)
  {
    if NoEscapedEnd(source, start, Stop(source, index)) { SearchIsRight(source, start, index); }
  }

  lemma Exhausted(source: string, start: nat, index: nat, mode: Mode, depth: int)
    requires start <= |source| == index && At(source, start, index, mode, depth)
    ensures Finds(PreviousChar, source, start, -1)
    ensures NoEscapedEnd(source, start, |source|) ==> Finds(Pairs, source, start, -1)
  {
    if NoEscapedEnd(source, start, |source|) && |source| > 0 { SearchIsRight(source, start, -1); }
  }

  /** From an opening parenthesis the depth stays positive until something closes. */
  lemma {:induction false} PositiveUntilClosed(rule: Rule, source: string, start: nat, i: nat)
    requires start < i <= |source| && source[start] == '(' && NoneCloses(rule, source, start, i)
    ensures Depth(rule, source, start, i) >= 1
    decreases i
  {
    if i > start + 1 {
      PositiveUntilClosed(rule, source, start, i - 1);
      assert !Closes(rule, source, start, i - 1);
    }
  }

  /** Started on an opening parenthesis, the search returns the one position where the code depth
      first returns to zero, with every shorter prefix positive; -1 means the depth never does. */
  lemma MatchIsFirstReturnToZero(rule: Rule, source: string, start: nat, r: int)
    requires start < |source| && source[start] == '(' && Finds(rule, source, start, r)
    ensures r >= 0 ==>
      start < r && Depth(rule, source, start, r + 1) == 0 && (forall i :: start < i <= r ==> Depth(rule, source, start, i) > 0)
    ensures r == -1 ==> forall i :: start < i <= |source| ==> Depth(rule, source, start, i) > 0
  {
    var end := if r == -1 then |source| else r;
    assert !Closes(rule, source, start, start);
    forall i | start < i <= end ensures Depth(rule, source, start, i) > 0 {
      PositiveUntilClosed(rule, source, start, i);
    }
  }

  // ---------------------------------------------------------------- and where the search goes wrong

  /** The lexer before i has seen the characters up to i and no others. */
  lemma {:induction false} BeforeSeesPrefix(rule: Rule, s: string, t: string, start: nat, i: nat)
    requires start <= i < |s| && i < |t| && forall j :: 0 <= j <= i ==> s[j] == t[j]
    ensures Before(rule, s, start, i) == Before(rule, t, start, i)
    decreases i
  {
    if i > start { BeforeSeesPrefix(rule, s, t, start, i - 1); }
  }

  lemma {:induction false} EscapedSeesPrefix(s: string, t: string, i: nat)
    requires i <= |s| && i <= |t| && forall j :: 0 <= j < i ==> s[j] == t[j]
    ensures Escaped(s, i) == Escaped(t, i)
  {
    if i > 0 { EscapedSeesPrefix(s, t, i - 1); }
  }

  lemma SamePrefixSameEnds(s: string, t: string, start: nat, n: nat)
    requires start <= n <= |s| && n <= |t| && forall j :: 0 <= j < n ==> s[j] == t[j]
    ensures NoEscapedEnd(s, start, n) <==> NoEscapedEnd(t, start, n)
    ensures forall i :: start <= i < n ==> Before(PreviousChar, s, start, i) == Before(PreviousChar, t, start, i)
    ensures forall i :: start <= i < n ==> Before(Pairs, s, start, i) == Before(Pairs, t, start, i)
    ensures forall i :: start <= i < n ==> EndsAfterEscape(s, start, i) == EndsAfterEscape(t, start, i)
  {
    forall i | start <= i < n
      ensures Before(PreviousChar, s, start, i) == Before(PreviousChar, t, start, i)
      ensures Before(Pairs, s, start, i) == Before(Pairs, t, start, i)
      ensures EndsAfterEscape(s, start, i) == EndsAfterEscape(t, start, i)
    {
      BeforeSeesPrefix(PreviousChar, s, t, start, i);
      BeforeSeesPrefix(Pairs, s, t, start, i);
      EscapedSeesPrefix(s, t, i);
    }
    hide EndsAfterEscape;
  }

  lemma {:induction false} DepthSeesPrefix(rule: Rule, s: string, t: string, start: nat, i: nat)
    requires start <= i <= |s| && i <= |t|
    requires forall j :: start <= j < i ==> Before(rule, s, start, j) == Before(rule, t, start, j) && s[j] == t[j]
    ensures Depth(rule, s, start, i) == Depth(rule, t, start, i)
    decreases i
  {
    hide Before;
    if i > start { DepthSeesPrefix(rule, s, t, start, i - 1); }
  }

  lemma NoneClosesSeesPrefix(rule: Rule, s: string, t: string, start: nat, i: nat)
    requires start <= i <= |s| && i <= |t|
    requires forall j :: start <= j < i ==> Before(rule, s, start, j) == Before(rule, t, start, j) && s[j] == t[j]
    ensures NoneCloses(rule, s, start, i) <==> NoneCloses(rule, t, start, i)
  {
    hide Before;
    forall j | start <= j < i ensures Closes(rule, s, start, j) <==> Closes(rule, t, start, j) {
      DepthSeesPrefix(rule, s, t, start, j + 1);
      hide Depth;
    }
    hide Closes;
  }

  function Closers(k: nat): string {
    seq(k, _ => ')')
  }

  /** Inside a string, closing parentheses change nothing. */
  lemma {:induction false} StuckInString(t: string, start: nat, from: nat, i: nat)
    requires start <= from <= i <= |t| && Quoted(Before(PreviousChar, t, start, from).mode)
    requires !Before(PreviousChar, t, start, from).skip && forall j :: from <= j < i ==> t[j] == ')'
    ensures Before(PreviousChar, t, start, i) == Before(PreviousChar, t, start, from)
    decreases i
  {
    if i > from {
      StuckInString(t, start, from, i - 1);
      assert After(PreviousChar, t, i - 1, Before(PreviousChar, t, start, i - 1)) == Before(PreviousChar, t, start, i - 1);
    }
  }

  /** In code, each of them closes one level. */
  lemma {:induction false} ClosingDown(t: string, start: nat, from: nat, i: nat)
    requires start <= from <= i <= |t| && Before(Pairs, t, start, from) == Lexer(Code, false)
    requires forall j :: from <= j < i ==> t[j] == ')'
    ensures Before(Pairs, t, start, i) == Lexer(Code, false)
    ensures Depth(Pairs, t, start, i) == Depth(Pairs, t, start, from) - (i - from)
    decreases i
  {
    if i > from { ClosingDown(t, start, from, i - 1); }
  }

  /** The text up to a string's end at i, then enough closing parentheses to close the call. */
  function Closed(source: string, start: nat, i: nat): string
    requires start <= i < |source|
  {
    var d := Depth(Pairs, source, start, i);
    source[..i + 1] + Closers(if d > 0 then d else 0)
  }

  lemma ClosedKeepsPrefix(source: string, start: nat, i: nat, t: string)
    requires start <= i < |source| && i < |t| && forall j :: 0 <= j <= i ==> t[j] == source[j]
    ensures EndsAfterEscape(source, start, i) <==> EndsAfterEscape(t, start, i)
    ensures NoEscapedEnd(source, start, i) <==> NoEscapedEnd(t, start, i)
    ensures Depth(Pairs, source, start, i) == Depth(Pairs, t, start, i)
    ensures NoneCloses(Pairs, source, start, i) <==> NoneCloses(Pairs, t, start, i)
  {
    hide Before, EndsAfterEscape;
    SamePrefixSameEnds(source, t, start, i + 1);
    SamePrefixSameEnds(source, t, start, i);
    DepthSeesPrefix(Pairs, source, t, start, i);
    NoneClosesSeesPrefix(Pairs, source, t, start, i);
  }

  /** The right search closes the call there at the last character; the source's never does. */
  lemma ClosedIsMissed(source: string, start: nat, i: nat)
    requires start <= i < |source| && source[start] == '('
    requires EndsAfterEscape(source, start, i) && NoEscapedEnd(source, start, i) && NoneCloses(Pairs, source, start, i)
    ensures var t := Closed(source, start, i);
      |t| > i + 1 && t[..i + 1] == source[..i + 1] &&
      Finds(Pairs, t, start, |t| - 1) && Finds(PreviousChar, t, start, -1)
  {
    assert Before(Pairs, source, start, start).mode.Code?;
    PositiveUntilClosed(Pairs, source, start, i);
    hide Before, EndsAfterEscape, NoEscapedEnd, NoneCloses, Finds, Depth, CodeChar;
    var d, t := Depth(Pairs, source, start, i), Closed(source, start, i);
    ClosedKeepsPrefix(source, start, i, t);
    PartsAt(t, start, i);
    RightSideCloses(t, start, i, d);
    SourceSideMisses(t, start, i);
  }

  lemma PartsAt(t: string, start: nat, i: nat)
    requires start <= i < |t| && EndsAfterEscape(t, start, i) && NoEscapedEnd(t, start, i)
    ensures Before(Pairs, t, start, i + 1) == Lexer(Code, false)
    ensures !CodeChar(Pairs, t, start, i, ')') && !CodeChar(Pairs, t, start, i, '(')
    ensures Quoted(Before(PreviousChar, t, start, i).mode) && !Before(PreviousChar, t, start, i).skip
    ensures Before(PreviousChar, t, start, i + 1) == Before(PreviousChar, t, start, i)
  {
    LexersAgreeIff(t, start, i);
  }

  lemma RightSideCloses(t: string, start: nat, i: nat, d: int)
    requires start < i < |t| && |t| == i + 1 + d && d >= 1 && forall j :: i < j < |t| ==> t[j] == ')'
    requires Before(Pairs, t, start, i + 1) == Lexer(Code, false) && Depth(Pairs, t, start, i) == d
    requires !CodeChar(Pairs, t, start, i, ')') && !CodeChar(Pairs, t, start, i, '(')
    requires NoneCloses(Pairs, t, start, i)
    ensures Finds(Pairs, t, start, |t| - 1)
  {
    assert Depth(Pairs, t, start, i + 1) == d;
    forall j | i < j <= |t|
      ensures Before(Pairs, t, start, j) == Lexer(Code, false) && Depth(Pairs, t, start, j) == d - (j - i - 1)
    {
      ClosingDown(t, start, i + 1, j);
    }
    hide Depth, Before;
  }

  lemma SourceSideMisses(t: string, start: nat, i: nat)
    requires start < i < |t| && forall j :: i < j < |t| ==> t[j] == ')'
    requires NoEscapedEnd(t, start, i) && NoneCloses(Pairs, t, start, i)
    requires Quoted(Before(PreviousChar, t, start, i).mode) && !Before(PreviousChar, t, start, i).skip
    requires Before(PreviousChar, t, start, i + 1) == Before(PreviousChar, t, start, i)
    ensures Finds(PreviousChar, t, start, -1)
  {
    forall j | start <= j < |t| ensures !Closes(PreviousChar, t, start, j) {
      if j < i {
        assert NoEscapedEnd(t, start, j);
        SameCloses(t, start, j);
      } else if j > i {
        StuckInString(t, start, i + 1, j);
      }
      hide Depth, Before;
    }
  }

  /** The search gives the right answer for a text, found or not. */
  ghost predicate RightOn(t: string, start: nat)
    requires start <= |t|
  {
    forall r :: Finds(PreviousChar, t, start, r) <==> Finds(Pairs, t, start, r)
  }

  lemma PrefixIsRight(source: string, start: nat, n: nat, m: nat, k: nat)
    requires start < m <= n <= |source| && NoEscapedEnd(source, start, n)
    ensures RightOn(source[..m] + Closers(k), start)
  {
    var t := source[..m] + Closers(k);
    assert NoEscapedEnd(source, start, m);
    assert forall j :: 0 <= j < m ==> t[j] == source[j];
    SamePrefixSameEnds(source, t, start, m);
    assert forall j :: m <= j < |t| ==> t[j] == ')';
    assert NoEscapedEnd(t, start, |t|) by {
      forall j | start <= j < |t| ensures !EndsAfterEscape(t, start, j) {
        hide Before, AfterEscapedBackslash;
        assert j < m ==> EndsAfterEscape(source, start, j) == EndsAfterEscape(t, start, j);
      }
    }
    forall r ensures Finds(PreviousChar, t, start, r) <==> Finds(Pairs, t, start, r) {
      if -1 <= r < |t| && (r == -1 || start <= r) {
        assert NoEscapedEnd(t, start, Stop(t, r));
        SearchIsRight(t, start, r);
      }
      hide NoEscapedEnd, Closes;
    }
  }

  lemma {:induction false} FirstEscapedEnd(source: string, start: nat, n: nat) returns (i: nat)
    requires start <= n <= |source| && !NoEscapedEnd(source, start, n)
    ensures start <= i < n && EndsAfterEscape(source, start, i) && NoEscapedEnd(source, start, i)
    decreases n
  {
    hide EndsAfterEscape;
    if NoEscapedEnd(source, start, n - 1) { i := n - 1; } else { i := FirstEscapedEnd(source, start, n - 1); }
  }

  /** Main result, for a call the right search has not closed before n: the source's search is right
      however many closing parentheses follow whichever part of the text up to n, exactly when no
      string before n ends right after an escaped backslash. */
  lemma SearchIsRightIff(source: string, start: nat, n: nat)
    requires start < n <= |source| && source[start] == '(' && NoneCloses(Pairs, source, start, n)
    ensures (forall m: nat, k: nat :: start < m <= n ==> RightOn(source[..m] + Closers(k), start))
      <==> NoEscapedEnd(source, start, n)
  {
    if NoEscapedEnd(source, start, n) {
      forall m: nat, k: nat | start < m <= n ensures RightOn(source[..m] + Closers(k), start) {
        PrefixIsRight(source, start, n, m, k);
      }
    } else {
      var i := FirstEscapedEnd(source, start, n);
      assert NoneCloses(Pairs, source, start, i);
      ClosedIsMissed(source, start, i);
      var t := Closed(source, start, i);
      var k: nat := |t| - i - 1;
      assert t == source[..i + 1] + Closers(k);
      assert !RightOn(t, start) by {
        assert Finds(PreviousChar, t, start, -1) && !Finds(Pairs, t, start, -1);
      }
    }
  }

  /** The shortest such call: `('\\')` is closed at its last character, and the search misses it. */
  lemma EscapedBackslashHidesTheClose()
    ensures var s := "('\\\\')";
      EndsAfterEscape(s, 0, 4) && Finds(Pairs, s, 0, 5) && Finds(PreviousChar, s, 0, -1)
  {
    var s := "('\\\\')";
    assert Before(Pairs, s, 0, 2) == Lexer(SingleQuote, false);
    assert Before(Pairs, s, 0, 4) == Lexer(SingleQuote, false);
    assert !Escaped(s, 2);
    assert NoEscapedEnd(s, 0, 4) && NoneCloses(Pairs, s, 0, 4);
    assert Depth(Pairs, s, 0, 2) == 1;
    assert Depth(Pairs, s, 0, 4) == 1;
    assert s == s[..5] + Closers(1);
    ClosedIsMissed(s, 0, 4);
  }

  // ---------------------------------------------------------------- what the lexer skips

  predicate InCode(rule: Rule, source: string, start: nat, i: nat) {
    start <= i < |source| && Before(rule, source, start, i) == Lexer(Code, false)
  }

  /** From i to e the lexer is inside, and it was not before. */
  ghost predicate Within(rule: Rule, source: string, start: nat, i: nat, e: nat, mode: Mode) {
    start <= i <= e <= |source| && forall j :: i < j <= e ==> Before(rule, source, start, j).mode == mode
  }

  predicate PairAt(source: string, i: nat, c: char, d: char) {
    i + 1 < |source| && source[i] == c && source[i + 1] == d
  }

  /** A line comment runs to the next newline, and is all of the rest if there is none. */
  lemma {:induction false} LineCommentRunsToNewline(rule: Rule, source: string, start: nat, i: nat, e: nat)
    requires InCode(rule, source, start, i) && PairAt(source, i, '/', '/') && i + 2 <= e <= |source|
    requires forall j :: i + 2 <= j < e ==> source[j] != '\n'
    ensures Within(rule, source, start, i, e, LineComment)
    ensures e < |source| && source[e] == '\n' ==> Before(rule, source, start, e + 1) == Lexer(Code, false)
    ensures Before(rule, source, start, e) == Lexer(LineComment, false)
    decreases e
  {
    if e > i + 2 { LineCommentRunsToNewline(rule, source, start, i, e - 1); }
    assert Before(rule, source, start, i + 1) == Lexer(LineComment, true);
  }

  /** A block comment runs to the next closing pair; the asterisk that opens it does not close it. */
  lemma {:induction false} BlockCommentRunsToClose(rule: Rule, source: string, start: nat, i: nat, e: nat)
    requires InCode(rule, source, start, i) && PairAt(source, i, '/', '*') && i + 2 <= e <= |source|
    requires forall j :: i + 2 <= j < e ==> !PairAt(source, j, '*', '/')
    ensures Within(rule, source, start, i, e, BlockComment)
    ensures PairAt(source, e, '*', '/') ==> Before(rule, source, start, e + 2) == Lexer(Code, false)
    ensures Before(rule, source, start, e) == Lexer(BlockComment, false)
    decreases e
  {
    if e > i + 2 {
      BlockCommentRunsToClose(rule, source, start, i, e - 1);
      assert !PairAt(source, e - 1, '*', '/');
    }
    assert Before(rule, source, start, i + 1) == Lexer(BlockComment, true);
    if PairAt(source, e, '*', '/') { assert Before(rule, source, start, e + 1) == Lexer(Code, true); }
  }

  function OpenedBy(c: char): Option<Mode> {
    if c == '\'' then Some(SingleQuote) else if c == '\"' then Some(DoubleQuote) else if c == '`' then Some(Template) else None
  }

  /** A string runs to the next quote of its own kind that has no backslash right before it. */
  lemma {:induction false} StringRunsToQuote(source: string, start: nat, i: nat, e: nat)
    requires InCode(PreviousChar, source, start, i) && OpenedBy(source[i]).Some? && i < e <= |source|
    requires forall j :: i < j < e ==> source[j] != source[i] || source[j - 1] == '\\'
    ensures Within(PreviousChar, source, start, i, e, OpenedBy(source[i]).value)
    ensures Before(PreviousChar, source, start, e) == Lexer(OpenedBy(source[i]).value, false)
    ensures e < |source| && source[e] == source[i] && source[e - 1] != '\\' ==>
      Before(PreviousChar, source, start, e + 1) == Lexer(Code, false)
    decreases e
  {
    if e > i + 1 {
      StringRunsToQuote(source, start, i, e - 1);
      assert source[e - 1] != source[i] || source[e - 2] == '\\';
    }
  }

  /** Every other character of code leaves the lexer in code. */
  lemma PlainStaysCode(rule: Rule, source: string, start: nat, i: nat)
    requires InCode(rule, source, start, i) && OpenedBy(source[i]).None?
    requires !PairAt(source, i, '/', '/') && !PairAt(source, i, '/', '*')
    ensures Before(rule, source, start, i + 1) == Lexer(Code, false)
  {
  }
}
