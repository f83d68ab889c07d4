/**
 * The scanner of src/scanner.rs as pure functions over a grapheme sequence:
 * one dispatch step (`scan_token`), the whole pass (`scan_tokens`) and the
 * properties of the token list it produces. The class in scanner.dfy is
 * proved to compute exactly these functions.
 */
module Scanning {
  import opened Wrappers
  import opened Tokens

  /** The source text, already segmented into extended grapheme clusters. */
  type Source = seq<Grapheme>

  /** The scanner's mutable state between two dispatch steps. The token start
      offset is omitted: between steps it always equals `current`. */
  datatype ScanState = ScanState(current: nat, line: nat, tokens: seq<AnnotatedToken>, hasError: bool)

  /** The state of a freshly constructed scanner. */
  const Initial: ScanState := ScanState(0, 1, [], false)

  /** One grapheme of lookahead: None past the end of the source. */
  function PeekAt(src: Source, i: nat): (g: Option<Grapheme>)
    ensures g.Some? <==> i < |src|
    ensures g.Some? ==> g.value == src[i]
  {
    if i < |src| then Some(src[i]) else None
  }

  /** The text of a span of graphemes. */
  function Concat(gs: seq<Grapheme>): string {
    if gs == [] then "" else gs[0] + Concat(gs[1..])
  }

  lemma {:induction false} ConcatAppend(a: seq<Grapheme>, b: seq<Grapheme>)
    ensures Concat(a + b) == Concat(a) + Concat(b)
  {
    if a == [] {
      assert a + b == b;
    } else {
      assert (a + b)[1..] == a[1..] + b;
      ConcatAppend(a[1..], b);
    }
  }

  /** The number of "\n" graphemes among src[i..j]. */
  function Newlines(src: Source, i: nat, j: nat): nat
    requires i <= j <= |src|
    decreases j - i
  {
    if i == j then 0 else Newlines(src, i, j - 1) + (if IsNewline(src[j - 1]) then 1 else 0)
  }

  lemma {:induction false} NewlinesSplit(src: Source, i: nat, j: nat, k: nat)
    requires i <= j <= k <= |src|
    ensures Newlines(src, i, k) == Newlines(src, i, j) + Newlines(src, j, k)
    decreases k - j
  {
    if j < k {
      NewlinesSplit(src, i, j, k - 1);
    }
  }

  lemma {:induction false} NoNewlines(src: Source, i: nat, j: nat)
    requires i <= j <= |src|
    requires forall k :: i <= k < j ==> !IsNewline(src[k])
    ensures Newlines(src, i, j) == 0
    decreases j - i
  {
    if i < j {
      NoNewlines(src, i, j - 1);
    }
  }

  predicate NotNewline(g: Grapheme) {
    !IsNewline(g)
  }

  predicate NotQuote(g: Grapheme) {
    !IsChar(g, '"')
  }

  /** The end of the longest run of graphemes satisfying `p` that starts at
      `i`: the loop `while let Some(g) = self.peek() { if !p(g) break; advance }`. */
  function RunEnd(src: Source, i: nat, p: Grapheme -> bool): (j: nat)
    requires i <= |src|
    ensures i <= j <= |src|
    ensures forall k :: i <= k < j ==> p(src[k])
    ensures j == |src| || !p(src[j])
    decreases |src| - i
  {
    if i == |src| || !p(src[i]) then i else RunEnd(src, i + 1, p)
  }

  /** True when the single character c sits at index i. */
  predicate CharAt(src: Source, i: nat, c: char) {
    i < |src| && IsChar(src[i], c)
  }

  /** True when a digit sits at index i. */
  predicate DigitAt(src: Source, i: nat) {
    i < |src| && IsDigit(src[i])
  }

  /** Where `advance_number` stops when called just after the leading digit
      at i - 1: the digit run, then a `.` and a second digit run only when a
      digit follows the `.`. */
  function NumberEnd(src: Source, i: nat): (j: nat)
    requires i <= |src|
    ensures i <= j <= |src|
  {
    var intEnd := RunEnd(src, i, IsDigit);
    if CharAt(src, intEnd, '.') && DigitAt(src, intEnd + 1) then
      RunEnd(src, intEnd + 1, IsDigit)
    else
      intEnd
  }

  /** The graphemes that are a complete one-character token on their own. */
  function SingleCharToken(g: Grapheme): Option<Token> {
    if |g| != 1 then None else
    match g[0]
    case '(' => Some(LeftParen)
    case ')' => Some(RightParen)
    case '{' => Some(LeftBrace)
    case '}' => Some(RightBrace)
    case ',' => Some(Comma)
    case '.' => Some(Dot)
    case '-' => Some(Minus)
    case '+' => Some(Plus)
    case ';' => Some(Semicolon)
    case '*' => Some(Star)
    case _ => None
  }

  /** `!`, `=`, `<` and `>`: the token on their own and the token they form
      with a following `=`. */
  function OperatorTokens(g: Grapheme): Option<(Token, Token)> {
    if |g| != 1 then None else
    match g[0]
    case '!' => Some((Bang, BangEqual))
    case '=' => Some((Equal, EqualEqual))
    case '<' => Some((Less, LessEqual))
    case '>' => Some((Greater, GreaterEqual))
    case _ => None
  }

  /** A grapheme no dispatch arm accepts. */
  predicate IsUnexpected(g: Grapheme) {
    SingleCharToken(g).None? && OperatorTokens(g).None? && !IsChar(g, '/') && !IsChar(g, '"') &&
    !IsWhitespace(g) && !IsDigit(g) && !IsIdentifierHead(g)
  }

  /** The dispatch at index i reports an error: an unexpected character, or
      a quote with no closing quote after it. */
  predicate ErrorAt(src: Source, i: nat)
    requires i < |src|
  {
    IsUnexpected(src[i]) || (IsChar(src[i], '"') && forall k :: i < k < |src| ==> !IsChar(src[k], '"'))
  }

  /** `add_token`: push a token on the current line and move to `next`. */
  function Emit(s: ScanState, t: Token, next: nat): ScanState {
    s.(current := next, tokens := s.tokens + [AnnotatedToken(t, s.line)])
  }

  /** The string arm: scan to the closing quote, counting newlines on the way;
      the token is emitted on the line where the string ends. */
  function LexString(src: Source, s: ScanState, start: nat): ScanState
    requires start < |src|
  {
    var close := RunEnd(src, start + 1, NotQuote);
    var line := s.line + Newlines(src, start + 1, close);
    var closed := close < |src|;
    ScanState(
      if closed then close + 1 else close,
      line,
      if closed then s.tokens + [AnnotatedToken(String(Concat(src[start..close + 1])), line)] else s.tokens,
      s.hasError || !closed)
  }

  /** The `!`, `=`, `<` and `>` arms: the two-character token when the next
      grapheme is `=`, otherwise the one-character token. */
  function LexOperator(src: Source, s: ScanState, one: Token, two: Token): ScanState
    requires s.current < |src|
  {
    if CharAt(src, s.current + 1, '=') then Emit(s, two, s.current + 2) else Emit(s, one, s.current + 1)
  }

  /** The `/` arm: `//` skips to the next newline, a lone `/` is division. */
  function LexSlash(src: Source, s: ScanState): ScanState
    requires s.current < |src|
  {
    if CharAt(src, s.current + 1, '/') then s.(current := RunEnd(src, s.current + 2, NotNewline))
    else Emit(s, Slash, s.current + 1)
  }

  /** The digit arm: the number lexeme runs to `NumberEnd`. */
  function LexNumber(src: Source, s: ScanState): ScanState
    requires s.current < |src|
  {
    var j := NumberEnd(src, s.current + 1);
    Emit(s, Number(Concat(src[s.current..j])), j)
  }

  /** The identifier arm: the word runs over the identifier-tail graphemes
      and is looked up in the keyword table. */
  function LexIdentifier(src: Source, s: ScanState): ScanState
    requires s.current < |src|
  {
    var j := RunEnd(src, s.current + 1, IsIdentifierTail);
    Emit(s, TokenFromIdentifier(Concat(src[s.current..j])), j)
  }

  /** One call of `scan_token` on a source that is not yet exhausted. */
  function Step(src: Source, s: ScanState): ScanState
    requires s.current < |src|
  {
    var g := src[s.current];
    if SingleCharToken(g).Some? then Emit(s, SingleCharToken(g).value, s.current + 1)
    else if OperatorTokens(g).Some? then LexOperator(src, s, OperatorTokens(g).value.0, OperatorTokens(g).value.1)
    else if IsChar(g, '/') then LexSlash(src, s)
    else if IsChar(g, '"') then LexString(src, s, s.current)
    else if IsNewline(g) then s.(current := s.current + 1, line := s.line + 1)
    else if IsWhitespace(g) then s.(current := s.current + 1)
    else if IsDigit(g) then LexNumber(src, s)
    else if IsIdentifierHead(g) then LexIdentifier(src, s)
    else s.(current := s.current + 1, hasError := true)
  }

  /** Every dispatch step advances in the sense of `Advances`. */
  lemma StepBounds(src: Source, s: ScanState)
    requires s.current < |src|
    ensures Advances(src, s, Step(src, s))
  {
    var g := src[s.current];
    if SingleCharToken(g).Some? {
      StepOnSingleChar(src, s);
      EmitAdvances(src, s, SingleCharToken(g).value, s.current + 1);
    } else if OperatorTokens(g).Some? {
      StepOnOperator(src, s);
      OperatorAdvances(src, s, OperatorTokens(g).value.0, OperatorTokens(g).value.1);
    } else if IsChar(g, '/') {
      StepOnSlash(src, s);
      SlashAdvances(src, s);
    } else if IsChar(g, '"') {
      StepOnQuote(src, s);
      LexStringAdvances(src, s);
    } else if IsNewline(g) {
      StepOnNewline(src, s);
    } else if IsWhitespace(g) {
      StepOnWhitespace(src, s);
    } else if IsDigit(g) {
      StepOnDigit(src, s);
      NumberAdvances(src, s);
    } else if IsIdentifierHead(g) {
      StepOnIdentifierHead(src, s);
      IdentifierAdvances(src, s);
    } else {
      StepOnUnexpected(src, s);
    }
  }

  /** `r` is a state one dispatch step may lead to from `s`: it consumes at
      least one grapheme and stays within the source, never lowers the line
      counter, appends at most one token, which is not the end marker and
      carries the line counter after the step, and never clears the error
      flag. */
  ghost predicate Advances(src: Source, s: ScanState, r: ScanState) {
    && s.current < r.current <= |src|
    && s.line <= r.line
    && s.tokens <= r.tokens && |r.tokens| <= |s.tokens| + 1
    && (|r.tokens| > |s.tokens| ==> r.tokens[|s.tokens|].token != EOF)
    && (|r.tokens| > |s.tokens| ==> r.tokens[|s.tokens|].lineNumber == r.line)
    && (s.hasError ==> r.hasError)
  }

  lemma EmitAdvances(src: Source, s: ScanState, t: Token, next: nat)
    requires s.current < next <= |src| && t != EOF
    ensures Advances(src, s, Emit(s, t, next))
  {
  }

  lemma OperatorAdvances(src: Source, s: ScanState, one: Token, two: Token)
    requires s.current < |src| && one != EOF && two != EOF
    ensures Advances(src, s, LexOperator(src, s, one, two))
  {
    if CharAt(src, s.current + 1, '=') {
      EmitAdvances(src, s, two, s.current + 2);
    } else {
      EmitAdvances(src, s, one, s.current + 1);
    }
  }

  lemma SlashAdvances(src: Source, s: ScanState)
    requires s.current < |src|
    ensures Advances(src, s, LexSlash(src, s))
  {
    if !CharAt(src, s.current + 1, '/') {
      EmitAdvances(src, s, Slash, s.current + 1);
    }
  }

  lemma NumberAdvances(src: Source, s: ScanState)
    requires s.current < |src|
    ensures Advances(src, s, LexNumber(src, s))
  {
    var j := NumberEnd(src, s.current + 1);
    EmitAdvances(src, s, Number(Concat(src[s.current..j])), j);
  }

  lemma IdentifierAdvances(src: Source, s: ScanState)
    requires s.current < |src|
    ensures Advances(src, s, LexIdentifier(src, s))
  {
    var j := RunEnd(src, s.current + 1, IsIdentifierTail);
    EmitAdvances(src, s, TokenFromIdentifier(Concat(src[s.current..j])), j);
  }

  lemma LexStringAdvances(src: Source, s: ScanState)
    requires s.current < |src|
    ensures Advances(src, s, LexString(src, s, s.current))
  {
  }

  /** `scan_tokens` from state s: dispatch until the source is exhausted, then
      push the end marker. */
  function ScanFrom(src: Source, s: ScanState): (r: ScanState)
    requires s.current <= |src|
    ensures r.current == |src|
    ensures |s.tokens| < |r.tokens| && r.tokens[..|s.tokens|] == s.tokens
    ensures r.tokens[|r.tokens| - 1] == AnnotatedToken(EOF, r.line)
    ensures s.hasError ==> r.hasError
    decreases |src| - s.current
  {
    if s.current == |src| then
      Emit(s, EOF, s.current)
    else
      var m := Step(src, s);
      StepBounds(src, s);
      var r := ScanFrom(src, m);
      PrefixOfPrefix(s.tokens, m.tokens, r.tokens);
      r
  }

  lemma PrefixOfPrefix(a: seq<AnnotatedToken>, b: seq<AnnotatedToken>, c: seq<AnnotatedToken>)
    requires a <= b && |b| < |c| && c[..|b|] == b
    ensures |a| < |c| && c[..|a|] == a
  {
    assert c[..|a|] == c[..|b|][..|a|];
  }

  /** Scanning a whole source with a fresh scanner. */
  function Scan(src: Source): ScanState {
    ScanFrom(src, Initial)
  }

  // ---------------------------------------------------------------------
  // The scanner invariant: line counting and ordered line numbers.

  /** Every line number is at least 1 and at most the current line, and
      line numbers never decrease along the list. */
  ghost predicate LinesOrdered(ts: seq<AnnotatedToken>, line: nat) {
    (forall k :: 0 <= k < |ts| ==> 1 <= ts[k].lineNumber <= line) &&
    (forall a, b :: 0 <= a < b < |ts| ==> ts[a].lineNumber <= ts[b].lineNumber)
  }

  ghost predicate Inv(src: Source, s: ScanState) {
    s.current <= |src| &&
    s.line == 1 + Newlines(src, 0, s.current) &&
    LinesOrdered(s.tokens, s.line)
  }

  /** No end marker among the tokens. */
  ghost predicate NoEof(ts: seq<AnnotatedToken>) {
    forall k :: 0 <= k < |ts| ==> ts[k].token != EOF
  }

  lemma EmitKeepsOrder(s: ScanState, t: Token, line: nat)
    requires LinesOrdered(s.tokens, s.line) && 1 <= s.line <= line
    ensures LinesOrdered(s.tokens + [AnnotatedToken(t, s.line)], line)
  {
  }

  // ---------------------------------------------------------------------
  // One lemma per dispatch arm, giving the value of Step in that arm.

  lemma StepOnSingleChar(src: Source, s: ScanState)
    requires s.current < |src| && SingleCharToken(src[s.current]).Some?
    ensures Step(src, s) == Emit(s, SingleCharToken(src[s.current]).value, s.current + 1)
  {
  }

  lemma StepOnOperator(src: Source, s: ScanState)
    requires s.current < |src| && OperatorTokens(src[s.current]).Some?
    ensures var (one, two) := OperatorTokens(src[s.current]).value;
      Step(src, s) == LexOperator(src, s, one, two)
  {
    assert SingleCharToken(src[s.current]).None?;
  }

  lemma StepOnSlash(src: Source, s: ScanState)
    requires s.current < |src| && IsChar(src[s.current], '/')
    ensures Step(src, s) == LexSlash(src, s)
  {
    var g := src[s.current];
    assert SingleCharToken(g).None? && OperatorTokens(g).None?;
  }

  lemma StepOnQuote(src: Source, s: ScanState)
    requires s.current < |src| && IsChar(src[s.current], '"')
    ensures Step(src, s) == LexString(src, s, s.current)
  {
  }

  lemma StepOnNewline(src: Source, s: ScanState)
    requires s.current < |src| && IsNewline(src[s.current])
    ensures Step(src, s) == s.(current := s.current + 1, line := s.line + 1)
  {
  }

  lemma StepOnWhitespace(src: Source, s: ScanState)
    requires s.current < |src| && IsWhitespace(src[s.current]) && !IsNewline(src[s.current])
    ensures Step(src, s) == s.(current := s.current + 1)
  {
    var g := src[s.current];
    assert SingleCharToken(g).None? && OperatorTokens(g).None? && !IsChar(g, '/') && !IsChar(g, '"') by {
      if |g| > 0 {
        assert IsWhitespaceChar(g[0]);
      }
    }
  }

  lemma StepOnDigit(src: Source, s: ScanState)
    requires s.current < |src| && IsDigit(src[s.current])
    ensures Step(src, s) == LexNumber(src, s)
  {
    var g := src[s.current];
    assert SingleCharToken(g).None? && OperatorTokens(g).None?;
    assert !IsChar(g, '/') && !IsChar(g, '"') && !IsNewline(g) && !IsWhitespace(g);
  }

  lemma StepOnIdentifierHead(src: Source, s: ScanState)
    requires s.current < |src| && IsIdentifierHead(src[s.current]) && !IsWhitespace(src[s.current])
    ensures Step(src, s) == LexIdentifier(src, s)
  {
    var g := src[s.current];
    PunctuationChars(g);
    assert |g| > 0;
    assert !IsDigit(g) && !IsNewline(g);
  }

  /** The punctuation graphemes are single ASCII characters that are neither
      letters, digits, underscore nor whitespace. */
  lemma PunctuationChars(g: Grapheme)
    ensures SingleCharToken(g).Some? || OperatorTokens(g).Some? || IsChar(g, '/') || IsChar(g, '"') ==>
      |g| == 1 && !IsAlphanumericChar(g[0]) && g[0] != '_' && !IsWhitespaceChar(g[0])
  {
  }

  lemma StepOnUnexpected(src: Source, s: ScanState)
    requires s.current < |src| && IsUnexpected(src[s.current])
    ensures Step(src, s) == s.(current := s.current + 1, hasError := true)
  {
  }

  /** How many of the dispatch arms' own conditions a grapheme meets, each
      arm taken on its own rather than in match order. */
  function ArmsMet(g: Grapheme): nat {
    (if SingleCharToken(g).Some? then 1 else 0) + (if OperatorTokens(g).Some? then 1 else 0) +
    (if IsChar(g, '/') then 1 else 0) + (if IsChar(g, '"') then 1 else 0) +
    (if IsNewline(g) then 1 else 0) + (if IsWhitespace(g) then 1 else 0) +
    (if IsDigit(g) then 1 else 0) + (if IsIdentifierHead(g) then 1 else 0) +
    (if IsUnexpected(g) then 1 else 0)
  }

  /** The arms overlap in two places only. "\n" meets both the newline and
      the whitespace condition, and the match puts the newline arm first; the
      empty text meets both the whitespace and the identifier-head condition
      (an `all` over no characters), and the whitespace arm comes first. Every
      other grapheme meets exactly one arm, so for it the order is immaterial. */
  lemma DispatchCases(g: Grapheme)
    ensures IsNewline(g) ==> IsWhitespace(g)
    ensures ArmsMet(g) == if IsNewline(g) || g == "" then 2 else 1
  {
    if |g| == 1 {
      var c := g[0];
      assert IsWhitespace(g) <==> IsWhitespaceChar(c);
      assert IsIdentifierHead(g) <==> IsAlphabeticChar(c) || c == '_';
    } else if |g| > 1 {
      assert IsWhitespace(g) ==> IsWhitespaceChar(g[0]);
      assert IsIdentifierHead(g) ==> IsAlphabeticChar(g[0]) || g[0] == '_';
    }
  }

  // ---------------------------------------------------------------------
  // Line counting.

  /** Moving from s to r adds to the line counter exactly the number of "\n"
      graphemes passed over. */
  ghost predicate CountsNewlines(src: Source, s: ScanState, r: ScanState)
    requires s.current <= r.current <= |src|
  {
    r.line == s.line + Newlines(src, s.current, r.current)
  }

  /** The line counter grows by the number of "\n" graphemes a step consumes:
      at dispatch or inside a string, never in a comment, which stops before
      the newline, and never for a "\r\n" grapheme. */
  lemma StepCountsNewlines(src: Source, s: ScanState)
    requires s.current < |src|
    ensures Step(src, s).line == s.line + Newlines(src, s.current, Step(src, s).current)
  {
    var g := src[s.current];
    PunctuationChars(g);
    if SingleCharToken(g).Some? {
      StepOnSingleChar(src, s);
      EmitCountsNewlines(src, s, SingleCharToken(g).value);
    } else if OperatorTokens(g).Some? {
      StepOnOperator(src, s);
      OperatorCountsNewlines(src, s, OperatorTokens(g).value.0, OperatorTokens(g).value.1);
    } else if IsChar(g, '/') {
      StepOnSlash(src, s);
      SlashCountsNewlines(src, s);
    } else {
      WordCountsNewlines(src, s);
    }
  }

  /** A single grapheme holds one newline if it is "\n" and none otherwise. */
  lemma OneGraphemeNewlines(src: Source, i: nat)
    requires i < |src|
    ensures Newlines(src, i, i + 1) == if IsNewline(src[i]) then 1 else 0
  {
    assert Newlines(src, i, i) == 0;
  }

  lemma EmitCountsNewlines(src: Source, s: ScanState, t: Token)
    requires s.current < |src| && !IsNewline(src[s.current])
    ensures var r := Emit(s, t, s.current + 1);
      s.current < r.current <= |src| && CountsNewlines(src, s, r)
  {
    OneGraphemeNewlines(src, s.current);
  }

  lemma OperatorCountsNewlines(src: Source, s: ScanState, one: Token, two: Token)
    requires s.current < |src| && !IsNewline(src[s.current])
    ensures var r := LexOperator(src, s, one, two);
      s.current < r.current <= |src| && CountsNewlines(src, s, r)
  {
    var i := s.current;
    OneGraphemeNewlines(src, i);
    if CharAt(src, i + 1, '=') {
      OneGraphemeNewlines(src, i + 1);
      NewlinesSplit(src, i, i + 1, i + 2);
    }
  }

  lemma SlashCountsNewlines(src: Source, s: ScanState)
    requires s.current < |src| && IsChar(src[s.current], '/')
    ensures var r := LexSlash(src, s);
      s.current < r.current <= |src| && CountsNewlines(src, s, r)
  {
    var i := s.current;
    OneGraphemeNewlines(src, i);
    if CharAt(src, i + 1, '/') {
      var j := RunEnd(src, i + 2, NotNewline);
      OneGraphemeNewlines(src, i + 1);
      NewlinesSplit(src, i, i + 1, i + 2);
      NoNewlines(src, i + 2, j);
      NewlinesSplit(src, i, i + 2, j);
    }
  }

  lemma WordCountsNewlines(src: Source, s: ScanState)
    requires s.current < |src|
    requires SingleCharToken(src[s.current]).None? && OperatorTokens(src[s.current]).None? && !IsChar(src[s.current], '/')
    ensures Step(src, s).line == s.line + Newlines(src, s.current, Step(src, s).current)
  {
    var g := src[s.current];
    OneGraphemeNewlines(src, s.current);
    if IsChar(g, '"') {
      StepOnQuote(src, s);
      StringCountsNewlines(src, s);
    } else if IsNewline(g) {
      StepOnNewline(src, s);
    } else if IsWhitespace(g) {
      StepOnWhitespace(src, s);
    } else if IsDigit(g) {
      StepOnDigit(src, s);
      NumberCountsNewlines(src, s);
    } else if IsIdentifierHead(g) {
      StepOnIdentifierHead(src, s);
      IdentifierCountsNewlines(src, s);
    } else {
      StepOnUnexpected(src, s);
    }
  }

  lemma NumberCountsNewlines(src: Source, s: ScanState)
    requires s.current < |src| && IsDigit(src[s.current])
    ensures var r := LexNumber(src, s);
      s.current < r.current <= |src| && CountsNewlines(src, s, r)
  {
    var next := s.current + 1;
    OneGraphemeNewlines(src, s.current);
    NumberHasNoNewlines(src, next);
    NewlinesSplit(src, s.current, next, NumberEnd(src, next));
  }

  lemma IdentifierCountsNewlines(src: Source, s: ScanState)
    requires s.current < |src| && !IsNewline(src[s.current])
    ensures var r := LexIdentifier(src, s);
      s.current < r.current <= |src| && CountsNewlines(src, s, r)
  {
    var next := s.current + 1;
    OneGraphemeNewlines(src, s.current);
    IdentifierHasNoNewlines(src, next);
    NewlinesSplit(src, s.current, next, RunEnd(src, next, IsIdentifierTail));
  }

  lemma IdentifierHasNoNewlines(src: Source, i: nat)
    requires i <= |src|
    ensures Newlines(src, i, RunEnd(src, i, IsIdentifierTail)) == 0
  {
    var j := RunEnd(src, i, IsIdentifierTail);
    forall k | i <= k < j ensures !IsNewline(src[k]) {
      if IsNewline(src[k]) {
        NewlineIsNotWordCharacter(src[k]);
      }
    }
    NoNewlines(src, i, j);
  }

  lemma StringCountsNewlines(src: Source, s: ScanState)
    requires s.current < |src| && IsChar(src[s.current], '"')
    ensures var r := LexString(src, s, s.current);
      r.line == s.line + Newlines(src, s.current, r.current)
  {
    LexStringFields(src, s, s.current);
    QuotedSpanNewlines(src, s.current);
  }

  /** The quotes around a string literal are not newlines. */
  lemma QuotedSpanNewlines(src: Source, start: nat)
    requires start < |src| && IsChar(src[start], '"')
    ensures var close := RunEnd(src, start + 1, NotQuote);
      Newlines(src, start, if close < |src| then close + 1 else close) == Newlines(src, start + 1, close)
  {
    var close := RunEnd(src, start + 1, NotQuote);
    var inner := Newlines(src, start + 1, close);
    assert Newlines(src, start, close) == inner by {
      NewlinesSplit(src, start, start + 1, close);
      assert Newlines(src, start, start + 1) == 0;
    }
    if close < |src| {
      assert Newlines(src, start, close + 1) == inner by {
        NewlinesSplit(src, start, close, close + 1);
        assert Newlines(src, close, close + 1) == 0;
      }
    }
  }

  /** Where the string arm stops and which line it ends on. */
  lemma LexStringFields(src: Source, s: ScanState, start: nat)
    requires start < |src|
    ensures var close := RunEnd(src, start + 1, NotQuote);
      var r := LexString(src, s, start);
      && r.line == s.line + Newlines(src, start + 1, close)
      && r.current == (if close < |src| then close + 1 else close)
  {
  }

  lemma NumberHasNoNewlines(src: Source, i: nat)
    requires i <= |src|
    ensures Newlines(src, i, NumberEnd(src, i)) == 0
  {
    var intEnd := RunEnd(src, i, IsDigit);
    NoNewlines(src, i, intEnd);
    if CharAt(src, intEnd, '.') && DigitAt(src, intEnd + 1) {
      var j := RunEnd(src, intEnd + 1, IsDigit);
      NoNewlines(src, intEnd, j);
      NewlinesSplit(src, i, intEnd, j);
    }
  }

  /** A dispatch step keeps the invariant. */
  lemma StepInv(src: Source, s: ScanState)
    requires Inv(src, s) && s.current < |src|
    ensures Inv(src, Step(src, s))
  {
    var r := Step(src, s);
    StepBounds(src, s);
    StepCountsNewlines(src, s);
    InvKept(src, s, r);
  }

  /** The invariant survives any move that advances within the source,
      counts the newlines it passes and appends at most one token, on the
      new line. */
  lemma InvKept(src: Source, s: ScanState, r: ScanState)
    requires Inv(src, s) && s.current < r.current <= |src|
    requires r.line == s.line + Newlines(src, s.current, r.current)
    requires s.tokens <= r.tokens && |r.tokens| <= |s.tokens| + 1
    requires |r.tokens| > |s.tokens| ==> r.tokens[|s.tokens|].lineNumber == r.line
    ensures Inv(src, r)
  {
    NewlinesSplit(src, 0, s.current, r.current);
    assert LinesOrdered(r.tokens, r.line) by {
      forall k | 0 <= k < |s.tokens| ensures r.tokens[k] == s.tokens[k] {
        assert r.tokens[..|s.tokens|][k] == s.tokens[k];
      }
    }
  }

  // ---------------------------------------------------------------------
  // What each dispatch arm produces.

  /** RunEnd is the only index that ends a maximal run. */
  lemma {:induction false} RunEndIs(src: Source, i: nat, j: nat, p: Grapheme -> bool)
    requires i <= j <= |src|
    requires forall k :: i <= k < j ==> p(src[k])
    requires j == |src| || !p(src[j])
    ensures RunEnd(src, i, p) == j
    decreases j - i
  {
    if i < j {
      RunEndIs(src, i + 1, j, p);
    }
  }

  /** The error flag is sticky, and a step sets it exactly when it meets an
      unexpected character or a quote with no closing quote. */
  lemma StepErrorFlag(src: Source, s: ScanState)
    requires s.current < |src|
    ensures Step(src, s).hasError <==> s.hasError || ErrorAt(src, s.current)
  {
    var g := src[s.current];
    PunctuationChars(g);
    if SingleCharToken(g).Some? {
      StepOnSingleChar(src, s);
    } else if OperatorTokens(g).Some? {
      StepOnOperator(src, s);
    } else if IsChar(g, '/') {
      StepOnSlash(src, s);
    } else if IsChar(g, '"') {
      StepOnQuote(src, s);
      var close := RunEnd(src, s.current + 1, NotQuote);
      if close < |src| {
        assert !NotQuote(src[close]);
      }
    } else if IsNewline(g) {
      StepOnNewline(src, s);
    } else if IsWhitespace(g) {
      StepOnWhitespace(src, s);
    } else if IsDigit(g) {
      StepOnDigit(src, s);
    } else if IsIdentifierHead(g) {
      StepOnIdentifierHead(src, s);
    } else {
      StepOnUnexpected(src, s);
    }
  }

  predicate IsTwoCharOperator(t: Token) {
    t.BangEqual? || t.EqualEqual? || t.LessEqual? || t.GreaterEqual?
  }

  /** `!`, `=`, `<` and `>` take the two-character token exactly when the
      next grapheme is `=`, consuming two graphemes, and otherwise the
      one-character token, consuming one. */
  lemma OperatorLookahead(src: Source, s: ScanState)
    requires s.current < |src| && OperatorTokens(src[s.current]).Some?
    ensures var r := Step(src, s);
      var followed := s.current + 1 < |src| && IsChar(src[s.current + 1], '=');
      && r.current == s.current + (if followed then 2 else 1)
      && |r.tokens| == |s.tokens| + 1
      && (IsTwoCharOperator(r.tokens[|s.tokens|].token) <==> followed)
      && r.tokens[|s.tokens|] == AnnotatedToken(
           if followed then OperatorTokens(src[s.current]).value.1 else OperatorTokens(src[s.current]).value.0,
           s.line)
      && r.line == s.line && r.hasError == s.hasError
  {
    StepOnOperator(src, s);
  }

  /** `//` starts a comment: no token, and everything up to but not including
      the next newline (or the end of the source) is skipped. */
  lemma CommentSkipped(src: Source, s: ScanState)
    requires s.current + 1 < |src| && IsChar(src[s.current], '/') && IsChar(src[s.current + 1], '/')
    ensures var r := Step(src, s);
      && r.tokens == s.tokens && r.line == s.line && r.hasError == s.hasError
      && s.current + 2 <= r.current
      && (forall k :: s.current + 2 <= k < r.current ==> !IsNewline(src[k]))
      && (r.current == |src| || IsNewline(src[r.current]))
  {
    StepOnSlash(src, s);
  }

  /** A `/` not followed by a second `/` is the division token. */
  lemma LoneSlash(src: Source, s: ScanState)
    requires s.current < |src| && IsChar(src[s.current], '/')
    requires s.current + 1 == |src| || !IsChar(src[s.current + 1], '/')
    ensures Step(src, s) == s.(current := s.current + 1, tokens := s.tokens + [AnnotatedToken(Slash, s.line)])
  {
    StepOnSlash(src, s);
  }

  /** A terminated string yields one string token holding both quotes and the
      graphemes between them, none of which is a quote; the token carries
      the line on which the string ends. */
  lemma StringToken(src: Source, s: ScanState, close: nat)
    requires s.current < close < |src| && IsChar(src[s.current], '"') && IsChar(src[close], '"')
    requires forall k :: s.current < k < close ==> !IsChar(src[k], '"')
    ensures var line := s.line + Newlines(src, s.current + 1, close);
      Step(src, s) == s.(current := close + 1, line := line,
        tokens := s.tokens + [AnnotatedToken(String("\"" + Concat(src[s.current + 1..close]) + "\""), line)])
  {
    QuoteRunEnd(src, s.current, close);
    StringStep(src, s, close);
  }

  /** The quote arm of the dispatch, once the closing quote is known. */
  lemma StringStep(src: Source, s: ScanState, close: nat)
    requires s.current < close < |src| && IsChar(src[s.current], '"') && IsChar(src[close], '"')
    requires RunEnd(src, s.current + 1, NotQuote) == close
    ensures var line := s.line + Newlines(src, s.current + 1, close);
      Step(src, s) == s.(current := close + 1, line := line,
        tokens := s.tokens + [AnnotatedToken(String("\"" + Concat(src[s.current + 1..close]) + "\""), line)])
  {
    StepOnQuote(src, s);
    LexStringClosed(src, s, s.current, close);
  }

  /** The run of a string's body ends at the first quote after the opening one. */
  lemma QuoteRunEnd(src: Source, start: nat, close: nat)
    requires start < close < |src| && IsChar(src[close], '"')
    requires forall k :: start < k < close ==> !IsChar(src[k], '"')
    ensures RunEnd(src, start + 1, NotQuote) == close
  {
    RunEndIs(src, start + 1, close, NotQuote);
  }

  /** The text of a quoted span is the text between the quotes, quoted. */
  lemma QuotedText(src: Source, start: nat, close: nat)
    requires start < close < |src| && IsChar(src[start], '"') && IsChar(src[close], '"')
    ensures Concat(src[start..close + 1]) == "\"" + Concat(src[start + 1..close]) + "\""
  {
    var inner := src[start + 1..close];
    assert src[start..close + 1] == [src[start]] + inner + [src[close]];
    ConcatAppend([src[start]] + inner, [src[close]]);
    ConcatAppend([src[start]], inner);
    assert Concat([src[close]]) == "\"";
    assert Concat([src[start]]) == "\"";
  }

  lemma LexStringClosed(src: Source, s: ScanState, start: nat, close: nat)
    requires start < close < |src| && RunEnd(src, start + 1, NotQuote) == close
    requires IsChar(src[start], '"') && IsChar(src[close], '"')
    ensures var line := s.line + Newlines(src, start + 1, close);
      LexString(src, s, start) ==
        s.(current := close + 1, line := line,
           tokens := s.tokens + [AnnotatedToken(String("\"" + Concat(src[start + 1..close]) + "\""), line)])
  {
    var r := LexString(src, s, start);
    QuotedText(src, start, close);
    assert r.current == close + 1 && r.line == s.line + Newlines(src, start + 1, close);
    assert r.tokens == s.tokens + [AnnotatedToken(String("\"" + Concat(src[start + 1..close]) + "\""), r.line)];
    assert r.hasError == s.hasError;
  }

  /** A string with no closing quote emits nothing, sets the error flag and
      consumes the rest of the source; the scan then ends with only the end
      marker added. */
  lemma UnterminatedString(src: Source, s: ScanState)
    requires s.current < |src| && IsChar(src[s.current], '"')
    requires forall k :: s.current < k < |src| ==> !IsChar(src[k], '"')
    ensures var r := Step(src, s);
      && r == s.(current := |src|, line := s.line + Newlines(src, s.current + 1, |src|), hasError := true)
      && ScanFrom(src, s) == r.(tokens := s.tokens + [AnnotatedToken(EOF, r.line)])
  {
    StepOnQuote(src, s);
    RunEndIs(src, s.current + 1, |src|, NotQuote);
  }

  predicate AllDigits(gs: seq<Grapheme>) {
    forall k :: 0 <= k < |gs| ==> IsDigit(gs[k])
  }

  /** Decimal digits, optionally followed by a `.` and at least one more
      digit: a shape Rust's `f64` parser accepts, so the `unwrap` of the
      parsed value never fails. */
  predicate IsNumberLexeme(gs: seq<Grapheme>) {
    (|gs| > 0 && AllDigits(gs)) ||
    (exists d :: 0 < d < |gs| - 1 && IsChar(gs[d], '.') && AllDigits(gs[..d]) && AllDigits(gs[d + 1..]))
  }

  /** A leading digit yields one number token by maximal munch: the lexeme is
      digits with at most one `.`, which is taken only when a digit follows
      it; the lexeme never ends in `.` and the next grapheme is not a digit. */
  lemma NumberToken(src: Source, s: ScanState)
    requires s.current < |src| && IsDigit(src[s.current])
    ensures var j := NumberEnd(src, s.current + 1);
      var lexeme := src[s.current..j];
      var intEnd := RunEnd(src, s.current, IsDigit);
      && Step(src, s) == s.(current := j, tokens := s.tokens + [AnnotatedToken(Number(Concat(lexeme)), s.line)])
      && IsNumberLexeme(lexeme)
      && !IsChar(lexeme[|lexeme| - 1], '.')
      && !DigitAt(src, j)
      && ((exists k :: 0 <= k < |lexeme| && IsChar(lexeme[k], '.')) <==> CharAt(src, intEnd, '.') && DigitAt(src, intEnd + 1))
  {
    NumberStep(src, s);
    NumberLexemeShape(src, s.current);
  }

  lemma NumberStep(src: Source, s: ScanState)
    requires s.current < |src| && IsDigit(src[s.current])
    ensures var j := NumberEnd(src, s.current + 1);
      Step(src, s) == s.(current := j, tokens := s.tokens + [AnnotatedToken(Number(Concat(src[s.current..j])), s.line)])
  {
    StepOnDigit(src, s);
  }

  lemma NumberLexemeShape(src: Source, i: nat)
    requires i < |src| && IsDigit(src[i])
    ensures var j := NumberEnd(src, i + 1);
      var lexeme := src[i..j];
      var intEnd := RunEnd(src, i, IsDigit);
      && IsNumberLexeme(lexeme)
      && !IsChar(lexeme[|lexeme| - 1], '.')
      && !DigitAt(src, j)
      && ((exists k :: 0 <= k < |lexeme| && IsChar(lexeme[k], '.')) <==> CharAt(src, intEnd, '.') && DigitAt(src, intEnd + 1))
  {
    var intEnd := RunEnd(src, i, IsDigit);
    assert RunEnd(src, i + 1, IsDigit) == intEnd;
    if CharAt(src, intEnd, '.') && DigitAt(src, intEnd + 1) {
      var j := RunEnd(src, intEnd + 1, IsDigit);
      assert NumberEnd(src, i + 1) == j;
      FractionLexeme(src, i, intEnd);
      var lexeme := src[i..j];
      assert 0 <= intEnd - i < |lexeme| && IsChar(lexeme[intEnd - i], '.');
    } else {
      assert NumberEnd(src, i + 1) == intEnd;
      IntegerLexeme(src, i, intEnd);
    }
  }

  /** A number with a fractional part: the `.` sits right after the
      integer digits. */
  lemma FractionLexeme(src: Source, i: nat, intEnd: nat)
    requires i < intEnd && intEnd + 1 < |src| && RunEnd(src, i, IsDigit) == intEnd
    requires IsChar(src[intEnd], '.') && IsDigit(src[intEnd + 1])
    ensures var j := RunEnd(src, intEnd + 1, IsDigit);
      var lexeme := src[i..j];
      && IsNumberLexeme(lexeme)
      && !IsChar(lexeme[|lexeme| - 1], '.')
      && !DigitAt(src, j)
      && IsChar(lexeme[intEnd - i], '.')
  {
    var j := RunEnd(src, intEnd + 1, IsDigit);
    var lexeme := src[i..j];
    var d := intEnd - i;
    assert lexeme[..d] == src[i..intEnd];
    assert lexeme[d + 1..] == src[intEnd + 1..j];
    assert AllDigits(lexeme[d + 1..]);
    assert IsDigit(lexeme[|lexeme| - 1]) by {
      assert lexeme[|lexeme| - 1] == src[j - 1];
    }
  }

  /** A number with no fractional part is its run of digits. */
  lemma IntegerLexeme(src: Source, i: nat, intEnd: nat)
    requires i < intEnd <= |src| && RunEnd(src, i, IsDigit) == intEnd
    ensures var lexeme := src[i..intEnd];
      && IsNumberLexeme(lexeme)
      && !IsChar(lexeme[|lexeme| - 1], '.')
      && !DigitAt(src, intEnd)
      && !(exists k :: 0 <= k < |lexeme| && IsChar(lexeme[k], '.'))
  {
    var lexeme := src[i..intEnd];
    assert AllDigits(lexeme);
    forall k | 0 <= k < |lexeme|
      ensures !IsChar(lexeme[k], '.')
    {
      assert IsDigit(lexeme[k]);
    }
  }

  /** An identifier head followed by the longest run of identifier tails is
      looked up in the keyword table. */
  lemma IdentifierToken(src: Source, s: ScanState)
    requires s.current < |src| && IsIdentifierHead(src[s.current]) && !IsWhitespace(src[s.current])
    ensures var j := RunEnd(src, s.current + 1, IsIdentifierTail);
      var lexeme := src[s.current..j];
      && Step(src, s) == s.(current := j, tokens := s.tokens + [AnnotatedToken(TokenFromIdentifier(Concat(lexeme)), s.line)])
      && |lexeme| >= 1 && lexeme[0] == src[s.current]
      && (forall k :: 0 < k < |lexeme| ==> IsIdentifierTail(lexeme[k]))
      && (j == |src| || !IsIdentifierTail(src[j]))
  {
    StepOnIdentifierHead(src, s);
  }

  /** A "\r\n" grapheme (one extended grapheme cluster) is skipped as
      whitespace and does not advance the line counter. */
  lemma CarriageReturnLineFeed(src: Source, s: ScanState)
    requires s.current < |src| && src[s.current] == "\r\n"
    ensures Step(src, s) == s.(current := s.current + 1)
  {
    StepOnWhitespace(src, s);
  }

  lemma {:induction false} ScanFromInv(src: Source, s: ScanState)
    requires Inv(src, s)
    ensures Inv(src, ScanFrom(src, s))
    decreases |src| - s.current
  {
    if s.current < |src| {
      var m := Step(src, s);
      StepBounds(src, s);
      StepInv(src, s);
      ScanFromInv(src, m);
      assert ScanFrom(src, s) == ScanFrom(src, m);
    }
  }

  lemma {:induction false} ScanFromEofOnce(src: Source, s: ScanState)
    requires s.current <= |src| && NoEof(s.tokens)
    ensures NoEof(ScanFrom(src, s).tokens[..|ScanFrom(src, s).tokens| - 1])
    decreases |src| - s.current
  {
    if s.current < |src| {
      var m := Step(src, s);
      StepBounds(src, s);
      assert NoEof(m.tokens) by {
        forall k | 0 <= k < |m.tokens| ensures m.tokens[k].token != EOF {
          if k < |s.tokens| {
            assert m.tokens[k] == s.tokens[k];
          }
        }
      }
      ScanFromEofOnce(src, m);
    } else {
      assert ScanFrom(src, s).tokens[..|ScanFrom(src, s).tokens| - 1] == s.tokens;
    }
  }

  /** `scan_tokens` on a fresh scanner: the token list ends with exactly one
      end marker, every line number is at least 1, line numbers never
      decrease, and the final line is one plus the number of "\n" graphemes. */
  lemma ScanTokensWellFormed(src: Source)
    ensures var r := Scan(src);
      && r.current == |src|
      && |r.tokens| >= 1
      && r.tokens[|r.tokens| - 1].token == EOF
      && (forall k :: 0 <= k < |r.tokens| - 1 ==> r.tokens[k].token != EOF)
      && LinesOrdered(r.tokens, r.line)
      && r.line == 1 + Newlines(src, 0, |src|)
  {
    var r := Scan(src);
    ScanFromInv(src, Initial);
    ScanFromEofOnce(src, Initial);
    forall k | 0 <= k < |r.tokens| - 1 ensures r.tokens[k].token != EOF {
      assert r.tokens[k] == r.tokens[..|r.tokens| - 1][k];
    }
  }
}
