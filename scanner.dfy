/**
 * The `Scanner` object of src/scanner.rs: a cursor over the grapheme
 * sequence that pushes tokens onto an append-only list and keeps a sticky
 * error flag. Each method is proved to compute the corresponding piece of
 * the pure scanner in scanning.dfy.
 */
module LoxScanner {
  import opened Wrappers
  import opened Tokens
  import opened Scanning

  class Scanner {
    const source: Source
    /** Start of the token being scanned (a grapheme index, not a byte offset). */
    var tokenStart: nat
    /** Index of the next grapheme to read. */
    var current: nat
    var lineNumber: nat
    var tokens: seq<AnnotatedToken>
    var hasError: bool

    /** The scanner's state as a value. */
    function State(): ScanState
      reads this
    {
      ScanState(current, lineNumber, tokens, hasError)
    }

    /** Between two dispatch steps: the scanner invariant holds and no token
        is in progress. */
    ghost predicate Valid()
      reads this
    {
      Inv(source, State()) && tokenStart == current
    }

    constructor (source: Source)
      ensures this.source == source && State() == Initial && tokenStart == 0
      ensures Valid()
    {
      this.source := source;
      tokenStart := 0;
      current := 0;
      lineNumber := 1;
      tokens := [];
      hasError := false;
    }

    /** Dispatch until the source is exhausted, then push exactly one end
        marker. */
    method ScanTokens() returns (result: seq<AnnotatedToken>)
      requires Valid()
      modifies this
      ensures Valid()
      ensures State() == ScanFrom(source, old(State()))
      ensures result == tokens
    {
      ghost var start := State();
      ScanAll();
      ghost var before := State();
      assert ScanFrom(source, start) == Emit(before, EOF, before.current);
      AddToken(EOF);
      EmitKeepsOrder(before, EOF, lineNumber);
      assert State() == ScanState(before.current, before.line, before.tokens + [AnnotatedToken(EOF, before.line)], before.hasError);
      result := tokens;
    }

    /** The loop of `scan_tokens`: dispatch until `scan_token` reports the
        source exhausted. */
    method ScanAll()
      requires Valid()
      modifies this
      ensures Valid() && current == |source|
      ensures ScanFrom(source, State()) == ScanFrom(source, old(State()))
    {
      var more := true;
      while more
        invariant Valid()
        invariant ScanFrom(source, State()) == ScanFrom(source, old(State()))
        invariant !more ==> current == |source|
        decreases |source| - current + (if more then 1 else 0)
      {
        ghost var before := State();
        more := ScanToken();
        if more {
          assert ScanFrom(source, before) == ScanFrom(source, State());
        }
      }
    }

    method HasError() returns (b: bool)
      ensures b == hasError
    {
      b := hasError;
    }

    /** One dispatch on the leading grapheme; false once the source is
        exhausted. */
    method ScanToken() returns (more: bool)
      requires Valid()
      modifies this
      ensures Valid()
      ensures more <==> old(current) < |source|
      ensures State() == if more then Step(source, old(State())) else old(State())
      ensures more ==> old(current) < current
    {
      ghost var s := State();
      var next := Advance();
      if next.None? {
        return false;
      }
      var grapheme := next.value;
      var single := SingleCharToken(grapheme);
      var operator := OperatorTokens(grapheme);
      if single.Some? {
        StepOnSingleChar(source, s);
        AddToken(single.value);
      } else if operator.Some? {
        ScanOperator(s, operator.value.0, operator.value.1);
      } else if IsChar(grapheme, '/') {
        ScanSlash(s);
      } else if IsChar(grapheme, '"') {
        ScanString(s);
      } else if IsNewline(grapheme) {
        StepOnNewline(source, s);
        lineNumber := lineNumber + 1;
      } else if IsWhitespace(grapheme) {
        StepOnWhitespace(source, s);
      } else if IsDigit(grapheme) {
        ScanNumber(s);
      } else if IsIdentifierHead(grapheme) {
        ScanIdentifier(s);
      } else {
        StepOnUnexpected(source, s);
        ReportError();
      }
      tokenStart := current;
      StepInv(source, s);
      StepBounds(source, s);
      more := true;
    }

    /** The `!`, `=`, `<` and `>` arms. */
    method ScanOperator(ghost s: ScanState, one: Token, two: Token)
      requires s.current < |source| && OperatorTokens(source[s.current]) == Some((one, two))
      requires State() == s.(current := s.current + 1)
      modifies this`current, this`tokens
      ensures State() == Step(source, s)
    {
      StepOnOperator(source, s);
      if s.current + 1 < |source| {
        CharGrapheme(source[s.current + 1], '=');
      }
      var matched := AdvanceIfNextMatches("=");
      if matched {
        AddToken(two);
      } else {
        AddToken(one);
      }
    }

    /** The `/` arm: a comment, skipped up to and not including the next
        newline, or the division token. */
    method ScanSlash(ghost s: ScanState)
      requires s.current < |source| && IsChar(source[s.current], '/')
      requires State() == s.(current := s.current + 1)
      modifies this`current, this`tokens
      ensures State() == Step(source, s)
    {
      StepOnSlash(source, s);
      if s.current + 1 < |source| {
        CharGrapheme(source[s.current + 1], '/');
      }
      var matched := AdvanceIfNextMatches("/");
      if matched {
        AdvanceWhile(NotNewline);
      } else {
        AddToken(Slash);
      }
    }

    /** The `"` arm. */
    method ScanString(ghost s: ScanState)
      requires s.current < |source| && IsChar(source[s.current], '"')
      requires State() == s.(current := s.current + 1) && tokenStart == s.current
      modifies this`current, this`lineNumber, this`hasError, this`tokens
      ensures State() == Step(source, s)
    {
      StepOnQuote(source, s);
      var terminated := AdvanceString();
      if terminated {
        AddStringToken();
      }
    }

    /** The digit arm. */
    method ScanNumber(ghost s: ScanState)
      requires s.current < |source| && IsDigit(source[s.current])
      requires State() == s.(current := s.current + 1) && tokenStart == s.current
      modifies this`current, this`tokens
      ensures State() == Step(source, s)
    {
      StepOnDigit(source, s);
      AdvanceNumber();
      AddNumberToken();
    }

    /** The identifier and keyword arm. */
    method ScanIdentifier(ghost s: ScanState)
      requires s.current < |source| && IsIdentifierHead(source[s.current]) && !IsWhitespace(source[s.current])
      requires State() == s.(current := s.current + 1) && tokenStart == s.current
      modifies this`current, this`tokens
      ensures State() == Step(source, s)
    {
      StepOnIdentifierHead(source, s);
      AdvanceIdentifier();
      AddIdentifierToken();
    }

    method Peek() returns (g: Option<Grapheme>)
      ensures g == PeekAt(source, current)
    {
      g := if current < |source| then Some(source[current]) else None;
    }

    /** The grapheme after the next one, None if either is missing. */
    method DoublePeek() returns (g: Option<Grapheme>)
      ensures g == PeekAt(source, current + 1)
    {
      if current >= |source| {
        return None;
      }
      g := if current + 1 < |source| then Some(source[current + 1]) else None;
    }

    method Advance() returns (g: Option<Grapheme>)
      modifies this`current
      ensures g == PeekAt(source, old(current))
      ensures current == if g.Some? then old(current) + 1 else old(current)
    {
      if current < |source| {
        g := Some(source[current]);
        current := current + 1;
      } else {
        g := None;
      }
    }

    method AdvanceIfNextMatches(toMatch: Grapheme) returns (matched: bool)
      modifies this`current
      ensures matched <==> PeekAt(source, old(current)) == Some(toMatch)
      ensures current == if matched then old(current) + 1 else old(current)
    {
      var next := Peek();
      matched := next == Some(toMatch);
      if matched {
        var _ := Advance();
      }
    }

    /** Consume graphemes while `p` holds of the next one; the comment,
        number and identifier loops. */
    method AdvanceWhile(p: Grapheme -> bool)
      requires current <= |source|
      modifies this`current
      ensures current == RunEnd(source, old(current), p)
    {
      var next := Peek();
      while next.Some? && p(next.value)
        invariant old(current) <= current <= |source|
        invariant RunEnd(source, current, p) == RunEnd(source, old(current), p)
        invariant next == PeekAt(source, current)
        decreases |source| - current
      {
        var _ := Advance();
        next := Peek();
      }
    }

    /** Consume a string body up to and including the closing quote,
        counting newlines; report an error if the source ends first. */
    method AdvanceString() returns (terminated: bool)
      requires current <= |source|
      modifies this`current, this`lineNumber, this`hasError
      ensures var close := RunEnd(source, old(current), NotQuote);
        && terminated == (close < |source|)
        && current == (if terminated then close + 1 else close)
        && lineNumber == old(lineNumber) + Newlines(source, old(current), close)
        && hasError == (old(hasError) || !terminated)
    {
      var next := Peek();
      while next.Some? && !IsChar(next.value, '"')
        invariant old(current) <= current <= |source|
        invariant RunEnd(source, current, NotQuote) == RunEnd(source, old(current), NotQuote)
        invariant lineNumber == old(lineNumber) + Newlines(source, old(current), current)
        invariant next == PeekAt(source, current)
        invariant hasError == old(hasError)
        decreases |source| - current
      {
        if IsNewline(next.value) {
          lineNumber := lineNumber + 1;
        }
        var _ := Advance();
        next := Peek();
      }
      next := Peek();
      if next.None? {
        ReportError();
        return false;
      }
      var _ := Advance();
      terminated := true;
    }

    method AdvanceNumber()
      requires current <= |source|
      modifies this`current
      ensures current == NumberEnd(source, old(current))
    {
      AdvanceWhile(IsDigit);
      var next := Peek();
      if next.Some? && IsChar(next.value, '.') {
        var afterDot := DoublePeek();
        if afterDot.Some? && IsDigit(afterDot.value) {
          var _ := Advance();
          AdvanceWhile(IsDigit);
        }
      }
    }

    method AdvanceIdentifier()
      requires current <= |source|
      modifies this`current
      ensures current == RunEnd(source, old(current), IsIdentifierTail)
    {
      AdvanceWhile(IsIdentifierTail);
    }

    method AddToken(token: Token)
      modifies this`tokens
      ensures tokens == old(tokens) + [AnnotatedToken(token, lineNumber)]
    {
      tokens := tokens + [AnnotatedToken(token, lineNumber)];
    }

    method AddNumberToken()
      requires tokenStart <= current <= |source|
      modifies this`tokens
      ensures tokens == old(tokens) + [AnnotatedToken(Number(Concat(source[tokenStart..current])), lineNumber)]
    {
      AddToken(Number(Concat(source[tokenStart..current])));
    }

    method AddIdentifierToken()
      requires tokenStart <= current <= |source|
      modifies this`tokens
      ensures tokens == old(tokens) + [AnnotatedToken(TokenFromIdentifier(Concat(source[tokenStart..current])), lineNumber)]
    {
      AddToken(TokenFromIdentifier(Concat(source[tokenStart..current])));
    }

    method AddStringToken()
      requires tokenStart <= current <= |source|
      modifies this`tokens
      ensures tokens == old(tokens) + [AnnotatedToken(String(Concat(source[tokenStart..current])), lineNumber)]
    {
      AddToken(String(Concat(source[tokenStart..current])));
    }

    /** The message goes to standard error, which is not modelled; only the
        flag remains. */
    method ReportError()
      modifies this`hasError
      ensures hasError
    {
      hasError := true;
    }
  }

  /** Scan a whole source with a fresh scanner, as the driver does. */
  method ScanSource(source: Source) returns (tokens: seq<AnnotatedToken>, hasError: bool)
    ensures tokens == Scan(source).tokens && hasError == Scan(source).hasError
    ensures |tokens| >= 1 && tokens[|tokens| - 1].token == EOF
    ensures forall k :: 0 <= k < |tokens| - 1 ==> tokens[k].token != EOF
  {
    ScanTokensWellFormed(source);
    var scanner := new Scanner(source);
    tokens := scanner.ScanTokens();
    hasError := scanner.HasError();
  }
}
