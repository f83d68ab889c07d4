/**
 * `token_to_string` against the scanner: every token with a fixed spelling
 * (punctuation, operators and keywords) is spelt as exactly the text the
 * scanner turns back into that token, and a lone identifier or keyword
 * word scans to the token `token_from_identifier` gives for it.
 */
module Spelling {
  import opened Wrappers
  import opened Tokens
  import opened Scanning
  import AstPrint

  /** A text as graphemes of one character each. */
  function Chars(s: string): (gs: Source)
    ensures |gs| == |s| && forall k :: 0 <= k < |s| ==> gs[k] == [s[k]]
  {
    seq(|s|, k requires 0 <= k < |s| => [s[k]])
  }

  lemma {:induction false} ConcatChars(s: string)
    ensures Concat(Chars(s)) == s
    decreases |s|
  {
    if s != [] {
      assert Chars(s)[1..] == Chars(s[1..]);
      ConcatChars(s[1..]);
      assert s == [s[0]] + s[1..];
    }
  }

  /** A word the identifier arm consumes whole. */
  predicate IsWord(w: string) {
    |w| > 0 && (IsAlphabeticChar(w[0]) || w[0] == '_') &&
    forall k :: 0 <= k < |w| ==> IsAlphanumericChar(w[k]) || w[k] == '_'
  }

  /** Tokens spelt the same way every time. */
  predicate HasFixedSpelling(t: Token) {
    !(t.Identifier? || t.String? || t.Number? || t.EOF?)
  }

  /** Scanning a lone word gives the keyword or identifier token for it and
      the end marker, both on line 1, with no error. */
  lemma ScanWord(w: string)
    requires IsWord(w)
    ensures Scan(Chars(w)) ==
      ScanState(|w|, 1, [AnnotatedToken(TokenFromIdentifier(w), 1), AnnotatedToken(EOF, 1)], false)
  {
    var src := Chars(w);
    assert src[0] == [w[0]] && src[0][0] == w[0];
    assert !IsWhitespaceChar(w[0]);
    StepOnIdentifierHead(src, Initial);
    forall k | 1 <= k < |src|
      ensures IsIdentifierTail(src[k])
    {
      assert src[k] == [w[k]];
    }
    RunEndIs(src, 1, |src|, IsIdentifierTail);
    assert src[0..|src|] == src;
    ConcatChars(w);
    var m := Step(src, Initial);
    assert m == ScanState(|w|, 1, [AnnotatedToken(TokenFromIdentifier(w), 1)], false);
    assert Scan(src) == ScanFrom(src, m);
  }

  /** The spelling of a fixed-spelling token that is not a keyword: one
      punctuation grapheme, or an operator grapheme followed by `=`. */
  lemma SymbolShape(t: Token, line: nat, display: string -> string)
    requires HasFixedSpelling(t) && !IsKeyword(t)
    ensures var w := AstPrint.TokenToString(AnnotatedToken(t, line), display);
      if IsTwoCharOperator(t) then
        |w| == 2 && w[1] == '=' && OperatorTokens([w[0]]).Some? && OperatorTokens([w[0]]).value.1 == t
      else
        |w| == 1 &&
        (SingleCharToken(w) == Some(t) ||
         (OperatorTokens(w).Some? && OperatorTokens(w).value.0 == t) ||
         (IsChar(w, '/') && t == Slash))
  {
  }

  lemma ScanOneGrapheme(g: Grapheme, t: Token)
    requires SingleCharToken(g) == Some(t) || (OperatorTokens(g).Some? && OperatorTokens(g).value.0 == t) ||
             (IsChar(g, '/') && t == Slash)
    ensures Scan([g]) == ScanState(1, 1, [AnnotatedToken(t, 1), AnnotatedToken(EOF, 1)], false)
  {
    var src := [g];
    if SingleCharToken(g) == Some(t) {
      StepOnSingleChar(src, Initial);
    } else if IsChar(g, '/') && t == Slash {
      StepOnSlash(src, Initial);
    } else {
      StepOnOperator(src, Initial);
    }
    var m := Step(src, Initial);
    assert m == Emit(Initial, t, 1);
    assert Scan(src) == ScanFrom(src, m);
  }

  lemma ScanOperatorPair(g: Grapheme, t: Token)
    requires OperatorTokens(g).Some? && OperatorTokens(g).value.1 == t
    ensures Scan([g, "="]) == ScanState(2, 1, [AnnotatedToken(t, 1), AnnotatedToken(EOF, 1)], false)
  {
    var src := [g, "="];
    StepOnOperator(src, Initial);
    var m := Step(src, Initial);
    assert m == Emit(Initial, t, 2);
    assert Scan(src) == ScanFrom(src, m);
  }

  /** Scanning the spelling of any fixed-spelling token gives back exactly
      that token and the end marker, on line 1, with no error. */
  lemma ScanSpelling(t: Token, line: nat, display: string -> string)
    requires HasFixedSpelling(t)
    ensures var w := AstPrint.TokenToString(AnnotatedToken(t, line), display);
      Scan(Chars(w)) == ScanState(|w|, 1, [AnnotatedToken(t, 1), AnnotatedToken(EOF, 1)], false)
  {
    var w := AstPrint.TokenToString(AnnotatedToken(t, line), display);
    if IsKeyword(t) {
      AstPrint.KeywordSpelling(t, line, display);
      assert IsWord(w);
      ScanWord(w);
    } else {
      SymbolShape(t, line, display);
      if IsTwoCharOperator(t) {
        assert Chars(w) == [[w[0]], "="];
        ScanOperatorPair([w[0]], t);
      } else {
        assert Chars(w) == [w];
        ScanOneGrapheme(w, t);
      }
    }
  }
}
