/**
 * Scanner, parser and printers together. A run of literals separated by
 * `!=` and `==` parses to the left-nested tree of its operators, and the
 * two printers render that tree as a function of the tokens alone; the
 * unit test of src/parser.rs is reproduced on its own source text.
 */
module Pipeline {
  import opened Wrappers
  import opened Tokens
  import opened Syntax
  import opened Scanning
  import opened Grammar
  import AstPrint
  import RpnPrint

  /** literal (("!=" | "==") literal)* */
  predicate IsChain(c: seq<AnnotatedToken>)
    decreases |c|
  {
    |c| >= 1 && IsLiteralToken(c[|c| - 1].token) &&
    (|c| == 1 || (|c| >= 3 && IsEqualityOperator(c[|c| - 2].token) && IsChain(c[..|c| - 2])))
  }

  /** The tree a chain denotes: each operator takes everything before it as
      its left operand. */
  function ChainTree(c: seq<AnnotatedToken>): (e: Expr)
    requires IsChain(c)
    ensures IsEqualityTree(e) && Len(e) == |c|
    decreases |c|
  {
    if |c| == 1 then LiteralOf(c[0].token)
    else
      Binary(ChainTree(c[..|c| - 2]), c[|c| - 2], LiteralOf(c[|c| - 1].token))
  }

  /** The prefix rendering of a chain, read off its tokens. */
  function AstOfChain(c: seq<AnnotatedToken>, display: string -> string): string
    requires IsChain(c)
    decreases |c|
  {
    if |c| == 1 then AstPrint.TokenToString(c[0], display)
    else
      "(" + AstPrint.TokenToString(c[|c| - 2], display) + " " + AstOfChain(c[..|c| - 2], display) +
      " " + AstPrint.TokenToString(c[|c| - 1], display) + ")"
  }

  /** The postfix rendering of a chain: each operator moved after the
      literal that follows it. */
  function RpnOfChain(c: seq<AnnotatedToken>, display: string -> string): string
    requires IsChain(c)
    decreases |c|
  {
    if |c| == 1 then AstPrint.TokenToString(c[0], display)
    else
      RpnOfChain(c[..|c| - 2], display) + " " + AstPrint.TokenToString(c[|c| - 1], display) +
      " " + AstPrint.TokenToString(c[|c| - 2], display)
  }

  /** A literal prints as the token it was parsed from, in both printers. */
  lemma LiteralPrintsAsToken(a: AnnotatedToken, f: RpnPrint.Formats)
    requires IsLiteralToken(a.token)
    ensures AstPrint.VisitExpr(LiteralOf(a.token), f.display) == AstPrint.TokenToString(a, f.display)
    ensures RpnPrint.VisitExpr(LiteralOf(a.token), f) == AstPrint.TokenToString(a, f.display)
  {
  }

  lemma {:induction false} ChainYields(ts: seq<AnnotatedToken>, c: seq<AnnotatedToken>)
    requires IsChain(c) && |c| <= |ts| && ts[..|c|] == c
    ensures YieldsAt(ts, 0, ChainTree(c))
    decreases |c|
  {
    assert forall k :: 0 <= k < |c| ==> ts[k] == c[k];
    if |c| > 1 {
      var p := c[..|c| - 2];
      assert ts[..|p|] == p;
      ChainYields(ts, p);
      var last := LiteralOf(c[|c| - 1].token);
      assert YieldsAt(ts, |c| - 1, last);
    }
  }

  lemma {:induction false} ChainPrintsPrefix(c: seq<AnnotatedToken>, f: RpnPrint.Formats)
    requires IsChain(c)
    ensures AstPrint.VisitExpr(ChainTree(c), f.display) == AstOfChain(c, f.display)
    decreases |c|
  {
    if |c| == 1 {
      LiteralPrintsAsToken(c[0], f);
    } else {
      var p, op, last := c[..|c| - 2], c[|c| - 2], c[|c| - 1];
      ChainPrintsPrefix(p, f);
      LiteralPrintsAsToken(last, f);
      assert ChainTree(c) == Binary(ChainTree(p), op, LiteralOf(last.token));
    }
  }

  lemma {:induction false} ChainPrintsPostfix(c: seq<AnnotatedToken>, f: RpnPrint.Formats)
    requires IsChain(c)
    ensures RpnPrint.VisitExpr(ChainTree(c), f) == RpnOfChain(c, f.display)
    decreases |c|
  {
    if |c| == 1 {
      LiteralPrintsAsToken(c[0], f);
    } else {
      var p, op, last := c[..|c| - 2], c[|c| - 2], c[|c| - 1];
      ChainPrintsPostfix(p, f);
      LiteralPrintsAsToken(last, f);
      assert ChainTree(c) == Binary(ChainTree(p), op, LiteralOf(last.token));
    }
  }

  /** Parsing a chain that is followed by any token other than `!=` or `==`
      folds it to the left, stops at that token, and prints as the token
      renderings above. */
  lemma ParsePrintChain(ts: seq<AnnotatedToken>, k: nat, f: RpnPrint.Formats)
    requires k < |ts| && IsChain(ts[..k]) && !IsEqualityOperator(ts[k].token)
    ensures ExpressionAt(ts, 0) == Ok(Parsed(ChainTree(ts[..k]), k))
    ensures AstPrint.VisitExpr(ChainTree(ts[..k]), f.display) == AstOfChain(ts[..k], f.display)
    ensures RpnPrint.VisitExpr(ChainTree(ts[..k]), f) == RpnOfChain(ts[..k], f.display)
  {
    var c := ts[..k];
    ChainYields(ts, c);
    ParseCharacterisation(ts, 0, ChainTree(c), k);
    ChainPrintsPrefix(c, f);
    ChainPrintsPostfix(c, f);
  }

  // ---------------------------------------------------------------------
  // Concrete runs.

  /** `a == b != c` is read as `(a == b) != c`. */
  lemma LeftFold(a: AnnotatedToken, op1: AnnotatedToken, b: AnnotatedToken, op2: AnnotatedToken,
                 c: AnnotatedToken, eof: AnnotatedToken)
    requires IsLiteralToken(a.token) && IsLiteralToken(b.token) && IsLiteralToken(c.token)
    requires IsEqualityOperator(op1.token) && IsEqualityOperator(op2.token) && eof.token == EOF
    ensures ExpressionAt([a, op1, b, op2, c, eof], 0) ==
      Ok(Parsed(Binary(Binary(LiteralOf(a.token), op1, LiteralOf(b.token)), op2, LiteralOf(c.token)), 5))
  {
    var ts := [a, op1, b, op2, c, eof];
    var la, lb, lc := LiteralOf(a.token), LiteralOf(b.token), LiteralOf(c.token);
    var e1 := Binary(la, op1, lb);
    var e := Binary(e1, op2, lc);
    LiteralRoundTrip(a.token);
    LiteralRoundTrip(b.token);
    LiteralRoundTrip(c.token);
    assert YieldsAt(ts, 0, la) && YieldsAt(ts, 2, lb) && YieldsAt(ts, 4, lc);
    assert YieldsAt(ts, 0, e1);
    assert YieldsAt(ts, 0, e);
    assert IsPrimaryTree(la) && IsPrimaryTree(lb) && IsPrimaryTree(lc);
    assert IsEqualityTree(e1) && IsEqualityTree(e);
    ParseCharacterisation(ts, 0, e, 5);
  }

  /** `1 - 2`: with the arithmetic levels still pass-throughs the parse
      stops at `-`, leaving `- 2` unread. */
  lemma ArithmeticIsNotParsed(one: AnnotatedToken, minus: AnnotatedToken, two: AnnotatedToken, eof: AnnotatedToken)
    requires one.token == Number("1") && minus.token == Minus && two.token == Number("2") && eof.token == EOF
    ensures ExpressionAt([one, minus, two, eof], 0) == Ok(Parsed(LiteralNumber("1"), 1))
  {
    var ts := [one, minus, two, eof];
    ParseCharacterisation(ts, 0, LiteralNumber("1"), 1);
    assert YieldsAt(ts, 0, LiteralNumber("1"));
  }

  /** A leading `-` is not a primary expression. */
  lemma UnaryIsRejected(minus: AnnotatedToken, one: AnnotatedToken, eof: AnnotatedToken)
    requires minus.token == Minus && one.token == Number("1") && eof.token == EOF
    ensures ExpressionAt([minus, one, eof], 0) == Err(UnexpectedToken)
  {
    PassThrough([minus, one, eof], 0);
  }

  /** `(1` followed by the end marker. */
  lemma UnclosedGrouping(lp: AnnotatedToken, one: AnnotatedToken, eof: AnnotatedToken)
    requires lp.token == LeftParen && one.token == Number("1") && eof.token == EOF
    ensures ExpressionAt([lp, one, eof], 0) == Err(MissingClosingParen)
  {
    var ts := [lp, one, eof];
    ParseCharacterisation(ts, 1, LiteralNumber("1"), 2);
    assert YieldsAt(ts, 1, LiteralNumber("1"));
    PassThrough(ts, 0);
  }

  /** The graphemes of "1 == 2;". */
  const OneEqualsTwo: Source := ["1", " ", "=", "=", " ", "2", ";"]

  const One := AnnotatedToken(Number("1"), 1)
  const EqEq := AnnotatedToken(EqualEqual, 1)
  const Two := AnnotatedToken(Number("2"), 1)

  lemma ScanOne()
    ensures Step(OneEqualsTwo, Initial) == ScanState(1, 1, [One], false)
  {
    var src := OneEqualsTwo;
    assert src[0] == "1" && IsDigit(src[0]) && !IsDigit(src[1]);
    StepOnDigit(src, Initial);
    assert RunEnd(src, 1, IsDigit) == 1;
    assert NumberEnd(src, 1) == 1;
    assert src[0..1] == ["1"];
    assert Concat(["1"]) == "1" + Concat([]);
    assert Concat(src[0..1]) == "1";
    assert Emit(Initial, Number("1"), 1) == ScanState(1, 1, [One], false);
  }

  lemma ScanEqEq()
    ensures Step(OneEqualsTwo, ScanState(2, 1, [One], false)) == ScanState(4, 1, [One, EqEq], false)
  {
    StepOnOperator(OneEqualsTwo, ScanState(2, 1, [One], false));
  }

  lemma ScanTwo()
    ensures Step(OneEqualsTwo, ScanState(5, 1, [One, EqEq], false)) == ScanState(6, 1, [One, EqEq, Two], false)
  {
    var src := OneEqualsTwo;
    assert src[5] == "2" && IsDigit(src[5]) && !IsDigit(src[6]);
    StepOnDigit(src, ScanState(5, 1, [One, EqEq], false));
    assert RunEnd(src, 6, IsDigit) == 6;
    assert NumberEnd(src, 6) == 6;
    assert src[5..6] == ["2"];
    assert Concat(["2"]) == "2" + Concat([]);
    assert Concat(src[5..6]) == "2";
  }

  lemma ScanSpaces()
    ensures Step(OneEqualsTwo, ScanState(1, 1, [One], false)) == ScanState(2, 1, [One], false)
    ensures Step(OneEqualsTwo, ScanState(4, 1, [One, EqEq], false)) == ScanState(5, 1, [One, EqEq], false)
  {
    StepOnWhitespace(OneEqualsTwo, ScanState(1, 1, [One], false));
    StepOnWhitespace(OneEqualsTwo, ScanState(4, 1, [One, EqEq], false));
  }

  lemma ScanOneEqualsTwo()
    ensures Scan(OneEqualsTwo) == ScanState(7, 1,
      [One, EqEq, Two, AnnotatedToken(Semicolon, 1), AnnotatedToken(EOF, 1)], false)
  {
    var src := OneEqualsTwo;
    ScanOne();
    ScanSpaces();
    ScanEqEq();
    ScanTwo();
    var s6 := ScanState(6, 1, [One, EqEq, Two], false);
    StepOnSingleChar(src, s6);
    var s7 := Step(src, s6);
    assert s7 == ScanState(7, 1, [One, EqEq, Two, AnnotatedToken(Semicolon, 1)], false);
    assert ScanFrom(src, s6) == ScanFrom(src, s7);
    assert ScanFrom(src, ScanState(5, 1, [One, EqEq], false)) == ScanFrom(src, s6);
    assert ScanFrom(src, ScanState(4, 1, [One, EqEq], false)) == ScanFrom(src, s6);
    assert ScanFrom(src, ScanState(2, 1, [One], false)) == ScanFrom(src, s6);
    assert ScanFrom(src, Initial) == ScanFrom(src, s6);
  }

  lemma OneEqualsTwoChain()
    ensures IsChain([One, EqEq, Two])
    ensures ChainTree([One, EqEq, Two]) == Binary(LiteralNumber("1"), EqEq, LiteralNumber("2"))
  {
    assert [One, EqEq, Two][..1] == [One];
  }

  lemma OneEqualsTwoRendered(f: RpnPrint.Formats)
    requires f.display("1") == "1" && f.display("2") == "2"
    ensures IsChain([One, EqEq, Two])
    ensures AstOfChain([One, EqEq, Two], f.display) == "(== 1 2)"
    ensures RpnOfChain([One, EqEq, Two], f.display) == "1 2 =="
  {
    OneEqualsTwoChain();
    assert [One, EqEq, Two][..1] == [One];
    assert AstOfChain([One], f.display) == "1";
    assert RpnOfChain([One], f.display) == "1";
  }

  /** The unit test of src/parser.rs: "1 == 2;" scans, parses with `;` left
      unread, and prints as "(== 1 2)", given that the number 1 displays
      as "1" and 2 as "2". */
  lemma OneEqualsTwoPrints(f: RpnPrint.Formats)
    requires f.display("1") == "1" && f.display("2") == "2"
    ensures var ts := Scan(OneEqualsTwo).tokens;
      var e := Binary(LiteralNumber("1"), ts[1], LiteralNumber("2"));
      && ExpressionAt(ts, 0) == Ok(Parsed(e, 3))
      && ts[3].token == Semicolon
      && AstPrint.VisitExpr(e, f.display) == "(== 1 2)"
      && RpnPrint.VisitExpr(e, f) == "1 2 =="
  {
    ScanOneEqualsTwo();
    var ts := Scan(OneEqualsTwo).tokens;
    assert ts[..3] == [One, EqEq, Two];
    OneEqualsTwoChain();
    OneEqualsTwoRendered(f);
    ParsePrintChain(ts, 3, f);
  }
}
