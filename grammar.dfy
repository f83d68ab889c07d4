/**
 * The recursive-descent parser of src/parser.rs as pure functions over a
 * token sequence and a position in it. Each function returns the tree it
 * built and the position after the last token it consumed, or the error
 * that stopped it; `LoxParser.Parser` is proved to compute exactly these.
 *
 * The levels between equality and primary are pass-throughs in the code,
 * so the grammar that is really accepted is
 *     expression -> primary (("!=" | "==") primary)*
 *     primary    -> "false" | "true" | "nil" | NUMBER | STRING
 *                 | "(" expression ")"
 */
module Grammar {
  import opened Wrappers
  import opened Tokens
  import opened Syntax

  datatype ParseError =
    /** "Unexpected token": no primary expression starts at this token. */
    | UnexpectedToken
    /** "Couldn't find closing parens.": a grouping is not closed. */
    | MissingClosingParen
    /** Indexing past the end of the tokens, a panic in Rust. */
    | IndexOutOfRange

  /** A tree and the index of the first token not consumed. */
  datatype Parsed = Parsed(expr: Expr, next: nat)

  type Outcome = Result<Parsed, ParseError>

  predicate EndsWithEof(ts: seq<AnnotatedToken>) {
    |ts| > 0 && ts[|ts| - 1].token == EOF
  }

  predicate IsEqualityOperator(t: Token) {
    t == BangEqual || t == EqualEqual
  }

  predicate IsLiteralToken(t: Token) {
    t.False? || t.True? || t.Nil? || t.Number? || t.String?
  }

  /** The literal a primary token stands for. */
  function LiteralOf(t: Token): (e: Expr)
    requires IsLiteralToken(t)
    ensures IsLiteral(e)
  {
    match t
    case False => LiteralBool(false)
    case True => LiteralBool(true)
    case Nil => Expr.Nil
    case Number(n) => LiteralNumber(n)
    case String(s) => LiteralString(s)
  }

  /** The token a literal is read from; `LiteralOf` inverts it. */
  function LiteralToken(e: Expr): (t: Token)
    requires IsLiteral(e)
    ensures IsLiteralToken(t) && LiteralOf(t) == e
  {
    match e
    case LiteralBool(b) => if b then True else False
    case Nil => Token.Nil
    case LiteralNumber(n) => Number(n)
    case LiteralString(s) => String(s)
  }

  /** `LiteralToken` also inverts `LiteralOf`: a literal token is read back
      from the tree `primary` builds for it. */
  lemma LiteralRoundTrip(t: Token)
    requires IsLiteralToken(t)
    ensures LiteralToken(LiteralOf(t)) == t
  {
    match t
    case False =>
    case True =>
    case Nil =>
    case Number(_) =>
    case String(_) =>
  }

  /** Parse results move forward and stay within the tokens. */
  predicate Progress(ts: seq<AnnotatedToken>, i: nat, r: Outcome) {
    r.Ok? ==> i < r.value.next <= |ts|
  }

  /** On an EOF-terminated sequence, starting inside it, the parser never
      reads past the end and stops before the final EOF at the latest. */
  predicate SafeOnEof(ts: seq<AnnotatedToken>, i: nat, r: Outcome) {
    EndsWithEof(ts) && i < |ts| ==> r != Err(IndexOutOfRange) && (r.Ok? ==> r.value.next < |ts|)
  }

  function ExpressionAt(ts: seq<AnnotatedToken>, i: nat): (r: Outcome)
    requires i <= |ts|
    ensures Progress(ts, i, r) && SafeOnEof(ts, i, r)
    decreases |ts| - i, 6
  {
    EqualityAt(ts, i)
  }

  function EqualityAt(ts: seq<AnnotatedToken>, i: nat): (r: Outcome)
    requires i <= |ts|
    ensures Progress(ts, i, r) && SafeOnEof(ts, i, r)
    decreases |ts| - i, 5
  {
    match ComparisonAt(ts, i)
    case Err(e) => Err(e)
    case Ok(left) => EqualityLoop(ts, left.expr, left.next)
  }

  /** The `loop` of `equality`: `acc` is the tree so far and `j` the next
      token; each `!=` or `==` wraps `acc` as the left operand. */
  function EqualityLoop(ts: seq<AnnotatedToken>, acc: Expr, j: nat): (r: Outcome)
    requires j <= |ts|
    ensures r.Ok? ==> j <= r.value.next <= |ts|
    ensures SafeOnEof(ts, j, r)
    decreases |ts| - j, 5
  {
    if j == |ts| then Err(IndexOutOfRange)
    else if !IsEqualityOperator(ts[j].token) then Ok(Parsed(acc, j))
    else
      match ComparisonAt(ts, j + 1)
      case Err(e) => Err(e)
      case Ok(right) => EqualityLoop(ts, Binary(acc, ts[j], right.expr), right.next)
  }

  function ComparisonAt(ts: seq<AnnotatedToken>, i: nat): (r: Outcome)
    requires i <= |ts|
    ensures Progress(ts, i, r) && SafeOnEof(ts, i, r)
    decreases |ts| - i, 4
  {
    TermAt(ts, i)
  }

  function TermAt(ts: seq<AnnotatedToken>, i: nat): (r: Outcome)
    requires i <= |ts|
    ensures Progress(ts, i, r) && SafeOnEof(ts, i, r)
    decreases |ts| - i, 3
  {
    FactorAt(ts, i)
  }

  function FactorAt(ts: seq<AnnotatedToken>, i: nat): (r: Outcome)
    requires i <= |ts|
    ensures Progress(ts, i, r) && SafeOnEof(ts, i, r)
    decreases |ts| - i, 2
  {
    UnaryAt(ts, i)
  }

  function UnaryAt(ts: seq<AnnotatedToken>, i: nat): (r: Outcome)
    requires i <= |ts|
    ensures Progress(ts, i, r) && SafeOnEof(ts, i, r)
    decreases |ts| - i, 1
  {
    PrimaryAt(ts, i)
  }

  function PrimaryAt(ts: seq<AnnotatedToken>, i: nat): (r: Outcome)
    requires i <= |ts|
    ensures Progress(ts, i, r) && SafeOnEof(ts, i, r)
    ensures i < |ts| && !IsLiteralToken(ts[i].token) && ts[i].token != LeftParen
      ==> r == Err(UnexpectedToken)
    decreases |ts| - i, 0
  {
    if i == |ts| then Err(IndexOutOfRange)
    else if IsLiteralToken(ts[i].token) then Ok(Parsed(LiteralOf(ts[i].token), i + 1))
    else if ts[i].token == LeftParen then
      match ExpressionAt(ts, i + 1)
      case Err(e) => Err(e)
      case Ok(inner) =>
        if inner.next == |ts| then Err(IndexOutOfRange)
        else if ts[inner.next].token != RightParen then Err(MissingClosingParen)
        else Ok(Parsed(Grouping(inner.expr), inner.next + 1))
    else Err(UnexpectedToken)
  }

  // ---------------------------------------------------------------------
  // The trees the parser builds, and the token sequences that spell them.

  /** A literal, or a parenthesised equality tree. */
  predicate IsPrimaryTree(e: Expr)
    decreases e, 0
  {
    match e
    case Grouping(inner) => IsEqualityTree(inner)
    case Binary(_, _, _) => false
    case Unary(_, _) => false
    case _ => true
  }

  /** A primary tree, or a `!=`/`==` node whose right operand is primary;
      operators therefore nest to the left and no `Unary` node occurs. */
  predicate IsEqualityTree(e: Expr)
    decreases e, 1
  {
    IsPrimaryTree(e) ||
    (e.Binary? && IsEqualityOperator(e.operator.token) && IsEqualityTree(e.left) && IsPrimaryTree(e.right))
  }

  /** `ts[i..i + Len(e)]` spells `e`: operators are the very annotated tokens
      in the tree, literals and parentheses may sit on any line. */
  predicate YieldsAt(ts: seq<AnnotatedToken>, i: nat, e: Expr)
    decreases e
  {
    i + Len(e) <= |ts| &&
    match e
    case Binary(left, op, right) =>
      YieldsAt(ts, i, left) && ts[i + Len(left)] == op && YieldsAt(ts, i + Len(left) + 1, right)
    case Grouping(inner) =>
      ts[i].token == LeftParen && YieldsAt(ts, i + 1, inner) && ts[i + 1 + Len(inner)].token == RightParen
    case Unary(op, right) =>
      ts[i] == op && YieldsAt(ts, i + 1, right)
    case _ =>
      ts[i].token == LiteralToken(e)
  }

  /** One spelling of a tree, with every literal and parenthesis on `line`. */
  function Flatten(e: Expr, line: nat): (ts: seq<AnnotatedToken>)
    ensures |ts| == Len(e)
  {
    match e
    case Binary(left, op, right) => Flatten(left, line) + [op] + Flatten(right, line)
    case Grouping(inner) =>
      [AnnotatedToken(LeftParen, line)] + Flatten(inner, line) + [AnnotatedToken(RightParen, line)]
    case Unary(op, right) => [op] + Flatten(right, line)
    case _ => [AnnotatedToken(LiteralToken(e), line)]
  }

  /** The leftmost operand of a chain of binary nodes. */
  function Head(e: Expr): (h: Expr)
    ensures Len(h) <= Len(e)
  {
    if e.Binary? then Head(e.left) else e
  }

  // ---------------------------------------------------------------------
  // Lemmas.

  /** A `(` parses an expression, then needs `)`: an error inside is passed
      on, a missing `)` is the missing-parenthesis error (or the index error
      when the list runs out), and a `)` closes the grouping. */
  lemma GroupingOutcomes(ts: seq<AnnotatedToken>, i: nat)
    requires i < |ts| && ts[i].token == LeftParen
    ensures var inner := ExpressionAt(ts, i + 1);
      && (inner.Err? ==> PrimaryAt(ts, i) == Err(inner.error))
      && (inner.Ok? && inner.value.next == |ts| ==> PrimaryAt(ts, i) == Err(IndexOutOfRange))
      && (inner.Ok? && inner.value.next < |ts| && ts[inner.value.next].token != RightParen ==>
            PrimaryAt(ts, i) == Err(MissingClosingParen))
      && (inner.Ok? && inner.value.next < |ts| && ts[inner.value.next].token == RightParen ==>
            PrimaryAt(ts, i) == Ok(Parsed(Grouping(inner.value.expr), inner.value.next + 1)))
  {
    assert !IsLiteralToken(ts[i].token);
  }

  /** On an `EOF`-terminated list, a `(` fails with the missing-parenthesis
      error exactly when its expression parses and is not followed by `)`,
      unless the expression itself failed with that error. */
  lemma UnclosedParenthesis(ts: seq<AnnotatedToken>, i: nat)
    requires EndsWithEof(ts) && i < |ts| && ts[i].token == LeftParen
    requires ExpressionAt(ts, i + 1) != Err(MissingClosingParen)
    ensures PrimaryAt(ts, i) == Err(MissingClosingParen) <==>
      ExpressionAt(ts, i + 1).Ok? && ts[ExpressionAt(ts, i + 1).value.next].token != RightParen
  {
    GroupingOutcomes(ts, i);
  }

  /** Comparison, term, factor and unary add nothing to primary. */
  lemma PassThrough(ts: seq<AnnotatedToken>, i: nat)
    requires i <= |ts|
    ensures ComparisonAt(ts, i) == PrimaryAt(ts, i)
    ensures ExpressionAt(ts, i) == EqualityAt(ts, i)
  {
    assert ComparisonAt(ts, i) == TermAt(ts, i);
    assert TermAt(ts, i) == FactorAt(ts, i);
    assert FactorAt(ts, i) == UnaryAt(ts, i);
    assert UnaryAt(ts, i) == PrimaryAt(ts, i);
  }

  lemma {:induction false} HeadIsPrimary(ts: seq<AnnotatedToken>, i: nat, e: Expr)
    requires IsEqualityTree(e) && YieldsAt(ts, i, e)
    ensures IsPrimaryTree(Head(e)) && YieldsAt(ts, i, Head(e))
  {
    if e.Binary? {
      HeadIsPrimary(ts, i, e.left);
    }
  }

  lemma {:induction false} PrimaryComplete(ts: seq<AnnotatedToken>, i: nat, e: Expr)
    requires IsPrimaryTree(e) && YieldsAt(ts, i, e)
    ensures PrimaryAt(ts, i) == Ok(Parsed(e, i + Len(e)))
    decreases Len(e), 0
  {
    if e.Grouping? {
      EqualityComplete(ts, i + 1, e.inner);
    }
  }

  lemma {:induction false} EqualityComplete(ts: seq<AnnotatedToken>, i: nat, e: Expr)
    requires IsEqualityTree(e) && YieldsAt(ts, i, e)
    requires i + Len(e) < |ts| && !IsEqualityOperator(ts[i + Len(e)].token)
    ensures EqualityAt(ts, i) == Ok(Parsed(e, i + Len(e)))
    decreases Len(e), 3
  {
    HeadIsPrimary(ts, i, e);
    PrimaryComplete(ts, i, Head(e));
    LoopComplete(ts, i, e);
    EqualityFromParts(ts, i, Head(e), i + Len(Head(e)), e, i + Len(e));
  }

  /** `equality` succeeds with `e` when primary gives the head `h` and the
      loop carries it to `e` in front of a token other than `!=`/`==`. */
  lemma EqualityFromParts(ts: seq<AnnotatedToken>, i: nat, h: Expr, m: nat, e: Expr, n: nat)
    requires i <= |ts| && PrimaryAt(ts, i) == Ok(Parsed(h, m))
    requires n < |ts| && !IsEqualityOperator(ts[n].token)
    requires EqualityLoop(ts, h, m) == EqualityLoop(ts, e, n)
    ensures EqualityAt(ts, i) == Ok(Parsed(e, n))
  {
    PassThrough(ts, i);
    EqualityUnfold(ts, i, Parsed(h, m));
    LoopStops(ts, e, n);
  }

  /** `equality` hands the tree of its first comparison to the loop. */
  lemma EqualityUnfold(ts: seq<AnnotatedToken>, i: nat, left: Parsed)
    requires i <= |ts| && ComparisonAt(ts, i) == Ok(left)
    ensures EqualityAt(ts, i) == EqualityLoop(ts, left.expr, left.next)
  {
  }

  /** The loop stops, keeping its tree, at a token other than `!=`/`==`. */
  lemma LoopStops(ts: seq<AnnotatedToken>, acc: Expr, j: nat)
    requires j < |ts| && !IsEqualityOperator(ts[j].token)
    ensures EqualityLoop(ts, acc, j) == Ok(Parsed(acc, j))
  {
  }

  /** One pass of the equality loop at an operator whose right operand parses. */
  lemma LoopStep(ts: seq<AnnotatedToken>, acc: Expr, j: nat, right: Parsed)
    requires j < |ts| && IsEqualityOperator(ts[j].token) && ComparisonAt(ts, j + 1) == Ok(right)
    ensures EqualityLoop(ts, acc, j) == EqualityLoop(ts, Binary(acc, ts[j], right.expr), right.next)
  {
  }

  /** Parsing the rest of a spelt chain after its head ends where the whole
      chain ends, whatever follows. */
  lemma {:induction false} LoopComplete(ts: seq<AnnotatedToken>, i: nat, e: Expr)
    requires IsEqualityTree(e) && YieldsAt(ts, i, e)
    ensures EqualityLoop(ts, Head(e), i + Len(Head(e))) == EqualityLoop(ts, e, i + Len(e))
    decreases Len(e), 2
  {
    if !IsPrimaryTree(e) {
      LoopComplete(ts, i, e.left);
      LoopCompleteStep(ts, i, e);
    }
  }

  /** The inductive step of `LoopComplete`: from the left operand of an
      operator node to the node itself. */
  lemma LoopCompleteStep(ts: seq<AnnotatedToken>, i: nat, e: Expr)
    requires IsEqualityTree(e) && YieldsAt(ts, i, e) && !IsPrimaryTree(e)
    requires EqualityLoop(ts, Head(e.left), i + Len(Head(e.left))) == EqualityLoop(ts, e.left, i + Len(e.left))
    ensures EqualityLoop(ts, Head(e), i + Len(Head(e))) == EqualityLoop(ts, e, i + Len(e))
    decreases Len(e), 1
  {
    ChainParts(ts, i, e);
    var j := i + Len(e.left);
    PrimaryComplete(ts, j + 1, e.right);
    LoopExtend(ts, Head(e.left), i + Len(Head(e.left)), e.left, j, e.right, j + 1 + Len(e.right));
  }

  /** A spelt chain that is not primary is an operator node over a spelt
      chain and a spelt primary tree. */
  lemma ChainParts(ts: seq<AnnotatedToken>, i: nat, e: Expr)
    requires IsEqualityTree(e) && YieldsAt(ts, i, e) && !IsPrimaryTree(e)
    ensures e.Binary? && IsEqualityTree(e.left) && IsPrimaryTree(e.right)
    ensures YieldsAt(ts, i + Len(e.left) + 1, e.right)
    ensures i + Len(e.left) < |ts| && IsEqualityOperator(ts[i + Len(e.left)].token)
    ensures e == Binary(e.left, ts[i + Len(e.left)], e.right)
    ensures Head(e) == Head(e.left) && i + Len(e) == i + Len(e.left) + 1 + Len(e.right)
  {
  }


  /** A loop that reaches `left` before operator `op` at `j` reaches
      `Binary(left, op, right)` once `right` parses after `op`. */
  lemma LoopExtend(ts: seq<AnnotatedToken>, h: Expr, k: nat, left: Expr, j: nat, right: Expr, n: nat)
    requires k <= j < |ts| && IsEqualityOperator(ts[j].token)
    requires PrimaryAt(ts, j + 1) == Ok(Parsed(right, n))
    requires EqualityLoop(ts, h, k) == EqualityLoop(ts, left, j)
    ensures EqualityLoop(ts, h, k) == EqualityLoop(ts, Binary(left, ts[j], right), n)
  {
    PassThrough(ts, j + 1);
    LoopStep(ts, left, j, Parsed(right, n));
  }

  lemma {:induction false} PrimarySound(ts: seq<AnnotatedToken>, i: nat)
    requires i <= |ts|
    ensures PrimaryAt(ts, i).Ok? ==>
      var p := PrimaryAt(ts, i).value;
      IsPrimaryTree(p.expr) && p.next == i + Len(p.expr) && YieldsAt(ts, i, p.expr)
    decreases |ts| - i, 0
  {
    if i < |ts| && ts[i].token == LeftParen {
      EqualitySound(ts, i + 1);
      PassThrough(ts, i + 1);
    }
  }

  lemma {:induction false} EqualitySound(ts: seq<AnnotatedToken>, i: nat)
    requires i <= |ts|
    ensures EqualityAt(ts, i).Ok? ==>
      var p := EqualityAt(ts, i).value;
      IsEqualityTree(p.expr) && p.next == i + Len(p.expr) && YieldsAt(ts, i, p.expr) &&
      p.next < |ts| && !IsEqualityOperator(ts[p.next].token)
    decreases |ts| - i, 2
  {
    PassThrough(ts, i);
    PrimarySound(ts, i);
    if PrimaryAt(ts, i).Ok? {
      var p := PrimaryAt(ts, i).value;
      LoopSound(ts, i, p.expr, p.next);
    }
  }

  lemma {:induction false} LoopSound(ts: seq<AnnotatedToken>, s: nat, acc: Expr, j: nat)
    requires j <= |ts| && IsEqualityTree(acc) && YieldsAt(ts, s, acc) && j == s + Len(acc)
    ensures EqualityLoop(ts, acc, j).Ok? ==>
      var p := EqualityLoop(ts, acc, j).value;
      IsEqualityTree(p.expr) && p.next == s + Len(p.expr) && YieldsAt(ts, s, p.expr) &&
      p.next < |ts| && !IsEqualityOperator(ts[p.next].token)
    decreases |ts| - j, 1
  {
    if j < |ts| && IsEqualityOperator(ts[j].token) {
      PassThrough(ts, j + 1);
      PrimarySound(ts, j + 1);
      if PrimaryAt(ts, j + 1).Ok? {
        var p := PrimaryAt(ts, j + 1).value;
        var b := Binary(acc, ts[j], p.expr);
        assert YieldsAt(ts, s, b);
        LoopSound(ts, s, b, p.next);
      }
    }
  }

  /** What the parser accepts, exactly: it succeeds from `i` with tree `e`
      ending at `j` iff `e` is a left-nested `!=`/`==` chain of primaries
      spelt by `ts[i..j]` and the token at `j` is not `!=` or `==`. */
  lemma ParseCharacterisation(ts: seq<AnnotatedToken>, i: nat, e: Expr, j: nat)
    requires i <= |ts|
    ensures ExpressionAt(ts, i) == Ok(Parsed(e, j)) <==>
      IsEqualityTree(e) && YieldsAt(ts, i, e) && j == i + Len(e) &&
      j < |ts| && !IsEqualityOperator(ts[j].token)
  {
    PassThrough(ts, i);
    EqualitySound(ts, i);
    if IsEqualityTree(e) && YieldsAt(ts, i, e) && j == i + Len(e) &&
       j < |ts| && !IsEqualityOperator(ts[j].token) {
      EqualityComplete(ts, i, e);
    }
  }

  lemma {:induction false} FlattenYields(e: Expr, line: nat, pre: seq<AnnotatedToken>, post: seq<AnnotatedToken>)
    ensures YieldsAt(pre + Flatten(e, line) + post, |pre|, e)
  {
    var ts := pre + Flatten(e, line) + post;
    match e
    case Binary(left, op, right) =>
      var fl, fr := Flatten(left, line), Flatten(right, line);
      FlattenYields(left, line, pre, [op] + fr + post);
      assert pre + fl + ([op] + fr + post) == ts;
      FlattenYields(right, line, pre + fl + [op], post);
      assert pre + fl + [op] + fr + post == ts;
      assert ts[|pre| + Len(left)] == op;
    case Grouping(inner) =>
      var lp, rp := AnnotatedToken(LeftParen, line), AnnotatedToken(RightParen, line);
      var fi := Flatten(inner, line);
      FlattenYields(inner, line, pre + [lp], [rp] + post);
      assert pre + [lp] + fi + ([rp] + post) == ts;
      assert ts[|pre|] == lp;
      assert ts[|pre| + 1 + Len(inner)] == rp;
    case Unary(op, right) =>
      FlattenYields(right, line, pre + [op], post);
      assert pre + [op] + Flatten(right, line) + post == ts;
      assert ts[|pre|] == op;
    case _ =>
      assert ts[|pre|] == AnnotatedToken(LiteralToken(e), line);
  }

  /** Flattening a parser-shaped tree, appending EOF and parsing gives the
      tree back, with the position at the EOF. */
  lemma RoundTrip(e: Expr, line: nat, eof: AnnotatedToken)
    requires IsEqualityTree(e) && eof.token == EOF
    ensures ExpressionAt(Flatten(e, line) + [eof], 0) == Ok(Parsed(e, Len(e)))
  {
    FlattenYields(e, line, [], [eof]);
    assert [] + Flatten(e, line) + [eof] == Flatten(e, line) + [eof];
    ParseCharacterisation(Flatten(e, line) + [eof], 0, e, Len(e));
  }
}
