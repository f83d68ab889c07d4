/**
 * The `Parser` of src/parser.rs: recursive descent with a mutable index
 * into the token sequence. Every method is proved to agree with the
 * corresponding function of `Grammar`, so the lemmas proved there
 * (left folding, the exact accepted language, the round trip, no reads
 * past an EOF-terminated sequence) hold of the methods too.
 */
module LoxParser {
  import opened Wrappers
  import opened Tokens
  import opened Syntax
  import opened Grammar

  /** A method result `r` with the index left at `index` agrees with the
      outcome the specification computes; after an error the index is
      not specified. */
  predicate Agrees(r: Result<Expr, ParseError>, index: nat, spec: Outcome) {
    match spec
    case Ok(p) => r == Ok(p.expr) && index == p.next
    case Err(e) => r == Err(e)
  }

  predicate IsRightParen(t: Token) {
    t == RightParen
  }

  class Parser {
    const tokens: seq<AnnotatedToken>
    var currentIndex: nat

    ghost predicate Valid()
      reads this
    {
      currentIndex <= |tokens|
    }

    constructor(tokens: seq<AnnotatedToken>)
      ensures this.tokens == tokens && currentIndex == 0 && Valid()
    {
      this.tokens := tokens;
      currentIndex := 0;
    }

    method Parse() returns (r: Result<Expr, ParseError>)
      requires Valid()
      modifies this
      ensures Valid()
      ensures Agrees(r, currentIndex, ExpressionAt(tokens, old(currentIndex)))
    {
      r := Expression();
    }

    method Expression() returns (r: Result<Expr, ParseError>)
      requires Valid()
      modifies this
      ensures Valid()
      ensures Agrees(r, currentIndex, ExpressionAt(tokens, old(currentIndex)))
      decreases |tokens| - currentIndex, 6
    {
      r := Equality();
    }

    method Equality() returns (r: Result<Expr, ParseError>)
      requires Valid()
      modifies this
      ensures Valid()
      ensures Agrees(r, currentIndex, EqualityAt(tokens, old(currentIndex)))
      decreases |tokens| - currentIndex, 5
    {
      var left := Comparison();
      if left.Err? {
        return left;
      }
      var expr := left.value;
      while true
        invariant Valid() && old(currentIndex) < currentIndex
        invariant EqualityLoop(tokens, expr, currentIndex) == EqualityAt(tokens, old(currentIndex))
        decreases |tokens| - currentIndex
      {
        var peeked := Peek();
        if peeked.Err? {
          return Err(peeked.error);
        }
        var annotated := peeked.value;
        if !IsEqualityOperator(annotated.token) {
          break;
        }
        Advance();
        var right := Comparison();
        if right.Err? {
          return right;
        }
        expr := Binary(expr, annotated, right.value);
      }
      return Ok(expr);
    }

    method Comparison() returns (r: Result<Expr, ParseError>)
      requires Valid()
      modifies this
      ensures Valid()
      ensures Agrees(r, currentIndex, ComparisonAt(tokens, old(currentIndex)))
      decreases |tokens| - currentIndex, 4
    {
      r := Term();
    }

    method Term() returns (r: Result<Expr, ParseError>)
      requires Valid()
      modifies this
      ensures Valid()
      ensures Agrees(r, currentIndex, TermAt(tokens, old(currentIndex)))
      decreases |tokens| - currentIndex, 3
    {
      r := Factor();
    }

    method Factor() returns (r: Result<Expr, ParseError>)
      requires Valid()
      modifies this
      ensures Valid()
      ensures Agrees(r, currentIndex, FactorAt(tokens, old(currentIndex)))
      decreases |tokens| - currentIndex, 2
    {
      r := Unary();
    }

    method Unary() returns (r: Result<Expr, ParseError>)
      requires Valid()
      modifies this
      ensures Valid()
      ensures Agrees(r, currentIndex, UnaryAt(tokens, old(currentIndex)))
      decreases |tokens| - currentIndex, 1
    {
      r := Primary();
    }

    method Primary() returns (r: Result<Expr, ParseError>)
      requires Valid()
      modifies this
      ensures Valid()
      ensures Agrees(r, currentIndex, PrimaryAt(tokens, old(currentIndex)))
      decreases |tokens| - currentIndex, 0
    {
      var peeked := Peek();
      if peeked.Err? {
        return Err(peeked.error);
      }
      var token := peeked.value.token;
      var expr;
      if IsLiteralToken(token) {
        expr := LiteralOf(token);
      } else if token == LeftParen {
        Advance();
        var inner := Expression();
        if inner.Err? {
          return inner;
        }
        var closed := Matches(IsRightParen);
        if closed.Err? {
          return Err(closed.error);
        }
        if !closed.value {
          return Err(MissingClosingParen);
        }
        expr := Grouping(inner.value);
      } else {
        return Err(UnexpectedToken);
      }
      Advance();
      return Ok(expr);
    }

    method Advance()
      requires currentIndex < |tokens|
      modifies this`currentIndex
      ensures currentIndex == old(currentIndex) + 1
    {
      currentIndex := currentIndex + 1;
    }

    /** Tests the current token without consuming it. */
    method Matches(pred: Token -> bool) returns (r: Result<bool, ParseError>)
      ensures currentIndex < |tokens| ==> r == Ok(pred(tokens[currentIndex].token))
      ensures currentIndex >= |tokens| ==> r == Err(IndexOutOfRange)
    {
      var peeked := Peek();
      if peeked.Err? {
        return Err(peeked.error);
      }
      return Ok(pred(peeked.value.token));
    }

    /** The current token; reading past the end is the error that Rust's
        slice indexing raises as a panic. */
    method Peek() returns (r: Result<AnnotatedToken, ParseError>)
      ensures currentIndex < |tokens| ==> r == Ok(tokens[currentIndex])
      ensures currentIndex >= |tokens| ==> r == Err(IndexOutOfRange)
    {
      if currentIndex < |tokens| {
        return Ok(tokens[currentIndex]);
      }
      return Err(IndexOutOfRange);
    }
  }

  /** Parse a token sequence with a fresh parser, as the driver does. On
      the scanner's output, which ends in EOF, the index error cannot
      happen and a parse stops at the EOF at the latest. */
  method ParseTokens(tokens: seq<AnnotatedToken>) returns (r: Result<Expr, ParseError>, next: nat)
    ensures Agrees(r, next, ExpressionAt(tokens, 0))
    ensures EndsWithEof(tokens) ==> r != Err(IndexOutOfRange) && (r.Ok? ==> next < |tokens|)
    ensures r.Ok? ==> IsEqualityTree(r.value)
  {
    var parser := new Parser(tokens);
    r := parser.Parse();
    next := parser.currentIndex;
    if r.Ok? {
      ParseCharacterisation(tokens, 0, r.value, next);
    }
  }
}
