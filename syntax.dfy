/**
 * The expression tree the parser builds and the printers walk
 * (the `Expr` enum used by src/parser.rs, src/ast_print.rs and
 * src/rpn_print.rs).
 */
module Syntax {
  import opened Tokens

  /** A number literal keeps the lexeme its float is parsed from; a string
      literal keeps its quotes, exactly as the scanner's token did. */
  datatype Expr =
    | Binary(left: Expr, operator: AnnotatedToken, right: Expr)
    | Grouping(inner: Expr)
    | Unary(operator: AnnotatedToken, right: Expr)
    | LiteralNumber(number: string)
    | LiteralString(text: string)
    | LiteralBool(value: bool)
    | Nil

  predicate IsLiteral(e: Expr) {
    e.LiteralNumber? || e.LiteralString? || e.LiteralBool? || e.Nil?
  }

  /** The number of tokens the tree is spelt with: one per literal and
      operator, two for the parentheses of a grouping. */
  function Len(e: Expr): (n: nat)
    ensures n >= 1
  {
    match e
    case Binary(left, _, right) => Len(left) + 1 + Len(right)
    case Grouping(inner) => Len(inner) + 2
    case Unary(_, right) => 1 + Len(right)
    case _ => 1
  }
}
