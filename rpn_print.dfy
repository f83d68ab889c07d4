/**
 * The `RPNPrinter` of src/rpn_print.rs: a postfix rendering of an
 * expression tree. Binary operators are spelt with the AST printer's
 * `token_to_string`; a unary operator is shown with Rust's pretty `Debug`
 * rendering of its token (`{:#?}`).
 */
module RpnPrint {
  import opened Tokens
  import opened Syntax
  import AstPrint

  /** The standard-library formatting the printer relies on: `Display` of
      the `f64` parsed from a number lexeme, `Debug` of that `f64`, and
      `Debug` of a string slice (quoted and escaped). */
  datatype Formats = Formats(
    display: string -> string,
    debugNumber: string -> string,
    debugStr: string -> string)

  /** The name of a token's variant. */
  function VariantName(t: Token): (name: string)
    ensures |name| > 0
  {
    match t
    case LeftParen => "LeftParen"
    case RightParen => "RightParen"
    case LeftBrace => "LeftBrace"
    case RightBrace => "RightBrace"
    case Comma => "Comma"
    case Dot => "Dot"
    case Minus => "Minus"
    case Plus => "Plus"
    case Semicolon => "Semicolon"
    case Slash => "Slash"
    case Star => "Star"
    case Bang => "Bang"
    case BangEqual => "BangEqual"
    case Equal => "Equal"
    case EqualEqual => "EqualEqual"
    case Greater => "Greater"
    case GreaterEqual => "GreaterEqual"
    case Less => "Less"
    case LessEqual => "LessEqual"
    case And => "And"
    case Class => "Class"
    case Else => "Else"
    case False => "False"
    case Fun => "Fun"
    case For => "For"
    case If => "If"
    case Nil => "Nil"
    case Or => "Or"
    case Print => "Print"
    case Return => "Return"
    case Super => "Super"
    case This => "This"
    case True => "True"
    case Var => "Var"
    case While => "While"
    case Identifier(_) => "Identifier"
    case String(_) => "String"
    case Number(_) => "Number"
    case EOF => "EOF"
  }

  /** The derived pretty `Debug` rendering (`{:#?}`) of a token: the
      variant name, followed for the struct-like variants by the field on
      its own indented line. */
  function DebugToken(t: Token, f: Formats): (s: string)
    ensures VariantName(t) <= s
    ensures !(t.Identifier? || t.String? || t.Number?) ==> s == VariantName(t)
  {
    match t
    case Identifier(identifier) => "Identifier {\n    identifier: " + f.debugStr(identifier) + ",\n}"
    case String(quotedStr) => "String {\n    quoted_str: " + f.debugStr(quotedStr) + ",\n}"
    case Number(lexeme) => "Number {\n    number: " + f.debugNumber(lexeme) + ",\n}"
    case _ => VariantName(t)
  }

  /** `RPNPrinter::visit_expr`: operands first, then the operator. */
  function VisitExpr(e: Expr, f: Formats): (s: string)
    ensures e.Binary? ==> var op := AstPrint.TokenToString(e.operator, f.display);
      |op| <= |s| && s[|s| - |op|..] == op
    ensures e.Unary? ==> var op := DebugToken(e.operator.token, f);
      |op| <= |s| && s[|s| - |op|..] == op
    ensures e.Grouping? ==> |s| >= 2 && s[0] == '(' && s[|s| - 1] == ')'
  {
    match e
    case Binary(left, operator, right) =>
      VisitExpr(left, f) + " " + VisitExpr(right, f) + " " + AstPrint.TokenToString(operator, f.display)
    case Grouping(inner) => "(" + VisitExpr(inner, f) + ")"
    case LiteralNumber(number) => f.display(number)
    case LiteralString(text) => text
    case LiteralBool(value) => AstPrint.BoolToString(value)
    case Nil => "nil"
    case Unary(operator, right) => VisitExpr(right, f) + " " + DebugToken(operator.token, f)
  }

  /** Literals print the same in both notations. */
  lemma LiteralsAgree(e: Expr, f: Formats)
    requires IsLiteral(e)
    ensures VisitExpr(e, f) == AstPrint.VisitExpr(e, f.display)
  {
  }
}
