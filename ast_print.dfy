/**
 * The `AstPrinter` of src/ast_print.rs: a fully parenthesised prefix
 * rendering of an expression tree, and `token_to_string`, which spells a
 * token the way the scanner reads it.
 *
 * Rust's `format!("{}", number)` of the parsed `f64` is the parameter
 * `display`, applied to the lexeme the number was parsed from.
 */
module AstPrint {
  import opened Wrappers
  import opened Tokens
  import opened Syntax
  import Scanning

  function BoolToString(b: bool): string {
    if b then "true" else "false"
  }

  /** `token_to_string`. */
  function TokenToString(annotated: AnnotatedToken, display: string -> string): string {
    match annotated.token
    case LeftParen => "("
    case RightParen => ")"
    case LeftBrace => "{"
    case RightBrace => "}"
    case Comma => ","
    case Dot => "."
    case Minus => "-"
    case Plus => "+"
    case Semicolon => ";"
    case Slash => "/"
    case Star => "*"
    case Bang => "!"
    case BangEqual => "!="
    case Equal => "="
    case EqualEqual => "=="
    case Greater => ">"
    case GreaterEqual => ">="
    case Less => "<"
    case LessEqual => "<="
    case And => "and"
    case Class => "class"
    case Else => "else"
    case False => "false"
    case Fun => "fun"
    case For => "for"
    case If => "if"
    case Nil => "nil"
    case Or => "or"
    case Print => "print"
    case Return => "return"
    case Super => "super"
    case This => "this"
    case True => "true"
    case Var => "var"
    case While => "while"
    case Identifier(identifier) => identifier
    case String(quotedStr) => quotedStr
    case Number(lexeme) => display(lexeme)
    case EOF => "EOF"
  }

  /** `AstPrinter::visit_expr`: every operator node is wrapped in
      parentheses with its operator first; literals print bare. */
  function VisitExpr(e: Expr, display: string -> string): (s: string)
    ensures (e.Binary? || e.Grouping? || e.Unary?) ==> |s| >= 2 && s[0] == '(' && s[|s| - 1] == ')'
    ensures e.Binary? || e.Unary? ==> TokenToString(e.operator, display) + " " <= s[1..]
    ensures e.LiteralString? ==> s == e.text
    ensures e.LiteralBool? ==> s == BoolToString(e.value)
  {
    match e
    case Binary(left, operator, right) =>
      "(" + TokenToString(operator, display) + " " + VisitExpr(left, display) + " " + VisitExpr(right, display) + ")"
    case Grouping(inner) =>
      "(" + VisitExpr(inner, display) + ")"
    case Unary(operator, right) =>
      "(" + TokenToString(operator, display) + " " + VisitExpr(right, display) + ")"
    case LiteralNumber(number) => display(number)
    case LiteralString(text) => text
    case LiteralBool(value) => BoolToString(value)
    case Nil => "nil"
  }

  /** Spelling a keyword or identifier token gives back the word it was
      recognised from. */
  lemma IdentifierSpelling(s: string, line: nat, display: string -> string)
    ensures TokenToString(AnnotatedToken(TokenFromIdentifier(s), line), display) == s
  {
  }

  /** Every keyword is spelt as one of the sixteen reserved words, and
      recognising that word gives the keyword back. */
  lemma KeywordSpelling(t: Token, line: nat, display: string -> string)
    requires IsKeyword(t)
    ensures var w := TokenToString(AnnotatedToken(t, line), display);
      w in Keywords && TokenFromIdentifier(w) == t
  {
  }

  /** Punctuation and operators are spelt exactly as the scanner reads
      them: the one-grapheme tokens as that grapheme, the lookahead
      operators as their grapheme, alone or followed by `=`. */
  lemma PunctuationSpelling(g: Grapheme, line: nat, display: string -> string)
    ensures Scanning.SingleCharToken(g).Some? ==>
      TokenToString(AnnotatedToken(Scanning.SingleCharToken(g).value, line), display) == g
    ensures Scanning.OperatorTokens(g).Some? ==>
      var (one, two) := Scanning.OperatorTokens(g).value;
      TokenToString(AnnotatedToken(one, line), display) == g &&
      TokenToString(AnnotatedToken(two, line), display) == g + "="
    ensures TokenToString(AnnotatedToken(Slash, line), display) == "/"
  {
  }
}
