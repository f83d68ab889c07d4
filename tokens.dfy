/**
 * The token vocabulary of the Lox scanner (src/scanner.rs): the token kinds,
 * tokens annotated with their line, the grapheme classifiers and the
 * keyword table.
 */
module Tokens {

  /** The closed set of token kinds. A number token keeps the lexeme its
      64-bit float value is parsed from; a string token keeps both quotes. */
  datatype Token =
    // Single-character tokens.
    | LeftParen | RightParen | LeftBrace | RightBrace | Comma | Dot
    | Minus | Plus | Semicolon | Slash | Star
    // One or two character tokens.
    | Bang | BangEqual | Equal | EqualEqual
    | Greater | GreaterEqual | Less | LessEqual
    // Keywords.
    | And | Class | Else | False | Fun | For | If | Nil | Or
    | Print | Return | Super | This | True | Var | While
    // Literals.
    | Identifier(identifier: string)
    | String(quotedStr: string)
    | Number(lexeme: string)
    | EOF

  /** A token together with the (1-based) line it was emitted on. */
  datatype AnnotatedToken = AnnotatedToken(token: Token, lineNumber: nat)

  /** A grapheme cluster of the source text. */
  type Grapheme = string

  predicate IsKeyword(t: Token) {
    t.And? || t.Class? || t.Else? || t.False? || t.Fun? || t.For? || t.If? || t.Nil? ||
    t.Or? || t.Print? || t.Return? || t.Super? || t.This? || t.True? || t.Var? || t.While?
  }

  /** The sixteen reserved words of Lox. */
  const Keywords: set<string> :=
    {"and", "class", "else", "false", "for", "fun", "if", "nil",
     "or", "print", "return", "super", "this", "true", "var", "while"}

  /** Only the single grapheme "\n" counts as a line break ("\r\n" does not). */
  predicate IsNewline(g: Grapheme) {
    IsChar(g, '\n')
  }

  /** The grapheme is the single character c. */
  predicate IsChar(g: Grapheme, c: char) {
    |g| == 1 && g[0] == c
  }

  lemma CharGrapheme(g: Grapheme, c: char)
    ensures IsChar(g, c) <==> g == [c]
  {
    if IsChar(g, c) {
      assert g == [g[0]];
    }
  }

  /** The Unicode White_Space property, which is what Rust's
      `char::is_whitespace` tests. */
  predicate IsWhitespaceChar(c: char) {
    ('\t' <= c <= '\r') || c == ' ' || c == '\U{0085}' || c == '\U{00A0}' ||
    c == '\U{1680}' || ('\U{2000}' <= c <= '\U{200A}') || c == '\U{2028}' ||
    c == '\U{2029}' || c == '\U{202F}' || c == '\U{205F}' || c == '\U{3000}'
  }

  /** A grapheme is whitespace when every character in it is (newlines included). */
  predicate IsWhitespace(g: Grapheme) {
    forall k :: 0 <= k < |g| ==> IsWhitespaceChar(g[k])
  }

  /** Exactly one character, and it is an ASCII decimal digit. */
  predicate IsDigit(g: Grapheme) {
    |g| == 1 && '0' <= g[0] <= '9'
  }

  /** Stand-in for Rust's `char::is_alphabetic`: the ASCII letters. */
  predicate IsAlphabeticChar(c: char) {
    ('a' <= c <= 'z') || ('A' <= c <= 'Z')
  }

  /** Stand-in for Rust's `char::is_alphanumeric`: ASCII letters and digits. */
  predicate IsAlphanumericChar(c: char) {
    IsAlphabeticChar(c) || ('0' <= c <= '9')
  }

  predicate IsIdentifierHead(g: Grapheme) {
    forall k :: 0 <= k < |g| ==> IsAlphabeticChar(g[k]) || g[k] == '_'
  }

  predicate IsIdentifierTail(g: Grapheme) {
    forall k :: 0 <= k < |g| ==> IsAlphanumericChar(g[k]) || g[k] == '_'
  }

  /** The keyword table: a reserved word gives its keyword token, anything
      else is an identifier carrying its own text. */
  function TokenFromIdentifier(identifier: string): (t: Token)
    ensures IsKeyword(t) <==> identifier in Keywords
    ensures identifier !in Keywords <==> t == Identifier(identifier)
  {
    match identifier
    case "and" => And
    case "class" => Class
    case "else" => Else
    case "false" => False
    case "for" => For
    case "fun" => Fun
    case "if" => If
    case "nil" => Nil
    case "or" => Or
    case "print" => Print
    case "return" => Return
    case "super" => Super
    case "this" => This
    case "true" => True
    case "var" => Var
    case "while" => While
    case _ => Identifier(identifier)
  }

  /** How the word classifiers relate: a digit may continue an identifier
      but not start one, and is not whitespace; whatever may start an
      identifier may also continue one. */
  lemma WordClasses(g: Grapheme)
    ensures IsDigit(g) ==> IsIdentifierTail(g) && !IsIdentifierHead(g) && !IsWhitespace(g)
    ensures IsIdentifierHead(g) ==> IsIdentifierTail(g)
  {
    if IsDigit(g) {
      assert !IsWhitespaceChar(g[0]) && !IsAlphabeticChar(g[0]);
    }
    if IsIdentifierHead(g) {
      forall k | 0 <= k < |g| ensures IsAlphanumericChar(g[k]) || g[k] == '_' {
      }
    }
  }

  /** No grapheme is both a newline and a digit or an identifier character. */
  lemma NewlineIsNotWordCharacter(g: Grapheme)
    requires IsNewline(g)
    ensures IsWhitespace(g) && !IsDigit(g) && !IsIdentifierTail(g) && !IsIdentifierHead(g)
  {
    assert g[0] == '\n';
  }
}
