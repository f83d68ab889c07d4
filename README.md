# Lox front end: scanner, expression parser and tree printers

A Dafny model of the front end of a tree-walk interpreter for the Lox
language, written in Rust. The model covers four parts:

- The **scanner** turns a source text, already segmented into grapheme
  clusters, into a list of tokens annotated with line numbers.
  - It keeps a cursor, a line counter, an append-only token list and a
    sticky error flag.
  - One dispatch step reads the leading grapheme: punctuation, the
    lookahead operators `! = < >`, comments, quoted strings, numbers,
    identifiers and keywords.
  - The pass always ends with exactly one `EOF` token.
- The **parser** works by recursive descent with a mutable index into the
  token list.
  - The comparison, term, factor and unary levels just pass through to
    the next level.
  - So the accepted grammar is `expression -> primary (("!=" | "==") primary)*`,
    where `primary` is a literal or a parenthesised expression.
- The **AST printer** renders a tree in fully parenthesised prefix form.
  Its `token_to_string` spells a token the way the scanner reads it.
- The **RPN printer** renders a tree in postfix form.

Each stateful part has two layers:

- A pure specification: `Scanning` (`Step`, `ScanFrom`, `Scan`) and
  `Grammar` (`ExpressionAt` … `PrimaryAt`). The properties are proved as
  lemmas about these functions.
- A class with the source's fields and methods: `LoxScanner.Scanner` and
  `LoxParser.Parser`. Each method is proved to compute its specification
  function exactly.

The printers are pure functions over the `Expr` datatype. `Spelling` and
`Pipeline` connect the parts.

Three things from the source are parameters of the model:

- A grapheme cluster is a `string`, and the source is a sequence of them.
  Positions are grapheme indices, not byte offsets.
- A number token carries its lexeme instead of the `f64` parsed from it.
- The printers take Rust's number formatting as a function `display` from
  lexeme to text. The RPN printer also takes the `Debug` formatting of
  numbers and strings, bundled in `RpnPrint.Formats`.

The parser follows the textbook Lox grammar only in outline. The textbook
grammar has comparison, term, factor and unary levels; the scanner itself
refers to that textbook (src/scanner.rs:111). In the code, these four levels
are stubs that only forward to the next level (src/parser.rs:49-67), and the
model follows the code. So `1 - 2` parses to the literal `1` and stops at
`-`, and a leading `-` is rejected as an unexpected token.
`Pipeline.ArithmeticIsNotParsed` and `Pipeline.UnaryIsRejected` state this.

## Model

| member | source | states |
|---|---|---|
| Tokens.TokenFromIdentifier | src/scanner.rs:398-418 | the result is a keyword token exactly when the word is one of the sixteen reserved words; every other word gives `Identifier` of that word |
| Tokens.NewlineIsNotWordCharacter | src/scanner.rs:360-396 | `"\n"` counts as whitespace, but it is not a digit and cannot start or continue an identifier |
| Tokens.WordClasses | src/scanner.rs:370-396 | for `Tokens.IsDigit`, `Tokens.IsIdentifierHead` and `Tokens.IsIdentifierTail`: a digit may continue an identifier but cannot start one and is not whitespace; whatever may start an identifier may also continue it |
| Scanning.PeekAt | src/scanner.rs:147-150 | lookahead is `None` exactly past the end, and otherwise the grapheme at that index |
| Scanning.RunEnd | src/scanner.rs:94-104 | the end of the longest run of graphemes satisfying the loop condition: everything before it satisfies it, and the grapheme at it (if any) does not |
| Scanning.NumberEnd | src/scanner.rs:201-231 | where number scanning stops, never before its start and never past the end of the source |
| Scanning.StepBounds | src/scanner.rs:47-145 | for `Scanning.Step`, the `scan_token` dispatch, which picks the arm by the leading grapheme: one dispatch consumes at least one grapheme and never lowers the line counter; it appends at most one token, never `EOF`, and that token carries the line counter after the step |
| Scanning.ScanFrom | src/scanner.rs:36-40 | scanning reaches the end of the source; it keeps the earlier tokens as a prefix and appends at least one; the last token is `EOF` on the final line; the error flag is never cleared |
| Scanning.StepOnSingleChar | src/scanner.rs:53-62 | proof helper, one unfolding of `Step` through the table `Scanning.SingleCharToken`: each of the ten punctuation graphemes emits its token and consumes one grapheme |
| Scanning.StepOnNewline | src/scanner.rs:120-122 | `"\n"` emits nothing and adds one to the line counter |
| Scanning.StepOnWhitespace | src/scanner.rs:123-125 | any other whitespace grapheme is skipped without changing anything else |
| Scanning.StepOnUnexpected | src/scanner.rs:135-138 | proof helper, one unfolding of `Step`: a grapheme that no arm accepts sets the error flag, consumes one grapheme and emits nothing |
| Scanning.DispatchCases | src/scanner.rs:117-139 | `"\n"` is whitespace too, so it meets both the newline and the whitespace arm's condition, and the match order puts the newline arm first (the comment at line 117); the empty text meets both the whitespace and the identifier-head condition; every other grapheme meets the condition of exactly one arm, counted over the source's own conditions (`Tokens.IsNewline`, `Tokens.IsWhitespace`, `Tokens.IsDigit`, `Tokens.IsIdentifierHead`) |
| Scanning.StepCountsNewlines | src/scanner.rs:120-122 | a step adds to the line counter exactly the number of `"\n"` graphemes it consumes (with the comment loop at lines 94-97 and the string loop at lines 182-184) |
| Scanning.StepInv | src/scanner.rs:242-247 | a step keeps the scanner invariant: the line counter is 1 plus the newlines consumed so far, every token line is at least 1 and at most the current line, and token lines never decrease (with the line counter's start at line 29 and its update at lines 120-122) |
| Scanning.StepErrorFlag | src/scanner.rs:279-282 | after a step the error flag is set exactly when it was already set, or the step met an unexpected grapheme or a quote with no closing quote after it (reached from lines 135-138 and 189-193) |
| Scanning.OperatorLookahead | src/scanner.rs:63-90 | for `Scanning.LexOperator` and the table `Scanning.OperatorTokens`: `!`, `=`, `<` and `>` produce the two-character token and consume two graphemes exactly when `=` follows; otherwise they produce the one-character token and consume one; `!` gives `BangEqual` or `Bang`, `=` gives `EqualEqual` or `Equal`, `<` gives `LessEqual` or `Less`, `>` gives `GreaterEqual` or `Greater`, on the current line |
| Scanning.CommentSkipped | src/scanner.rs:91-104 | for the comment branch of `Scanning.LexSlash`: `//` emits no token and skips up to, but not including, the next newline or the end of the source |
| Scanning.LoneSlash | src/scanner.rs:105-108 | for the other branch of `Scanning.LexSlash`: a `/` not followed by `/` emits `Slash` and consumes one grapheme |
| Scanning.StringToken | src/scanner.rs:174-198 | for `Scanning.LexString` with a closing quote: a closed string emits one token holding both quotes and the quote-free text between them, on the line where the string ends (dispatched at lines 110-116, token added at lines 271-277) |
| Scanning.UnterminatedString | src/scanner.rs:189-193 | for `Scanning.LexString` without one: a string with no closing quote emits nothing, sets the error flag and consumes the rest of the source; the pass then adds only `EOF` |
| Scanning.NumberToken | src/scanner.rs:201-231 | for `Scanning.LexNumber`: a number lexeme is digits, optionally a `.` and more digits; the `.` is taken only when a digit follows it; the lexeme never ends in `.`, and the next grapheme is not a digit (dispatched at lines 127-130, token added at lines 251-259) |
| Scanning.IdentifierToken | src/scanner.rs:233-240 | for `Scanning.LexIdentifier`: an identifier is its head grapheme plus the longest run of tail graphemes, and it is looked up in the keyword table (dispatched at lines 131-134, token added at lines 262-268) |
| Scanning.CarriageReturnLineFeed | src/scanner.rs:360-368 | a `"\r\n"` grapheme is skipped as whitespace and does not advance the line counter |
| Scanning.ScanTokensWellFormed | src/scanner.rs:36-40 | for `Scanning.Scan`, `scan_tokens` run from a fresh scanner: a full scan ends with exactly one `EOF` and no other `EOF`; every token line is at least 1 and lines never decrease; the final line is 1 plus the number of `"\n"` graphemes in the source |
| LoxScanner.Scanner.constructor | src/scanner.rs:21-33 | a new scanner is at index 0 on line 1, with no tokens and no error |
| LoxScanner.Scanner.ScanTokens | src/scanner.rs:36-40 | the loop-and-`EOF` pass leaves exactly the state `ScanFrom` specifies and returns the token list |
| LoxScanner.Scanner.ScanAll | src/scanner.rs:36 | the `while self.scan_token() {}` loop stops with the cursor at the end of the source, in a state from which `ScanFrom` reaches the same result as from the state it started in |
| LoxScanner.Scanner.HasError | src/scanner.rs:42-44 | returns the error flag |
| LoxScanner.Scanner.ScanToken | src/scanner.rs:47-145 | returns false exactly when the source is exhausted; otherwise the new state is `Step` of the old one; the scanner invariant is kept |
| LoxScanner.Scanner.ScanOperator | src/scanner.rs:63-90 | the `! = < >` arms compute `Step` |
| LoxScanner.Scanner.ScanSlash | src/scanner.rs:91-109 | the `/` arm (comment loop or division) computes `Step` |
| LoxScanner.Scanner.ScanString | src/scanner.rs:110-116 | the quote arm computes `Step` |
| LoxScanner.Scanner.ScanNumber | src/scanner.rs:127-130 | the digit arm computes `Step` |
| LoxScanner.Scanner.ScanIdentifier | src/scanner.rs:131-134 | the identifier arm computes `Step` |
| LoxScanner.Scanner.Peek | src/scanner.rs:147-150 | the next grapheme without consuming it |
| LoxScanner.Scanner.DoublePeek | src/scanner.rs:152-158 | the grapheme after the next one, `None` if either is missing |
| LoxScanner.Scanner.Advance | src/scanner.rs:160-164 | returns the next grapheme and moves past it, or returns `None` and stays at the end |
| LoxScanner.Scanner.AdvanceIfNextMatches | src/scanner.rs:166-172 | consumes the next grapheme exactly when it equals the argument, and reports whether it did |
| LoxScanner.Scanner.AdvanceWhile | src/scanner.rs:94-104 | the consuming loops stop exactly at `RunEnd` (the number and identifier loops at lines 202-207 and 234-239 are the same) |
| LoxScanner.Scanner.AdvanceString | src/scanner.rs:174-198 | stops past the closing quote, or at the end with the error flag set, and counts every newline in the string body |
| LoxScanner.Scanner.AdvanceNumber | src/scanner.rs:201-231 | stops exactly at `NumberEnd` |
| LoxScanner.Scanner.AdvanceIdentifier | src/scanner.rs:233-240 | stops at the end of the run of identifier-tail graphemes |
| LoxScanner.Scanner.AddToken | src/scanner.rs:242-247 | appends one token on the current line and changes nothing else |
| LoxScanner.Scanner.AddNumberToken | src/scanner.rs:251-259 | appends a number token holding the current lexeme |
| LoxScanner.Scanner.AddIdentifierToken | src/scanner.rs:262-268 | appends the keyword or identifier token for the current lexeme |
| LoxScanner.Scanner.AddStringToken | src/scanner.rs:271-277 | appends a string token holding the current lexeme, quotes included |
| LoxScanner.Scanner.ReportError | src/scanner.rs:279-282 | sets the error flag |
| LoxScanner.ScanSource | src/scanner.rs:21-40 | a fresh scanner's tokens and error flag are those of `Scan`; the list ends with exactly one `EOF` |
| Syntax.Len | src/parser.rs:72-84 | every tree is spelt with at least one token (binary nodes are built at lines 37-41) |
| Grammar.LiteralOf | src/parser.rs:73-77 | the five primary tokens map to literal trees |
| Grammar.LiteralToken | src/parser.rs:73-77 | every literal tree comes from a token that `primary` maps back to it |
| Grammar.LiteralRoundTrip | src/parser.rs:73-77 | each of the five literal tokens is recovered from the tree `primary` builds for it |
| Grammar.ExpressionAt | src/parser.rs:21-28 | a success consumes at least one token and stays within the list; on an `EOF`-terminated list it never indexes out of range and stops before the final `EOF` |
| Grammar.EqualityAt | src/parser.rs:30-47 | as for `ExpressionAt` |
| Grammar.EqualityLoop | src/parser.rs:32-45 | the fold never moves backwards and stays within the list; on an `EOF`-terminated list it never indexes out of range |
| Grammar.ComparisonAt | src/parser.rs:49-52 | as for `ExpressionAt` |
| Grammar.TermAt | src/parser.rs:54-57 | as for `ExpressionAt` |
| Grammar.FactorAt | src/parser.rs:59-62 | as for `ExpressionAt` |
| Grammar.UnaryAt | src/parser.rs:64-67 | as for `ExpressionAt` |
| Grammar.PrimaryAt | src/parser.rs:69-93 | as for `ExpressionAt`; also any token other than a literal or `(` fails with the unexpected-token error |
| Grammar.GroupingOutcomes | src/parser.rs:78-84 | after `(`, an error in the inner expression is passed on; a token other than `)` after it gives the missing-parenthesis error; `)` closes a grouping of the inner tree and is consumed |
| Grammar.UnclosedParenthesis | src/parser.rs:78-84 | on an `EOF`-terminated list, `(` fails with the missing-parenthesis error exactly when its expression parses and the next token is not `)` (given the expression did not fail with that error itself) |
| Grammar.PassThrough | src/parser.rs:49-67 | comparison, term, factor and unary give exactly what primary gives, and expression gives exactly what equality gives (`expression` is at lines 26-28) |
| Grammar.PrimaryComplete | src/parser.rs:69-93 | a literal, or a parenthesised chain, spelt at a position parses there and consumes exactly its tokens |
| Grammar.EqualityComplete | src/parser.rs:30-47 | a left-nested `!=`/`==` chain spelt at a position, and followed by a token that is not `!=` or `==`, parses to exactly that tree |
| Grammar.LoopComplete | src/parser.rs:32-45 | folding the rest of a spelt chain after its head ends where the whole chain ends |
| Grammar.LoopStep | src/parser.rs:32-45 | proof helper, one unfolding of `EqualityLoop`: at a `!=`/`==` token whose right operand parses, one pass wraps the tree so far and continues after that operand |
| Grammar.PrimarySound | src/parser.rs:69-93 | whatever primary returns is a literal or a grouping, spelt by exactly the tokens it consumed |
| Grammar.EqualitySound | src/parser.rs:30-47 | whatever equality returns is a left-nested `!=`/`==` chain with no `Unary` node, spelt by exactly the tokens it consumed; the token after it is not `!=` or `==` |
| Grammar.LoopSound | src/parser.rs:32-45 | each pass of the loop wraps the tree so far as the left operand of a new `!=`/`==` node |
| Grammar.ParseCharacterisation | src/parser.rs:21-93 | a parse succeeds with tree `e` ending at `j` if and only if `e` is a left-nested `!=`/`==` chain of primaries spelt by the tokens up to `j`, and the token at `j` is not `!=` or `==` |
| Grammar.FlattenYields | src/parser.rs:37-41 | the canonical token spelling of a tree spells it, wherever it sits in a list (groupings are built at lines 78-84) |
| Grammar.RoundTrip | src/parser.rs:21-93 | flattening a parser-shaped tree, appending `EOF` and parsing returns the same tree, with the index at the `EOF` |
| LoxParser.Parser.constructor | src/parser.rs:14-19 | a new parser is at index 0 |
| LoxParser.Parser.Parse | src/parser.rs:21-23 | returns exactly what `ExpressionAt` gives and leaves the index where it says |
| LoxParser.Parser.Expression | src/parser.rs:26-28 | agrees with `ExpressionAt` |
| LoxParser.Parser.Equality | src/parser.rs:30-47 | the loop agrees with `EqualityAt`: same tree, same final index, same error |
| LoxParser.Parser.Comparison | src/parser.rs:49-52 | agrees with `ComparisonAt` |
| LoxParser.Parser.Term | src/parser.rs:54-57 | agrees with `TermAt` |
| LoxParser.Parser.Factor | src/parser.rs:59-62 | agrees with `FactorAt` |
| LoxParser.Parser.Unary | src/parser.rs:64-67 | agrees with `UnaryAt` |
| LoxParser.Parser.Primary | src/parser.rs:69-93 | agrees with `PrimaryAt` |
| LoxParser.Parser.Advance | src/parser.rs:96-98 | moves the index forward by one |
| LoxParser.Parser.Matches | src/parser.rs:100-102 | tests the current token without moving; out of range it gives the index error |
| LoxParser.Parser.Peek | src/parser.rs:112-114 | the current token, or the index error past the end |
| LoxParser.ParseTokens | src/parser.rs:14-23 | a fresh parser agrees with `ExpressionAt` from index 0; on an `EOF`-terminated list it never indexes out of range and stops before the `EOF`; a success is always a left-nested `!=`/`==` chain |
| AstPrint.VisitExpr | src/ast_print.rs:10-44 | binary, grouping and unary nodes print wrapped in parentheses, and binary and unary nodes print their operator first; strings print verbatim and booleans as `true`/`false` |
| AstPrint.IdentifierSpelling | src/ast_print.rs:71-89 | for `AstPrint.TokenToString`: spelling the token that `token_from_identifier` gives for any word returns that word |
| AstPrint.KeywordSpelling | src/ast_print.rs:71-86 | for `AstPrint.TokenToString`: every keyword is spelt as a reserved word that maps back to it |
| AstPrint.PunctuationSpelling | src/ast_print.rs:50-69 | for `AstPrint.TokenToString`: punctuation and operators are spelt as the graphemes the scanner reads for them, with `=` appended for the two-character operators |
| RpnPrint.VariantName | src/scanner.rs:297-346 | every variant has a non-empty name |
| RpnPrint.DebugToken | src/rpn_print.rs:41-43 | a token's pretty `Debug` rendering starts with its variant name, and is exactly that name for the variants without fields |
| RpnPrint.VisitExpr | src/rpn_print.rs:10-45 | a binary node prints its operator's spelling last and a unary node its operator's `Debug` rendering last; a grouping prints in parentheses |
| RpnPrint.LiteralsAgree | src/rpn_print.rs:28-37 | literals print the same as under the AST printer |
| Spelling.ConcatChars | src/scanner.rs:251-277 | joining the one-character graphemes of a text gives the text back |
| Spelling.ScanWord | src/scanner.rs:233-240 | a lone identifier-shaped word scans to the token `token_from_identifier` gives for it, then `EOF`, with no error (dispatched at lines 131-134, looked up at lines 398-418) |
| Spelling.SymbolShape | src/ast_print.rs:50-69 | a non-keyword token with a fixed spelling is spelt as one grapheme that the scanner dispatches to it, or as an operator grapheme followed by `=` |
| Spelling.ScanOneGrapheme | src/scanner.rs:53-109 | a lone punctuation or operator grapheme scans to its token, then `EOF` |
| Spelling.ScanOperatorPair | src/scanner.rs:63-90 | an operator grapheme followed by `=` scans to the two-character token, then `EOF` |
| Spelling.ScanSpelling | src/ast_print.rs:47-95 | `AstPrint.TokenToString` against the scanner: scanning the spelling of any punctuation, operator or keyword token gives back exactly that token, then `EOF`, all on line 1 with no error |
| Pipeline.ChainTree | src/parser.rs:30-47 | the tree of a chain is a parser-shaped tree spelt with as many tokens as the chain has |
| Pipeline.LiteralPrintsAsToken | src/ast_print.rs:31-39 | both printers print a literal the way `token_to_string` prints the token it was parsed from (`token_to_string` at lines 88-91) |
| Pipeline.ChainYields | src/parser.rs:30-47 | a chain of tokens spells its left-nested tree |
| Pipeline.ChainPrintsPrefix | src/ast_print.rs:13-24 | the AST printer renders a chain's tree as a function of the chain's tokens alone |
| Pipeline.ChainPrintsPostfix | src/rpn_print.rs:13-24 | the RPN printer puts each operator after the literal that follows it in the chain |
| Pipeline.ParsePrintChain | src/parser.rs:30-47 | a chain followed by any token other than `!=`/`==` parses to its left-nested tree and stops at that token; both printers render that tree from the tokens |
| Pipeline.LeftFold | src/parser.rs:30-47 | `a == b != c` parses as `(a == b) != c` |
| Pipeline.ArithmeticIsNotParsed | src/parser.rs:49-67 | `1 - 2` parses to the literal `1` and leaves `- 2` unread |
| Pipeline.UnaryIsRejected | src/parser.rs:64-67 | a leading `-` fails as an unexpected token (the fallback arm is at lines 86-88) |
| Pipeline.UnclosedGrouping | src/parser.rs:78-83 | `(1` then `EOF` fails with the missing-parenthesis error |
| Pipeline.ScanOne | src/scanner.rs:127-130 | the first step on `1 == 2;` emits the number `1` |
| Pipeline.ScanEqEq | src/scanner.rs:70-76 | the step at `==` emits `EqualEqual` and consumes both graphemes |
| Pipeline.ScanTwo | src/scanner.rs:127-130 | the step at `2` emits the number `2` |
| Pipeline.ScanSpaces | src/scanner.rs:123-125 | the spaces are skipped |
| Pipeline.ScanOneEqualsTwo | src/parser.rs:130-132 | `1 == 2;` scans to `1`, `==`, `2`, `;` and `EOF`, all on line 1, with no error |
| Pipeline.OneEqualsTwoChain | src/parser.rs:130-134 | the first three tokens form a chain whose tree is `Binary(1, ==, 2)` |
| Pipeline.OneEqualsTwoRendered | src/parser.rs:135 | that chain renders as `(== 1 2)` in prefix form and `1 2 ==` in postfix form |
| Pipeline.OneEqualsTwoPrints | src/parser.rs:128-136 | `1 == 2;` parses to `Binary(1, ==, 2)` with `;` left unread, and prints as `(== 1 2)`, given that the numbers 1 and 2 display as `1` and `2` |

## Left out

- Grapheme segmentation is an external library (`unicode_segmentation`). The model takes the grapheme sequence as input and uses grapheme indices instead of byte offsets.
- `char::is_alphabetic` and `char::is_alphanumeric` are replaced by ASCII letters and ASCII letters and digits, because the Unicode tables are not modelled. `char::is_whitespace` is modelled exactly, as the Unicode White_Space list.
- Tokens.IsIdentifierHead and Tokens.IsIdentifierTail: because of the ASCII stand-in, a non-ASCII letter is not an identifier grapheme. Through them, Scanning.Step, Scanning.LexIdentifier and Scanning.StepErrorFlag end an identifier before it and then report it as an unexpected character, setting the error flag. In the source it starts or continues an identifier.
- Parsing a number lexeme into an `f64` (src/scanner.rs:254) is left out, because floating point is not modelled. A number token keeps its lexeme instead. `Scanning.NumberToken` shows that the lexeme always has a shape the float parser accepts.
- Formatting numbers with `Display` and `Debug`, and strings with `Debug`, are parameters of the printers, for the same reason.
- `report_error` writes a message to standard error. Only its update of the error flag is modelled, so the line and message arguments are dropped.
- The `Debug` implementation of `Scanner` and the `ToString` implementation of `AnnotatedToken` (src/scanner.rs:285-295, 354-358) are only used for output.
- The `peekable` grapheme iterator is replaced by an index into the grapheme sequence. Cloning the iterator in `double_peek` becomes a read at index + 1.
- Indexing past the end of the token list panics in Rust. The model returns a `ParseError` instead (`IndexOutOfRange`), and proves it cannot happen on a list that ends with `EOF`.
- LoxParser.Agrees, and through it LoxParser.Parser.Parse, Expression, Equality, Comparison, Term, Factor, Unary and Primary: after an error, the parser's index is left unspecified. The Rust parser is abandoned at that point anyway.
- `advance_if_matches` and `at_end` (src/parser.rs:104-118) are never called, so they are not modelled.
- Integer overflow of `line_number` and `current_index` (`usize`) is not modelled. Both are unbounded naturals.
- Lifetimes and borrowing have no counterpart in the model.
- The drivers and demos are not part of the model: src/main.rs, src/bin/main.rs, src/bin/ast_printer.rs, src/bin/rpn_printer.rs and src/bin/generate_ast.rs. They are I/O, hard-coded examples or stubs.
- src/expr.rs is not part of the model. It is a stale draft that does not match the `Expr` enum the other files use. `Syntax.Expr` is derived from how the parser and printers use it.
- The precedence levels for comparison, term, factor and unary are not modelled beyond what the code does, which is to pass through to the next level. Modelling the intended grammar would invent behaviour.
