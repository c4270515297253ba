# SeanieScript scanner in Dafny

This project models the lexical scanner of SeanieScript, a Lox-style
scripting language. The scanner is one left-to-right pass over the source
text. It keeps three counters:
- `start`, the first character of the token being scanned;
- `current`, the next unread character;
- `line`, the current line number.

Each call of `scanToken()` consumes one token's worth of characters. It then
does one of three things: appends a token (kind, lexeme, literal, line),
skips the characters silently, or reports a lexical error to an external
sink. `scanTokens()` repeats this until the input is used up and then
appends the end-of-input token.

The repository holds two copies of the scanner:
`src/main/java/interp/Scanner.java` and the default-package
`src/main/java/Scanner.java`. They differ only in how token types are
qualified, and the second copy's line numbers are 4 lower. One model covers
both:

- `Tokens` (tokens.dfy) holds the output types and the keyword table:
  - `TokenKind`, `Literal`, `Token`, and `Report` for a `(line, message)`
    call of the error sink;
  - the keyword table as a `map`;
  - `Spelling`, a definition of each reserved word written independently of
    the table, so the table can be checked against it.
- `Cursor` (cursor.dfy) holds the cursor primitives `peek`, `peekNext` and
  `match`, and the character classes. `RunEnd` is the end of a maximal run,
  the shape of every `while (p(peek())) advance();` loop. `Newlines` counts
  newline characters.
- `Scanner` (scanner.dfy) is the functional model:
  - one function per sub-scanner;
  - `ScanToken`, one call of `scanToken()`, which returns a `Step` (new
    cursor, new line, optional token, optional report) or an `Overrun`
    (the source's `charAt` past the end of the string);
  - `Drive`, the loop of `scanTokens()`;
  - `Scan`, the whole scan, whose `Outcome` is either
    `Done(tokens, reports)` or `Crashed(reports, index)`.

  The block-comment skipper takes a `CommentRule` parameter. `AsWritten` is
  the source's loop. `Intended` is the corrected loop that stops only at
  `*/`; the Findings section below uses it. `Scan` always uses `AsWritten`.
- `Loop` (loop.dfy) proves the properties of the driving loop once, for any
  step function that has the matching property one step at a time.
- `StepProperties` (steps.dfy) states what one `scanToken()` does for each
  character class.
- `ScanProperties` (properties.dfy) states properties of a whole scan:
  - the end-of-input token;
  - lexemes as source slices;
  - the order of line stamps and the line count;
  - when a scan can crash.
- `CursorMachine` (machine.dfy) mirrors the Java methods statement by
  statement: while loops over a cursor. Each method is proved equal to the
  functional model, so every property above also holds of the loops.
- `BlockCommentDefects` (block_comment_defects.dfy) shows the
  block-comment defects on concrete inputs, next to the corrected rule.
- `ScanCases` (cases.dfy) works single tokens and one whole scan out on
  short concrete sources.

Every lexical error but one is reported and the scan goes on. The
exception is the block-comment skipper: it always makes two more
`advance()` calls, even at the end of the input, and so can throw. The
model makes this the `Crashed` outcome. `CrashNeedsCommentOpener` proves
that a crash needs a `/` followed by `*` somewhere in the source.

## Model

| member | source | states |
|---|---|---|
| Tokens.WordKind | src/main/java/interp/Scanner.java:172-174 | a word's kind is a reserved kind exactly when the word is in the keyword table, that kind is the one spelled by the word, and every other word is an identifier |
| Tokens.SpellingsAreKeywords | src/main/java/interp/Scanner.java:17-34 | every one of the sixteen reserved kinds has its spelling in the table, mapped back to that kind |
| Tokens.KeywordsAreSpellings | src/main/java/interp/Scanner.java:17-34 | every table entry maps a word to a reserved kind whose spelling is that word, so the table is exactly the sixteen-word bijection |
| Cursor.Match | src/main/java/interp/Scanner.java:107-112 | consumes the expected character exactly when it is the unread one; at end of input or on a mismatch the cursor does not move |
| Cursor.RunEnd | src/main/java/interp/Scanner.java:170 | the loop stops at the end of the maximal run of characters in the class: every skipped character is in it, and the stopping one is not, or input ended |
| Cursor.RunEndUnique | src/main/java/interp/Scanner.java:170 | any position that bounds such a run and is followed by a character outside the class is the loop's stopping point |
| Scanner.CommentStop | src/main/java/interp/Scanner.java:125-128 | the block-comment loop stops at the first position where the halting test holds, or at the end; it holds at no earlier position |
| Scanner.BlockComment | src/main/java/interp/Scanner.java:124-135 | entered at `/` followed by `*` (lines 73-74); a completed comment consumes at least its opener and emits no token, its line is raised by exactly the newlines the loop passed, and an overrun reads index `|src|` and happens only with the as-written rule |
| Scanner.StringLiteral | src/main/java/interp/Scanner.java:137-151 | entered at a quote (line 81); a token is emitted exactly when a closing quote follows; it ends at the first quote, its literal is the text strictly between the quotes, its lexeme includes both, and its line counts the embedded newlines; otherwise "Unterminated string" is reported at the end of input and no token is emitted |
| Scanner.NumberLiteral | src/main/java/interp/Scanner.java:157-167 | entered at a digit (lines 83-84); the lexeme has the number shape (digits, optionally `.` and more digits), is its own literal, and is maximal: no digit follows, and a `.` followed by a digit follows only if the lexeme already has one |
| Scanner.IdentifierOrKeyword | src/main/java/interp/Scanner.java:169-176 | entered at a letter or underscore (lines 85-86); the lexeme is the maximal alphanumeric run, with no literal; its kind is the table's entry exactly when the lexeme is a reserved word, and otherwise an identifier |
| Scanner.ScanToken | src/main/java/interp/Scanner.java:53-92 | every step consumes at least one character and never lowers the line; a token's lexeme is the consumed slice, it is stamped with the line the step ends on, and it is never end of input; an overrun happens only at a block-comment opener under the as-written rule |
| Scanner.Stepper | src/main/java/interp/Scanner.java:41-44 | every iteration of the scan loop moves the cursor forward without passing the end, so the loop terminates |
| StepProperties.Punctuation | src/main/java/interp/Scanner.java:56-65 | each of the ten punctuation characters becomes a one-character token of its own kind, with no literal |
| StepProperties.OneOrTwoCharOperators | src/main/java/interp/Scanner.java:66-69 | `!`, `=`, `<`, `>` take the two-character kind exactly when `=` follows, which is then consumed; otherwise only the operator is consumed |
| StepProperties.LoneSlash | src/main/java/interp/Scanner.java:70-77 | a slash that starts no comment becomes the division token |
| StepProperties.Whitespace | src/main/java/interp/Scanner.java:79-80 | space, carriage return and tab are consumed silently; a newline is too, and raises the line by one |
| StepProperties.LineComment | src/main/java/interp/Scanner.java:71-72 | `//` discards everything up to but excluding the next newline, or to the end, without a token or a line change |
| StepProperties.UnexpectedCharacters | src/main/java/interp/Scanner.java:82-90 | any other character is consumed alone and "Unexpected character." is reported at the current line |
| StepProperties.AsWrittenBlockComment | src/main/java/interp/Scanner.java:124-135 | the source's loop stops at the first `*` or the first character followed by `/`; two characters are then consumed regardless, so an unterminated comment is reported and then the scan reads past the end, and a stop one character before the end also reads past it |
| ScanProperties.StringLines | src/main/java/interp/Scanner.java:137-141 | a string step raises the line by exactly the newlines it consumes |
| ScanProperties.CommentLines | src/main/java/interp/Scanner.java:124-135 | a block-comment step never raises the line by more than the newlines it consumes, and under the corrected rule by exactly that many |
| ScanProperties.PlainLines | src/main/java/interp/Scanner.java:53-92 | every step that is not a string or a block comment completes and raises the line by exactly the newlines it consumes |
| ScanProperties.StepLines | src/main/java/interp/Scanner.java:53-92 | one step raises the line by at most the newlines it consumes, and by exactly that many except at a block comment under the as-written rule |
| ScanProperties.ScanEndsWithEof | src/main/java/interp/Scanner.java:40-47 | a completed scan ends with exactly one end-of-input token, with an empty lexeme and no literal, and no earlier token is end of input |
| ScanProperties.LexemesAreSlices | src/main/java/interp/Scanner.java:102-105 | every token but the last is the exact slice of the source it was scanned from, and the slices are in order and do not overlap |
| ScanProperties.TokenLinesOrdered | src/main/java/interp/Scanner.java:45 | line stamps are at least 1 and never decrease along the token list |
| ScanProperties.ScanFromLineBound | src/main/java/interp/Scanner.java:40-47 | from any cursor, the end-of-input line is at most the cursor's line plus the newlines still unread |
| ScanProperties.ScanFromLineExact | src/main/java/interp/Scanner.java:40-47 | from a cursor with no `/*` pair after it, or from any cursor under the corrected rule, the scan completes and its end-of-input line is the cursor's line plus the newlines still unread |
| ScanProperties.IntendedScanCountsEveryLine | src/main/java/interp/Scanner.java:124-135 | with the corrected comment rule a scan never crashes, and its end-of-input token is on line 1 plus the number of newlines in the source |
| ScanProperties.ScanLineCount | src/main/java/interp/Scanner.java:40-47 | the source's scan never stamps end of input past line 1 plus the number of newlines, and when the pair `/*` occurs nowhere in the source (not even in a string or a line comment) it completes with exactly that line |
| ScanProperties.CrashNeedsCommentOpener | src/main/java/interp/Scanner.java:133-134 | a scan crashes only under the as-written rule, only by reading index `|src|`, and only if the pair `/*` occurs somewhere in the source |
| CursorMachine.SkipLineComment | src/main/java/Scanner.java:68 | the line-comment loop stops where the maximal run of non-newline characters ends |
| CursorMachine.SkipClass | src/main/java/Scanner.java:166 | the digit and identifier loops stop where the maximal run of the class ends |
| CursorMachine.MultiLineComment | src/main/java/Scanner.java:120-131 | the Java comment loop, its line counting and the two unconditional advances compute the as-written block comment, including the overrun |
| CursorMachine.SkipStringBody | src/main/java/Scanner.java:134-137 | the string loop stops at the first quote or the end, having counted the newlines it passed |
| CursorMachine.StringLiteralLoop | src/main/java/Scanner.java:133-147 | the Java `string()` computes the functional string step |
| CursorMachine.NumberLoop | src/main/java/Scanner.java:153-163 | the Java `number()`, with its `do`-`while` fraction loop, computes the functional number step |
| CursorMachine.IdentifierLoop | src/main/java/Scanner.java:165-172 | the Java `identifier()`, with its table lookup and default, computes the functional identifier step |
| CursorMachine.ScanOne | src/main/java/Scanner.java:49-88 | the Java `switch` of `scanToken()` computes the functional step for every character |
| CursorMachine.ScanTokens | src/main/java/Scanner.java:36-43 | the Java driving loop computes the functional scan, crash included |
| BlockCommentDefects.IntendedBlockComment | src/main/java/interp/Scanner.java:124-135 | under the corrected rule a comment ends right after the first `*/`, counting every newline it consumes; with no `*/` it runs to the end and is reported as unterminated, without reading past the end |
| BlockCommentDefects.IntendedStop | src/main/java/interp/Scanner.java:125 | the corrected loop stops at the first `*` followed by `/`, or at the end |
| BlockCommentDefects.StrayStarEndsComment | src/main/java/interp/Scanner.java:125 | on `/* a * b */` the source's comment ends after the lone `*`, and `b`, `*` and `/` are then scanned as code |
| BlockCommentDefects.StrayStarSkipped | src/main/java/interp/Scanner.java:125 | the corrected rule skips the same comment whole, and the scan yields only end of input |
| BlockCommentDefects.UnterminatedCommentCrashes | src/main/java/interp/Scanner.java:130-134 | on `/*` the source reports the unterminated comment and then crashes reading index 2; the corrected rule reports it and completes |
| BlockCommentDefects.CommentCloseSwallowsNewline | src/main/java/interp/Scanner.java:125-134 | on a comment whose stray `*` is followed by a newline, the source consumes that newline without counting it and ends on line 1 of a two-line source; the corrected rule ends on line 2 |
| ScanCases.TrailingDotIsSeparate | src/main/java/interp/Scanner.java:157-166 | on `3.` the number stops before the dot, which no digit follows, and the dot is then its own token |
| ScanCases.DecimalNumber | src/main/java/interp/Scanner.java:157-166 | on `12.5;` a dot between digits belongs to the number, whose lexeme `12.5` is also its literal |
| ScanCases.ReservedWord | src/main/java/interp/Scanner.java:169-176 | `while` comes out as the reserved kind, with no literal, stamped with the current line |
| ScanCases.StringAcrossLines | src/main/java/interp/Scanner.java:137-151 | a string with an embedded newline is stamped with the line it ends on, and its literal drops the quotes |
| ScanCases.UnterminatedStringReported | src/main/java/interp/Scanner.java:143-146 | on `"ab` the string runs to the end, emits no token and reports "Unterminated string" |
| ScanCases.CommentThenNumber | src/main/java/interp/Scanner.java:40-47 | on `//`, newline, `7` the whole scan yields the number on line 2 and end of input on line 2, with no report |

## Left out

- `Double.parseDouble` in `number()`: a NUMBER token's literal is its matched lexeme, `Numeral(lexeme)`, not a floating-point value.
- `SeanieScript.error` is not part of this model. Each call is an entry `Report(line, message)` appended to the outcome's report list, in call order.
- The exception thrown by `charAt` past the end is the `Crashed` outcome. It carries the reports made so far and the index read. The Java exception type and the discarded token list are not modelled.
- Java `int` overflow of `line` and `current` is not modelled: both are unbounded integers. Overflow would need a source of more than 2^31 characters.
- Java `char` is a UTF-16 code unit, while a Dafny `char` is a Unicode scalar value. The two agree on every character of the Basic Multilingual Plane outside the surrogate range. A character beyond it, such as U+1F600, is one Dafny `char` but two Java `char`s, and this changes what is observed. The model consumes it in one step and reports "Unexpected character." once. `scanToken()` (src/main/java/interp/Scanner.java:54, 88) reports it twice, once per surrogate. Cursor offsets, the `Crashed` index and the positions in `LexemesAreSlices` count Unicode scalars, not UTF-16 units.
- `Token.toString` and the Lombok-generated constructor are formatting and annotation plumbing. `Token` is a datatype.
- `Map.ofEntries` is modelled by a `map` literal; its hashing is not modelled.
- `src/main/java/tool/GenerateAst.java` (an AST code generator built on file I/O) and `src/main/java/interp/Expr.java` (generated AST classes) are not part of the scanner.
- `isAtEnd`, `advance`, `peek`, `peekNext`, `isDigit`, `isAlpha`, `isAlphaNumeric` and `addToken` are modelled as `Peek`, `PeekNext`, the character-class predicates, `Emit` and explicit cursor arithmetic. They appear inside the contracts above rather than in rows of their own.
- `scanTokens()` (src/main/java/interp/Scanner.java:40-47) is modelled by `Scanner.Drive`, the driving loop over any step function, run on `scanToken()` by `Scanner.ScanFrom`, `Scanner.ScanWith` and `Scanner.Scan`. These are definitions without contracts of their own: what they promise is stated by the `ScanProperties` rows and by `CursorMachine.ScanTokens`, which proves the Java loop equal to `Scan`.

## Findings

| source | as written | input that shows it | evidently intended | confidence | as-written member | corrected member |
|---|---|---|---|---|---|---|
| src/main/java/interp/Scanner.java:125 | the comment loop stops when the unread character is `*` OR the next one is `/` (the negated `&&` guard) | `/* a * b */`: the comment ends two characters after the lone `*`, and `b */` is scanned as an identifier, a star and a slash | stop only when `*` is immediately followed by `/` | high; not executed | BlockCommentDefects.StrayStarEndsComment | BlockCommentDefects.IntendedBlockComment |
| src/main/java/interp/Scanner.java:130-134 | after reporting "Unterminated comment", two `advance()` calls read `charAt(|src|)` | `/*`: reported, then index 2 of a two-character string is read and the scan throws | report the unterminated comment and finish the scan | high; not executed | BlockCommentDefects.UnterminatedCommentCrashes | ScanProperties.IntendedScanCountsEveryLine |
| src/main/java/interp/Scanner.java:133-134 | the two unconditional advances after the loop consume characters without counting newlines | `/* *\n */`: the stray `*` stops the loop, the advances consume `*` and the newline, and end of input is stamped line 1 in a two-line source | every consumed newline raises the line counter | high; not executed | BlockCommentDefects.CommentCloseSwallowsNewline | ScanProperties.IntendedScanCountsEveryLine |
