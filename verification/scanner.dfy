/** The SeanieScript scanner as a pure state machine over the source text.
    The cursor is the pair (`current`, `line`); one call of `ScanToken` is one
    call of `scanToken()` after `start = current`, and `ScanFrom` is the
    driving loop of `scanTokens()`. The error sink is the sequence of
    reports, appended in call order. */
module Scanner {
  import opened Tokens
  import opened Cursor

  /** How a block comment finds its end. `AsWritten` is the source's loop
      guard, which halts at a `*` or before a `/`, and its two unconditional
      `advance()` calls; `Intended` halts only at a `*` immediately followed
      by `/` and reports an unterminated comment without reading past the end. */
  datatype CommentRule = AsWritten | Intended

  /** The effect of scanning one token from `start`: either the cursor
      afterwards with the token and report it produced, or an `advance()`
      that read past the end of the source. */
  datatype Step =
    | Step(current: nat, line: int, token: Option<Token>, report: Option<Report>)
    | Overrun(report: Option<Report>, index: nat)

  /** The result of a whole scan. `Crashed` is the out-of-bounds `charAt` that
      escapes `scanTokens()`; the reports already sent to the sink survive it. */
  datatype Outcome =
    | Done(tokens: seq<Token>, reports: seq<Report>)
    | Crashed(reports: seq<Report>, index: nat)

  /** True when a block comment opens at `start`. */
  predicate OpensBlockComment(src: string, start: nat) {
    start + 1 < |src| && src[start] == '/' && src[start + 1] == '*'
  }

  /** `addToken`: the token spanning `start` to `end`, stamped with the
      current line. */
  function Emit(src: string, start: nat, end: nat, line: int, kind: TokenKind, literal: Literal): Step
    requires start <= end <= |src|
  {
    Step(end, line, Some(Token(kind, src[start..end], literal, line)), None)
  }

  /** A character consumed without a token or report. */
  function Skip(end: nat, line: int): Step {
    Step(end, line, None, None)
  }

  predicate NotNewline(c: char) { c != '\n' }

  predicate NotQuote(c: char) { c != '"' }

  /** The halting test of the block-comment loop at position `i`. */
  predicate Closes(rule: CommentRule, src: string, i: nat) {
    match rule
    case AsWritten => Peek(src, i) == '*' || PeekNext(src, i) == '/'
    case Intended => Peek(src, i) == '*' && PeekNext(src, i) == '/'
  }

  /** Where the block-comment loop stops: the first position from `from` on
      at which the rule's halting test holds, or the end of the source. */
  function CommentStop(rule: CommentRule, src: string, from: nat): (stop: nat)
    requires from <= |src|
    ensures from <= stop <= |src|
    ensures forall i | from <= i < stop :: !Closes(rule, src, i)
    ensures stop == |src| || Closes(rule, src, stop)
    decreases |src| - from
  {
    if !Closes(rule, src, from) && from < |src| then CommentStop(rule, src, from + 1) else from
  }

  /** `multiLineComment()`, entered with the cursor after the opening slash and star.
      The loop counts the newlines it passes; the two advances that follow it
      count none. */
  function BlockComment(rule: CommentRule, src: string, start: nat, line: int): (r: Step)
    requires OpensBlockComment(src, start)
    ensures r.Step? ==> start + 2 <= r.current <= |src| && r.token.None?
    ensures r.Step? ==> r.line == line + Newlines(src[start + 2..CommentStop(rule, src, start + 2)])
    ensures r.Overrun? ==> rule == AsWritten && r.index == |src|
  {
    var stop := CommentStop(rule, src, start + 2);
    var ln := line + Newlines(src[start + 2..stop]);
    match rule
    case AsWritten =>
      if stop + 2 <= |src| then Skip(stop + 2, ln)
      else Overrun(if stop >= |src| then Some(Report(ln, UnterminatedComment)) else None, |src|)
    case Intended =>
      if stop >= |src| then Step(stop, ln, None, Some(Report(ln, UnterminatedComment)))
      else Skip(stop + 2, ln)
  }

  /** `string()`, entered with the cursor after the opening quote. */
  function StringLiteral(src: string, start: nat, line: int): (r: Step)
    requires start < |src| && src[start] == '"'
    ensures r.Step? && start < r.current <= |src|
    ensures r.token.Some? <==> '"' in src[start + 1..]
    ensures r.token.Some? ==>
              && start + 2 <= r.current
              && src[r.current - 1] == '"'
              && '"' !in src[start + 1..r.current - 1]
              && r.line == line + Newlines(src[start + 1..r.current - 1])
              && r.token.value == Token(String, src[start..r.current], Text(src[start + 1..r.current - 1]), r.line)
              && r.report.None?
    ensures r.token.None? ==>
              && r.current == |src|
              && r.line == line + Newlines(src[start + 1..])
              && r.report == Some(Report(r.line, UnterminatedString))
  {
    var stop := RunEnd(src, start + 1, NotQuote);
    var ln := line + Newlines(src[start + 1..stop]);
    if stop >= |src| then
      assert src[start + 1..stop] == src[start + 1..];
      Step(stop, ln, None, Some(Report(ln, UnterminatedString)))
    else
      assert src[start + 1..][stop - start - 1] == '"';
      Emit(src, start, stop + 1, ln, String, Text(src[start + 1..stop]))
  }

  predicate AllDigits(s: string) {
    forall i | 0 <= i < |s| :: IsDigit(s[i])
  }

  /** The shape of a number lexeme: a digit run, optionally followed by `.`
      and a second, non-empty digit run. */
  predicate IsNumberLexeme(s: string) {
    || (|s| > 0 && AllDigits(s))
    || (exists k | 0 < k < |s| - 1 :: s[k] == '.' && AllDigits(s[..k]) && AllDigits(s[k + 1..]))
  }

  /** `number()`, entered with the cursor after the first digit. The literal
      is the matched text itself. */
  function NumberLiteral(src: string, start: nat, line: int): (r: Step)
    requires start < |src| && IsDigit(src[start])
    ensures r.Step? && start < r.current <= |src| && r.line == line && r.report.None?
    ensures r.token == Some(Token(Number, src[start..r.current], Numeral(src[start..r.current]), line))
    ensures IsNumberLexeme(src[start..r.current])
    ensures forall i | start <= i < r.current :: IsDigit(src[i]) || src[i] == '.'
    ensures !IsDigit(Peek(src, r.current))
    ensures '.' !in src[start..r.current] ==> !(Peek(src, r.current) == '.' && IsDigit(PeekNext(src, r.current)))
  {
    var whole := RunEnd(src, start + 1, IsDigit);
    if Peek(src, whole) == '.' && IsDigit(PeekNext(src, whole)) then
      var end := RunEnd(src, whole + 1, IsDigit);
      FractionShape(src, start, whole, end);
      Emit(src, start, end, line, Number, Numeral(src[start..end]))
    else
      WholeShape(src, start, whole);
      Emit(src, start, whole, line, Number, Numeral(src[start..whole]))
  }

  /** A digit run alone forms a number lexeme without a `.`. */
  lemma WholeShape(src: string, start: nat, whole: nat)
    requires start < whole <= |src|
    requires forall i | start <= i < whole :: IsDigit(src[i])
    ensures IsNumberLexeme(src[start..whole]) && '.' !in src[start..whole]
    ensures forall i | start <= i < whole :: IsDigit(src[i]) || src[i] == '.'
  {
    assert AllDigits(src[start..whole]);
  }

  /** A digit run, a `.` and a second digit run form a number lexeme. */
  lemma FractionShape(src: string, start: nat, whole: nat, end: nat)
    requires start < whole && whole + 1 < end <= |src|
    requires forall i | start <= i < whole :: IsDigit(src[i])
    requires src[whole] == '.'
    requires forall i | whole < i < end :: IsDigit(src[i])
    ensures IsNumberLexeme(src[start..end]) && '.' in src[start..end]
    ensures forall i | start <= i < end :: IsDigit(src[i]) || src[i] == '.'
  {
    var s, k := src[start..end], whole - start;
    assert s[k] == '.' && s[..k] == src[start..whole] && s[k + 1..] == src[whole + 1..end];
    assert 0 < k < |s| - 1 && s[k] == '.' && AllDigits(s[..k]) && AllDigits(s[k + 1..]);
  }

  /** `identifier()`, entered with the cursor after the first letter. */
  function IdentifierOrKeyword(src: string, start: nat, line: int): (r: Step)
    requires start < |src| && IsAlpha(src[start])
    ensures r.Step? && start < r.current <= |src| && r.line == line && r.report.None?
    ensures forall i | start <= i < r.current :: IsAlphaNumeric(src[i])
    ensures !IsAlphaNumeric(Peek(src, r.current))
    ensures r.token.Some?
    ensures r.token.value.lexeme == src[start..r.current]
    ensures r.token.value.literal == NoLiteral && r.token.value.line == line
    ensures r.token.value.kind.IsReserved() <==> src[start..r.current] in Keywords
    ensures r.token.value.kind.IsReserved() ==> r.token.value.kind == Keywords[src[start..r.current]]
    ensures !r.token.value.kind.IsReserved() ==> r.token.value.kind == Identifier
  {
    var end := RunEnd(src, start + 1, IsAlphaNumeric);
    Emit(src, start, end, line, WordKind(src[start..end]), NoLiteral)
  }

  /** The kind of the ten characters that always form a token on their own. */
  function OneCharKind(c: char): Option<TokenKind> {
    match c
    case '(' => Some(LeftParen)
    case ')' => Some(RightParen)
    case '{' => Some(LeftBrace)
    case '}' => Some(RightBrace)
    case ',' => Some(Comma)
    case '.' => Some(Dot)
    case '-' => Some(Minus)
    case '+' => Some(Plus)
    case ';' => Some(Semicolon)
    case '*' => Some(Star)
    case _ => None
  }

  /** The kind of `!`, `=`, `<` or `>`, given whether `=` follows it. */
  function OperatorKind(c: char, eq: bool): TokenKind {
    match c
    case '!' => if eq then BangEquals else Bang
    case '=' => if eq then EqualEqual else Equal
    case '<' => if eq then LessEqual else Less
    case _ => if eq then GreaterEqual else Greater
  }

  /** `scanToken()`, called with `start == current` and input remaining. */
  function ScanToken(rule: CommentRule, src: string, start: nat, line: int): (r: Step)
    requires start < |src|
    ensures r.Step? ==> start < r.current <= |src| && line <= r.line
    ensures r.Step? && r.token.Some? ==>
              && r.token.value.lexeme == src[start..r.current]
              && r.token.value.line == r.line
              && r.token.value.kind != Eof
    ensures r.Step? && r.report.Some? ==> r.report.value.line == r.line
    ensures r.Overrun? ==> rule == AsWritten && r.index == |src| && OpensBlockComment(src, start)
  {
    var c := src[start];
    var current := start + 1;
    if OneCharKind(c).Some? then Emit(src, start, current, line, OneCharKind(c).value, NoLiteral)
    else if c in "!=<>" then
      var (eq, end) := Match(src, current, '=');
      Emit(src, start, end, line, OperatorKind(c, eq), NoLiteral)
    else if c == '/' then
      var (lineComment, afterSlash) := Match(src, current, '/');
      if lineComment then Skip(RunEnd(src, afterSlash, NotNewline), line)
      else
        var (blockComment, _) := Match(src, current, '*');
        if blockComment then BlockComment(rule, src, start, line)
        else Emit(src, start, current, line, Slash, NoLiteral)
    else if c == ' ' || c == '\r' || c == '\t' then Skip(current, line)
    else if c == '\n' then Skip(current, line + 1)
    else if c == '"' then StringLiteral(src, start, line)
    else if IsDigit(c) then NumberLiteral(src, start, line)
    else if IsAlpha(c) then IdentifierOrKeyword(src, start, line)
    else Step(current, line, None, Some(Report(line, UnexpectedCharacter)))
  }

  /** `next` takes a step from every position before `size`, and a step
      that does not overrun moves forward without passing `size`. */
  ghost predicate Advances(next: (nat, int) --> Step, size: nat) {
    forall c: nat, l: int | c < size ::
      next.requires(c, l) && (next(c, l).Step? ==> c < next(c, l).current <= size)
  }

  /** The driving loop of `scanTokens()`, over a per-token step function
      `next`, from cursor (`current`, `line`) with the tokens and reports
      produced so far. At `size` one `Eof` token is appended, stamped with
      the line reached; a step that reads past the end ends the scan with the
      reports made so far. */
  function Drive(next: (nat, int) --> Step, size: nat, current: nat, line: int,
                 tokens: seq<Token>, reports: seq<Report>): Outcome
    requires current <= size && Advances(next, size)
    decreases size - current
  {
    if current >= size then
      Done(tokens + [Token(Eof, "", NoLiteral, line)], reports)
    else
      match next(current, line)
      case Overrun(report, index) => Crashed(reports + Elements(report), index)
      case Step(after, afterLine, token, report) =>
        Drive(next, size, after, afterLine, tokens + Elements(token), reports + Elements(report))
  }

  /** `scanToken()` on `src` as a step function of the cursor. */
  function Stepper(rule: CommentRule, src: string): (next: (nat, int) --> Step)
    ensures Advances(next, |src|)
  {
    (c: nat, l: int) requires c < |src| => ScanToken(rule, src, c, l)
  }

  /** The scanner's driving loop from cursor (`current`, `line`). */
  function ScanFrom(rule: CommentRule, src: string, current: nat, line: int,
                    tokens: seq<Token>, reports: seq<Report>): Outcome
    requires current <= |src|
  {
    Drive(Stepper(rule, src), |src|, current, line, tokens, reports)
  }

  /** One turn of the driving loop: a step that does not overrun hands its
      cursor to the rest of the scan, with its token and report appended. */
  lemma ScanFromStep(rule: CommentRule, src: string, current: nat, line: int,
                     tokens: seq<Token>, reports: seq<Report>, step: Step)
    requires current < |src| && ScanToken(rule, src, current, line) == step && step.Step?
    ensures ScanFrom(rule, src, current, line, tokens, reports)
         == ScanFrom(rule, src, step.current, step.line, tokens + Elements(step.token), reports + Elements(step.report))
  {
  }

  /** A whole scan of `src` from offset 0 on line 1. */
  function ScanWith(rule: CommentRule, src: string): Outcome {
    ScanFrom(rule, src, 0, 1, [], [])
  }

  /** `new Scanner(src).scanTokens()`: the source's scanner. */
  function Scan(src: string): Outcome {
    ScanWith(AsWritten, src)
  }

  /** The same scan with a block comment that ends only at `*` followed by
      `/`. */
  function ScanIntended(src: string): Outcome {
    ScanWith(Intended, src)
  }
}
