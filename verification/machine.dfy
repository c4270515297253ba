/** The scanner as the source writes it: a cursor advanced by while loops,
    one method per private method of the scanner class. Each method is
    proved to compute exactly what the functional model in `Scanner`
    computes, so every property proved there holds of these loops. */
module CursorMachine {
  import opened Tokens
  import opened Cursor
  import opened Scanner

  /** The line-comment loop: advance while the unread character is not a
      newline and input remains. */
  method SkipLineComment(src: string, current: nat) returns (cur: nat)
    requires current <= |src|
    ensures cur == RunEnd(src, current, NotNewline)
  {
    cur := current;
    while Peek(src, cur) != '\n' && cur < |src|
      invariant current <= cur <= |src|
      invariant RunEnd(src, cur, NotNewline) == RunEnd(src, current, NotNewline)
      decreases |src| - cur
    {
      cur := cur + 1;
    }
  }

  /** The loop shared by `number()` and `identifier()`: advance while the
      unread character is in the class. */
  method SkipClass(src: string, current: nat, inClass: char -> bool) returns (cur: nat)
    requires current <= |src|
    requires !inClass(NUL)
    ensures cur == RunEnd(src, current, inClass)
  {
    cur := current;
    while inClass(Peek(src, cur))
      invariant current <= cur <= |src|
      invariant RunEnd(src, cur, inClass) == RunEnd(src, current, inClass)
      decreases |src| - cur
    {
      cur := cur + 1;
    }
  }

  /** `multiLineComment()`, entered after the opening slash and star. */
  method MultiLineComment(src: string, start: nat, line: int) returns (step: Step)
    requires OpensBlockComment(src, start)
    ensures step == BlockComment(AsWritten, src, start, line)
  {
    var cur, ln := start + 2, line;
    while Peek(src, cur) != '*' && PeekNext(src, cur) != '/' && cur < |src|
      invariant start + 2 <= cur <= |src|
      invariant CommentStop(AsWritten, src, cur) == CommentStop(AsWritten, src, start + 2)
      invariant ln == line + Newlines(src[start + 2..cur])
      decreases |src| - cur
    {
      NewlinesStep(src, start + 2, cur);
      assert Peek(src, cur) == src[cur];
      if Peek(src, cur) == '\n' {
        ln := ln + 1;
      }
      cur := cur + 1;
    }
    var report: Option<Report> := None;
    if cur >= |src| {
      report := Some(Report(ln, UnterminatedComment));
    }
    // two unconditional advance() calls, each reading src[cur]
    if cur >= |src| {
      return Overrun(report, cur);
    }
    cur := cur + 1;
    if cur >= |src| {
      return Overrun(report, cur);
    }
    cur := cur + 1;
    step := Step(cur, ln, None, report);
  }

  /** The loop of `string()`: advance to the closing quote or the end,
      counting the newlines passed. */
  method SkipStringBody(src: string, from: nat, line: int) returns (cur: nat, ln: int)
    requires from <= |src|
    ensures cur == RunEnd(src, from, NotQuote)
    ensures ln == line + Newlines(src[from..cur])
  {
    cur, ln := from, line;
    while Peek(src, cur) != '"' && cur < |src|
      invariant from <= cur <= |src|
      invariant RunEnd(src, cur, NotQuote) == RunEnd(src, from, NotQuote)
      invariant ln == line + Newlines(src[from..cur])
      decreases |src| - cur
    {
      NewlinesStep(src, from, cur);
      if Peek(src, cur) == '\n' {
        ln := ln + 1;
      }
      cur := cur + 1;
    }
  }

  /** `string()`, entered after the opening quote. */
  method StringLiteralLoop(src: string, start: nat, line: int) returns (step: Step)
    requires start < |src| && src[start] == '"'
    ensures step == StringLiteral(src, start, line)
  {
    var cur, ln := SkipStringBody(src, start + 1, line);
    if cur >= |src| {
      return Step(cur, ln, None, Some(Report(ln, UnterminatedString)));
    }
    cur := cur + 1;
    var value := src[start + 1..cur - 1];
    step := Emit(src, start, cur, ln, String, Text(value));
  }

  /** `number()`, entered after the first digit. */
  method NumberLoop(src: string, start: nat, line: int) returns (step: Step)
    requires start < |src| && IsDigit(src[start])
    ensures step == NumberLiteral(src, start, line)
  {
    var cur := SkipClass(src, start + 1, IsDigit);
    if Peek(src, cur) == '.' && IsDigit(PeekNext(src, cur)) {
      // do advance(); while (isDigit(peek()));
      cur := SkipClass(src, cur + 1, IsDigit);
    }
    step := Emit(src, start, cur, line, Number, Numeral(src[start..cur]));
  }

  /** `identifier()`, entered after the first letter. */
  method IdentifierLoop(src: string, start: nat, line: int) returns (step: Step)
    requires start < |src| && IsAlpha(src[start])
    ensures step == IdentifierOrKeyword(src, start, line)
  {
    var cur := SkipClass(src, start + 1, IsAlphaNumeric);
    var text := src[start..cur];
    var kind := if text in Keywords then Keywords[text] else Identifier;
    step := Emit(src, start, cur, line, kind, NoLiteral);
  }

  /** `scanToken()` with `start == current` and input remaining. */
  method ScanOne(src: string, start: nat, line: int) returns (step: Step)
    requires start < |src|
    ensures step == ScanToken(AsWritten, src, start, line)
  {
    var c := src[start];
    var current := start + 1;
    match c {
      case '(' => step := Emit(src, start, current, line, LeftParen, NoLiteral);
      case ')' => step := Emit(src, start, current, line, RightParen, NoLiteral);
      case '{' => step := Emit(src, start, current, line, LeftBrace, NoLiteral);
      case '}' => step := Emit(src, start, current, line, RightBrace, NoLiteral);
      case ',' => step := Emit(src, start, current, line, Comma, NoLiteral);
      case '.' => step := Emit(src, start, current, line, Dot, NoLiteral);
      case '-' => step := Emit(src, start, current, line, Minus, NoLiteral);
      case '+' => step := Emit(src, start, current, line, Plus, NoLiteral);
      case ';' => step := Emit(src, start, current, line, Semicolon, NoLiteral);
      case '*' => step := Emit(src, start, current, line, Star, NoLiteral);
      case '!' =>
        var m := Match(src, current, '=');
        step := Emit(src, start, m.1, line, if m.0 then BangEquals else Bang, NoLiteral);
      case '=' =>
        var m := Match(src, current, '=');
        step := Emit(src, start, m.1, line, if m.0 then EqualEqual else Equal, NoLiteral);
      case '<' =>
        var m := Match(src, current, '=');
        step := Emit(src, start, m.1, line, if m.0 then LessEqual else Less, NoLiteral);
      case '>' =>
        var m := Match(src, current, '=');
        step := Emit(src, start, m.1, line, if m.0 then GreaterEqual else Greater, NoLiteral);
      case '/' =>
        var slash := Match(src, current, '/');
        if slash.0 {
          var end := SkipLineComment(src, slash.1);
          step := Skip(end, line);
        } else {
          var star := Match(src, current, '*');
          if star.0 {
            step := MultiLineComment(src, start, line);
          } else {
            step := Emit(src, start, current, line, Slash, NoLiteral);
          }
        }
      case ' ' | '\r' | '\t' => step := Skip(current, line);
      case '\n' => step := Skip(current, line + 1);
      case '"' => step := StringLiteralLoop(src, start, line);
      case _ =>
        if IsDigit(c) {
          step := NumberLoop(src, start, line);
        } else if IsAlpha(c) {
          step := IdentifierLoop(src, start, line);
        } else {
          step := Step(current, line, None, Some(Report(line, UnexpectedCharacter)));
        }
    }
  }

  /** `scanTokens()`: scan one token at a time until the cursor reaches the
      end, then append the end-of-input token. An `advance()` past the end
      ends the scan with the reports made so far. */
  method ScanTokens(src: string) returns (outcome: Outcome)
    ensures outcome == Scan(src)
  {
    var current, line := 0, 1;
    var tokens: seq<Token>, reports: seq<Report> := [], [];
    while current < |src|
      invariant current <= |src|
      invariant ScanFrom(AsWritten, src, current, line, tokens, reports) == Scan(src)
      decreases |src| - current
    {
      var start := current;
      var step := ScanOne(src, start, line);
      match step {
        case Overrun(report, index) =>
          return Crashed(reports + Elements(report), index);
        case Step(next, nextLine, token, report) =>
          current, line := next, nextLine;
          tokens := tokens + Elements(token);
          reports := reports + Elements(report);
      }
    }
    outcome := Done(tokens + [Token(Eof, "", NoLiteral, line)], reports);
  }
}
