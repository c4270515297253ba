/** What one call of `scanToken()` does, character class by character class. */
module StepProperties {
  import opened Tokens
  import opened Cursor
  import opened Scanner

  /** The ten punctuation characters each become a one-character token of
      their own kind. */
  lemma Punctuation(rule: CommentRule, src: string, start: nat, line: int)
    requires start < |src| && src[start] in "(){},.-+;*"
    ensures var r := ScanToken(rule, src, start, line);
            && r.Step? && r.current == start + 1 && r.line == line && r.report.None?
            && r.token.Some? && r.token.value.lexeme == [src[start]] && r.token.value.literal == NoLiteral
    ensures var k := ScanToken(rule, src, start, line).token.value.kind;
            && (src[start] == '(' ==> k == LeftParen)
            && (src[start] == ')' ==> k == RightParen)
            && (src[start] == '{' ==> k == LeftBrace)
            && (src[start] == '}' ==> k == RightBrace)
            && (src[start] == ',' ==> k == Comma)
            && (src[start] == '.' ==> k == Dot)
            && (src[start] == '-' ==> k == Minus)
            && (src[start] == '+' ==> k == Plus)
            && (src[start] == ';' ==> k == Semicolon)
            && (src[start] == '*' ==> k == Star)
  {
    assert src[start..start + 1] == [src[start]];
  }

  /** `!`, `=`, `<` and `>` take the two-character kind exactly when the next
      character is `=`, which is then consumed; otherwise the cursor stays
      right after the operator. */
  lemma OneOrTwoCharOperators(rule: CommentRule, src: string, start: nat, line: int)
    requires start < |src| && src[start] in "!=<>"
    ensures var r := ScanToken(rule, src, start, line);
            var eq := start + 1 < |src| && src[start + 1] == '=';
            && r.Step? && r.line == line && r.report.None?
            && r.current == (if eq then start + 2 else start + 1)
            && r.token.Some? && r.token.value.literal == NoLiteral
    ensures var k := ScanToken(rule, src, start, line).token.value.kind;
            var eq := start + 1 < |src| && src[start + 1] == '=';
            && (src[start] == '!' ==> k == (if eq then BangEquals else Bang))
            && (src[start] == '=' ==> k == (if eq then EqualEqual else Equal))
            && (src[start] == '<' ==> k == (if eq then LessEqual else Less))
            && (src[start] == '>' ==> k == (if eq then GreaterEqual else Greater))
  {
  }

  /** A slash that starts neither kind of comment is the division token. */
  lemma LoneSlash(rule: CommentRule, src: string, start: nat, line: int)
    requires start < |src| && src[start] == '/'
    requires !(start + 1 < |src| && src[start + 1] in "/*")
    ensures ScanToken(rule, src, start, line) == Step(start + 1, line, Some(Token(Slash, "/", NoLiteral, line)), None)
  {
    assert src[start..start + 1] == "/";
  }

  /** Space, carriage return and tab are consumed without a token; a newline
      likewise, and raises the line counter by one. */
  lemma Whitespace(rule: CommentRule, src: string, start: nat, line: int)
    requires start < |src| && src[start] in " \r\t\n"
    ensures ScanToken(rule, src, start, line)
         == Step(start + 1, if src[start] == '\n' then line + 1 else line, None, None)
  {
  }

  /** `//` discards everything up to, not including, the next newline, or to
      the end of the source, without a token or a line change. */
  lemma LineComment(rule: CommentRule, src: string, start: nat, line: int)
    requires start + 1 < |src| && src[start] == '/' && src[start + 1] == '/'
    ensures var r := ScanToken(rule, src, start, line);
            && r.Step? && r.token.None? && r.report.None? && r.line == line
            && start + 2 <= r.current <= |src|
            && (forall i | start + 2 <= i < r.current :: src[i] != '\n')
            && (r.current == |src| || src[r.current] == '\n')
  {
  }

  /** Any character the scanner does not recognise is consumed alone and
      reported as unexpected, at the current line, without a token. */
  lemma UnexpectedCharacters(rule: CommentRule, src: string, start: nat, line: int)
    requires start < |src|
    requires src[start] !in "(){},.-+;*!=<>/ \r\t\n\"" && !IsDigit(src[start]) && !IsAlpha(src[start])
    ensures ScanToken(rule, src, start, line)
         == Step(start + 1, line, None, Some(Report(line, UnexpectedCharacter)))
  {
  }

  /** A quote hands the rest of the token to the string scanner. */
  lemma StringDispatch(rule: CommentRule, src: string, start: nat, line: int)
    requires start < |src| && src[start] == '"'
    ensures ScanToken(rule, src, start, line) == StringLiteral(src, start, line)
  {
  }

  /** A digit hands the rest of the token to the number scanner. */
  lemma NumberDispatch(rule: CommentRule, src: string, start: nat, line: int)
    requires start < |src| && IsDigit(src[start])
    ensures ScanToken(rule, src, start, line) == NumberLiteral(src, start, line)
  {
    var c := src[start];
    assert OneCharKind(c).None? && c !in "!=<>" && c !in "/ \r\t\n\"";
  }

  /** A letter or underscore hands the rest of the token to the identifier
      scanner. */
  lemma WordDispatch(rule: CommentRule, src: string, start: nat, line: int)
    requires start < |src| && IsAlpha(src[start])
    ensures ScanToken(rule, src, start, line) == IdentifierOrKeyword(src, start, line)
  {
    var c := src[start];
    assert OneCharKind(c).None? && c !in "!=<>" && c !in "/ \r\t\n\"" && !IsDigit(c);
  }

  /** A slash followed by a star hands the rest of the step to the block
      comment skipper. */
  lemma BlockCommentDispatch(rule: CommentRule, src: string, start: nat, line: int)
    requires OpensBlockComment(src, start)
    ensures ScanToken(rule, src, start, line) == BlockComment(rule, src, start, line)
  {
  }

  /** The block comment as the source writes it. The loop stops at the first
      position, from just after the opener, where the unread character is
      `*` or the one after it is `/`, or at the end; it counts the newlines
      it passes. Two characters are then consumed regardless: if the loop
      reached the end, "Unterminated comment" is reported and the first of
      them reads past the source; if one character remained, the second one
      does. Otherwise the comment ends two characters after the stop. No
      token is emitted. */
  lemma AsWrittenBlockComment(src: string, start: nat, line: int)
    requires OpensBlockComment(src, start)
    ensures var r := ScanToken(AsWritten, src, start, line);
            var stop := CommentStop(AsWritten, src, start + 2);
            && (forall i | start + 2 <= i < stop :: src[i] != '*' && PeekNext(src, i) != '/')
            && (stop < |src| ==> src[stop] == '*' || PeekNext(src, stop) == '/')
            && (stop == |src| ==>
                  r == Overrun(Some(Report(line + Newlines(src[start + 2..]), UnterminatedComment)), |src|))
            && (stop == |src| - 1 ==> r == Overrun(None, |src|))
            && (stop + 2 <= |src| ==> r == Step(stop + 2, line + Newlines(src[start + 2..stop]), None, None))
  {
    BlockCommentDispatch(AsWritten, src, start, line);
    var stop := CommentStop(AsWritten, src, start + 2);
    forall i | start + 2 <= i < stop
      ensures src[i] != '*' && PeekNext(src, i) != '/'
    {
      assert !Closes(AsWritten, src, i);
    }
    if stop == |src| {
      assert src[start + 2..stop] == src[start + 2..];
    }
  }
}
