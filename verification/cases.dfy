/** Single tokens of the scanner on short concrete sources: where a number
    stops, how a keyword and a string come out, and what an unterminated
    string reports. */
module ScanCases {
  import opened Tokens
  import opened Cursor
  import opened Scanner
  import opened StepProperties

  /** A trailing dot with no digit after it is not part of the number: `3.`
      is the number `3` followed by a dot. */
  lemma TrailingDotIsSeparate(rule: CommentRule, s: string)
    requires s == "3."
    ensures ScanToken(rule, s, 0, 1) == Step(1, 1, Some(Token(Number, "3", Numeral("3"), 1)), None)
    ensures ScanToken(rule, s, 1, 1) == Step(2, 1, Some(Token(Dot, ".", NoLiteral, 1)), None)
  {
    NumberDispatch(rule, s, 0, 1);
    assert s[0..1] == "3";
    Punctuation(rule, s, 1, 1);
  }

  /** A dot between digits belongs to the number. */
  lemma DecimalNumber(rule: CommentRule, s: string)
    requires s == "12.5;"
    ensures ScanToken(rule, s, 0, 1) == Step(4, 1, Some(Token(Number, "12.5", Numeral("12.5"), 1)), None)
  {
    NumberDispatch(rule, s, 0, 1);
    var r := NumberLiteral(s, 0, 1);
    assert Peek(s, 1) == '2' && Peek(s, 3) == '5' && s[4] == ';';
    assert s[0..2] == "12" && Peek(s, 2) == '.' && PeekNext(s, 2) == '5';
    assert s[0..4] == "12.5";
  }

  /** A reserved word comes out as its own kind, with no literal. */
  lemma ReservedWord(rule: CommentRule, s: string)
    requires s == "while"
    ensures ScanToken(rule, s, 0, 7) == Step(5, 7, Some(Token(While, "while", NoLiteral, 7)), None)
  {
    WordDispatch(rule, s, 0, 7);
    assert s[0..5] == s;
  }

  /** A string spanning a newline is stamped with the line it ends on, and its
      literal drops the quotes. */
  lemma StringAcrossLines(rule: CommentRule, s: string)
    requires s == "\"a\nb\""
    ensures ScanToken(rule, s, 0, 1) == Step(5, 2, Some(Token(String, s, Text("a\nb"), 2)), None)
  {
    StringDispatch(rule, s, 0, 1);
    ClosingQuote(s);
    assert Newlines(s[1..4]) == 1 by {
      NoNewlines(s, 1, 2);
      NewlinesStep(s, 1, 2);
      NoNewlines(s, 3, 4);
      NewlinesSplit(s, 1, 3, 4);
    }
    assert s[0..5] == s && s[1..4] == "a\nb";
  }

  lemma ClosingQuote(s: string)
    requires s == "\"a\nb\""
    ensures StringLiteral(s, 0, 1).current == 5
  {
    assert '"' in s[1..] by { assert s[1..][3] == '"'; }
    var r := StringLiteral(s, 0, 1);
    assert s[r.current - 1] == '"' && 2 <= r.current <= 5;
  }

  /** A string with no closing quote runs to the end, emits no token and
      reports "Unterminated string". */
  lemma UnterminatedStringReported(rule: CommentRule, s: string)
    requires s == "\"ab"
    ensures ScanToken(rule, s, 0, 1) == Step(3, 1, None, Some(Report(1, UnterminatedString)))
  {
    StringDispatch(rule, s, 0, 1);
    NoNewlines(s, 1, 3);
    assert s[1..] == s[1..3];
  }

  /** A line comment ends at the newline, which the scan still counts: the
      number after it is on line 2, and so is the end of input. */
  lemma CommentThenNumber(s: string)
    requires s == "//\n7"
    ensures Scan(s) == Done([Token(Number, "7", Numeral("7"), 2), Token(Eof, "", NoLiteral, 2)], [])
  {
    var seven := Token(Number, "7", Numeral("7"), 2);
    CommentThenNumberSteps(s);
    ScanFromStep(AsWritten, s, 0, 1, [], [], Step(2, 1, None, None));
    ScanFromStep(AsWritten, s, 2, 1, [], [], Step(3, 2, None, None));
    ScanFromStep(AsWritten, s, 3, 2, [], [], Step(4, 2, Some(seven), None));
    assert [] + Elements<Token>(None) == [] && [] + Elements<Report>(None) == [];
    assert [] + Elements(Some(seven)) == [seven];
    assert ScanFrom(AsWritten, s, 4, 2, [seven], []) == Done([seven, Token(Eof, "", NoLiteral, 2)], []);
  }

  lemma CommentThenNumberSteps(s: string)
    requires s == "//\n7"
    ensures ScanToken(AsWritten, s, 0, 1) == Step(2, 1, None, None)
    ensures ScanToken(AsWritten, s, 2, 1) == Step(3, 2, None, None)
    ensures ScanToken(AsWritten, s, 3, 2) == Step(4, 2, Some(Token(Number, "7", Numeral("7"), 2)), None)
  {
    LineComment(AsWritten, s, 0, 1);
    Whitespace(AsWritten, s, 2, 1);
    NumberDispatch(AsWritten, s, 3, 2);
    assert s[3..4] == "7";
  }
}
