/** Properties of a whole scan: the end-of-input token, the lexemes as
    slices of the source, the order of line stamps, line counting, and when
    the scan can crash. Each is the matching property of the driving loop,
    applied to the scanner's step. */
module ScanProperties {
  import opened Tokens
  import opened Cursor
  import opened Scanner
  import opened Loop
  import opened StepProperties

  /** A string literal counts exactly the newlines between its quotes. */
  lemma StringLines(src: string, start: nat, line: int)
    requires start < |src| && src[start] == '"'
    ensures var r := StringLiteral(src, start, line);
            r.line - line == Newlines(src[start..r.current])
  {
    var r := StringLiteral(src, start, line);
    NoNewlines(src, start, start + 1);
    NewlinesSplit(src, start, start + 1, r.current);
    if r.token.Some? {
      assert src[r.current - 1] == '"';
      NoNewlines(src, r.current - 1, r.current);
      NewlinesSplit(src, start + 1, r.current - 1, r.current);
    } else {
      assert src[start + 1..] == src[start + 1..r.current];
    }
  }

  /** A block comment counts the newlines its loop passes; the intended rule
      passes every newline it consumes, the as-written one may not. */
  lemma CommentLines(rule: CommentRule, src: string, start: nat, line: int)
    requires OpensBlockComment(src, start)
    ensures var r := BlockComment(rule, src, start, line);
            r.Step? ==> r.line - line <= Newlines(src[start..r.current])
    ensures var r := BlockComment(rule, src, start, line);
            r.Step? && rule == Intended ==> r.line - line == Newlines(src[start..r.current])
  {
    var r := BlockComment(rule, src, start, line);
    if r.Step? {
      var stop := CommentStop(rule, src, start + 2);
      NoNewlines(src, start, start + 2);
      NewlinesSplit(src, start, start + 2, r.current);
      NewlinesSplit(src, start + 2, stop, r.current);
      NewlinesBounds(src[stop..r.current]);
      if rule == Intended && stop < |src| {
        assert Closes(Intended, src, stop);
        assert src[stop] == '*' && src[stop + 1] == '/';
        NoNewlines(src, stop, stop + 2);
      }
    }
  }

  /** Every other step consumes no newline, or exactly the one it counts. */
  lemma PlainLines(rule: CommentRule, src: string, start: nat, line: int)
    requires start < |src| && src[start] != '"' && !OpensBlockComment(src, start)
    ensures var r := ScanToken(rule, src, start, line);
            r.Step? && r.line - line == Newlines(src[start..r.current])
  {
    var r := ScanToken(rule, src, start, line);
    if src[start] == '\n' {
      assert src[start..r.current] == "\n";
    } else {
      forall i | start <= i < r.current
        ensures src[i] != '\n'
      {
      }
      NoNewlines(src, start, r.current);
    }
  }

  /** One step of the scan raises the line counter by the number of newline
      characters it consumes, except that the as-written block comment may
      consume newlines it does not count. */
  lemma StepLines(rule: CommentRule, src: string, start: nat, line: int)
    requires start < |src|
    ensures var r := ScanToken(rule, src, start, line);
            r.Step? ==> r.line - line <= Newlines(src[start..r.current])
    ensures var r := ScanToken(rule, src, start, line);
            r.Step? && (rule == Intended || !OpensBlockComment(src, start)) ==>
              r.line - line == Newlines(src[start..r.current])
  {
    if src[start] == '"' {
      StringDispatch(rule, src, start, line);
      StringLines(src, start, line);
    } else if OpensBlockComment(src, start) {
      BlockCommentDispatch(rule, src, start, line);
      CommentLines(rule, src, start, line);
    } else {
      PlainLines(rule, src, start, line);
    }
  }

  /** A scan from a cursor is the driving loop run on the scanner's step. */
  lemma ScanFromIsDrive(rule: CommentRule, src: string, current: nat, line: int,
                        tokens: seq<Token>, reports: seq<Report>)
    requires current <= |src|
    ensures ScanFrom(rule, src, current, line, tokens, reports)
         == Drive(Stepper(rule, src), |src|, current, line, tokens, reports)
  {
  }

  /** No step of the scanner produces the end-of-input token. */
  lemma StepperNeverEof(rule: CommentRule, src: string)
    ensures NeverEof(Stepper(rule, src), |src|)
  {
  }

  /** Every token a step produces is the slice of source the step consumed. */
  lemma StepperSliced(rule: CommentRule, src: string)
    ensures Sliced(Stepper(rule, src), src)
  {
  }

  /** Every step keeps or raises the line and stamps what it produces with
      the line it ends on. */
  lemma StepperStamped(rule: CommentRule, src: string)
    ensures Stamped(Stepper(rule, src), |src|)
  {
  }

  /** Only the as-written rule overruns, at a block comment, at the end. */
  lemma StepperOverruns(rule: CommentRule, src: string)
    ensures OverrunsOnlyAtComments(Stepper(rule, src), src, rule == AsWritten)
  {
  }

  /** No step raises the line by more than the newlines it consumes. */
  lemma StepperCountsAtMost(rule: CommentRule, src: string)
    ensures CountsAtMost(Stepper(rule, src), src)
  {
    forall c: nat, l: int | c < |src|
      ensures var r := ScanToken(rule, src, c, l);
              r.Step? ==> r.line - l <= Newlines(src[c..r.current])
    {
      StepLines(rule, src, c, l);
    }
  }

  /** Under the intended rule every step, and under the as-written rule every
      step not at a block comment, completes and counts its newlines. */
  lemma StepperCountsExactly(rule: CommentRule, src: string)
    ensures CountsExactly(Stepper(rule, src), src, rule == Intended)
  {
    forall c: nat, l: int | c < |src| && (rule == Intended || !OpensBlockComment(src, c))
      ensures var r := ScanToken(rule, src, c, l);
              r.Step? && r.line - l == Newlines(src[c..r.current])
    {
      StepLines(rule, src, c, l);
    }
  }

  /** A completed scan ends with exactly one end-of-input token, which has an
      empty lexeme and no literal. */
  lemma ScanEndsWithEof(rule: CommentRule, src: string)
    ensures ScanWith(rule, src).Done? ==> EofTerminated(ScanWith(rule, src).tokens, 0)
  {
    StepperNeverEof(rule, src);
    DriveEndsWithEof(Stepper(rule, src), |src|, 0, 1, [], []);
    ScanFromIsDrive(rule, src, 0, 1, [], []);
  }

  /** Every token but the last is the exact slice of the source it was
      scanned from; the slices appear in token order and do not overlap. */
  lemma LexemesAreSlices(rule: CommentRule, src: string) returns (spans: seq<(nat, nat)>)
    ensures var r := ScanWith(rule, src);
            r.Done? ==> |r.tokens| >= 1 && SlicesOf(src, r.tokens[..|r.tokens| - 1], spans, 0)
  {
    StepperSliced(rule, src);
    spans := DriveLexemes(Stepper(rule, src), src, 0, 1, [], []);
    ScanFromIsDrive(rule, src, 0, 1, [], []);
    var r := ScanWith(rule, src);
    if r.Done? {
      assert r.tokens[0..|r.tokens| - 1] == r.tokens[..|r.tokens| - 1];
    }
  }

  /** Tokens carry line stamps of at least 1 that never decrease, so the
      end-of-input token carries the highest line of the scan. */
  lemma TokenLinesOrdered(rule: CommentRule, src: string)
    ensures var r := ScanWith(rule, src);
            r.Done? ==> LinesOrdered(r.tokens, 1)
  {
    StepperStamped(rule, src);
    DriveLines(Stepper(rule, src), |src|, 0, 1, [], []);
    ScanFromIsDrive(rule, src, 0, 1, [], []);
  }

  /** From any cursor, the scan's end-of-input line is at most the cursor's
      line plus the newlines left. */
  lemma ScanFromLineBound(rule: CommentRule, src: string, current: nat, line: int,
                          tokens: seq<Token>, reports: seq<Report>)
    requires current <= |src|
    ensures var r := ScanFrom(rule, src, current, line, tokens, reports);
            r.Done? ==> |r.tokens| > 0 && r.tokens[|r.tokens| - 1].line <= line + Newlines(src[current..])
  {
    StepperCountsAtMost(rule, src);
    DriveLineBound(Stepper(rule, src), src, current, line, tokens, reports);
    ScanFromIsDrive(rule, src, current, line, tokens, reports);
  }

  /** From a cursor after which no `/` is followed by `*`, or from any cursor
      under the intended rule, the scan completes and its end-of-input line
      is the cursor's line plus the newlines left. */
  lemma ScanFromLineExact(rule: CommentRule, src: string, current: nat, line: int,
                          tokens: seq<Token>, reports: seq<Report>)
    requires current <= |src|
    requires rule == Intended || NoCommentOpener(src, current)
    ensures var r := ScanFrom(rule, src, current, line, tokens, reports);
            r.Done? && |r.tokens| > 0 && r.tokens[|r.tokens| - 1].line == line + Newlines(src[current..])
  {
    StepperCountsExactly(rule, src);
    DriveLineExact(Stepper(rule, src), src, rule == Intended, current, line, tokens, reports);
    ScanFromIsDrive(rule, src, current, line, tokens, reports);
  }

  /** With the intended block-comment rule the scan never crashes, and its
      end-of-input token is on line 1 plus the number of newlines in the
      source. */
  lemma IntendedScanCountsEveryLine(src: string)
    ensures var r := ScanIntended(src);
            r.Done? && |r.tokens| > 0 && r.tokens[|r.tokens| - 1].line == 1 + Newlines(src)
  {
    ScanFromLineExact(Intended, src, 0, 1, [], []);
    assert src[0..] == src;
    assert ScanIntended(src) == ScanFrom(Intended, src, 0, 1, [], []);
  }

  /** The source's scan never counts more lines than the source has; when
      no `/` is followed by `*` anywhere in the source it completes and counts
      every newline. */
  lemma ScanLineCount(src: string)
    ensures var r := Scan(src);
            r.Done? ==> |r.tokens| > 0 && r.tokens[|r.tokens| - 1].line <= 1 + Newlines(src)
    ensures var r := Scan(src);
            NoCommentOpener(src, 0) ==>
              r.Done? && |r.tokens| > 0 && r.tokens[|r.tokens| - 1].line == 1 + Newlines(src)
  {
    assert src[0..] == src;
    var r := Scan(src);
    assert r.Done? ==> |r.tokens| > 0 && r.tokens[|r.tokens| - 1].line <= 1 + Newlines(src) by {
      ScanFromLineBound(AsWritten, src, 0, 1, [], []);
    }
    if NoCommentOpener(src, 0) {
      ScanFromLineExact(AsWritten, src, 0, 1, [], []);
    }
  }

  /** A scan crashes only under the as-written rule, only by reading the
      index one past the end of the source, and only if a `/` followed by `*`
      occurs somewhere in it. */
  lemma CrashNeedsCommentOpener(rule: CommentRule, src: string)
    ensures var r := ScanWith(rule, src);
            r.Crashed? ==> rule == AsWritten && r.index == |src| && !NoCommentOpener(src, 0)
  {
    StepperOverruns(rule, src);
    DriveCrash(Stepper(rule, src), src, rule == AsWritten, 0, 1, [], []);
    ScanFromIsDrive(rule, src, 0, 1, [], []);
  }
}
