/** Where the source's block-comment skipper departs from what it
    evidently intends, each shown on a concrete input, next to the
    corrected rule and what it guarantees. */
module BlockCommentDefects {
  import opened Tokens
  import opened Cursor
  import opened Scanner
  import opened StepProperties
  import opened ScanProperties
  import opened Loop

  /** With the corrected rule a block comment ends right after the first `*`
      that is immediately followed by `/`, counting every newline it
      consumes; with no such pair it runs to the end of the source and is
      reported as unterminated, without reading past the end. */
  lemma IntendedBlockComment(src: string, start: nat, line: int)
    requires OpensBlockComment(src, start)
    ensures var r := ScanToken(Intended, src, start, line);
            var stop := CommentStop(Intended, src, start + 2);
            && (forall i | start + 2 <= i < stop :: !(i + 1 < |src| && src[i] == '*' && src[i + 1] == '/'))
            && (stop < |src| ==>
                  && stop + 1 < |src| && src[stop] == '*' && src[stop + 1] == '/'
                  && r == Step(stop + 2, line + Newlines(src[start + 2..stop + 2]), None, None))
            && (stop == |src| ==>
                  var ln := line + Newlines(src[start + 2..]);
                  r == Step(|src|, ln, None, Some(Report(ln, UnterminatedComment))))
  {
    IntendedStop(src, start);
    BlockCommentDispatch(Intended, src, start, line);
    var stop := CommentStop(Intended, src, start + 2);
    if stop < |src| {
      NoNewlines(src, stop, stop + 2);
      NewlinesSplit(src, start + 2, stop, stop + 2);
    } else {
      assert src[start + 2..stop] == src[start + 2..];
    }
  }

  /** Where the corrected loop stops: at the first `*` followed by `/`, or
      at the end when there is none. */
  lemma IntendedStop(src: string, start: nat)
    requires OpensBlockComment(src, start)
    ensures var stop := CommentStop(Intended, src, start + 2);
            && (forall i | start + 2 <= i < stop :: !(i + 1 < |src| && src[i] == '*' && src[i + 1] == '/'))
            && (stop < |src| ==> stop + 1 < |src| && src[stop] == '*' && src[stop + 1] == '/')
  {
    var stop := CommentStop(Intended, src, start + 2);
    forall i | start + 2 <= i < stop
      ensures !(i + 1 < |src| && src[i] == '*' && src[i + 1] == '/')
    {
      assert !Closes(Intended, src, i);
    }
    if stop < |src| {
      assert Closes(Intended, src, stop);
    }
  }

  /** A lone `*` inside a comment ends it under the source's rule: the
      comment stops two characters after that `*`, and the rest of it is
      scanned as code, an identifier, a star and a slash. */
  lemma StrayStarEndsComment(s: string)
    requires s == "/* a * b */"
    ensures ScanToken(AsWritten, s, 0, 1) == Step(7, 1, None, None)
    ensures ScanToken(AsWritten, s, 7, 1) == Step(8, 1, Some(Token(Identifier, "b", NoLiteral, 1)), None)
    ensures ScanToken(AsWritten, s, 8, 1) == Step(9, 1, None, None)
    ensures ScanToken(AsWritten, s, 9, 1) == Step(10, 1, Some(Token(Star, "*", NoLiteral, 1)), None)
    ensures ScanToken(AsWritten, s, 10, 1) == Step(11, 1, Some(Token(Slash, "/", NoLiteral, 1)), None)
  {
    StrayStarOpening(s);
    StrayStarWord(s);
    Whitespace(AsWritten, s, 8, 1);
    Punctuation(AsWritten, s, 9, 1);
    LoneSlash(AsWritten, s, 10, 1);
  }

  /** The corrected rule skips the same comment whole, and the scan yields
      only the end of input. */
  lemma StrayStarSkipped(s: string)
    requires s == "/* a * b */"
    ensures ScanToken(Intended, s, 0, 1) == Step(11, 1, None, None)
    ensures ScanIntended(s) == Done([Token(Eof, "", NoLiteral, 1)], [])
  {
    StrayStarIntendedStep(s);
    ScanFromStep(Intended, s, 0, 1, [], [], Step(11, 1, None, None));
  }

  lemma StrayStarOpening(s: string)
    requires s == "/* a * b */"
    ensures ScanToken(AsWritten, s, 0, 1) == Step(7, 1, None, None)
  {
    assert CommentStop(AsWritten, s, 2) == 5 by {
      assert CommentStop(AsWritten, s, 5) == 5;
      assert CommentStop(AsWritten, s, 4) == 5;
      assert CommentStop(AsWritten, s, 3) == 5;
    }
    NoNewlines(s, 2, 5);
    AsWrittenBlockComment(s, 0, 1);
  }

  lemma StrayStarWord(s: string)
    requires s == "/* a * b */"
    ensures ScanToken(AsWritten, s, 7, 1) == Step(8, 1, Some(Token(Identifier, "b", NoLiteral, 1)), None)
  {
    WordDispatch(AsWritten, s, 7, 1);
    assert s[7..8] == "b";
    assert "b" !in Keywords;
  }

  lemma StrayStarIntendedStep(s: string)
    requires s == "/* a * b */"
    ensures ScanToken(Intended, s, 0, 1) == Step(11, 1, None, None)
  {
    assert CommentStop(Intended, s, 2) == 9 by {
      assert CommentStop(Intended, s, 9) == 9;
      assert CommentStop(Intended, s, 8) == 9;
      assert CommentStop(Intended, s, 7) == 9;
      assert CommentStop(Intended, s, 6) == 9;
      assert CommentStop(Intended, s, 5) == 9;
      assert CommentStop(Intended, s, 4) == 9;
      assert CommentStop(Intended, s, 3) == 9;
    }
    NoNewlines(s, 2, 11);
    IntendedBlockComment(s, 0, 1);
  }

  /** An unterminated block comment is reported, and the next `advance()`
      then reads index 2 of a two-character source: the scan crashes. The
      corrected rule reports it and completes. */
  lemma UnterminatedCommentCrashes(s: string)
    requires s == "/*"
    ensures Scan(s) == Crashed([Report(1, UnterminatedComment)], 2)
    ensures ScanIntended(s) == Done([Token(Eof, "", NoLiteral, 1)], [Report(1, UnterminatedComment)])
  {
    var report := Report(1, UnterminatedComment);
    assert CommentStop(AsWritten, s, 2) == 2 && CommentStop(Intended, s, 2) == 2;
    assert Newlines(s[2..]) == 0;
    AsWrittenBlockComment(s, 0, 1);
    IntendedBlockComment(s, 0, 1);
    assert [] + [report] == [report];
    ScanFromStep(Intended, s, 0, 1, [], [], Step(2, 1, None, Some(report)));
  }

  /** The comment's stray `*` stops the source's loop, and the two
      characters it then consumes unchecked are that `*` and the newline after
      it: the scan completes with its end of input stamped line 1 although the
      source has two lines. The corrected rule counts the newline. */
  lemma CommentCloseSwallowsNewline(s: string)
    requires s == "/* *\n */"
    ensures Newlines(s) == 1
    ensures ScanToken(AsWritten, s, 0, 1) == Step(5, 1, None, None) && s[4] == '\n'
    ensures var r := Scan(s);
            r.Done? && |r.tokens| > 0 && r.tokens[|r.tokens| - 1].line == 1
    ensures var r := ScanIntended(s);
            r.Done? && |r.tokens| > 0 && r.tokens[|r.tokens| - 1].line == 2
  {
    SwallowedNewlineOpening(s);
    SwallowedNewlineTail(s);
    SilentFirstStep(s, 5, 1);
    LineAfterQuietRest(s, 5, 1);
    IntendedScanCountsEveryLine(s);
  }

  /** A first step that consumes silently hands the whole scan to the loop
      from where that step ends. */
  lemma SilentFirstStep(s: string, current: nat, line: int)
    requires 0 < |s| && ScanToken(AsWritten, s, 0, 1) == Step(current, line, None, None)
    ensures current <= |s| && Scan(s) == ScanFrom(AsWritten, s, current, line, [], [])
  {
    ScanFromStep(AsWritten, s, 0, 1, [], [], Step(current, line, None, None));
    assert [] + Elements<Token>(None) == [] && [] + Elements<Report>(None) == [];
  }

  /** When the scan reaches a cursor after which no `/` is followed by `*`
      and no newline occurs, the end of input keeps that cursor's line. */
  lemma LineAfterQuietRest(s: string, current: nat, line: int)
    requires current <= |s| && Scan(s) == ScanFrom(AsWritten, s, current, line, [], [])
    requires NoCommentOpener(s, current) && Newlines(s[current..]) == 0
    ensures var r := Scan(s);
            r.Done? && |r.tokens| > 0 && r.tokens[|r.tokens| - 1].line == line
  {
    ScanFromLineExact(AsWritten, s, current, line, [], []);
  }

  lemma SwallowedNewlineTail(s: string)
    requires s == "/* *\n */"
    ensures Newlines(s) == 1
    ensures NoCommentOpener(s, 5) && Newlines(s[5..]) == 0
  {
    NoNewlines(s, 5, 8);
    assert s[5..] == s[5..8];
    NoNewlines(s, 0, 4);
    NewlinesStep(s, 0, 4);
    NewlinesSplit(s, 0, 5, 8);
    assert s[0..8] == s;
  }

  lemma SwallowedNewlineOpening(s: string)
    requires s == "/* *\n */"
    ensures ScanToken(AsWritten, s, 0, 1) == Step(5, 1, None, None)
  {
    assert CommentStop(AsWritten, s, 2) == 3 by {
      assert CommentStop(AsWritten, s, 3) == 3;
    }
    NoNewlines(s, 2, 3);
    AsWrittenBlockComment(s, 0, 1);
  }
}
