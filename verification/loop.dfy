/** Properties of the driving loop of `scanTokens()`, proved for any step
    function that has the matching property one step at a time. The
    scanner's own step function is plugged in by the lemmas of
    `ScanProperties`. */
module Loop {
  import opened Tokens
  import opened Cursor
  import opened Scanner

  /** `ts`, from index `from` on, ends with the one end-of-input token. */
  predicate EofTerminated(ts: seq<Token>, from: nat) {
    && |ts| > from
    && ts[|ts| - 1].kind == Eof
    && ts[|ts| - 1].lexeme == []
    && ts[|ts| - 1].literal == NoLiteral
    && (forall i | from <= i < |ts| - 1 :: ts[i].kind != Eof)
  }

  /** `spans` locates each token of `ts` in `src`, in order and without
      overlap, at or after offset `lo`; each lexeme is exactly its slice. */
  predicate SlicesOf(src: string, ts: seq<Token>, spans: seq<(nat, nat)>, lo: nat) {
    && |spans| == |ts|
    && (forall k | 0 <= k < |spans| ::
          && lo <= spans[k].0 < spans[k].1 <= |src|
          && ts[k].lexeme == src[spans[k].0..spans[k].1])
    && (forall k | 0 < k < |spans| :: spans[k - 1].1 <= spans[k].0)
  }

  /** Line stamps never decrease along `ts`, and none is below `lo`. */
  predicate LinesOrdered(ts: seq<Token>, lo: int) {
    && (forall i | 0 <= i < |ts| :: lo <= ts[i].line)
    && (forall i, j | 0 <= i < j < |ts| :: ts[i].line <= ts[j].line)
  }

  /** No `/` is followed by `*` anywhere from `lo` on, not even inside a
      string or a line comment. */
  predicate NoCommentOpener(src: string, lo: nat) {
    forall i | lo <= i < |src| :: !OpensBlockComment(src, i)
  }

  /** No step produces an end-of-input token. */
  ghost predicate NeverEof(next: (nat, int) --> Step, size: nat)
    requires Advances(next, size)
  {
    forall c: nat, l: int | c < size ::
      next(c, l).Step? && next(c, l).token.Some? ==> next(c, l).token.value.kind != Eof
  }

  /** Every token a step produces is the slice of `src` the step consumed. */
  ghost predicate Sliced(next: (nat, int) --> Step, src: string)
    requires Advances(next, |src|)
  {
    forall c: nat, l: int | c < |src| ::
      next(c, l).Step? && next(c, l).token.Some? ==> next(c, l).token.value.lexeme == src[c..next(c, l).current]
  }

  /** No step lowers the line, and a token is stamped with the line the step
      reaches. */
  ghost predicate Stamped(next: (nat, int) --> Step, size: nat)
    requires Advances(next, size)
  {
    forall c: nat, l: int | c < size ::
      next(c, l).Step? ==>
        && l <= next(c, l).line
        && (next(c, l).token.Some? ==> next(c, l).token.value.line == next(c, l).line)
  }

  /** No step raises the line by more than the newlines it consumed. */
  ghost predicate CountsAtMost(next: (nat, int) --> Step, src: string)
    requires Advances(next, |src|)
  {
    forall c: nat, l: int | c < |src| ::
      next(c, l).Step? ==> next(c, l).line - l <= Newlines(src[c..next(c, l).current])
  }

  /** Every step from a position where no block comment opens, or, when
      `anywhere` holds, from every position, completes and raises the line by
      exactly the newlines it consumed. */
  ghost predicate CountsExactly(next: (nat, int) --> Step, src: string, anywhere: bool)
    requires Advances(next, |src|)
  {
    forall c: nat, l: int | c < |src| && (anywhere || !OpensBlockComment(src, c)) ::
      next(c, l).Step? && next(c, l).line - l == Newlines(src[c..next(c, l).current])
  }

  /** A step overruns only when `mayOverrun` holds, only at a block-comment
      opener, and only by reading index `|src|`. */
  ghost predicate OverrunsOnlyAtComments(next: (nat, int) --> Step, src: string, mayOverrun: bool)
    requires Advances(next, |src|)
  {
    forall c: nat, l: int | c < |src| ::
      next(c, l).Overrun? ==> mayOverrun && next(c, l).index == |src| && OpensBlockComment(src, c)
  }

  /** Appending one step's token keeps the end-of-input shape: what holds
      of the rest of the loop after the longer prefix holds after the
      shorter one. */
  lemma EofAfterStep(tokens: seq<Token>, token: Option<Token>, r: Outcome)
    requires token.Some? ==> token.value.kind != Eof
    requires r.Done? ==>
               && EofTerminated(r.tokens, |tokens + Elements(token)|)
               && r.tokens[..|tokens + Elements(token)|] == tokens + Elements(token)
    ensures r.Done? ==> EofTerminated(r.tokens, |tokens|) && r.tokens[..|tokens|] == tokens
  {
    if r.Done? {
      var tokens' := tokens + Elements(token);
      assert r.tokens[..|tokens|] == tokens'[..|tokens|];
      forall i | |tokens| <= i < |tokens'|
        ensures r.tokens[i].kind != Eof
      {
        assert r.tokens[i] == tokens'[i] == token.value;
      }
    }
  }

  /** The loop keeps what was produced before and appends exactly one
      end-of-input token, after all the others. */
  lemma {:induction false} DriveEndsWithEof(next: (nat, int) --> Step, size: nat, current: nat, line: int,
                                            tokens: seq<Token>, reports: seq<Report>)
    requires current <= size && Advances(next, size) && NeverEof(next, size)
    ensures var r := Drive(next, size, current, line, tokens, reports);
            r.Done? ==> EofTerminated(r.tokens, |tokens|) && r.tokens[..|tokens|] == tokens
    decreases size - current
  {
    if current < size {
      var step := next(current, line);
      if step.Step? {
        var tokens', reports' := tokens + Elements(step.token), reports + Elements(step.report);
        DriveEndsWithEof(next, size, step.current, step.line, tokens', reports');
        EofAfterStep(tokens, step.token, Drive(next, size, step.current, step.line, tokens', reports'));
      }
    }
  }

  /** A step from `current` to `after` whose token, if any, is the slice
      between them extends the spans of the rest of the loop by that slice. */
  lemma LexemesAfterStep(src: string, tokens: seq<Token>, current: nat, after: nat, token: Option<Token>,
                         r: Outcome, rest: seq<(nat, nat)>)
    returns (spans: seq<(nat, nat)>)
    requires current < after <= |src|
    requires token.Some? ==> token.value.lexeme == src[current..after]
    requires r.Done? ==>
               && |r.tokens| == |tokens + Elements(token)| + |rest| + 1
               && r.tokens[..|tokens + Elements(token)|] == tokens + Elements(token)
               && SlicesOf(src, r.tokens[|tokens + Elements(token)|..|r.tokens| - 1], rest, after)
    ensures r.Done? ==>
              && |r.tokens| == |tokens| + |spans| + 1
              && SlicesOf(src, r.tokens[|tokens|..|r.tokens| - 1], spans, current)
  {
    var tokens' := tokens + Elements(token);
    spans := rest;
    if r.Done? {
      if token.Some? {
        spans := [(current, after)] + rest;
        var mine := r.tokens[|tokens|..|r.tokens| - 1];
        assert mine[0] == r.tokens[|tokens|] == tokens'[|tokens|] == token.value;
        assert mine[1..] == r.tokens[|tokens'|..|r.tokens| - 1];
      } else {
        assert |tokens'| == |tokens|;
      }
    }
  }

  /** The tokens the loop adds, all but the end-of-input one, are slices of
      `src` laid out in order from `current` on, without overlap. */
  lemma {:induction false} DriveLexemes(next: (nat, int) --> Step, src: string, current: nat, line: int,
                                        tokens: seq<Token>, reports: seq<Report>)
    returns (spans: seq<(nat, nat)>)
    requires current <= |src| && Advances(next, |src|) && Sliced(next, src)
    ensures var r := Drive(next, |src|, current, line, tokens, reports);
            r.Done? ==>
              && |r.tokens| == |tokens| + |spans| + 1
              && SlicesOf(src, r.tokens[|tokens|..|r.tokens| - 1], spans, current)
    decreases |src| - current
  {
    spans := [];
    if current < |src| {
      var step := next(current, line);
      if step.Step? {
        var tokens', reports' := tokens + Elements(step.token), reports + Elements(step.report);
        var rest := DriveLexemes(next, src, step.current, step.line, tokens', reports');
        PrefixKept(next, |src|, step.current, step.line, tokens', reports');
        spans := LexemesAfterStep(src, tokens, current, step.current, step.token,
                                  Drive(next, |src|, step.current, step.line, tokens', reports'), rest);
      }
    }
  }

  /** The loop only appends: a completed run starts with the tokens it was
      given and adds at least the end-of-input one. */
  lemma {:induction false} PrefixKept(next: (nat, int) --> Step, size: nat, current: nat, line: int,
                                      tokens: seq<Token>, reports: seq<Report>)
    requires current <= size && Advances(next, size)
    ensures var r := Drive(next, size, current, line, tokens, reports);
            r.Done? ==> |r.tokens| > |tokens| && r.tokens[..|tokens|] == tokens
    decreases size - current
  {
    if current < size {
      var step := next(current, line);
      if step.Step? {
        var tokens', reports' := tokens + Elements(step.token), reports + Elements(step.report);
        PrefixKept(next, size, step.current, step.line, tokens', reports');
        var r := Drive(next, size, step.current, step.line, tokens', reports');
        if r.Done? {
          assert r.tokens[..|tokens|] == tokens'[..|tokens|];
        }
      }
    }
  }

  /** Appending a token stamped `after`, no lower than any stamp so far,
      keeps the stamps ordered and bounded by `after`. */
  lemma LinesAfterStep(tokens: seq<Token>, line: int, after: int, token: Option<Token>)
    requires 1 <= line <= after && LinesOrdered(tokens, 1)
    requires forall i | 0 <= i < |tokens| :: tokens[i].line <= line
    requires token.Some? ==> token.value.line == after
    ensures LinesOrdered(tokens + Elements(token), 1)
    ensures forall i | 0 <= i < |tokens + Elements(token)| :: (tokens + Elements(token))[i].line <= after
  {
  }

  /** Line stamps stay ordered through the loop and end no lower than the
      line it started on. */
  lemma {:induction false} DriveLines(next: (nat, int) --> Step, size: nat, current: nat, line: int,
                                      tokens: seq<Token>, reports: seq<Report>)
    requires current <= size && Advances(next, size) && Stamped(next, size)
    requires 1 <= line && LinesOrdered(tokens, 1)
    requires forall i | 0 <= i < |tokens| :: tokens[i].line <= line
    ensures var r := Drive(next, size, current, line, tokens, reports);
            r.Done? ==> LinesOrdered(r.tokens, 1) && |r.tokens| > 0 && r.tokens[|r.tokens| - 1].line >= line
    decreases size - current
  {
    if current < size {
      var step := next(current, line);
      if step.Step? {
        var tokens', reports' := tokens + Elements(step.token), reports + Elements(step.report);
        LinesAfterStep(tokens, line, step.line, step.token);
        DriveLines(next, size, step.current, step.line, tokens', reports');
      }
    }
  }

  /** Line arithmetic of one step: a step that counts at most the newlines
      it consumes, followed by a rest that counts at most the newlines left,
      counts at most the newlines from `current` on, and exactly when both
      parts are exact. */
  lemma CountAfterStep(src: string, current: nat, after: nat, line: int, afterLine: int, last: int)
    requires current <= after <= |src|
    requires afterLine - line <= Newlines(src[current..after])
    requires last <= afterLine + Newlines(src[after..])
    ensures last <= line + Newlines(src[current..])
    ensures afterLine - line == Newlines(src[current..after]) && last == afterLine + Newlines(src[after..]) ==>
              last == line + Newlines(src[current..])
  {
    NewlinesSplit(src, current, after, |src|);
    assert src[current..] == src[current..|src|];
    assert src[after..] == src[after..|src|];
  }

  /** The end-of-input line never exceeds the start line plus the newlines
      from `current` on. */
  lemma {:induction false} DriveLineBound(next: (nat, int) --> Step, src: string, current: nat, line: int,
                                          tokens: seq<Token>, reports: seq<Report>)
    requires current <= |src| && Advances(next, |src|) && CountsAtMost(next, src)
    ensures var r := Drive(next, |src|, current, line, tokens, reports);
            r.Done? ==> |r.tokens| > 0 && r.tokens[|r.tokens| - 1].line <= line + Newlines(src[current..])
    decreases |src| - current
  {
    if current < |src| {
      var step := next(current, line);
      if step.Step? {
        var tokens', reports' := tokens + Elements(step.token), reports + Elements(step.report);
        DriveLineBound(next, src, step.current, step.line, tokens', reports');
        var r := Drive(next, |src|, step.current, step.line, tokens', reports');
        if r.Done? {
          CountAfterStep(src, current, step.current, line, step.line, r.tokens[|r.tokens| - 1].line);
        }
      }
    } else {
      assert (tokens + [Token(Eof, "", NoLiteral, line)])[|tokens|].line == line;
    }
  }

  /** When every step the loop can meet counts exactly, the loop completes
      and its end-of-input line is the start line plus the newlines from
      `current` on. */
  lemma {:induction false} DriveLineExact(next: (nat, int) --> Step, src: string, anywhere: bool,
                                          current: nat, line: int, tokens: seq<Token>, reports: seq<Report>)
    requires current <= |src| && Advances(next, |src|) && CountsExactly(next, src, anywhere)
    requires anywhere || NoCommentOpener(src, current)
    ensures var r := Drive(next, |src|, current, line, tokens, reports);
            r.Done? && |r.tokens| > 0 && r.tokens[|r.tokens| - 1].line == line + Newlines(src[current..])
    decreases |src| - current
  {
    if current < |src| {
      var step := next(current, line);
      assert !anywhere ==> !OpensBlockComment(src, current);
      assert step.Step? && step.line - line == Newlines(src[current..step.current]);
      var tokens', reports' := tokens + Elements(step.token), reports + Elements(step.report);
      DriveLineExact(next, src, anywhere, step.current, step.line, tokens', reports');
      var r := Drive(next, |src|, step.current, step.line, tokens', reports');
      assert Drive(next, |src|, current, line, tokens, reports) == r;
      CountAfterStep(src, current, step.current, line, step.line, r.tokens[|r.tokens| - 1].line);
      assert r.tokens[|r.tokens| - 1].line == line + Newlines(src[current..]);
    } else {
      assert src[current..] == [];
      assert Newlines(src[current..]) == 0;
      assert (tokens + [Token(Eof, "", NoLiteral, line)])[|tokens|].line == line;
    }
  }

  /** The loop ends early only through a step that overruns, so only as
      that step allows. */
  lemma {:induction false} DriveCrash(next: (nat, int) --> Step, src: string, mayOverrun: bool,
                                      current: nat, line: int, tokens: seq<Token>, reports: seq<Report>)
    requires current <= |src| && Advances(next, |src|) && OverrunsOnlyAtComments(next, src, mayOverrun)
    ensures var r := Drive(next, |src|, current, line, tokens, reports);
            r.Crashed? ==> mayOverrun && r.index == |src| && !NoCommentOpener(src, current)
    decreases |src| - current
  {
    if current < |src| {
      var step := next(current, line);
      if step.Step? {
        DriveCrash(next, src, mayOverrun, step.current, step.line,
                   tokens + Elements(step.token), reports + Elements(step.report));
      }
    }
  }
}
