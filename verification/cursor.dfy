/** The scanner's cursor primitives over the source text: look-ahead with
    the NUL sentinel, conditional consumption, character classes, maximal
    runs, and newline counting. */
module Cursor {

  /** What `Peek` and `PeekNext` return past the end of the source. */
  const NUL: char := '\0'

  /** The unread character at `current`, or NUL at end of input. */
  function Peek(src: string, current: nat): char {
    if current >= |src| then NUL else src[current]
  }

  /** The character after the unread one, or NUL when there is none. */
  function PeekNext(src: string, current: nat): char {
    if current + 1 >= |src| then NUL else src[current + 1]
  }

  /** Consumes `expected` if it is the unread character: the flag says whether
      it did, and the position is the cursor afterwards. At end of input or on
      a mismatch the cursor does not move. */
  function Match(src: string, current: nat, expected: char): (r: (bool, nat))
    ensures r.0 <==> current < |src| && src[current] == expected
    ensures r.0 ==> r.1 == current + 1
    ensures !r.0 ==> r.1 == current
  {
    if current >= |src| then (false, current)
    else if src[current] != expected then (false, current)
    else (true, current + 1)
  }

  predicate IsDigit(c: char) {
    '0' <= c <= '9'
  }

  predicate IsAlpha(c: char) {
    ('a' <= c <= 'z') || ('A' <= c <= 'Z') || c == '_'
  }

  predicate IsAlphaNumeric(c: char) {
    IsAlpha(c) || IsDigit(c)
  }

  /** The end of the maximal run, starting at `from`, of characters that
      satisfy `inRun`: the cursor after `while (inRun(peek()) && !isAtEnd())
      advance();`. */
  function RunEnd(src: string, from: nat, inRun: char -> bool): (end: nat)
    requires from <= |src|
    ensures from <= end <= |src|
    ensures forall i | from <= i < end :: inRun(src[i])
    ensures end == |src| || !inRun(src[end])
    decreases |src| - from
  {
    if from < |src| && inRun(src[from]) then RunEnd(src, from + 1, inRun) else from
  }

  /** Any position that bounds a run satisfying `inRun` and is followed by a
      character outside it is that run's end. */
  lemma RunEndUnique(src: string, from: nat, inRun: char -> bool, end: nat)
    requires from <= end <= |src|
    requires forall i | from <= i < end :: inRun(src[i])
    requires end == |src| || !inRun(src[end])
    ensures RunEnd(src, from, inRun) == end
    decreases end - from
  {
    if from < end {
      RunEndUnique(src, from + 1, inRun, end);
    }
  }

  /** The number of newline characters in `s`. */
  function Newlines(s: string): nat {
    if s == [] then 0
    else Newlines(s[..|s| - 1]) + (if s[|s| - 1] == '\n' then 1 else 0)
  }

  /** Newlines count additively over concatenation. */
  lemma {:induction false} NewlinesAppend(a: string, b: string)
    ensures Newlines(a + b) == Newlines(a) + Newlines(b)
    decreases |b|
  {
    if b == [] {
      assert a + b == a;
    } else {
      var b' := b[..|b| - 1];
      assert (a + b)[..|a + b| - 1] == a + b';
      NewlinesAppend(a, b');
    }
  }

  /** A string without a newline counts none, and one that is all newlines
      counts every character. */
  lemma {:induction false} NewlinesBounds(s: string)
    ensures Newlines(s) <= |s|
    ensures (forall i | 0 <= i < |s| :: s[i] != '\n') ==> Newlines(s) == 0
    decreases |s|
  {
    if s != [] {
      NewlinesBounds(s[..|s| - 1]);
    }
  }

  /** Splitting a slice of `src` at `mid` splits its newline count. */
  lemma NewlinesSplit(src: string, lo: nat, mid: nat, hi: nat)
    requires lo <= mid <= hi <= |src|
    ensures Newlines(src[lo..hi]) == Newlines(src[lo..mid]) + Newlines(src[mid..hi])
  {
    assert src[lo..hi] == src[lo..mid] + src[mid..hi];
    NewlinesAppend(src[lo..mid], src[mid..hi]);
  }

  /** Extending a slice by one character adds one newline exactly when that
      character is a newline. */
  lemma NewlinesStep(src: string, lo: nat, hi: nat)
    requires lo <= hi < |src|
    ensures Newlines(src[lo..hi + 1]) == Newlines(src[lo..hi]) + (if src[hi] == '\n' then 1 else 0)
  {
    assert src[lo..hi + 1][..hi - lo] == src[lo..hi];
  }

  /** A slice without a newline character counts no newlines. */
  lemma NoNewlines(src: string, lo: nat, hi: nat)
    requires lo <= hi <= |src|
    requires forall i | lo <= i < hi :: src[i] != '\n'
    ensures Newlines(src[lo..hi]) == 0
  {
    assert forall i | 0 <= i < |src[lo..hi]| :: src[lo..hi][i] != '\n';
    NewlinesBounds(src[lo..hi]);
  }
}
