/** Splitting text into trimmed sentences that know where they start: the scan that
    the span chooser and the claim extractor share, with their own stop characters. */
module Sentences {
  import opened TokenWindows

  // A sentence is a run without stops, and the end mark after it if there is one.
  datatype Marks = Marks(stop: char -> bool, end: char -> bool)

  datatype Segment = Segment(text: string, start: nat)

  function RunEnd(marks: Marks, t: string, i: nat): (j: nat)
    requires i <= |t|
    ensures i <= j <= |t|
    decreases |t| - i
  {
    if i < |t| && !marks.stop(t[i]) then RunEnd(marks, t, i + 1) else i
  }

  // Where a sentence starting at i ends, its terminator included.
  function SentenceEnd(marks: Marks, t: string, i: nat): (e: nat)
    requires i < |t| && !marks.stop(t[i])
    ensures i < e <= |t|
  {
    var j := RunEnd(marks, t, i + 1);
    if j < |t| && marks.end(t[j]) then j + 1 else j
  }

  function Trimmed(cs: Classes, raw: string, at: nat): seq<Segment> {
    if Trim(cs, raw) == "" then [] else [Segment(Trim(cs, raw), at + Lead(cs, raw))]
  }

  function Segments(cs: Classes, marks: Marks, t: string, i: nat): seq<Segment>
    requires i <= |t|
    decreases |t| - i
  {
    if i == |t| then []
    else if marks.stop(t[i]) then Segments(cs, marks, t, i + 1)
    else Trimmed(cs, t[i..SentenceEnd(marks, t, i)], i) + Segments(cs, marks, t, SentenceEnd(marks, t, i))
  }

  lemma SegmentsStep(cs: Classes, marks: Marks, t: string, i: nat, end: nat)
    requires i < |t| && !marks.stop(t[i]) && end == SentenceEnd(marks, t, i)
    ensures Segments(cs, marks, t, i) == Trimmed(cs, t[i..end], i) + Segments(cs, marks, t, end)
  {}

  lemma StopStep(cs: Classes, marks: Marks, t: string, i: nat)
    requires i < |t| && marks.stop(t[i])
    ensures Segments(cs, marks, t, i) == Segments(cs, marks, t, i + 1)
  {}

  // The segments found before a place, and those from there on.
  ghost predicate Complete(all: seq<Segment>, found: seq<Segment>, rest: seq<Segment>) {
    all == found + rest
  }

  lemma FoundMore(all: seq<Segment>, found: seq<Segment>, more: seq<Segment>, rest: seq<Segment>)
    requires Complete(all, found, more + rest)
    ensures Complete(all, found + more, rest) && (more == [] ==> Complete(all, found, rest))
  {
    assert found + (more + rest) == (found + more) + rest;
    if more == [] { assert found + more == found; }
  }

  // The sentence that starts here, trimmed, if anything is left of it.
  method ReadSentence(cs: Classes, marks: Marks, t: string, i: nat) returns (end: nat, text: string, start: nat)
    requires i < |t| && !marks.stop(t[i])
    ensures end == SentenceEnd(marks, t, i)
    ensures Trimmed(cs, t[i..end], i) == if text == "" then [] else [Segment(text, start)]
  {
    end := SentenceEnd(marks, t, i);
    text := Trim(cs, t[i..end]);
    start := i + Lead(cs, t[i..end]);
  }

  method SentenceSegments(cs: Classes, marks: Marks, t: string) returns (segments: seq<Segment>)
    ensures segments == Segments(cs, marks, t, 0)
  {
    segments := [];
    ghost var all := Segments(cs, marks, t, 0);
    ghost var rest := all;
    var i := 0;
    while i < |t|
      invariant i <= |t| && rest == Segments(cs, marks, t, i) && Complete(all, segments, rest)
    {
      if marks.stop(t[i]) {
        StopStep(cs, marks, t, i);
        i := i + 1;
        continue;
      }
      var end, text, start := ReadSentence(cs, marks, t, i);
      SegmentsStep(cs, marks, t, i, end);
      rest := Segments(cs, marks, t, end);
      FoundMore(all, segments, if text == "" then [] else [Segment(text, start)], rest);
      if text != "" { segments := segments + [Segment(text, start)]; }
      i := end;
    }
    FoundMore(all, segments, rest, []);
  }

  // Every segment is the text where it says it starts.
  lemma {:induction false} SegmentsAreSlices(cs: Classes, marks: Marks, t: string, i: nat, k: nat)
    requires i <= |t| && k < |Segments(cs, marks, t, i)|
    ensures var s := Segments(cs, marks, t, i)[k]; s.text != "" && Occurs(t, s.text, s.start)
    decreases |t| - i
  {
    if marks.stop(t[i]) {
      StopStep(cs, marks, t, i);
      SegmentsAreSlices(cs, marks, t, i + 1, k);
    } else {
      var end := SentenceEnd(marks, t, i);
      var first, rest := Trimmed(cs, t[i..end], i), Segments(cs, marks, t, end);
      SegmentsStep(cs, marks, t, i, end);
      if k < |first| {
        assert (first + rest)[k] == first[0];
        TrimSliceText(cs, t, i, end);
      } else {
        assert (first + rest)[k] == rest[k - |first|];
        SegmentsAreSlices(cs, marks, t, end, k - |first|);
      }
    }
  }

  // Segments come in order and do not overlap.
  lemma {:induction false} SegmentsAscend(cs: Classes, marks: Marks, t: string, i: nat)
    requires i <= |t|
    ensures forall k | 0 <= k < |Segments(cs, marks, t, i)| :: SegmentWithin(Segments(cs, marks, t, i)[k], i, |t|)
    ensures forall k, m | 0 <= k < m < |Segments(cs, marks, t, i)| ::
      SegmentBefore(Segments(cs, marks, t, i)[k], Segments(cs, marks, t, i)[m])
    decreases |t| - i
  {
    if i < |t| {
      var next := if marks.stop(t[i]) then i + 1 else SentenceEnd(marks, t, i);
      SegmentsAscend(cs, marks, t, next);
      if !marks.stop(t[i]) {
        var first, rest := Trimmed(cs, t[i..next], i), Segments(cs, marks, t, next);
        if first != [] { TrimSliceText(cs, t, i, next); }
        var all := first + rest;
        forall k | 0 <= k < |all| ensures SegmentWithin(all[k], i, |t|) {
          if k >= |first| { assert SegmentWithin(rest[k - |first|], next, |t|); }
        }
        forall k, m | 0 <= k < m < |all| ensures SegmentBefore(all[k], all[m]) {
          assert SegmentWithin(rest[m - |first|], next, |t|);
          if k >= |first| { assert SegmentBefore(rest[k - |first|], rest[m - |first|]); }
        }
      }
    }
  }

  predicate SegmentWithin(s: Segment, lo: nat, hi: nat) {
    lo <= s.start && s.start + |s.text| <= hi
  }

  predicate SegmentBefore(s: Segment, u: Segment) {
    s.start + |s.text| <= u.start
  }

  // ---------------------------------------------------------------------------
  // The segments are exactly the sentences

  // From a stop or the beginning up to the next stop, which belongs to it if it is an
  // end mark.
  predicate IsSentence(marks: Marks, t: string, a: nat, b: nat) {
    && a < b <= |t| && !marks.stop(t[a]) && (a > 0 ==> marks.stop(t[a - 1]))
    && (forall i | a <= i < b - 1 :: !marks.stop(t[i]))
    && (if marks.stop(t[b - 1]) then marks.end(t[b - 1]) else b == |t| || (marks.stop(t[b]) && !marks.end(t[b])))
  }

  // Segment s is what trimming leaves of a sentence from i on.
  ghost predicate FromSentence(cs: Classes, marks: Marks, t: string, i: nat, s: Segment) {
    exists a: nat, b: nat :: i <= a && TrimmedSentence(cs, marks, t, a, b, s)
  }

  predicate TrimmedSentence(cs: Classes, marks: Marks, t: string, a: nat, b: nat, s: Segment) {
    IsSentence(marks, t, a, b) && Trim(cs, t[a..b]) != "" && s == Segment(Trim(cs, t[a..b]), a + Lead(cs, t[a..b]))
  }

  lemma {:induction false} RunHasNoStop(marks: Marks, t: string, i: nat)
    requires i <= |t|
    ensures forall k | i <= k < RunEnd(marks, t, i) :: !marks.stop(t[k])
    ensures RunEnd(marks, t, i) < |t| ==> marks.stop(t[RunEnd(marks, t, i)])
    decreases |t| - i
  {
    if i < |t| && !marks.stop(t[i]) { RunHasNoStop(marks, t, i + 1); }
  }

  // A sentence starts here, and this is the one.
  lemma OneSentence(marks: Marks, t: string, i: nat)
    requires i < |t| && !marks.stop(t[i]) && (i > 0 ==> marks.stop(t[i - 1]))
    ensures IsSentence(marks, t, i, SentenceEnd(marks, t, i))
    ensures forall b: nat | IsSentence(marks, t, i, b) :: b == SentenceEnd(marks, t, i)
    ensures forall a: nat, b: nat | IsSentence(marks, t, a, b) && a > i :: a >= SentenceEnd(marks, t, i)
  {
    RunHasNoStop(marks, t, i + 1);
    var j, end := RunEnd(marks, t, i + 1), SentenceEnd(marks, t, i);
    var stop := if j < |t| then t[j] else ' ';
    forall b: nat | IsSentence(marks, t, i, b) ensures b == end {
      var next := if b < |t| then t[b] else ' ';
    }
    forall a: nat, b: nat | IsSentence(marks, t, a, b) && a > i ensures a >= end {
      var before := t[a - 1];
    }
  }

  // A place where no sentence goes on.
  predicate Boundary(marks: Marks, t: string, i: nat) {
    i <= |t| && (i == 0 || i == |t| || marks.stop(t[i - 1]) || marks.stop(t[i]))
  }

  lemma {:induction false} SegmentsIff(cs: Classes, marks: Marks, t: string, i: nat, s: Segment)
    requires Boundary(marks, t, i)
    ensures s in Segments(cs, marks, t, i) <==> FromSentence(cs, marks, t, i, s)
    decreases |t| - i
  {
    if i < |t| {
      if marks.stop(t[i]) {
        StopStep(cs, marks, t, i);
        SegmentsIff(cs, marks, t, i + 1, s);
        if FromSentence(cs, marks, t, i, s) {
          var a: nat, b: nat :| i <= a && TrimmedSentence(cs, marks, t, a, b, s);
          assert a >= i + 1;
        }
      } else {
        SegmentsIffSentence(cs, marks, t, i, s);
      }
    }
  }

  lemma {:induction false} SegmentsIffSentence(cs: Classes, marks: Marks, t: string, i: nat, s: Segment)
    requires Boundary(marks, t, i) && i < |t| && !marks.stop(t[i])
    ensures s in Segments(cs, marks, t, i) <==> FromSentence(cs, marks, t, i, s)
    decreases |t| - i, 0
  {
    var end := SentenceEnd(marks, t, i);
    SegmentsStep(cs, marks, t, i, end);
    EndIsBoundary(marks, t, i);
    SegmentsIff(cs, marks, t, end, s);
    FirstSentence(cs, marks, t, i, end, s);
  }

  lemma EndIsBoundary(marks: Marks, t: string, i: nat)
    requires i < |t| && !marks.stop(t[i])
    ensures Boundary(marks, t, SentenceEnd(marks, t, i))
  {
    RunHasNoStop(marks, t, i + 1);
  }

  // What is from i on is the sentence that starts here or from its end on.
  lemma FirstSentence(cs: Classes, marks: Marks, t: string, i: nat, end: nat, s: Segment)
    requires i < |t| && !marks.stop(t[i]) && (i > 0 ==> marks.stop(t[i - 1])) && end == SentenceEnd(marks, t, i)
    ensures FromSentence(cs, marks, t, i, s) <==> s in Trimmed(cs, t[i..end], i) || FromSentence(cs, marks, t, end, s)
  {
    OneSentence(marks, t, i);
    assert s in Trimmed(cs, t[i..end], i) <==> TrimmedSentence(cs, marks, t, i, end, s);
    if FromSentence(cs, marks, t, i, s) {
      var a: nat, b: nat :| i <= a && TrimmedSentence(cs, marks, t, a, b, s);
      assert a > i ==> a >= end;
    }
  }
}
