/** Nothing visible escapes: every character that is not blank is in a statement, or
    in a line or part of a line that the extraction skips on purpose. */
module VisibleCoverage {
  import opened Options
  import opened TokenWindows
  import opened Sentences
  import opened VisibleText

  predicate Within(s: Segment, p: nat) {
    s.start <= p < s.start + |s.text|
  }

  // ---------------------------------------------------------------------------
  // Sentences and lines

  lemma TrimHolds(cs: Classes, raw: string, p: nat)
    requires p < |raw| && !cs.space(raw[p])
    ensures Trim(cs, raw) != "" && Lead(cs, raw) <= p < Lead(cs, raw) + |Trim(cs, raw)|
  {
    LeadIsBlank(cs, raw);
    TailIsBlank(cs, raw);
  }

  lemma FirstHolds(cs: Classes, t: string, i: nat, end: nat, p: nat)
    requires i <= p < end <= |t| && !cs.space(t[p])
    ensures var first := Trimmed(cs, t[i..end], i); |first| == 1 && Within(first[0], p)
  {
    assert t[i..end][p - i] == t[p];
    TrimHolds(cs, t[i..end], p - i);
  }

  lemma {:induction false} SentenceHolds(cs: Classes, marks: Marks, t: string, i: nat, p: nat) returns (k: nat)
    requires i <= p < |t| && !cs.space(t[p]) && !marks.stop(t[p])
    ensures k < |Segments(cs, marks, t, i)| && Within(Segments(cs, marks, t, i)[k], p)
    decreases |t| - i
  {
    if marks.stop(t[i]) {
      StopStep(cs, marks, t, i);
      k := SentenceHolds(cs, marks, t, i + 1, p);
    } else {
      var end := SentenceEnd(marks, t, i);
      SegmentsStep(cs, marks, t, i, end);
      var m := 0;
      if p < end { FirstHolds(cs, t, i, end, p); } else { m := SentenceHolds(cs, marks, t, end, p); }
      k := OneOfBoth(Trimmed(cs, t[i..end], i), Segments(cs, marks, t, end), m, p < end, p);
    }
  }

  lemma OneOfBoth(first: seq<Segment>, rest: seq<Segment>, m: nat, early: bool, p: nat) returns (k: nat)
    requires if early then first != [] && Within(first[0], p) else m < |rest| && Within(rest[m], p)
    ensures k < |first + rest| && Within((first + rest)[k], p)
  {
    k := if early then 0 else |first| + m;
  }

  lemma {:induction false} LineHolds(t: string, i: nat, p: nat) returns (k: nat)
    requires i <= p < |t| && !NEWLINES.stop(t[p])
    ensures k < |Lines(t, i)| && Within(Lines(t, i)[k], p)
    decreases |t| - i
  {
    if NEWLINES.stop(t[i]) {
      k := LineHolds(t, i + 1, p);
    } else {
      var end := RunEnd(NEWLINES, t, i + 1);
      if p < end {
        k := 0;
      } else {
        var m := LineHolds(t, end, p);
        k := m + 1;
        assert Lines(t, i)[k] == Lines(t, end)[m];
      }
    }
  }

  // ---------------------------------------------------------------------------
  // One line

  lemma {:induction false} PlacedHolds(g: Grammar, ss: seq<Segment>, at: nat, k: nat)
    requires k < |ss| && !g.structural(ss[k].text)
    ensures Segment(ss[k].text, at + ss[k].start) in Placed(g, ss, at)
  {
    if k > 0 {
      PlacedHolds(g, ss[1..], at, k - 1);
      assert ss[1..][k - 1] == ss[k];
    }
  }

  ghost predicate Covered(ss: seq<Segment>, p: nat) {
    exists k :: 0 <= k < |ss| && Within(ss[k], p)
  }

  // A sentence that is structure, although its line is not.
  ghost predicate Structure(g: Grammar, visible: string, at: nat, p: nat) {
    exists s | s in Segments(g.cs, STATEMENTS, visible, 0) :: g.structural(s.text) && Within(Segment(s.text, at + s.start), p)
  }

  // In a line whose visible part starts at the offset: before it, a stop mark, or in
  // a sentence that is structure.
  ghost predicate Excused(g: Grammar, line: Segment, visible: string, offset: nat, p: nat)
    requires Within(line, p)
  {
    p < line.start + offset || StatementEnd(line.text[p - line.start]) || Structure(g, visible, line.start + offset, p)
  }

  lemma LineIs(g: Grammar, line: Segment, part: (string, nat), at: nat)
    requires Trim(g.cs, line.text) != "" && part == VisiblePart(g.cs, line.text) && at == line.start + part.1
    ensures LineStatements(g, line) == StatementsAt(g, part.0, at)
  {
    assert VisiblePart(g.cs, line.text).0 == part.0 && line.start + VisiblePart(g.cs, line.text).1 == at;
  }

  // The visible part ends where the trimmed line does.
  lemma PartEnds(cs: Classes, line: string) returns (part: (string, nat))
    requires Trim(cs, line) != ""
    ensures part == VisiblePart(cs, line) && Occurs(line, part.0, part.1)
    ensures part.1 + |part.0| == Lead(cs, line) + |Trim(cs, line)|
  {
    part := VisiblePart(cs, line);
  }

  lemma StatementHolds(g: Grammar, line: Segment, p: nat, visible: string, offset: nat, end: nat, found: seq<Segment>)
    requires Within(line, p) && !g.cs.space(line.text[p - line.start]) && p - line.start < end
    requires Occurs(line.text, visible, offset) && offset + |visible| == end
    requires found == StatementsAt(g, visible, line.start + offset)
    ensures Covered(found, p) || Excused(g, line, visible, offset, p)
  {
    var i := p - line.start;
    if i >= offset { assert line.text[offset..offset + |visible|][i - offset] == line.text[i]; }
    PartHolds(g, line, p, visible, offset, line.start + offset, found);
  }

  lemma PartHolds(g: Grammar, line: Segment, p: nat, visible: string, offset: nat, at: nat, found: seq<Segment>)
    requires at == line.start + offset && found == StatementsAt(g, visible, at)
    requires Within(line, p) && !g.cs.space(line.text[p - line.start])
    requires p >= at ==> p - at < |visible| && visible[p - at] == line.text[p - line.start]
    ensures Covered(found, p) || p < at || StatementEnd(line.text[p - line.start]) || Structure(g, visible, at, p)
  {
    if p >= at && !StatementEnd(line.text[p - line.start]) { SentencePlaced(g, visible, at, p); }
  }

  lemma SentencePlaced(g: Grammar, visible: string, at: nat, p: nat)
    requires at <= p < at + |visible| && !g.cs.space(visible[p - at]) && !StatementEnd(visible[p - at])
    ensures Covered(StatementsAt(g, visible, at), p) || Structure(g, visible, at, p)
  {
    var k := SentenceHolds(g.cs, STATEMENTS, visible, 0, p - at);
    PlacedOrStructure(g, Segments(g.cs, STATEMENTS, visible, 0), at, k, p);
  }

  lemma PlacedOrStructure(g: Grammar, ss: seq<Segment>, at: nat, k: nat, p: nat)
    requires k < |ss| && p >= at && Within(ss[k], p - at)
    ensures Covered(Placed(g, ss, at), p)
      || exists s | s in ss :: g.structural(s.text) && Within(Segment(s.text, at + s.start), p)
  {
    var moved := Segment(ss[k].text, at + ss[k].start);
    assert ss[k] in ss && Within(moved, p);
    if !g.structural(ss[k].text) {
      PlacedHolds(g, ss, at, k);
      var j :| 0 <= j < |Placed(g, ss, at)| && Placed(g, ss, at)[j] == moved;
    }
  }

  // ---------------------------------------------------------------------------
  // The whole text

  // What a line adds, and the fence it leaves, whatever the lines are.
  type Count = (nat, Option<Fence>) -> seq<Segment>
  type Next = (nat, Option<Fence>) -> Option<Fence>

  function Fold(count: Count, next: Next, n: nat, j: nat, fence: Option<Fence>): seq<Segment>
    decreases n - j
  {
    if j >= n then [] else count(j, fence) + Fold(count, next, n, j + 1, next(j, fence))
  }

  // The fence open before line k, if that before line j is given.
  function FenceAt(next: Next, j: nat, fence: Option<Fence>, k: nat): Option<Fence>
    decreases k - j
  {
    if j >= k then fence else FenceAt(next, j + 1, next(j, fence), k)
  }

  function NextOf(g: Grammar, lines: seq<Segment>): Next {
    (j: nat, fence: Option<Fence>) => if j < |lines| then Turn(g, lines, j, fence).0 else fence
  }

  function CountOf(g: Grammar, lines: seq<Segment>): Count {
    (j: nat, fence: Option<Fence>) => if j < |lines| then Counted(g, lines, j, fence) else []
  }

  lemma {:induction false} StatementsFold(g: Grammar, lines: seq<Segment>, j: nat, fence: Option<Fence>)
    ensures Fold(CountOf(g, lines), NextOf(g, lines), |lines|, j, fence) == Statements(g, lines, j, fence)
    decreases |lines| - j
  {
    if j < |lines| { StatementsFold(g, lines, j + 1, Turn(g, lines, j, fence).0); }
  }

  // The line's statements count: it is not a fence mark, structure or a table header.
  predicate Counts(g: Grammar, lines: seq<Segment>, k: nat)
    requires k < |lines|
  {
    Turn(g, lines, k, FenceAt(NextOf(g, lines), 0, None, k)).1
  }

  lemma CoveredBefore(a: seq<Segment>, b: seq<Segment>, p: nat)
    ensures Covered(a, p) || Covered(b, p) ==> Covered(a + b, p)
  {
    if Covered(a, p) {
      var k :| 0 <= k < |a| && Within(a[k], p);
      assert Within((a + b)[k], p);
    } else if Covered(b, p) {
      var k :| 0 <= k < |b| && Within(b[k], p);
      assert Within((a + b)[|a| + k], p);
    }
  }

  // What line k adds stands among all of it.
  lemma {:induction false} FoldHolds(count: Count, next: Next, n: nat, j: nat, fence: Option<Fence>, k: nat, p: nat)
    requires j <= k < n && Covered(count(k, FenceAt(next, j, fence, k)), p)
    ensures Covered(Fold(count, next, n, j, fence), p)
    decreases k - j
  {
    if j < k { FoldHolds(count, next, n, j + 1, next(j, fence), k, p); }
    CoveredBefore(count(j, fence), Fold(count, next, n, j + 1, next(j, fence)), p);
  }

  lemma LineIsIncluded(g: Grammar, lines: seq<Segment>, k: nat, p: nat)
    requires k < |lines| && Counts(g, lines, k) && Covered(LineStatements(g, lines[k]), p)
    ensures Covered(Statements(g, lines, 0, None), p)
  {
    var count, next := CountOf(g, lines), NextOf(g, lines);
    assert count(k, FenceAt(next, 0, None, k)) == LineStatements(g, lines[k]);
    FoldHolds(count, next, |lines|, 0, None, k, p);
    StatementsFold(g, lines, 0, None);
  }

  lemma LineOf(t: string, p: nat) returns (k: nat)
    requires p < |t| && !NEWLINES.stop(t[p])
    ensures k < |Lines(t, 0)| && Within(Lines(t, 0)[k], p) && Lines(t, 0)[k].text[p - Lines(t, 0)[k].start] == t[p]
  {
    k := LineHolds(t, 0, p);
    LinesAreSlices(t, 0);
    var line := Lines(t, 0)[k];
    assert Occurs(t, line.text, line.start);
    assert t[line.start..line.start + |line.text|][p - line.start] == t[p];
  }

  lemma LineIsAccounted(g: Grammar, line: Segment, p: nat) returns (visible: string, offset: nat)
    requires Within(line, p) && !g.cs.space(line.text[p - line.start])
    ensures Trim(g.cs, line.text) != "" && VisiblePart(g.cs, line.text) == (visible, offset)
    ensures Covered(LineStatements(g, line), p) || Excused(g, line, visible, offset, p)
  {
    TrimHolds(g.cs, line.text, p - line.start);
    var part := PartEnds(g.cs, line.text);
    visible, offset := part.0, part.1;
    LineIs(g, line, part, line.start + offset);
    StatementHolds(g, line, p, visible, offset, offset + |visible|, LineStatements(g, line));
  }

  // Each visible character is in a line; if the line counts, it is in a statement
  // or excused.
  lemma CharacterIsAccounted(g: Grammar, t: string, p: nat) returns (k: nat, visible: string, offset: nat)
    requires p < |t| && !g.cs.space(t[p]) && !NEWLINES.stop(t[p])
    ensures k < |Lines(t, 0)| && Within(Lines(t, 0)[k], p) && Trim(g.cs, Lines(t, 0)[k].text) != ""
    ensures VisiblePart(g.cs, Lines(t, 0)[k].text) == (visible, offset)
    ensures Counts(g, Lines(t, 0), k) ==>
      Covered(StatementsOf(g, t), p) || Excused(g, Lines(t, 0)[k], visible, offset, p)
  {
    k := LineOf(t, p);
    var lines := Lines(t, 0);
    visible, offset := LineIsAccounted(g, lines[k], p);
    if Counts(g, lines, k) && Covered(LineStatements(g, lines[k]), p) { LineIsIncluded(g, lines, k, p); }
  }
}
