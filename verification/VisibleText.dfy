/** What a reader of the output sees: the text without its comments, the claim
    markers and where they stood, and the statements of the text, line by line,
    outside headings, rules and tables, inside fences as they are. */
module VisibleText {
  import opened Options
  import opened TokenWindows
  import opened Sentences

  // A comment's body: not a claim marker, a marker that does not parse, or a claim.
  datatype Comment = Plain | Malformed | Claim(text: string, evidenceIds: seq<string>)

  // The regular expressions for structure and separators, and the marker reader.
  datatype Grammar = Grammar(
    cs: Classes, structural: string -> bool, separator: string -> bool, comment: string -> Comment)

  datatype Marker = Marker(text: string, evidenceIds: seq<string>, offset: nat)

  // ---------------------------------------------------------------------------
  // Comments

  // If a comment opens at i and is closed, where its closing mark starts.
  function CommentAt(t: string, i: nat): (j: Option<nat>)
    ensures j.Some? ==> i + 4 <= j.value && j.value + 3 <= |t|
  {
    if !Occurs(t, "<!--", i) then None
    else
      FirstIndexFinds(t, "-->", i + 4);
      var close := FirstIndex(t, "-->", i + 4);
      if close < 0 then None else Some(close)
  }

  // From i on, with the visible text and the markers so far.
  function Visible(g: Grammar, t: string, i: nat, text: string, markers: seq<Marker>): Option<(string, seq<Marker>)>
    requires i <= |t|
    decreases |t| - i
  {
    if i == |t| then Some((text, markers))
    else
      match CommentAt(t, i)
      case None => Visible(g, t, i + 1, text + [t[i]], markers)
      case Some(j) =>
        match g.comment(t[i + 4..j])
        case Plain => Visible(g, t, j + 3, text, markers)
        case Malformed => None
        case Claim(x, ids) => Visible(g, t, j + 3, text, markers + [Marker(x, ids, |text|)])
  }

  method ParseVisibleOutput(g: Grammar, t: string) returns (r: Option<(string, seq<Marker>)>)
    ensures r == Visible(g, t, 0, "", [])
  {
    var text, rawCursor := "", 0;
    var markers: seq<Marker> := [];
    var i := 0;
    assert text + t[0..0] == "";
    while i < |t|
      invariant rawCursor <= i <= |t|
      invariant Visible(g, t, 0, "", []) == Visible(g, t, i, text + t[rawCursor..i], markers)
    {
      var close := CommentAt(t, i);
      if close.None? {
        assert text + t[rawCursor..i + 1] == (text + t[rawCursor..i]) + [t[i]];
        i := i + 1;
        continue;
      }
      text := text + t[rawCursor..i];
      var marker := g.comment(t[i + 4..close.value]);
      VisibleComment(g, t, i, text, markers);
      if marker.Malformed? { return None; }
      if marker.Claim? { markers := markers + [Marker(marker.text, marker.evidenceIds, |text|)]; }
      i := close.value + 3;
      rawCursor := i;
      assert text + t[rawCursor..i] == text;
    }
    assert t[rawCursor..] == t[rawCursor..i];
    return Some((text + t[rawCursor..], markers));
  }

  lemma VisibleComment(g: Grammar, t: string, i: nat, text: string, markers: seq<Marker>)
    requires i < |t| && CommentAt(t, i).Some?
    ensures var j := CommentAt(t, i).value; var marker := g.comment(t[i + 4..j]);
      Visible(g, t, i, text, markers) ==
        if marker.Malformed? then None
        else Visible(g, t, j + 3, text,
                     if marker.Claim? then markers + [Marker(marker.text, marker.evidenceIds, |text|)] else markers)
  {}

  // Markers stand inside the text, in order.
  lemma {:induction false} MarkersAreInText(g: Grammar, t: string, i: nat, text: string, markers: seq<Marker>)
    requires i <= |t| && forall k | 0 <= k < |markers| :: markers[k].offset <= |text|
    ensures Visible(g, t, i, text, markers).Some? ==>
      var (all, ms) := Visible(g, t, i, text, markers).value;
      |text| <= |all| && forall k | 0 <= k < |ms| :: ms[k].offset <= |all|
    decreases |t| - i
  {
    if i < |t| {
      match CommentAt(t, i)
      case None => MarkersAreInText(g, t, i + 1, text + [t[i]], markers);
      case Some(j) =>
        match g.comment(t[i + 4..j])
        case Plain => MarkersAreInText(g, t, j + 3, text, markers);
        case Malformed =>
        case Claim(x, ids) => MarkersAreInText(g, t, j + 3, text, markers + [Marker(x, ids, |text|)]);
    }
  }

  // ---------------------------------------------------------------------------
  // Lines

  const NEWLINES := Marks(c => c == '\n' || c == '\r', c => false)

  function Lines(t: string, i: nat): seq<Segment>
    requires i <= |t|
    decreases |t| - i
  {
    if i == |t| then []
    else if NEWLINES.stop(t[i]) then Lines(t, i + 1)
    else
      var end := RunEnd(NEWLINES, t, i + 1);
      [Segment(t[i..end], i)] + Lines(t, end)
  }

  lemma {:induction false} LinesAreSlices(t: string, i: nat)
    requires i <= |t|
    ensures forall k | 0 <= k < |Lines(t, i)| ::
      SegmentWithin(Lines(t, i)[k], i, |t|) && Occurs(t, Lines(t, i)[k].text, Lines(t, i)[k].start)
    ensures forall k, m | 0 <= k < m < |Lines(t, i)| :: SegmentBefore(Lines(t, i)[k], Lines(t, i)[m])
    decreases |t| - i
  {
    if i < |t| {
      if NEWLINES.stop(t[i]) {
        LinesAreSlices(t, i + 1);
      } else {
        var end := RunEnd(NEWLINES, t, i + 1);
        LinesAreSlices(t, end);
        var rest := Lines(t, end);
        var all := [Segment(t[i..end], i)] + rest;
        assert Lines(t, i) == all;
        forall k | 0 <= k < |all| ensures SegmentWithin(all[k], i, |t|) && Occurs(t, all[k].text, all[k].start) {
          if k > 0 { assert all[k] == rest[k - 1] && SegmentWithin(rest[k - 1], end, |t|); }
        }
        forall k, m | 0 <= k < m < |all| ensures SegmentBefore(all[k], all[m]) {
          assert all[m] == rest[m - 1] && SegmentWithin(rest[m - 1], end, |t|);
          if k > 0 { assert all[k] == rest[k - 1]; }
        }
      }
    }
  }

  // ---------------------------------------------------------------------------
  // The statements of one line

  // A list bullet or number and the space after it.
  function PrefixLength(cs: Classes, t: string): (n: nat)
    ensures n <= |t|
  {
    var digits := DigitRun(t, 0);
    var mark := if t != "" && (t[0] == '-' || t[0] == '+' || t[0] == '*') then 1
                else if 0 < digits < |t| && (t[digits] == '.' || t[digits] == ')' || t[digits] == '\U{3001}') then digits + 1
                else 0;
    if mark == 0 || Lead(cs, t[mark..]) == 0 then 0 else mark + Lead(cs, t[mark..])
  }

  // Where the digits from i on end.
  function DigitRun(t: string, i: nat): (n: nat)
    requires i <= |t|
    ensures i <= n <= |t|
    decreases |t| - i
  {
    if i < |t| && '0' <= t[i] <= '9' then DigitRun(t, i + 1) else i
  }

  predicate StatementEnd(c: char) {
    c == '\U{3002}' || c == '\U{FF01}' || c == '\U{FF1F}' || c == '!' || c == '?' || c == '\U{FF1B}' || c == ';'
  }

  const STATEMENTS := Marks(c => StatementEnd(c), c => StatementEnd(c))

  // The segments that are not structure, moved to their place in the whole text.
  function Placed(g: Grammar, segments: seq<Segment>, at: nat): seq<Segment> {
    if segments == [] then []
    else (if g.structural(segments[0].text) then [] else [Segment(segments[0].text, at + segments[0].start)])
         + Placed(g, segments[1..], at)
  }

  lemma VisibleInLine(cs: Classes, line: string, prefix: nat)
    requires Trim(cs, line) != "" && prefix <= |Trim(cs, line)|
    ensures Occurs(line, Trim(cs, line)[prefix..], Lead(cs, line) + prefix)
  {
    var trimmed := Trim(cs, line);
    assert line[Lead(cs, line)..Tail(cs, line)][prefix..] == line[Lead(cs, line) + prefix..Tail(cs, line)];
  }

  // A nonblank line without its bullet, and where that starts in the line.
  function VisiblePart(cs: Classes, line: string): (r: (string, nat))
    requires Trim(cs, line) != ""
    ensures Occurs(line, r.0, r.1)
  {
    var trimmed := Trim(cs, line);
    var prefix := PrefixLength(cs, trimmed);
    VisibleInLine(cs, line, prefix);
    (trimmed[prefix..], Lead(cs, line) + prefix)
  }

  function StatementsAt(g: Grammar, visible: string, at: nat): seq<Segment> {
    Placed(g, Segments(g.cs, STATEMENTS, visible, 0), at)
  }

  function LineStatements(g: Grammar, line: Segment): seq<Segment> {
    if Trim(g.cs, line.text) == "" then []
    else
      var visible := VisiblePart(g.cs, line.text);
      StatementsAt(g, visible.0, line.start + visible.1)
  }

  method StatementsOfLine(g: Grammar, line: Segment) returns (statements: seq<Segment>)
    requires Trim(g.cs, line.text) != ""
    ensures statements == LineStatements(g, line)
  {
    var trimmed := Trim(g.cs, line.text);
    var contentOffset := Lead(g.cs, line.text);
    var prefix := PrefixLength(g.cs, trimmed);
    var visibleLine := trimmed[prefix..];
    contentOffset := contentOffset + prefix;
    statements := ReadStatements(g, visibleLine, line.start + contentOffset);
  }

  method ReadStatements(g: Grammar, visibleLine: string, at: nat) returns (statements: seq<Segment>)
    ensures statements == StatementsAt(g, visibleLine, at)
  {
    var sentences := SentenceSegments(g.cs, STATEMENTS, visibleLine);
    statements := PlaceStatements(g, sentences, at);
  }

  lemma PlacedStep(g: Grammar, before: seq<Segment>, ss: seq<Segment>, k: nat, at: nat)
    requires k < |ss|
    ensures var head := if g.structural(ss[k].text) then [] else [Segment(ss[k].text, at + ss[k].start)];
      before + Placed(g, ss[k..], at) == (before + head) + Placed(g, ss[k + 1..], at)
    ensures before + [] == before
  {
    assert ss[k..][1..] == ss[k + 1..];
  }

  method PlaceStatements(g: Grammar, sentences: seq<Segment>, at: nat) returns (statements: seq<Segment>)
    ensures statements == Placed(g, sentences, at)
  {
    statements := [];
    for k := 0 to |sentences|
      invariant statements + Placed(g, sentences[k..], at) == Placed(g, sentences, at)
    {
      PlacedStep(g, statements, sentences, k, at);
      if g.structural(sentences[k].text) { continue; }
      statements := statements + [Segment(sentences[k].text, at + sentences[k].start)];
    }
  }

  // Statement s is the text of t where it says, and not empty.
  predicate StatementOf(t: string, s: Segment) {
    s.text != "" && Occurs(t, s.text, s.start)
  }

  predicate InOrder(t: string, ss: seq<Segment>, lo: nat, hi: nat) {
    && (forall k | 0 <= k < |ss| :: SegmentWithin(ss[k], lo, hi) && StatementOf(t, ss[k]))
    && (forall k, m | 0 <= k < m < |ss| :: SegmentBefore(ss[k], ss[m]))
  }

  lemma InOrderAppends(t: string, a: seq<Segment>, b: seq<Segment>, lo: nat, mid: nat, hi: nat)
    requires InOrder(t, a, lo, mid) && InOrder(t, b, mid, hi) && lo <= mid <= hi
    ensures InOrder(t, a + b, lo, hi)
  {
    var all := a + b;
    forall k | 0 <= k < |all| ensures SegmentWithin(all[k], lo, hi) && StatementOf(t, all[k]) {
      if k < |a| { assert SegmentWithin(a[k], lo, mid); } else { assert SegmentWithin(b[k - |a|], mid, hi); }
    }
    forall k, m | 0 <= k < m < |all| ensures SegmentBefore(all[k], all[m]) {
      if m >= |a| { assert SegmentWithin(b[m - |a|], mid, hi); }
      if k < |a| { assert SegmentWithin(a[k], lo, mid); }
      if m < |a| { assert SegmentBefore(a[k], a[m]); }
      if k >= |a| { assert SegmentBefore(b[k - |a|], b[m - |a|]); }
    }
  }

  lemma {:induction false} PlacedInOrder(g: Grammar, t: string, visible: string, ss: seq<Segment>, at: nat, lo: nat)
    requires Occurs(t, visible, at) && InOrder(visible, ss, lo, |visible|) && lo <= |visible|
    ensures InOrder(t, Placed(g, ss, at), at + lo, at + |visible|)
    decreases |ss|
  {
    if ss != [] {
      var s := ss[0];
      var next := s.start + |s.text|;
      assert SegmentWithin(s, lo, |visible|) && StatementOf(visible, s);
      forall k | 0 <= k < |ss[1..]| ensures SegmentWithin(ss[1..][k], next, |visible|) && StatementOf(visible, ss[1..][k]) {
        assert ss[1..][k] == ss[k + 1] && SegmentBefore(ss[0], ss[k + 1]) && SegmentWithin(ss[k + 1], lo, |visible|);
      }
      PlacedInOrder(g, t, visible, ss[1..], at, next);
      OccursWithin(t, visible, s.text, at, s.start);
      var head := if g.structural(s.text) then [] else [Segment(s.text, at + s.start)];
      InOrderAppends(t, head, Placed(g, ss[1..], at), at + lo, at + next, at + |visible|);
    }
  }

  lemma SentencesInOrder(cs: Classes, marks: Marks, t: string)
    ensures InOrder(t, Segments(cs, marks, t, 0), 0, |t|)
  {
    var ss := Segments(cs, marks, t, 0);
    SegmentsAscend(cs, marks, t, 0);
    forall k | 0 <= k < |ss| ensures SegmentWithin(ss[k], 0, |t|) && StatementOf(t, ss[k]) {
      SegmentsAreSlices(cs, marks, t, 0, k);
    }
  }

  lemma LineStatementsInOrder(g: Grammar, t: string, line: Segment)
    requires Occurs(t, line.text, line.start)
    ensures InOrder(t, LineStatements(g, line), line.start, line.start + |line.text|)
  {
    if Trim(g.cs, line.text) != "" {
      var visible := VisiblePart(g.cs, line.text);
      VisibleLineInOrder(g, t, line, visible.0, visible.1, line.start + visible.1);
    }
  }

  lemma VisibleLineInOrder(g: Grammar, t: string, line: Segment, visible: string, offset: nat, at: nat)
    requires Occurs(t, line.text, line.start) && Occurs(line.text, visible, offset) && at == line.start + offset
    ensures InOrder(t, StatementsAt(g, visible, at), line.start, line.start + |line.text|)
  {
    OccursWithin(t, line.text, visible, line.start, offset);
    SentencesInOrder(g.cs, STATEMENTS, visible);
    PlacedInOrder(g, t, visible, Segments(g.cs, STATEMENTS, visible, 0), at, 0);
    Widen(t, StatementsAt(g, visible, at), at, at + |visible|, line.start, line.start + |line.text|);
  }

  lemma Widen(t: string, ss: seq<Segment>, lo: nat, hi: nat, a: nat, b: nat)
    requires InOrder(t, ss, lo, hi) && a <= lo && hi <= b
    ensures InOrder(t, ss, a, b)
  {
    forall k | 0 <= k < |ss| ensures SegmentWithin(ss[k], a, b) { assert SegmentWithin(ss[k], lo, hi); }
  }

  // ---------------------------------------------------------------------------
  // Fences, structure and tables

  datatype Fence = Fence(character: char, length: nat)

  // Where the run of c from i on ends.
  function RunOf(c: char, t: string, i: nat): (n: nat)
    requires i <= |t|
    ensures i <= n <= |t|
    decreases |t| - i
  {
    if i < |t| && t[i] == c then RunOf(c, t, i + 1) else i
  }

  predicate OneLine(t: string) {
    forall k | 0 <= k < |t| :: t[k] != '\U{2028}' && t[k] != '\U{2029}'
  }

  // The fence mark a trimmed line opens with, and the rest of the line.
  function FenceMark(t: string): Option<(Fence, string)> {
    if t == "" || (t[0] != '`' && t[0] != '~') then None
    else
      var n := RunOf(t[0], t, 0);
      if n < 3 || !OneLine(t[n..]) then None else Some((Fence(t[0], n), t[n..]))
  }

  predicate TableHeader(g: Grammar, lines: seq<Segment>, k: nat)
    requires k < |lines|
  {
    '|' in Trim(g.cs, lines[k].text) && SeparatorFollows(g, lines, k + 1)
  }

  predicate SeparatorFollows(g: Grammar, lines: seq<Segment>, next: nat)
    decreases |lines| - next
  {
    next < |lines|
    && var value := Trim(g.cs, lines[next].text);
       if value == "" then SeparatorFollows(g, lines, next + 1) else g.separator(value)
  }

  // What a line does to the open fence, and whether its statements count.
  function Turn(g: Grammar, lines: seq<Segment>, k: nat, fence: Option<Fence>): (Option<Fence>, bool)
    requires k < |lines|
  {
    var trimmed := Trim(g.cs, lines[k].text);
    var mark := FenceMark(trimmed);
    if trimmed == "" then (fence, false)
    else if mark.Some? && fence.None? then (Some(mark.value.0), false)
    else if mark.Some? && mark.value.0.character == fence.value.character
      && mark.value.0.length >= fence.value.length && Trim(g.cs, mark.value.1) == "" then (None, false)
    else (fence, !(fence.None? && (g.structural(trimmed) || TableHeader(g, lines, k))))
  }

  function Counted(g: Grammar, lines: seq<Segment>, k: nat, fence: Option<Fence>): seq<Segment>
    requires k < |lines|
  {
    if Turn(g, lines, k, fence).1 then LineStatements(g, lines[k]) else []
  }

  function Statements(g: Grammar, lines: seq<Segment>, k: nat, fence: Option<Fence>): seq<Segment>
    decreases |lines| - k
  {
    if k >= |lines| then []
    else Counted(g, lines, k, fence) + Statements(g, lines, k + 1, Turn(g, lines, k, fence).0)
  }

  function StatementsOf(g: Grammar, text: string): seq<Segment> {
    Statements(g, Lines(text, 0), 0, None)
  }

  lemma AppendAssociates(a: seq<Segment>, b: seq<Segment>, c: seq<Segment>)
    ensures a + (b + c) == (a + b) + c && a + [] == a
  {}

  method ExtractVisibleStatements(g: Grammar, text: string) returns (statements: seq<Segment>)
    ensures statements == StatementsOf(g, text)
  {
    statements := [];
    var lines := SplitLines(text);
    var fence: Option<Fence> := None;
    for lineIndex := 0 to |lines|
      invariant statements + Statements(g, lines, lineIndex, fence) == StatementsOf(g, text)
    {
      var next, counts := ReadLine(g, lines, lineIndex, fence);
      AppendAssociates(statements, Counted(g, lines, lineIndex, fence), Statements(g, lines, lineIndex + 1, next));
      if counts {
        var found := StatementsOfLine(g, lines[lineIndex]);
        statements := statements + found;
      }
      fence := next;
    }
  }

  // The tests at the head of the loop: blank, fence, structure, table header.
  method ReadLine(g: Grammar, lines: seq<Segment>, lineIndex: nat, fence: Option<Fence>)
    returns (next: Option<Fence>, counts: bool)
    requires lineIndex < |lines|
    ensures (next, counts) == Turn(g, lines, lineIndex, fence)
    ensures counts ==> Trim(g.cs, lines[lineIndex].text) != ""
  {
    var trimmed := Trim(g.cs, lines[lineIndex].text);
    next := fence;
    if trimmed == "" { return next, false; }
    var mark := FenceMark(trimmed);
    if mark.Some? {
      var marker := mark.value.0;
      if fence.None? { return Some(marker), false; }
      if marker.character == fence.value.character && marker.length >= fence.value.length
        && Trim(g.cs, mark.value.1) == ""
      {
        return None, false;
      }
    }
    if fence.None? && g.structural(trimmed) { return next, false; }
    if fence.None? && TableHeader(g, lines, lineIndex) { return next, false; }
    return next, true;
  }

  method SplitLines(t: string) returns (lines: seq<Segment>)
    ensures lines == Lines(t, 0)
  {
    lines := [];
    var i := 0;
    while i < |t|
      invariant i <= |t| && lines + Lines(t, i) == Lines(t, 0)
    {
      if NEWLINES.stop(t[i]) {
        i := i + 1;
      } else {
        var end := RunEnd(NEWLINES, t, i + 1);
        lines := lines + [Segment(t[i..end], i)];
        i := end;
      }
    }
  }

  lemma {:induction false} StatementsInOrder(g: Grammar, t: string, k: nat, fence: Option<Fence>, lo: nat)
    requires lo <= |t| && (k < |Lines(t, 0)| ==> lo <= Lines(t, 0)[k].start)
    ensures InOrder(t, Statements(g, Lines(t, 0), k, fence), lo, |t|)
    decreases |Lines(t, 0)| - k
  {
    var lines := Lines(t, 0);
    LinesAreSlices(t, 0);
    if k < |lines| {
      var next := Turn(g, lines, k, fence).0;
      var end := lines[k].start + |lines[k].text|;
      assert SegmentWithin(lines[k], 0, |t|);
      assert k + 1 < |lines| ==> SegmentBefore(lines[k], lines[k + 1]);
      StatementsInOrder(g, t, k + 1, next, end);
      LineStatementsInOrder(g, t, lines[k]);
      Widen(t, LineStatements(g, lines[k]), lines[k].start, end, lo, end);
      InOrderAppends(t, Counted(g, lines, k, fence), Statements(g, lines, k + 1, next), lo, end, |t|);
    }
  }

  // Statements ascend through the text without overlap, each the text where it is.
  lemma StatementsAreTheText(g: Grammar, t: string)
    ensures InOrder(t, StatementsOf(g, t), 0, |t|)
  {
    StatementsInOrder(g, t, 0, None, 0);
  }
}
