/** Where the older chunker cuts, by positions: at runs of newlines, behind sentence
    marks, at every 800 characters, and sentences together as long as they fit. */
module ParagraphCuts {
  import opened TokenWindows
  import opened LegacyParagraphs

  // The text of each span.
  predicate Shows(t: string, spans: seq<Span>, parts: seq<string>) {
    |parts| == |spans| && forall k: nat | k < |spans| :: ShowsPart(t, spans[k], parts[k])
  }

  predicate ShowsPart(t: string, s: Span, part: string) {
    s.start <= s.end <= |t| && part == t[s.start..s.end]
  }

  // From p to the end of the text, with a gap behind every span but the last.
  ghost predicate Covers(t: string, p: nat, spans: seq<Span>, gap: (nat, nat) -> bool) {
    && spans != [] && spans[0].start == p && spans[|spans| - 1].end == |t|
    && forall k: nat | k < |spans| - 1 :: GapBehind(spans, k, gap)
  }

  ghost predicate GapBehind(spans: seq<Span>, k: nat, gap: (nat, nat) -> bool)
    requires k + 1 < |spans|
  {
    gap(spans[k].end, spans[k + 1].start)
  }

  lemma CoversMore(t: string, p: nat, q: nat, rest: seq<Span>, gap: (nat, nat) -> bool)
    requires rest != [] && Covers(t, rest[0].start, rest, gap) && gap(q, rest[0].start)
    ensures Covers(t, p, [Span(p, q)] + rest, gap)
  {
    var spans := [Span(p, q)] + rest;
    forall k: nat | k < |spans| - 1 ensures GapBehind(spans, k, gap) {
      if k > 0 {
        var m := k - 1;
        assert GapBehind(rest, m, gap);
      }
    }
  }

  lemma ShowsMore(t: string, s: Span, spans: seq<Span>, part: string, parts: seq<string>)
    requires ShowsPart(t, s, part) && Shows(t, spans, parts)
    ensures Shows(t, [s] + spans, [part] + parts)
  {
    forall k: nat | k < |spans| + 1 ensures ShowsPart(t, ([s] + spans)[k], ([part] + parts)[k]) {
      if k > 0 {
        var m := k - 1;
        assert ShowsPart(t, spans[m], parts[m]);
      }
    }
  }

  // ---------------------------------------------------------------------------
  // Blank lines

  // Two newlines or more and no other character, as many as there are.
  ghost predicate NewlineGap(t: string, i: nat, j: nat) {
    i + 2 <= j <= |t| && (forall k: nat | i <= k < j :: t[k] == '\n') && (j < |t| ==> t[j] != '\n')
  }

  predicate BlankLineAt(t: string, q: nat) {
    q + 1 < |t| && t[q] == '\n' && t[q + 1] == '\n'
  }

  ghost predicate NoBlankLine(t: string, s: Span) {
    forall q: nat | s.start <= q < s.end :: !BlankLineAt(t, q)
  }

  ghost predicate CutAtBlankLines(t: string, p: nat, spans: seq<Span>) {
    && Covers(t, p, spans, (i: nat, j: nat) => NewlineGap(t, i, j))
    && forall k: nat | k < |spans| :: NoBlankLine(t, spans[k])
  }

  lemma {:induction false} NewlinesEndIs(t: string, q: nat)
    requires q <= |t|
    ensures NewlinesEnd(t, q) >= q + 2 <==> BlankLineAt(t, q)
    ensures var j := NewlinesEnd(t, q); j < |t| ==> t[j] != '\n'
    decreases |t| - q
  {
    if q < |t| && t[q] == '\n' { NewlinesEndIs(t, q + 1); }
  }

  lemma {:induction false} CutsAtBlankLines(t: string, p: nat, q: nat) returns (spans: seq<Span>)
    requires p <= q <= |t| && NoBlankLine(t, Span(p, q))
    ensures CutAtBlankLines(t, p, spans) && Shows(t, spans, CutAtNewlines(t, p, q))
    decreases |t| - q
  {
    if q == |t| {
      spans := [Span(p, q)];
    } else {
      NewlinesEndIs(t, q);
      var j := NewlinesEnd(t, q);
      if BlankLineAt(t, q) {
        var rest := CutsAtBlankLines(t, j, j);
        spans := [Span(p, q)] + rest;
        CoversMore(t, p, q, rest, (i: nat, j: nat) => NewlineGap(t, i, j));
        ShowsMore(t, Span(p, q), rest, t[p..q], CutAtNewlines(t, j, j));
      } else {
        spans := CutsAtBlankLines(t, p, q + 1);
      }
    }
  }

  lemma ParagraphPartsAre(t: string) returns (spans: seq<Span>)
    ensures CutAtBlankLines(t, 0, spans) && Shows(t, spans, ParagraphParts(t))
  {
    spans := CutsAtBlankLines(t, 0, 0);
  }

  // ---------------------------------------------------------------------------
  // Sentence marks

  // Right behind a sentence mark, all the white space there is.
  ghost predicate MarkGap(cs: Classes, t: string, i: nat, j: nat) {
    0 < i <= j <= |t| && SentenceMark(t[i - 1]) && (forall k: nat | i <= k < j :: cs.space(t[k])) && (j < |t| ==> !cs.space(t[j]))
  }

  predicate MarkBehind(t: string, q: nat) {
    0 < q <= |t| && SentenceMark(t[q - 1])
  }

  ghost predicate NoMarkInside(t: string, s: Span) {
    forall q: nat | s.start < q < s.end :: !MarkBehind(t, q)
  }

  ghost predicate CutBehindMarks(cs: Classes, t: string, p: nat, spans: seq<Span>) {
    && Covers(t, p, spans, (i: nat, j: nat) => MarkGap(cs, t, i, j))
    && forall k: nat | k < |spans| :: NoMarkInside(t, spans[k])
  }

  lemma {:induction false} CutsBehindMarks(cs: Classes, t: string, p: nat, q: nat) returns (spans: seq<Span>)
    requires p <= q <= |t| && NoMarkInside(t, Span(p, q)) && (p > 0 && p < |t| ==> !cs.space(t[p]))
    ensures CutBehindMarks(cs, t, p, spans) && Shows(t, spans, CutAtMarks(cs, t, p, q))
    decreases |t| - q, q - p
  {
    if q == |t| {
      spans := [Span(p, q)];
    } else {
      var j := BlankEnd(cs, t, q);
      BlankEndIsBlank(cs, t, q);
      if MarkBehind(t, q) && j > p {
        var rest := CutsBehindMarks(cs, t, j, j);
        spans := [Span(p, q)] + rest;
        CoversMore(t, p, q, rest, (i: nat, j: nat) => MarkGap(cs, t, i, j));
        ShowsMore(t, Span(p, q), rest, t[p..q], CutAtMarks(cs, t, j, j));
      } else {
        assert q > p ==> !MarkBehind(t, q);
        spans := CutsBehindMarks(cs, t, p, q + 1);
      }
    }
  }

  lemma SentencePartsAre(cs: Classes, t: string) returns (spans: seq<Span>)
    ensures CutBehindMarks(cs, t, 0, spans) && Shows(t, spans, SentenceParts(cs, t))
  {
    spans := CutsBehindMarks(cs, t, 0, 0);
  }

  // ---------------------------------------------------------------------------
  // Trimming, and dropping what is blank

  function Trimmed(cs: Classes, parts: seq<string>): seq<string> {
    seq(|parts|, k requires 0 <= k < |parts| => Trim(cs, parts[k]))
  }

  predicate Empty(xs: seq<string>, i: nat, j: nat) {
    forall k: nat | i <= k < j && k < |xs| :: xs[k] == ""
  }

  // ys are the texts at the places kept, all those from i on that are not empty.
  predicate Picked(xs: seq<string>, i: nat, kept: seq<nat>, ys: seq<string>)
    decreases |kept|
  {
    if kept == [] then ys == [] && Empty(xs, i, |xs|)
    else
      && ys != [] && i <= kept[0] < |xs| && xs[kept[0]] == ys[0] != "" && Empty(xs, i, kept[0])
      && Picked(xs, kept[0] + 1, kept[1..], ys[1..])
  }

  lemma PickedBefore(xs: seq<string>, i: nat, kept: seq<nat>, ys: seq<string>)
    requires i < |xs| && Picked(xs, i + 1, kept, ys)
    ensures if xs[i] == "" then Picked(xs, i, kept, ys) else Picked(xs, i, [i] + kept, [xs[i]] + ys)
  {
    if xs[i] == "" {
      if kept == [] { assert Empty(xs, i, |xs|); } else { assert Empty(xs, i, kept[0]); }
    } else {
      assert ([i] + kept)[1..] == kept && ([xs[i]] + ys)[1..] == ys;
      assert Empty(xs, i, i);
    }
  }

  lemma TrimStep(cs: Classes, parts: seq<string>, i: nat)
    requires i < |parts|
    ensures Trimmed(cs, parts)[i] == Trim(cs, parts[i])
    ensures TrimAll(cs, parts[i..]) ==
      if Trim(cs, parts[i]) == "" then TrimAll(cs, parts[i + 1..]) else [Trim(cs, parts[i])] + TrimAll(cs, parts[i + 1..])
  {
    assert parts[i..][1..] == parts[i + 1..] && parts[i..][0] == parts[i];
  }

  lemma {:induction false} TrimmedArePicked(cs: Classes, parts: seq<string>, i: nat) returns (kept: seq<nat>)
    requires i <= |parts|
    ensures Picked(Trimmed(cs, parts), i, kept, TrimAll(cs, parts[i..]))
    decreases |parts| - i
  {
    if i == |parts| {
      kept := [];
    } else {
      kept := TrimmedArePicked(cs, parts, i + 1);
      PickedBefore(Trimmed(cs, parts), i, kept, TrimAll(cs, parts[i + 1..]));
      TrimStep(cs, parts, i);
      if Trimmed(cs, parts)[i] != "" { kept := [i] + kept; }
    }
  }

  lemma TrimAllKeeps(cs: Classes, parts: seq<string>) returns (kept: seq<nat>)
    ensures Picked(Trimmed(cs, parts), 0, kept, TrimAll(cs, parts))
  {
    assert parts[0..] == parts;
    kept := TrimmedArePicked(cs, parts, 0);
  }

  // ---------------------------------------------------------------------------
  // Cutting by length

  // Slice k begins at character 800 k; they end with the text.
  lemma {:induction false} SlicesAre(t: string, offset: nat)
    requires offset <= |t|
    ensures var parts := Slices(t, offset);
      && |parts| * 800 < |t| - offset + 800 && |t| - offset <= |parts| * 800
      && forall k: nat | k < |parts| :: offset + k * 800 < |t| && parts[k] == t[offset + k * 800..Min(offset + k * 800 + 800, |t|)]
    decreases |t| - offset
  {
    if offset < |t| {
      var end := Min(offset + 800, |t|);
      SlicesAre(t, end);
      var parts, rest := Slices(t, offset), Slices(t, end);
      forall k: nat | k < |parts| ensures offset + k * 800 < |t| && parts[k] == t[offset + k * 800..Min(offset + k * 800 + 800, |t|)] {
        if k > 0 {
          var m := k - 1;
          assert parts[k] == rest[m];
        }
      }
    }
  }

  // ---------------------------------------------------------------------------
  // Sentences together

  function Spaced(parts: seq<string>, i: nat, j: nat): string
    requires i < j <= |parts|
    decreases j
  {
    if i + 1 == j then parts[i] else Spaced(parts, i, j - 1) + (" " + parts[j - 1])
  }

  // Sentences i to j, and sentence j does not fit with them in 800 characters.
  predicate Overflows(parts: seq<string>, i: nat, j: nat)
    requires i < j < |parts|
  {
    |Spaced(parts, i, j)| + 1 + |parts[j]| > 800
  }

  // Consecutive groups from i on, each as large as fits.
  predicate PackedBy(parts: seq<string>, i: nat, ends: seq<nat>, segments: seq<string>)
    decreases |ends|
  {
    && ends != [] && |segments| == |ends| && i < ends[0] <= |parts| && segments[0] == Spaced(parts, i, ends[0])
    && (forall j: nat | i < j < ends[0] :: !Overflows(parts, i, j))
    && if |ends| == 1 then ends[0] == |parts|
       else ends[0] < |parts| && Overflows(parts, i, ends[0]) && PackedBy(parts, ends[0], ends[1..], segments[1..])
  }

  lemma {:induction false} SentencesArePacked(cs: Classes, parts: seq<string>, i: nat, k: nat) returns (ends: seq<nat>)
    requires AllTidy(cs, parts) && i < k <= |parts| && Tidy(cs, Spaced(parts, i, k))
    requires forall j: nat | i < j < k :: !Overflows(parts, i, j)
    ensures PackedBy(parts, i, ends, Pack(cs, parts, k, Spaced(parts, i, k)))
    decreases |parts| - k
  {
    var buffer := Spaced(parts, i, k);
    NeatNeedsNoTrim(cs, buffer);
    if k == |parts| {
      ends := [k];
      assert [buffer][1..] == [] && TrimAll(cs, [buffer]) == [buffer];
    } else {
      assert Tidy(cs, parts[k]);
      if Overflows(parts, i, k) {
        var rest := SentencesArePacked(cs, parts, k, k + 1);
        ends := [k] + rest;
        assert ends[1..] == rest && ([buffer] + Pack(cs, parts, k + 1, parts[k]))[1..] == Pack(cs, parts, k + 1, parts[k]);
      } else {
        SpacedIsTidy(cs, buffer, parts[k]);
        ends := SentencesArePacked(cs, parts, i, k + 1);
      }
    }
  }

  lemma SpacedIsTidy(cs: Classes, a: string, b: string)
    requires Tidy(cs, a) && Tidy(cs, b)
    ensures Tidy(cs, a + (" " + b))
  {}

  // The segments of an oversized paragraph.
  lemma PackIs(cs: Classes, parts: seq<string>) returns (ends: seq<nat>)
    requires AllTidy(cs, parts) && parts != []
    ensures PackedBy(parts, 0, ends, Pack(cs, parts, 0, ""))
  {
    assert Tidy(cs, parts[0]);
    ends := SentencesArePacked(cs, parts, 0, 1);
  }
}
