/** The paragraphs of the older chunker: text cut at blank lines, what is too long
    after sentence marks and by length, in pieces of at most 800 characters. */
module LegacyParagraphs {
  import opened TokenWindows

  const MAX_CHUNK_SIZE: nat := 800

  // No blank at either end.
  predicate Neat(cs: Classes, t: string) {
    t != "" ==> !cs.space(t[0]) && !cs.space(t[|t| - 1])
  }

  lemma TrimIsNeat(cs: Classes, t: string)
    ensures Neat(cs, Trim(cs, t)) && |Trim(cs, t)| <= |t|
  {}

  lemma NeatNeedsNoTrim(cs: Classes, t: string)
    requires Neat(cs, t)
    ensures Trim(cs, t) == t
  {
    if t != "" { assert t[0..|t|] == t; }
  }

  // ---------------------------------------------------------------------------
  // Paragraphs

  // Where the newlines from i on end.
  function NewlinesEnd(t: string, i: nat): (n: nat)
    requires i <= |t|
    ensures i <= n <= |t| && forall k | i <= k < n :: t[k] == '\n'
    decreases |t| - i
  {
    if i < |t| && t[i] == '\n' then NewlinesEnd(t, i + 1) else i
  }

  // split at runs of two or more newlines: the piece from p on, looked at up to q.
  function CutAtNewlines(t: string, p: nat, q: nat): seq<string>
    requires p <= q <= |t|
    decreases |t| - q
  {
    if q == |t| then [t[p..]]
    else if NewlinesEnd(t, q) >= q + 2
      then [t[p..q]] + CutAtNewlines(t, NewlinesEnd(t, q), NewlinesEnd(t, q))
    else CutAtNewlines(t, p, q + 1)
  }

  predicate SentenceMark(c: char) {
    c == '\U{3002}' || c == '\U{FF01}' || c == '\U{FF1F}' || c == '.' || c == '!' || c == '?' || c == '\U{FF1B}' || c == ';'
  }

  // split after sentence marks, with the white space there; an empty piece is not cut.
  function CutAtMarks(cs: Classes, t: string, p: nat, q: nat): seq<string>
    requires p <= q <= |t|
    decreases |t| - q, q - p
  {
    if q == |t| then [t[p..]]
    else if q > 0 && SentenceMark(t[q - 1]) && BlankEnd(cs, t, q) > p
      then [t[p..q]] + CutAtMarks(cs, t, BlankEnd(cs, t, q), BlankEnd(cs, t, q))
    else CutAtMarks(cs, t, p, q + 1)
  }

  function ParagraphParts(t: string): seq<string> {
    CutAtNewlines(t, 0, 0)
  }

  function SentenceParts(cs: Classes, t: string): seq<string> {
    CutAtMarks(cs, t, 0, 0)
  }

  // map(trim).filter(Boolean)
  function TrimAll(cs: Classes, parts: seq<string>): seq<string> {
    if parts == [] then []
    else (if Trim(cs, parts[0]) == "" then [] else [Trim(cs, parts[0])]) + TrimAll(cs, parts[1..])
  }

  function Slices(t: string, offset: nat): seq<string>
    decreases |t| - offset
  {
    if offset >= |t| then []
    else
      var end := Min(offset + MAX_CHUNK_SIZE, |t|);
      [t[offset..end]] + Slices(t, end)
  }

  function SplitByLength(cs: Classes, t: string): seq<string> {
    TrimAll(cs, Slices(t, 0))
  }

  // Sentences from k on, packed behind the buffer while they fit.
  function Pack(cs: Classes, parts: seq<string>, k: nat, buffer: string): seq<string>
    decreases |parts| - k
  {
    if k >= |parts| then TrimAll(cs, [buffer])
    else if buffer != "" && |buffer| + |parts[k]| + 1 > MAX_CHUNK_SIZE
      then [Trim(cs, buffer)] + Pack(cs, parts, k + 1, parts[k])
    else Pack(cs, parts, k + 1, if buffer == "" then parts[k] else buffer + (" " + parts[k]))
  }

  function CutLong(cs: Classes, segments: seq<string>): seq<string> {
    if segments == [] then []
    else (if |segments[0]| > MAX_CHUNK_SIZE then SplitByLength(cs, segments[0]) else [segments[0]])
         + CutLong(cs, segments[1..])
  }

  function SplitOversized(cs: Classes, paragraph: string): seq<string> {
    if |paragraph| <= MAX_CHUNK_SIZE then [paragraph]
    else
      var parts := TrimAll(cs, SentenceParts(cs, paragraph));
      if |parts| <= 1 then SplitByLength(cs, paragraph) else CutLong(cs, Pack(cs, parts, 0, ""))
  }

  function Flat(cs: Classes, raw: seq<string>): seq<string> {
    if raw == [] then [] else SplitOversized(cs, raw[0]) + Flat(cs, raw[1..])
  }

  function Paragraphs(cs: Classes, text: string): seq<string> {
    Flat(cs, TrimAll(cs, ParagraphParts(text)))
  }

  // The loop of splitOversizedParagraph.
  method PackSentences(cs: Classes, parts: seq<string>) returns (segments: seq<string>)
    ensures segments == Pack(cs, parts, 0, "")
  {
    segments := [];
    var buffer := "";
    for k := 0 to |parts|
      invariant segments + Pack(cs, parts, k, buffer) == Pack(cs, parts, 0, "")
    {
      if buffer != "" && |buffer| + |parts[k]| + 1 > MAX_CHUNK_SIZE {
        segments := segments + [Trim(cs, buffer)];
        buffer := parts[k];
        continue;
      }
      buffer := if buffer == "" then parts[k] else buffer + (" " + parts[k]);
    }
    assert [buffer][1..] == [] && segments + [] == segments;
    assert TrimAll(cs, [buffer]) == if Trim(cs, buffer) == "" then [] else [Trim(cs, buffer)];
    if Trim(cs, buffer) != "" { segments := segments + [Trim(cs, buffer)]; }
  }

  method SliceText(t: string) returns (parts: seq<string>)
    ensures parts == Slices(t, 0)
  {
    parts := [];
    var offset := 0;
    while offset < |t|
      invariant offset <= |t| && parts + Slices(t, offset) == Slices(t, 0)
    {
      var end := Min(offset + MAX_CHUNK_SIZE, |t|);
      parts := parts + [t[offset..end]];
      offset := end;
    }
  }

  predicate Tidy(cs: Classes, p: string) {
    p != "" && Neat(cs, p)
  }

  predicate AllTidy(cs: Classes, ps: seq<string>) {
    forall k | 0 <= k < |ps| :: Tidy(cs, ps[k])
  }

  predicate AllShort(ps: seq<string>) {
    forall k | 0 <= k < |ps| :: |ps[k]| <= MAX_CHUNK_SIZE
  }

  lemma {:induction false} TrimAllIsTidy(cs: Classes, parts: seq<string>)
    ensures AllTidy(cs, TrimAll(cs, parts))
    ensures AllShort(parts) ==> AllShort(TrimAll(cs, parts))
  {
    if parts != [] {
      TrimAllIsTidy(cs, parts[1..]);
      TrimIsNeat(cs, parts[0]);
      assert AllShort(parts) ==> AllShort(parts[1..]) && |parts[0]| <= MAX_CHUNK_SIZE;
    }
  }

  lemma {:induction false} SlicesAreShort(t: string, offset: nat)
    ensures AllShort(Slices(t, offset))
    decreases |t| - offset
  {
    if offset < |t| { SlicesAreShort(t, Min(offset + MAX_CHUNK_SIZE, |t|)); }
  }

  lemma LengthsFit(cs: Classes, t: string)
    ensures AllTidy(cs, SplitByLength(cs, t)) && AllShort(SplitByLength(cs, t))
  {
    SlicesAreShort(t, 0);
    TrimAllIsTidy(cs, Slices(t, 0));
  }

  lemma {:induction false} PackIsTidy(cs: Classes, parts: seq<string>, k: nat, buffer: string)
    requires AllTidy(cs, parts) && Neat(cs, buffer)
    ensures AllTidy(cs, Pack(cs, parts, k, buffer))
    decreases |parts| - k
  {
    if k >= |parts| {
      TrimAllIsTidy(cs, [buffer]);
    } else if buffer != "" && |buffer| + |parts[k]| + 1 > MAX_CHUNK_SIZE {
      assert Tidy(cs, parts[k]);
      NeatNeedsNoTrim(cs, buffer);
      PackIsTidy(cs, parts, k + 1, parts[k]);
    } else {
      assert Tidy(cs, parts[k]);
      PackIsTidy(cs, parts, k + 1, if buffer == "" then parts[k] else buffer + (" " + parts[k]));
    }
  }

  lemma {:induction false} CutsFit(cs: Classes, segments: seq<string>)
    requires AllTidy(cs, segments)
    ensures AllTidy(cs, CutLong(cs, segments)) && AllShort(CutLong(cs, segments))
  {
    if segments != [] {
      assert Tidy(cs, segments[0]);
      LengthsFit(cs, segments[0]);
      CutsFit(cs, segments[1..]);
    }
  }

  lemma OversizedFits(cs: Classes, paragraph: string)
    requires Tidy(cs, paragraph)
    ensures AllTidy(cs, SplitOversized(cs, paragraph)) && AllShort(SplitOversized(cs, paragraph))
  {
    LengthsFit(cs, paragraph);
    var parts := TrimAll(cs, SentenceParts(cs, paragraph));
    TrimAllIsTidy(cs, SentenceParts(cs, paragraph));
    PackIsTidy(cs, parts, 0, "");
    CutsFit(cs, Pack(cs, parts, 0, ""));
  }

  lemma {:induction false} FlatFits(cs: Classes, raw: seq<string>)
    requires AllTidy(cs, raw)
    ensures AllTidy(cs, Flat(cs, raw)) && AllShort(Flat(cs, raw))
  {
    if raw != [] {
      assert Tidy(cs, raw[0]);
      OversizedFits(cs, raw[0]);
      FlatFits(cs, raw[1..]);
    }
  }

  // Whatever the text, a paragraph to pack has 1 to 800 characters and neat ends.
  lemma ParagraphsFit(cs: Classes, text: string)
    ensures AllTidy(cs, Paragraphs(cs, text)) && AllShort(Paragraphs(cs, text))
  {
    TrimAllIsTidy(cs, ParagraphParts(text));
    FlatFits(cs, TrimAll(cs, ParagraphParts(text)));
  }

  // ---------------------------------------------------------------------------
  // No character is lost

  // The characters that are not blank.
  function Ink(cs: Classes, t: string): string {
    if t == "" then "" else (if cs.space(t[0]) then "" else [t[0]]) + Ink(cs, t[1..])
  }

  function InkOf(cs: Classes, ps: seq<string>): string {
    Ink(cs, Concat(ps))
  }

  function Concat(ps: seq<string>): string {
    if ps == [] then "" else ps[0] + Concat(ps[1..])
  }

  // The separators the splits drop are blank.
  predicate BlankSeparators(cs: Classes) {
    cs.space(' ') && cs.space('\n')
  }

  lemma Split<T>(a: seq<T>, b: seq<T>)
    requires a != []
    ensures a == [a[0]] + a[1..] && a + b == [a[0]] + (a[1..] + b)
  {}

  lemma Assoc(a: string, b: string, c: string)
    ensures (a + b) + c == a + (b + c)
  {}

  lemma InkFirst(cs: Classes, c: char, t: string)
    ensures Ink(cs, [c] + t) == (if cs.space(c) then "" else [c]) + Ink(cs, t)
  {
    assert ([c] + t)[1..] == t;
  }

  lemma {:induction false} InkAppends(cs: Classes, a: string, b: string)
    ensures Ink(cs, a + b) == Ink(cs, a) + Ink(cs, b)
  {
    if a == "" {
      assert a + b == b;
    } else {
      InkAppends(cs, a[1..], b);
      InkFirst(cs, a[0], a[1..] + b);
      InkFirst(cs, a[0], a[1..]);
      Split(a, b);
      Assoc(if cs.space(a[0]) then "" else [a[0]], Ink(cs, a[1..]), Ink(cs, b));
    }
  }

  lemma ConcatFirst(p: string, ps: seq<string>)
    ensures Concat([p] + ps) == p + Concat(ps)
  {
    assert ([p] + ps)[1..] == ps;
  }

  lemma {:induction false} ConcatAppends(ps: seq<string>, qs: seq<string>)
    ensures Concat(ps + qs) == Concat(ps) + Concat(qs)
  {
    if ps == [] {
      assert ps + qs == qs;
    } else {
      ConcatAppends(ps[1..], qs);
      ConcatFirst(ps[0], ps[1..] + qs);
      Split(ps, qs);
      Assoc(ps[0], Concat(ps[1..]), Concat(qs));
    }
  }

  lemma InkOfAppends(cs: Classes, ps: seq<string>, qs: seq<string>)
    ensures InkOf(cs, ps + qs) == InkOf(cs, ps) + InkOf(cs, qs)
  {
    ConcatAppends(ps, qs);
    InkAppends(cs, Concat(ps), Concat(qs));
  }

  lemma InkOfFirst(cs: Classes, ps: seq<string>)
    requires ps != []
    ensures InkOf(cs, ps) == Ink(cs, ps[0]) + InkOf(cs, ps[1..])
  {
    InkAppends(cs, ps[0], Concat(ps[1..]));
  }

  lemma InkOfOne(cs: Classes, p: string)
    ensures InkOf(cs, [p]) == Ink(cs, p)
  {
    assert [p][1..] == [] && p + "" == p;
    assert Concat([p]) == p + Concat([]);
  }

  lemma {:induction false} BlankHasNoInk(cs: Classes, t: string)
    requires forall k | 0 <= k < |t| :: cs.space(t[k])
    ensures Ink(cs, t) == ""
  {
    if t != "" { BlankHasNoInk(cs, t[1..]); }
  }

  lemma TrimKeepsInk(cs: Classes, t: string)
    ensures Ink(cs, Trim(cs, t)) == Ink(cs, t)
  {
    if Trim(cs, t) == "" {
      BlankTrims(cs, t);
      BlankHasNoInk(cs, t);
    } else {
      var a, b := Lead(cs, t), Tail(cs, t);
      LeadIsBlank(cs, t);
      TailIsBlank(cs, t);
      BlankHasNoInk(cs, t[..a]);
      BlankHasNoInk(cs, t[b..]);
      assert t == t[..a] + (t[a..b] + t[b..]);
      InkAppends(cs, t[..a], t[a..b] + t[b..]);
      InkAppends(cs, t[a..b], t[b..]);
    }
  }

  // A piece, a blank separator and the rest.
  lemma CutKeepsInk(cs: Classes, t: string, p: nat, q: nat, e: nat, rest: seq<string>)
    requires p <= q <= e <= |t| && (forall k | q <= k < e :: cs.space(t[k])) && InkOf(cs, rest) == Ink(cs, t[e..])
    ensures InkOf(cs, [t[p..q]] + rest) == Ink(cs, t[p..])
  {
    assert t[q..] == t[q..e] + t[e..] && t[p..] == t[p..q] + t[q..];
    PartsKeepInk(cs, t[p..q], t[q..e], t[e..], rest);
  }

  lemma PartsKeepInk(cs: Classes, piece: string, blank: string, tail: string, rest: seq<string>)
    requires (forall k | 0 <= k < |blank| :: cs.space(blank[k])) && InkOf(cs, rest) == Ink(cs, tail)
    ensures InkOf(cs, [piece] + rest) == Ink(cs, piece + (blank + tail))
  {
    SkipsBlank(cs, blank, tail);
    InkAppends(cs, piece, blank + tail);
    PieceFirst(cs, piece, rest);
  }

  lemma SkipsBlank(cs: Classes, blank: string, tail: string)
    requires forall k | 0 <= k < |blank| :: cs.space(blank[k])
    ensures Ink(cs, blank + tail) == Ink(cs, tail)
  {
    BlankHasNoInk(cs, blank);
    InkAppends(cs, blank, tail);
  }

  lemma PieceFirst(cs: Classes, piece: string, rest: seq<string>)
    ensures InkOf(cs, [piece] + rest) == Ink(cs, piece) + InkOf(cs, rest)
  {
    assert ([piece] + rest)[1..] == rest;
    InkOfFirst(cs, [piece] + rest);
  }

  lemma {:induction false} NewlinesKeepInk(cs: Classes, t: string, p: nat, q: nat)
    requires cs.space('\n') && p <= q <= |t|
    ensures InkOf(cs, CutAtNewlines(t, p, q)) == Ink(cs, t[p..])
    decreases |t| - q
  {
    if q == |t| {
      InkOfOne(cs, t[p..]);
    } else {
      var e := NewlinesEnd(t, q);
      if e >= q + 2 {
        NewlinesKeepInk(cs, t, e, e);
        CutKeepsInk(cs, t, p, q, e, CutAtNewlines(t, e, e));
      } else {
        NewlinesKeepInk(cs, t, p, q + 1);
      }
    }
  }

  lemma {:induction false} MarksKeepInk(cs: Classes, t: string, p: nat, q: nat)
    requires p <= q <= |t|
    ensures InkOf(cs, CutAtMarks(cs, t, p, q)) == Ink(cs, t[p..])
    decreases |t| - q, q - p
  {
    if q == |t| {
      InkOfOne(cs, t[p..]);
    } else {
      var e := BlankEnd(cs, t, q);
      if q > 0 && SentenceMark(t[q - 1]) && e > p {
        MarksKeepInk(cs, t, e, e);
        BlankEndIsBlank(cs, t, q);
        CutKeepsInk(cs, t, p, q, e, CutAtMarks(cs, t, e, e));
      } else {
        MarksKeepInk(cs, t, p, q + 1);
      }
    }
  }

  lemma {:induction false} TrimAllKeepsInk(cs: Classes, parts: seq<string>)
    ensures InkOf(cs, TrimAll(cs, parts)) == InkOf(cs, parts)
  {
    if parts != [] {
      TrimAllKeepsInk(cs, parts[1..]);
      TrimKeepsInk(cs, parts[0]);
      InkOfFirst(cs, parts);
      var rest := TrimAll(cs, parts[1..]);
      if Trim(cs, parts[0]) == "" {
        assert TrimAll(cs, parts) == rest;
      } else {
        InkOfAppends(cs, [Trim(cs, parts[0])], rest);
        InkOfOne(cs, Trim(cs, parts[0]));
      }
    }
  }

  lemma {:induction false} SlicesKeepInk(cs: Classes, t: string, offset: nat)
    requires offset <= |t|
    ensures InkOf(cs, Slices(t, offset)) == Ink(cs, t[offset..])
    decreases |t| - offset
  {
    if offset < |t| {
      var end := Min(offset + MAX_CHUNK_SIZE, |t|);
      SlicesKeepInk(cs, t, end);
      InkOfAppends(cs, [t[offset..end]], Slices(t, end));
      InkOfOne(cs, t[offset..end]);
      InkAppends(cs, t[offset..end], t[end..]);
      assert t[offset..] == t[offset..end] + t[end..];
    }
  }

  lemma LengthsKeepInk(cs: Classes, t: string)
    ensures InkOf(cs, SplitByLength(cs, t)) == Ink(cs, t)
  {
    SlicesKeepInk(cs, t, 0);
    TrimAllKeepsInk(cs, Slices(t, 0));
    assert t[0..] == t;
  }

  lemma {:induction false} PackKeepsInk(cs: Classes, parts: seq<string>, k: nat, buffer: string)
    requires cs.space(' ') && k <= |parts|
    ensures InkOf(cs, Pack(cs, parts, k, buffer)) == Ink(cs, buffer) + InkOf(cs, parts[k..])
    decreases |parts| - k
  {
    if k == |parts| {
      TrimAllKeepsInk(cs, [buffer]);
      InkOfOne(cs, buffer);
    } else {
      assert parts[k..][1..] == parts[k + 1..];
      InkOfFirst(cs, parts[k..]);
      if buffer != "" && |buffer| + |parts[k]| + 1 > MAX_CHUNK_SIZE {
        var rest := Pack(cs, parts, k + 1, parts[k]);
        PackKeepsInk(cs, parts, k + 1, parts[k]);
        FlushKeepsInk(cs, buffer, rest);
      } else {
        var longer := if buffer == "" then parts[k] else buffer + (" " + parts[k]);
        PackKeepsInk(cs, parts, k + 1, longer);
        JoinKeepsInk(cs, buffer, parts[k]);
      }
    }
  }

  lemma FlushKeepsInk(cs: Classes, buffer: string, rest: seq<string>)
    ensures InkOf(cs, [Trim(cs, buffer)] + rest) == Ink(cs, buffer) + InkOf(cs, rest)
  {
    TrimKeepsInk(cs, buffer);
    InkOfAppends(cs, [Trim(cs, buffer)], rest);
    InkOfOne(cs, Trim(cs, buffer));
  }

  lemma JoinKeepsInk(cs: Classes, a: string, b: string)
    requires cs.space(' ')
    ensures Ink(cs, a + (" " + b)) == Ink(cs, a) + Ink(cs, b)
  {
    InkAppends(cs, a, " " + b);
    InkFirst(cs, ' ', b);
    assert " " + b == [' '] + b;
  }

  lemma {:induction false} CutsKeepInk(cs: Classes, segments: seq<string>)
    ensures InkOf(cs, CutLong(cs, segments)) == InkOf(cs, segments)
  {
    if segments != [] {
      CutsKeepInk(cs, segments[1..]);
      InkOfFirst(cs, segments);
      LengthsKeepInk(cs, segments[0]);
      InkOfOne(cs, segments[0]);
      InkOfAppends(cs, if |segments[0]| > MAX_CHUNK_SIZE then SplitByLength(cs, segments[0]) else [segments[0]],
                   CutLong(cs, segments[1..]));
    }
  }

  lemma OversizedKeepsInk(cs: Classes, paragraph: string)
    requires BlankSeparators(cs)
    ensures InkOf(cs, SplitOversized(cs, paragraph)) == Ink(cs, paragraph)
  {
    if |paragraph| <= MAX_CHUNK_SIZE {
      InkOfOne(cs, paragraph);
    } else {
      var parts := TrimAll(cs, SentenceParts(cs, paragraph));
      if |parts| <= 1 {
        LengthsKeepInk(cs, paragraph);
      } else {
        MarksKeepInk(cs, paragraph, 0, 0);
        assert paragraph[0..] == paragraph;
        TrimAllKeepsInk(cs, SentenceParts(cs, paragraph));
        PackedKeepInk(cs, parts, Ink(cs, paragraph));
      }
    }
  }

  lemma PackedKeepInk(cs: Classes, parts: seq<string>, ink: string)
    requires cs.space(' ') && InkOf(cs, parts) == ink
    ensures InkOf(cs, CutLong(cs, Pack(cs, parts, 0, ""))) == ink
  {
    PackKeepsInk(cs, parts, 0, "");
    CutsKeepInk(cs, Pack(cs, parts, 0, ""));
    assert parts[0..] == parts;
  }

  lemma {:induction false} FlatKeepsInk(cs: Classes, raw: seq<string>)
    requires BlankSeparators(cs)
    ensures InkOf(cs, Flat(cs, raw)) == InkOf(cs, raw)
  {
    if raw != [] {
      OversizedKeepsInk(cs, raw[0]);
      FlatKeepsInk(cs, raw[1..]);
      InkOfFirst(cs, raw);
      InkOfAppends(cs, SplitOversized(cs, raw[0]), Flat(cs, raw[1..]));
    }
  }

  // The paragraphs hold the text's characters other than blanks, in order and once.
  lemma ParagraphsKeepInk(cs: Classes, text: string)
    requires BlankSeparators(cs)
    ensures InkOf(cs, Paragraphs(cs, text)) == Ink(cs, text)
  {
    NewlinesKeepInk(cs, text, 0, 0);
    assert text[0..] == text;
    TrimAllKeepsInk(cs, ParagraphParts(text));
    FlatKeepsInk(cs, TrimAll(cs, ParagraphParts(text)));
  }
}
