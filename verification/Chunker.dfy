/** Cutting a block into child chunks: windows of at most 512 tokens that share 64,
    and for each child the text, offsets, token count and overlap it records. */
module Chunker {
  import opened TokenWindows

  const MAX_CHILD_TOKENS: nat := 512
  const OVERLAP_TOKENS: nat := 64

  // start is the block's offset in the document.
  datatype Block = Block(text: string, start: nat)
  datatype Child = Child(
    content: string, position: nat, tokenCount: nat, overlapPrevious: nat, charStart: nat, charEnd: nat)

  function TextSpan(ts: seq<Span>, w: Span): Span
    requires w.start < w.end <= |ts|
  {
    Span(ts[w.start].start, ts[w.end - 1].end)
  }

  ghost predicate AllWindowsOk(ws: seq<Span>, n: nat, max: nat) {
    forall k | 0 <= k < |ws| :: WindowOk(ws[k], n, max)
  }

  lemma WindowsOk(n: nat, max: nat, overlap: nat)
    requires max >= 1
    ensures AllWindowsOk(Windows(n, max, overlap, 0), n, max)
  {
    if n > 0 { WindowsAreSound(n, max, overlap, 0); }
  }

  // The spans are the windows, except that a short text is one span as it stands.
  ghost predicate SpansOf(cs: Classes, t: string, max: nat, overlap: nat, spans: seq<Span>)
    requires max >= 1
  {
    var ts := Tokens(cs, t, 0);
    var ws := Windows(|ts|, max, overlap, 0);
    && AllWindowsOk(ws, |ts|, max)
    && |spans| == |ws|
    && (0 < |ts| <= max ==> spans == [Span(0, |t|)])
    && (|ts| > max ==> forall k | 0 <= k < |ws| :: SpanMatches(ts, ws[k], spans[k]))
  }

  function SpansFrom(ts: seq<Span>, max: nat, overlap: nat, start: nat): seq<Span>
    requires max >= 1
    decreases |ts| - start
  {
    if start >= |ts| then []
    else [TextSpan(ts, Span(start, EndOf(|ts|, max, start)))] + SpansFrom(ts, max, overlap, NextOf(|ts|, max, overlap, start))
  }

  predicate SpanMatches(ts: seq<Span>, w: Span, s: Span) {
    w.start < w.end <= |ts| && s == TextSpan(ts, w)
  }

  lemma {:induction false} SpansFollowWindows(ts: seq<Span>, max: nat, overlap: nat, start: nat)
    requires max >= 1
    ensures var ws, spans := Windows(|ts|, max, overlap, start), SpansFrom(ts, max, overlap, start);
      |ws| == |spans| && forall k | 0 <= k < |ws| :: SpanMatches(ts, ws[k], spans[k])
    decreases |ts| - start
  {
    if start < |ts| {
      var next := NextOf(|ts|, max, overlap, start);
      SpansFollowWindows(ts, max, overlap, next);
      var ws, spans := Windows(|ts|, max, overlap, next), SpansFrom(ts, max, overlap, next);
      var w := Span(start, EndOf(|ts|, max, start));
      forall k | 0 <= k < |ws| + 1 ensures SpanMatches(ts, ([w] + ws)[k], ([TextSpan(ts, w)] + spans)[k]) {
        if k > 0 { assert SpanMatches(ts, ws[k - 1], spans[k - 1]); }
      }
    }
  }

  method SplitIntoTokenSpans(cs: Classes, t: string, max: nat, overlap: nat) returns (spans: seq<Span>)
    requires max >= 1
    ensures SpansOf(cs, t, max, overlap, spans)
  {
    var tokens := TokenizeStable(cs, t);
    WindowsOk(|tokens|, max, overlap);
    if |tokens| == 0 { return []; }
    if |tokens| <= max { return [Span(0, |t|)]; }
    SpansFollowWindows(tokens, max, overlap, 0);
    spans := WindowSpans(tokens, max, overlap);
  }

  lemma WindowsAdvance(ts: seq<Span>, max: nat, overlap: nat, start: nat, before: seq<Span>)
    requires max >= 1 && start < |ts|
    ensures var s := TextSpan(ts, Span(start, EndOf(|ts|, max, start)));
      Joined(ts, max, overlap, start, before) == Joined(ts, max, overlap, NextOf(|ts|, max, overlap, start), before + [s])
  {}

  // The spans found before start and those from start on.
  function Joined(ts: seq<Span>, max: nat, overlap: nat, start: nat, before: seq<Span>): seq<Span>
    requires max >= 1
  {
    before + SpansFrom(ts, max, overlap, start)
  }

  lemma SpansEnd(ts: seq<Span>, max: nat, overlap: nat, start: nat, spans: seq<Span>)
    requires max >= 1
    ensures start >= |ts| ==> Joined(ts, max, overlap, start, spans) == spans
    ensures Joined(ts, max, overlap, 0, []) == SpansFrom(ts, max, overlap, 0)
  {}

  // The loop over more tokens than fit in one window.
  method WindowSpans(tokens: seq<Span>, max: nat, overlap: nat) returns (spans: seq<Span>)
    requires max >= 1
    ensures spans == SpansFrom(tokens, max, overlap, 0)
  {
    spans := [];
    var tokenStart := 0;
    while tokenStart < |tokens|
      invariant Joined(tokens, max, overlap, tokenStart, spans) == Joined(tokens, max, overlap, 0, [])
      decreases |tokens| - tokenStart
    {
      WindowsAdvance(tokens, max, overlap, tokenStart, spans);
      var tokenEnd := Min(tokenStart + max, |tokens|);
      spans := spans + [Span(tokens[tokenStart].start, tokens[tokenEnd - 1].end)];
      if tokenEnd >= |tokens| {
        tokenStart := |tokens|;
        break;
      }
      tokenStart := Max(tokenEnd - overlap, tokenStart + 1);
    }
    SpansEnd(tokens, max, overlap, tokenStart, spans);
  }

  // ---------------------------------------------------------------------------
  // Children

  // A child's text is the document's text at its offsets, with blank ends gone.
  ghost predicate TextOk(cs: Classes, block: Block, c: Child) {
    && block.start <= c.charStart < c.charEnd <= block.start + |block.text|
    && c.content == block.text[c.charStart - block.start..c.charEnd - block.start]
    && !cs.space(c.content[0]) && !cs.space(c.content[|c.content| - 1])
  }

  // The text from local offset a on has exactly the tokens of the k-th window.
  ghost predicate WindowText(cs: Classes, t: string, k: nat, a: nat, content: string) {
    var ts := Tokens(cs, t, 0);
    var ws := Windows(|ts|, MAX_CHILD_TOKENS, OVERLAP_TOKENS, 0);
    && k < |ws| && WindowOk(ws[k], |ts|, MAX_CHILD_TOKENS)
    && Shift(Tokens(cs, content, 0), a) == ts[ws[k].start..ws[k].end]
    && CountTokens(cs, content) == ws[k].end - ws[k].start
  }

  // What the k-th window shares with the one before it.
  function SharedBefore(n: nat, k: nat): int {
    var ws := Windows(n, MAX_CHILD_TOKENS, OVERLAP_TOKENS, 0);
    if 0 < k < |ws| then ws[k - 1].end - ws[k].start else 0
  }

  ghost predicate ChildOf(cs: Classes, block: Block, k: nat, position: nat, c: Child) {
    && TextOk(cs, block, c)
    && WindowText(cs, block.text, k, c.charStart - block.start, c.content)
    && c.tokenCount == CountTokens(cs, c.content) <= MAX_CHILD_TOKENS
    && c.overlapPrevious == SharedBefore(CountTokens(cs, block.text), k)
    && c.position == position
  }

  lemma ShiftTwice(spans: seq<Span>, a: nat, b: nat)
    ensures Shift(Shift(spans, a), b) == Shift(spans, a + b)
  {}

  // The slice of the k-th span has the tokens of the k-th window.
  lemma SpanKeepsTokens(cs: Classes, t: string, spans: seq<Span>, k: nat)
    requires Sound(cs) && SpansOf(cs, t, MAX_CHILD_TOKENS, OVERLAP_TOKENS, spans) && k < |spans|
    ensures var ts := Tokens(cs, t, 0); var ws := Windows(|ts|, MAX_CHILD_TOKENS, OVERLAP_TOKENS, 0);
      && WindowOk(ws[k], |ts|, MAX_CHILD_TOKENS) && spans[k].start <= spans[k].end <= |t|
      && Shift(Tokens(cs, t[spans[k].start..spans[k].end], 0), spans[k].start) == ts[ws[k].start..ws[k].end]
  {
    var ts := Tokens(cs, t, 0);
    var ws := Windows(|ts|, MAX_CHILD_TOKENS, OVERLAP_TOKENS, 0);
    assert WindowOk(ws[k], |ts|, MAX_CHILD_TOKENS);
    if |ts| <= MAX_CHILD_TOKENS {
      assert ws == [Span(0, |ts|)];
      assert t[0..|t|] == t && ts[0..|ts|] == ts && Shift(ts, 0) == ts;
    } else {
      SliceKeepsTokens(cs, t, ws[k].start, ws[k].end);
    }
  }

  lemma NotBlank(cs: Classes, t: string)
    requires Sound(cs) && Tokens(cs, t, 0) != []
    ensures Trim(cs, t) != ""
  {
    if Trim(cs, t) == "" {
      BlankTrims(cs, t);
      TokensSkipSpace(cs, t, 0, |t|);
    }
  }

  // Trimming a slice leaves its tokens.
  lemma TrimSliceTokens(cs: Classes, slice: string, a: nat)
    requires Sound(cs) && Trim(cs, slice) != ""
    ensures Shift(Tokens(cs, Trim(cs, slice), 0), a + Lead(cs, slice)) == Shift(Tokens(cs, slice, 0), a)
    ensures CountTokens(cs, Trim(cs, slice)) == CountTokens(cs, slice)
  {
    TrimKeepsTokens(cs, slice);
    var own := Tokens(cs, Trim(cs, slice), 0);
    ShiftTwice(own, Lead(cs, slice), a);
    assert a + Lead(cs, slice) == Lead(cs, slice) + a;
    assert |Shift(own, Lead(cs, slice))| == |own|;
  }

  lemma SliceHasTokens(cs: Classes, t: string, spans: seq<Span>, k: nat)
    requires Sound(cs) && SpansOf(cs, t, MAX_CHILD_TOKENS, OVERLAP_TOKENS, spans) && k < |spans|
    ensures spans[k].start <= spans[k].end <= |t|
    ensures WindowText(cs, t, k, spans[k].start, t[spans[k].start..spans[k].end])
  {
    SpanKeepsTokens(cs, t, spans, k);
    var own := Tokens(cs, t[spans[k].start..spans[k].end], 0);
    assert |Shift(own, spans[k].start)| == |own|;
  }

  lemma TrimKeepsWindow(cs: Classes, t: string, k: nat, a: nat, slice: string)
    requires Sound(cs) && WindowText(cs, t, k, a, slice)
    ensures Trim(cs, slice) != "" && WindowText(cs, t, k, a + Lead(cs, slice), Trim(cs, slice))
  {
    NotBlank(cs, slice);
    TrimSliceTokens(cs, slice, a);
  }

  lemma OverlapIsShared(cs: Classes, t: string, k: nat, a: nat, slice: string)
    requires WindowText(cs, t, k, a, slice)
    ensures SharedBefore(CountTokens(cs, t), k) == if k == 0 then 0 else Min(OVERLAP_TOKENS, CountTokens(cs, slice))
    ensures k > 0 ==> SharedBefore(CountTokens(cs, t), k) == OVERLAP_TOKENS
    ensures CountTokens(cs, slice) <= MAX_CHILD_TOKENS
  {
    var n := CountTokens(cs, t);
    var ws := Windows(n, MAX_CHILD_TOKENS, OVERLAP_TOKENS, 0);
    if k > 0 {
      WindowsAreSound(n, MAX_CHILD_TOKENS, OVERLAP_TOKENS, 0);
      assert Linked(ws[k - 1], ws[k], MAX_CHILD_TOKENS, OVERLAP_TOKENS);
    }
  }

  // c has the trimmed text of the slice from a to b, at its place.
  ghost predicate Cut(cs: Classes, block: Block, a: nat, b: nat, c: Child) {
    && a <= b <= |block.text| && c.content == Trim(cs, block.text[a..b])
    && c.charStart == block.start + a + Lead(cs, block.text[a..b]) && c.charEnd == c.charStart + |c.content|
  }

  lemma CutText(cs: Classes, block: Block, a: nat, b: nat, c: Child)
    requires Cut(cs, block, a, b, c) && c.content != ""
    ensures TextOk(cs, block, c)
  {
    TrimSliceText(cs, block.text, a, b);
    assert c.charStart - block.start == a + Lead(cs, block.text[a..b]);
  }

  lemma CutTokens(cs: Classes, block: Block, k: nat, a: nat, b: nat, c: Child)
    requires Sound(cs) && Cut(cs, block, a, b, c) && WindowText(cs, block.text, k, a, block.text[a..b])
    ensures c.content != "" && c.charStart >= block.start
    ensures WindowText(cs, block.text, k, c.charStart - block.start, c.content)
  {
    TrimKeepsWindow(cs, block.text, k, a, block.text[a..b]);
    assert c.charStart - block.start == a + Lead(cs, block.text[a..b]);
  }

  lemma CutFits(cs: Classes, block: Block, k: nat, a: nat, b: nat, c: Child)
    requires Sound(cs) && Cut(cs, block, a, b, c) && WindowText(cs, block.text, k, a, block.text[a..b])
    requires c.tokenCount == CountTokens(cs, c.content)
    requires c.overlapPrevious == if k == 0 then 0 else Min(OVERLAP_TOKENS, CountTokens(cs, block.text[a..b]))
    ensures ChildOf(cs, block, k, c.position, c)
  {
    CutTokens(cs, block, k, a, b, c);
    CutText(cs, block, a, b, c);
    OverlapIsShared(cs, block.text, k, a, block.text[a..b]);
    OverlapIsShared(cs, block.text, k, c.charStart - block.start, c.content);
  }

  // One turn of the inner loop. The blank test never fires.
  method ChildOfSpan(cs: Classes, block: Block, spanIndex: nat, span: Span, position: nat) returns (c: Child)
    requires Sound(cs) && span.start <= span.end <= |block.text|
    requires WindowText(cs, block.text, spanIndex, span.start, block.text[span.start..span.end])
    ensures ChildOf(cs, block, spanIndex, position, c)
  {
    var slice := block.text[span.start..span.end];
    NotBlank(cs, slice);
    var content := Trim(cs, slice);
    var leadingTrim := LeadingTrim(cs, slice);
    var tokenCount := Count(cs, content);
    var windowTokens := Count(cs, slice);
    var localStart := span.start + leadingTrim;
    var overlap := if spanIndex == 0 then 0 else Min(OVERLAP_TOKENS, windowTokens);
    c := Child(content, position, tokenCount, overlap, block.start + localStart, block.start + localStart + |content|);
    CutFits(cs, block, spanIndex, span.start, span.end, c);
  }

  // countStableTokens
  method Count(cs: Classes, t: string) returns (n: nat)
    ensures n == CountTokens(cs, t)
  {
    var tokens := TokenizeStable(cs, t);
    return |tokens|;
  }

  method LeadingTrim(cs: Classes, slice: string) returns (leadingTrim: nat)
    requires Trim(cs, slice) != ""
    ensures leadingTrim == Lead(cs, slice)
  {
    TrimOccursAtLead(cs, slice);
    FirstIndexFinds(slice, Trim(cs, slice), 0);
    FirstIndexIsFirst(slice, Trim(cs, slice), 0);
    var found := IndexOf(slice, Trim(cs, slice));
    return Max(found, 0);
  }

  // The children of one block, in window order.
  method ChildrenOfBlock(cs: Classes, block: Block, firstPosition: nat) returns (children: seq<Child>)
    requires Sound(cs)
    ensures |children| == |Windows(CountTokens(cs, block.text), MAX_CHILD_TOKENS, OVERLAP_TOKENS, 0)|
    ensures forall k: nat | k < |children| :: ChildOf(cs, block, k, firstPosition + k, children[k])
  {
    children := [];
    var spans := SplitIntoTokenSpans(cs, block.text, MAX_CHILD_TOKENS, OVERLAP_TOKENS);
    for spanIndex := 0 to |spans|
      invariant |children| == spanIndex
      invariant forall k: nat | k < |children| :: ChildOf(cs, block, k, firstPosition + k, children[k])
    {
      SliceHasTokens(cs, block.text, spans, spanIndex);
      var child := ChildOfSpan(cs, block, spanIndex, spans[spanIndex], firstPosition + spanIndex);
      children := children + [child];
    }
  }

  predicate HoldsToken(cs: Classes, block: Block, c: Child, s: Span) {
    c.charStart >= block.start && s in Shift(Tokens(cs, c.content, 0), c.charStart - block.start)
  }

  // Between them the children hold every token of the block, each starts later than
  // the one before, and each repeats exactly the overlap it records: 64 tokens.
  lemma ChildrenCoverTheBlock(cs: Classes, block: Block, children: seq<Child>)
    requires |children| == |Windows(CountTokens(cs, block.text), MAX_CHILD_TOKENS, OVERLAP_TOKENS, 0)|
    requires forall k: nat | k < |children| :: ChildOf(cs, block, k, k, children[k])
    ensures forall s | s in Tokens(cs, block.text, 0) :: exists k: nat ::
      k < |children| && HoldsToken(cs, block, children[k], s)
    ensures forall k | 0 < k < |children| ::
      && children[k].overlapPrevious == OVERLAP_TOKENS
      && children[k - 1].charStart < children[k].charStart
  {
    var ts := Tokens(cs, block.text, 0);
    var ws := Windows(|ts|, MAX_CHILD_TOKENS, OVERLAP_TOKENS, 0);
    forall s | s in ts ensures exists k: nat ::
      k < |children| && HoldsToken(cs, block, children[k], s)
    {
      var i :| 0 <= i < |ts| && ts[i] == s;
      WindowsCover(|ts|, MAX_CHILD_TOKENS, OVERLAP_TOKENS, 0, i);
      var k: nat :| k < |ws| && ws[k].start <= i < ws[k].end;
      assert ChildOf(cs, block, k, k, children[k]);
      assert ts[ws[k].start..ws[k].end][i - ws[k].start] == s;
    }
    forall k | 0 < k < |children|
      ensures children[k].overlapPrevious == OVERLAP_TOKENS && children[k - 1].charStart < children[k].charStart
    {
      ChildrenAreLinked(cs, block, children, k);
    }
  }

  // A child begins where its first token does.
  lemma ChildStartsAtToken(cs: Classes, block: Block, k: nat, c: Child)
    requires ChildOf(cs, block, k, k, c)
    ensures var ts := Tokens(cs, block.text, 0); var ws := Windows(|ts|, MAX_CHILD_TOKENS, OVERLAP_TOKENS, 0);
      c.charStart - block.start == ts[ws[k].start].start
  {
    var ts := Tokens(cs, block.text, 0);
    var ws := Windows(|ts|, MAX_CHILD_TOKENS, OVERLAP_TOKENS, 0);
    var own := Tokens(cs, c.content, 0);
    assert ts[ws[k].start..ws[k].end][0] == ts[ws[k].start];
    assert own[0].start == 0;
  }

  lemma ChildrenAreLinked(cs: Classes, block: Block, children: seq<Child>, k: nat)
    requires 0 < k < |children| == |Windows(CountTokens(cs, block.text), MAX_CHILD_TOKENS, OVERLAP_TOKENS, 0)|
    requires ChildOf(cs, block, k - 1, k - 1, children[k - 1]) && ChildOf(cs, block, k, k, children[k])
    ensures children[k].overlapPrevious == OVERLAP_TOKENS && children[k - 1].charStart < children[k].charStart
  {
    OverlapIsShared(cs, block.text, k, children[k].charStart - block.start, children[k].content);
    var ts := Tokens(cs, block.text, 0);
    var ws := Windows(|ts|, MAX_CHILD_TOKENS, OVERLAP_TOKENS, 0);
    WindowsAreSound(|ts|, MAX_CHILD_TOKENS, OVERLAP_TOKENS, 0);
    assert Linked(ws[k - 1], ws[k], MAX_CHILD_TOKENS, OVERLAP_TOKENS);
    ChildStartsAtToken(cs, block, k - 1, children[k - 1]);
    ChildStartsAtToken(cs, block, k, children[k]);
    TokensAreOrdered(cs, block.text, 0);
    assert Before(ts[ws[k - 1].start], ts[ws[k].start]) && Within(ts[ws[k - 1].start], 0, |block.text|);
  }
}
