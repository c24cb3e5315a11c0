/** The exact span chosen from a candidate and the two validators that check its
    offsets later, each in its own way. */
module EvidenceOffsets {
  import opened Options
  import opened TokenWindows
  import opened Chunker
  import opened Sentences

  type Id = nat
  const MAX_SAFE_INTEGER: int := 0x1F_FFFF_FFFF_FFFF

  const MARKS := Marks(c => Terminator(c) || c == '\n', c => Terminator(c))

  predicate Terminator(c: char) {
    c == '\U{3002}' || c == '\U{FF01}' || c == '\U{FF1F}' || c == '!' || c == '?'
  }

  // ---------------------------------------------------------------------------
  // The exact span

  datatype Candidate = Candidate(content: string, charStart: Option<nat>)
  datatype ExactSpan = ExactSpan(text: string, charStart: Option<nat>, charEnd: Option<nat>)

  // Best supported first, the earliest among equals.
  predicate Better(score: string -> int, a: Segment, b: Segment) {
    score(a.text) > score(b.text) || (score(a.text) == score(b.text) && a.start <= b.start)
  }

  ghost predicate IsBest(cs: Classes, content: string, score: string -> int, best: Segment) {
    var segments := Segments(cs, MARKS, content, 0);
    if segments == [] then best == Segment(content, 0)
    else best in segments && forall s | s in segments :: Better(score, best, s)
  }

  function SpanAt(item: Candidate, best: Segment): ExactSpan {
    match item.charStart
    case None => ExactSpan(best.text, None, None)
    case Some(n) => ExactSpan(best.text, Some(n + best.start), Some(n + best.start + |best.text|))
  }

  method ExtractExactSpan(cs: Classes, item: Candidate, score: string -> int) returns (span: ExactSpan, ghost best: Segment)
    ensures IsBest(cs, item.content, score, best) && span == SpanAt(item, best)
  {
    var segments := SentenceSegments(cs, MARKS, item.content);
    var chosen := Segment(item.content, 0);
    for k := 0 to |segments|
      invariant k == 0 ==> chosen == Segment(item.content, 0)
      invariant k > 0 ==> chosen in segments && forall s | s in segments[..k] :: Better(score, chosen, s)
    {
      assert segments[..k + 1] == segments[..k] + [segments[k]];
      if k == 0 || !Better(score, chosen, segments[k]) { chosen := segments[k]; }
    }
    assert segments[..|segments|] == segments;
    best := chosen;
    span := SpanAt(item, chosen);
  }

  lemma BestIsInContent(cs: Classes, content: string, score: string -> int, best: Segment)
    requires content != "" && IsBest(cs, content, score, best)
    ensures best.text != "" && Occurs(content, best.text, best.start)
  {
    var segments := Segments(cs, MARKS, content, 0);
    if segments != [] {
      var k :| 0 <= k < |segments| && segments[k] == best;
      SegmentsAreSlices(cs, MARKS, content, 0, k);
    } else {
      assert content[0..|content|] == content;
    }
  }

  // ---------------------------------------------------------------------------
  // The validators

  // slice with arguments that are not negative.
  function Slice(t: string, a: int, b: int): string
    requires a >= 0 && b >= 0
  {
    var lo, hi := Min(a, |t|), Min(b, |t|);
    if lo < hi then t[lo..hi] else ""
  }

  predicate Safe(n: int) {
    -MAX_SAFE_INTEGER <= n <= MAX_SAFE_INTEGER
  }

  // validateEvidenceOffsets: none of the conditions that throw.
  predicate OffsetsPass(content: string, chunkStart: Option<int>, text: string, spanStart: Option<int>, spanEnd: Option<int>) {
    && chunkStart.Some? && Safe(chunkStart.value) && chunkStart.value >= 0
    && spanStart.Some? && Safe(spanStart.value) && spanEnd.Some? && Safe(spanEnd.value)
    && spanStart.value >= chunkStart.value && spanEnd.value >= spanStart.value
    && Slice(content, spanStart.value - chunkStart.value, spanEnd.value - chunkStart.value) == text
  }

  datatype Request = Request(project: Id, run: Id, runRefs: Option<set<Id>>)
  datatype Assigned = Assigned(
    project: Id, run: Id, content: string, text: string,
    chunkStart: Option<int>, spanStart: Option<int>, spanEnd: Option<int>)
  datatype Rejection = OtherProject | PrimaryRunMissing | OtherRun | OffsetMismatch | SpanInvalid

  function AllowedRuns(r: Request): set<Id> {
    if r.runRefs.Some? then r.runRefs.value else {r.run}
  }

  // From the document offsets if both are there, else by searching.
  function RelativeStart(e: Assigned): int {
    if e.chunkStart.Some? && e.spanStart.Some? then e.spanStart.value - e.chunkStart.value
    else FirstIndex(e.content, e.text, 0)
  }

  predicate Matches(content: string, text: string, start: int) {
    start >= 0 && text != "" && Slice(content, start, start + |text|) == text
  }

  // validateEvidence: the span's place within the chunk, or why it is refused.
  function ValidateEvidence(r: Request, e: Assigned): Result<(int, int), Rejection> {
    if e.project != r.project then Err(OtherProject)
    else if r.run !in AllowedRuns(r) then Err(PrimaryRunMissing)
    else if e.run !in AllowedRuns(r) then Err(OtherRun)
    else
      var start := RelativeStart(e);
      if !Matches(e.content, e.text, start)
      then Err(if e.chunkStart.Some? && e.spanStart.Some? then OffsetMismatch else SpanInvalid)
      else
        var end := start + |e.text|;
        if e.chunkStart.Some? then
          if e.spanStart != Some(e.chunkStart.value + start) || e.spanEnd != Some(e.chunkStart.value + end)
          then Err(OffsetMismatch) else Ok((start, end))
        else if e.spanStart.Some? || e.spanEnd.Some? then Err(OffsetMismatch)
        else Ok((start, end))
  }

  predicate Belongs(r: Request, e: Assigned) {
    e.project == r.project && r.run in AllowedRuns(r) && e.run in AllowedRuns(r)
  }

  lemma MatchIsOccurrence(content: string, text: string, start: int)
    ensures Matches(content, text, start) <==> start >= 0 && text != "" && Occurs(content, text, start)
  {
    if Matches(content, text, start) { assert |Slice(content, start, start + |text|)| == |text|; }
  }

  // Accepted evidence belongs to the request, and its text is the chunk's text at
  // the place returned, which its document offsets agree with if it has any.
  lemma AcceptedIffExact(r: Request, e: Assigned, start: int, end: int)
    ensures ValidateEvidence(r, e) == Ok((start, end)) <==>
      && Belongs(r, e) && e.text != "" && start >= 0 && Occurs(e.content, e.text, start) && end == start + |e.text|
      && (e.chunkStart.Some? ==>
            e.spanStart == Some(e.chunkStart.value + start) && e.spanEnd == Some(e.chunkStart.value + end))
      && (e.chunkStart.None? ==>
            e.spanStart.None? && e.spanEnd.None? && start == FirstIndex(e.content, e.text, 0))
  {
    MatchIsOccurrence(e.content, e.text, RelativeStart(e));
  }

  // The document offsets are all there, as safe integers.
  predicate HasOffsets(e: Assigned) {
    && e.chunkStart.Some? && Safe(e.chunkStart.value) && e.chunkStart.value >= 0
    && e.spanStart.Some? && Safe(e.spanStart.value) && e.spanEnd.Some? && Safe(e.spanEnd.value)
  }

  // Evidence of the request with offsets is accepted by the one validator exactly if
  // the other passes it, its text is not empty, and its interval is as long as the
  // text: slice tolerates an end beyond the content.
  lemma ValidatorsDifferOnLength(r: Request, e: Assigned)
    ensures ValidateEvidence(r, e).Ok? && HasOffsets(e) <==>
      && Belongs(r, e) && OffsetsPass(e.content, e.chunkStart, e.text, e.spanStart, e.spanEnd)
      && e.text != "" && e.spanEnd.value - e.spanStart.value == |e.text|
  {
    if HasOffsets(e) {
      var start := e.spanStart.value - e.chunkStart.value;
      AcceptedIffExact(r, e, start, start + |e.text|);
      MatchIsOccurrence(e.content, e.text, start);
    }
  }

  // The span that is chosen from empty content, and one that ends beyond its content.
  lemma OffsetCheckAloneIsLax()
    ensures OffsetsPass("", Some(0), "", Some(0), Some(0))
    ensures ValidateEvidence(Request(0, 0, None), Assigned(0, 0, "", "", Some(0), Some(0), Some(0))).Err?
    ensures OffsetsPass("ab", Some(0), "b", Some(1), Some(9))
    ensures ValidateEvidence(Request(0, 0, None), Assigned(0, 0, "ab", "b", Some(0), Some(1), Some(9))).Err?
  {
    assert Slice("ab", 1, 9) == "b";
    assert Slice("ab", 1, 2) == "b";
  }

  // Every chosen span passes the offset check; the other validator refuses exactly
  // those chosen from empty content.
  lemma ChosenSpanIsRefusedIffEmpty(cs: Classes, item: Candidate, score: string -> int, best: Segment, r: Request, e: Assigned)
    requires IsBest(cs, item.content, score, best) && item.charStart.Some?
    requires e == Assigned(e.project, e.run, item.content, SpanAt(item, best).text, Widen(item.charStart),
                           Widen(SpanAt(item, best).charStart), Widen(SpanAt(item, best).charEnd))
    requires Belongs(r, e) && item.charStart.value + |item.content| <= MAX_SAFE_INTEGER
    ensures OffsetsPass(e.content, e.chunkStart, e.text, e.spanStart, e.spanEnd)
    ensures ValidateEvidence(r, e).Err? <==> item.content == ""
  {
    if item.content == "" {
      NothingToChoose(cs, item.content, score, best);
    } else {
      ChosenSpanPasses(cs, item, score, best, r, e);
    }
  }

  lemma NothingToChoose(cs: Classes, content: string, score: string -> int, best: Segment)
    requires content == "" && IsBest(cs, content, score, best)
    ensures best == Segment("", 0)
  {
    assert Segments(cs, MARKS, content, 0) == [];
  }

  // ---------------------------------------------------------------------------
  // From document to evidence

  function Widen(n: Option<nat>): Option<int> {
    match n
    case None => None
    case Some(x) => Some(x)
  }

  // The span of a candidate with content is never refused by either check.
  lemma ChosenSpanPasses(cs: Classes, item: Candidate, score: string -> int, best: Segment, r: Request, e: Assigned)
    requires item.content != "" && IsBest(cs, item.content, score, best)
    requires e == Assigned(e.project, e.run, item.content, SpanAt(item, best).text, Widen(item.charStart),
                           Widen(SpanAt(item, best).charStart), Widen(SpanAt(item, best).charEnd))
    requires Belongs(r, e) && (item.charStart.Some? ==> item.charStart.value + |item.content| <= MAX_SAFE_INTEGER)
    ensures ValidateEvidence(r, e).Ok?
    ensures item.charStart.Some? ==> ValidateEvidence(r, e) == Ok((best.start, best.start + |best.text|))
    ensures item.charStart.Some? ==> OffsetsPass(e.content, e.chunkStart, e.text, e.spanStart, e.spanEnd)
  {
    BestIsInContent(cs, item.content, score, best);
    if item.charStart.Some? {
      PlacedSpanPasses(r, e, item.charStart.value, best);
    } else {
      FoundSpanPasses(r, e, best);
    }
  }

  lemma PlacedSpanPasses(r: Request, e: Assigned, n: nat, best: Segment)
    requires Belongs(r, e) && best.text == e.text != "" && Occurs(e.content, e.text, best.start)
    requires e.chunkStart == Some(n) && e.spanStart == Some(n + best.start) && e.spanEnd == Some(n + best.start + |best.text|)
    requires n + |e.content| <= MAX_SAFE_INTEGER
    ensures ValidateEvidence(r, e) == Ok((best.start, best.start + |best.text|))
    ensures OffsetsPass(e.content, e.chunkStart, e.text, e.spanStart, e.spanEnd)
  {
    AcceptedIffExact(r, e, best.start, best.start + |best.text|);
    ValidatorsDifferOnLength(r, e);
  }

  lemma FoundSpanPasses(r: Request, e: Assigned, best: Segment)
    requires Belongs(r, e) && best.text == e.text != "" && Occurs(e.content, e.text, best.start)
    requires e.chunkStart.None? && e.spanStart.None? && e.spanEnd.None?
    ensures ValidateEvidence(r, e).Ok?
  {
    FirstIndexFinds(e.content, e.text, 0);
    var start := FirstIndex(e.content, e.text, 0);
    AcceptedIffExact(r, e, start, start + |e.text|);
  }

  // A child chunk of a block that is where the document says it is: the chosen
  // span is the document's own text at the recorded offsets.
  lemma SpanIsDocumentText(cs: Classes, document: string, block: Block, k: nat, position: nat, child: Child,
                           score: string -> int, best: Segment)
    requires ChildOf(cs, block, k, position, child)
    requires Occurs(document, block.text, block.start)
    requires IsBest(cs, child.content, score, best)
    ensures var span := SpanAt(Candidate(child.content, Some(child.charStart)), best);
      && span.text != "" && Occurs(document, span.text, span.charStart.value)
      && span.charEnd.value == span.charStart.value + |span.text|
  {
    var local := child.charStart - block.start;
    ChildOccurs(cs, block, k, position, child);
    BestIsInContent(cs, child.content, score, best);
    OccursWithin(block.text, child.content, best.text, local, best.start);
    OccursWithin(document, block.text, best.text, block.start, local + best.start);
  }

  lemma ChildOccurs(cs: Classes, block: Block, k: nat, position: nat, child: Child)
    requires ChildOf(cs, block, k, position, child)
    ensures child.charStart >= block.start && child.content != ""
    ensures Occurs(block.text, child.content, child.charStart - block.start)
  {}
}
