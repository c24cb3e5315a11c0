/** The older chunker for sectioned text: paragraphs are packed into chunks, whole,
    with an overlap, and short tails are merged back. */
module LegacyChunks {
  import opened Options
  import opened TokenWindows
  import opened LegacyParagraphs

  const MIN_CHUNK_SIZE: nat := 300
  const OVERLAP_SIZE: nat := 120
  const LONGEST: nat := 1101

  datatype Section = Section(title: string, content: string, page: Option<nat>)
  datatype Chunk = Chunk(content: string, title: Option<string>, page: Option<nat>, index: nat)

  // ---------------------------------------------------------------------------
  // Chunks

  function TitleOf(s: Section): Option<string> {
    if s.title == "" then None else Some(s.title)
  }

  ghost predicate Contains(t: string, p: string) {
    exists i: nat :: Occurs(t, p, i)
  }

  ghost predicate Held(chunks: seq<Chunk>, title: Option<string>, p: string) {
    exists k :: 0 <= k < |chunks| && chunks[k].title == title && Contains(chunks[k].content, p)
  }

  // Chunks are numbered by position, and none is longer than 299 + 2 + 800.
  predicate Numbered(chunks: seq<Chunk>) {
    forall k | 0 <= k < |chunks| :: chunks[k].index == k && |chunks[k].content| <= LONGEST
  }

  // Chunks are only added, or extended at their end.
  predicate Grows(a: seq<Chunk>, b: seq<Chunk>) {
    |a| <= |b| && forall k | 0 <= k < |a| :: a[k].title == b[k].title && a[k].content <= b[k].content
  }

  lemma HeldStays(a: seq<Chunk>, b: seq<Chunk>, title: Option<string>, p: string)
    requires Grows(a, b) && Held(a, title, p)
    ensures Held(b, title, p)
  {
    var k :| 0 <= k < |a| && a[k].title == title && Contains(a[k].content, p);
    var i: nat :| Occurs(a[k].content, p, i);
    assert a[k].content == b[k].content[..|a[k].content|];
    assert Occurs(b[k].content, p, i);
  }

  lemma ContainsAppend(a: string, b: string, p: string)
    ensures Contains(a, p) ==> Contains(a + b, p)
    ensures Contains(a + p, p) && Contains(p, p)
  {
    if Contains(a, p) {
      var i: nat :| Occurs(a, p, i);
      assert (a + b)[i..i + |p|] == a[i..i + |p|];
      assert Occurs(a + b, p, i);
    }
    assert (a + p)[|a|..|a| + |p|] == p && Occurs(a + p, p, |a|);
    assert p[0..|p|] == p && Occurs(p, p, 0);
  }

  function OverlapPrefix(cs: Classes, content: string): string {
    Trim(cs, if |content| > OVERLAP_SIZE then content[|content| - OVERLAP_SIZE..] else content)
  }

  // The buffer with one more paragraph behind it.
  function Extended(buffer: string, para: string): string {
    if buffer == "" then para else buffer + ("\n\n" + para)
  }

  lemma ExtendedKeeps(cs: Classes, buffer: string, para: string)
    requires Neat(cs, buffer) && Tidy(cs, para)
    ensures Tidy(cs, Extended(buffer, para)) && Contains(Extended(buffer, para), para)
    ensures |Extended(buffer, para)| <= |buffer| + 2 + |para|
  {
    if buffer == "" {
      ContainsAppend("", "", para);
    } else {
      var first := buffer + "\n\n";
      assert Extended(buffer, para) == first + para;
      ContainsAppend(first, "", para);
      JoinedIsTidy(cs, first, para);
    }
  }

  lemma JoinedIsTidy(cs: Classes, a: string, b: string)
    requires a != "" && b != "" && !cs.space(a[0]) && !cs.space(b[|b| - 1])
    ensures Tidy(cs, a + b)
  {}

  lemma ExtendedContains(buffer: string, para: string, p: string)
    requires Contains(buffer, p) && p != ""
    ensures Contains(Extended(buffer, para), p)
  {
    var i: nat :| Occurs(buffer, p, i);
    ContainsAppend(buffer, "\n\n" + para, p);
  }

  // ---------------------------------------------------------------------------
  // Groups of paragraphs

  // The paragraphs from first up to end, behind what is repeated of the chunk before.
  datatype Group = Group(first: nat, end: nat, head: string)

  function Joined(ps: seq<string>, i: nat, j: nat): string
    requires i < j <= |ps|
    decreases j
  {
    if i + 1 == j then ps[i] else Joined(ps, i, j - 1) + ("\n\n" + ps[j - 1])
  }

  // The trimmed last 120 characters.
  function Ending(cs: Classes, t: string): string {
    Trim(cs, if |t| > 120 then t[|t| - 120..] else t)
  }

  predicate Fits(ps: seq<string>, g: Group) {
    g.first < g.end <= |ps|
  }

  function TextUpTo(ps: seq<string>, g: Group, j: nat): string
    requires g.first < j <= |ps|
  {
    if g.head == "" then Joined(ps, g.first, j) else g.head + ("\n\n" + Joined(ps, g.first, j))
  }

  // The group is cut before paragraph j.
  predicate FullAt(ps: seq<string>, g: Group, j: nat)
    requires g.first < j < |ps|
  {
    var size := |TextUpTo(ps, g, j)|;
    size >= 300 && size + |ps[j]| > 800
  }

  predicate Whole(ps: seq<string>, g: Group) {
    Fits(ps, g) && forall j: nat | g.first < j < g.end :: !FullAt(ps, g, j)
  }

  // A group begins where the one before ends, and repeats its ending.
  predicate Behind(cs: Classes, ps: seq<string>, g: Group, before: Option<Group>) {
    match before
    case None => g.first == 0 && g.head == ""
    case Some(b) => Fits(ps, b) && g.first == b.end && g.head == Ending(cs, TextUpTo(ps, b, b.end))
  }

  function Before(groups: seq<Group>, k: nat): Option<Group>
    requires k <= |groups|
  {
    if k == 0 then None else Some(groups[k - 1])
  }

  // A finished group: the next paragraph does not fit in it any more.
  predicate Finished(ps: seq<string>, g: Group) {
    Whole(ps, g) && g.end < |ps| && FullAt(ps, g, g.end)
  }

  predicate Stands(cs: Classes, ps: seq<string>, groups: seq<Group>, k: nat)
    requires k < |groups|
  {
    Finished(ps, groups[k]) && Behind(cs, ps, groups[k], Before(groups, k))
  }

  // The finished groups, and the one they leave open.
  predicate Grouped(cs: Classes, ps: seq<string>, groups: seq<Group>, open: Group) {
    && (forall k: nat | k < |groups| :: Stands(cs, ps, groups, k))
    && Whole(ps, open) && Behind(cs, ps, open, Before(groups, |groups|))
  }

  // Each finished group is a chunk of the section, behind those there were.
  predicate Laid(section: Section, ps: seq<string>, groups: seq<Group>, chunks: seq<Chunk>, more: seq<Chunk>) {
    && |more| == |chunks| + |groups| && more[..|chunks|] == chunks
    && forall k: nat | k < |groups| :: IsGroup(section, ps, groups[k], |chunks| + k, more[|chunks| + k])
  }

  predicate IsGroup(section: Section, ps: seq<string>, g: Group, index: nat, c: Chunk) {
    Fits(ps, g) && c == Chunk(TextUpTo(ps, g, g.end), TitleOf(section), section.page, index)
  }

  // A tail below 300 characters joins a last chunk of the same title that it fits in.
  predicate JoinsLast(section: Section, chunks: seq<Chunk>, tail: string) {
    && |tail| < 300 && |chunks| > 0 && chunks[|chunks| - 1].title == TitleOf(section)
    && |chunks[|chunks| - 1].content| + |tail| <= 800
  }

  predicate Closed(section: Section, chunks: seq<Chunk>, tail: string, more: seq<Chunk>) {
    if JoinsLast(section, chunks, tail) then
      var last := |chunks| - 1;
      && |more| == |chunks| && more[..last] == chunks[..last]
      && more[last] == chunks[last].(content := chunks[last].content + ("\n\n" + tail))
    else more == chunks + [Chunk(tail, TitleOf(section), section.page, |chunks|)]
  }

  // What a section adds to the chunks before it.
  ghost predicate Adds(cs: Classes, section: Section, chunks: seq<Chunk>, more: seq<Chunk>) {
    var ps := Paragraphs(cs, section.content);
    if ps == [] then more == chunks
    else exists groups, open, laid :: AddsBy(cs, section, ps, chunks, groups, open, laid, more)
  }

  predicate AddsBy(cs: Classes, section: Section, ps: seq<string>, chunks: seq<Chunk>,
    groups: seq<Group>, open: Group, laid: seq<Chunk>, more: seq<Chunk>)
  {
    && Grouped(cs, ps, groups, open) && open.end == |ps| && Laid(section, ps, groups, chunks, laid)
    && Closed(section, laid, TextUpTo(ps, open, open.end), more)
  }

  // The chunks after each section, from none on.
  ghost predicate Built(cs: Classes, sections: seq<Section>, stages: seq<seq<Chunk>>) {
    && 0 < |stages| <= |sections| + 1 && stages[0] == []
    && forall k: nat | k < |stages| - 1 :: StageAdds(cs, sections, stages, k)
  }

  ghost predicate StageAdds(cs: Classes, sections: seq<Section>, stages: seq<seq<Chunk>>, k: nat)
    requires k + 1 < |stages| <= |sections| + 1
  {
    Adds(cs, sections[k], stages[k], stages[k + 1])
  }

  lemma OneMoreStage(cs: Classes, sections: seq<Section>, stages: seq<seq<Chunk>>, chunks: seq<Chunk>)
    requires Built(cs, sections, stages) && |stages| <= |sections|
    requires Adds(cs, sections[|stages| - 1], stages[|stages| - 1], chunks)
    ensures Built(cs, sections, stages + [chunks])
  {
    var more := stages + [chunks];
    forall k: nat | k < |more| - 1 ensures StageAdds(cs, sections, more, k) {
      if k < |stages| - 1 { assert StageAdds(cs, sections, stages, k); }
    }
  }

  // What one turn of the loop does to the chunks and the buffer.
  predicate Turned(cs: Classes, section: Section, chunks: seq<Chunk>, buffer: string, para: string, more: seq<Chunk>, next: string) {
    if |buffer| + |para| > 800 && |buffer| >= 300 then
      && more == chunks + [Chunk(buffer, TitleOf(section), section.page, |chunks|)]
      && next == if Ending(cs, buffer) == "" then para else Ending(cs, buffer) + ("\n\n" + para)
    else more == chunks && next == if buffer == "" then para else buffer + ("\n\n" + para)
  }

  // The loop stands behind n paragraphs.
  predicate Between(cs: Classes, section: Section, ps: seq<string>, chunks: seq<Chunk>, groups: seq<Group>, open: Group,
    more: seq<Chunk>, buffer: string)
  {
    Grouped(cs, ps, groups, open) && Laid(section, ps, groups, chunks, more) && buffer == TextUpTo(ps, open, open.end)
  }

  predicate Reached(cs: Classes, section: Section, ps: seq<string>, chunks: seq<Chunk>, groups: seq<Group>, open: Group,
    more: seq<Chunk>, buffer: string, n: nat)
  {
    if n == 0 then more == chunks && buffer == "" && groups == []
    else buffer != "" && open.end == n && Between(cs, section, ps, chunks, groups, open, more, buffer)
  }

  lemma NextTurn(cs: Classes, section: Section, ps: seq<string>, chunks: seq<Chunk>, groups: seq<Group>, open: Group, n: nat,
                 laid: seq<Chunk>, buffer: string, more: seq<Chunk>, next: string) returns (later: seq<Group>, last: Group)
    requires n < |ps| && Reached(cs, section, ps, chunks, groups, open, laid, buffer, n)
    requires Turned(cs, section, laid, buffer, ps[n], more, next) && next != ""
    ensures Reached(cs, section, ps, chunks, later, last, more, next, n + 1)
  {
    if n == 0 {
      later, last := [], Group(0, 1, "");
    } else {
      later, last := LaterTurn(cs, section, ps, chunks, groups, open, laid, buffer, more, next);
    }
  }

  lemma SectionIsAdded(cs: Classes, section: Section, chunks: seq<Chunk>, groups: seq<Group>, open: Group, laid: seq<Chunk>,
                       buffer: string, more: seq<Chunk>)
    requires var ps := Paragraphs(cs, section.content); Reached(cs, section, ps, chunks, groups, open, laid, buffer, |ps|)
    requires if buffer == "" then more == laid else Closed(section, laid, buffer, more)
    ensures Adds(cs, section, chunks, more)
  {
    var ps := Paragraphs(cs, section.content);
    if ps != [] { assert AddsBy(cs, section, ps, chunks, groups, open, laid, more); }
  }

  lemma LaterTurn(cs: Classes, section: Section, ps: seq<string>, chunks: seq<Chunk>, groups: seq<Group>, open: Group,
                  laid: seq<Chunk>, buffer: string, more: seq<Chunk>, next: string) returns (later: seq<Group>, last: Group)
    requires Between(cs, section, ps, chunks, groups, open, laid, buffer) && open.end < |ps| && buffer != ""
    requires Turned(cs, section, laid, buffer, ps[open.end], more, next)
    ensures Between(cs, section, ps, chunks, later, last, more, next) && last.end == open.end + 1
  {
    if |buffer| + |ps[open.end]| > 800 && |buffer| >= 300 {
      later, last := CutTurn(cs, section, ps, chunks, groups, open, laid, more);
      OpensWith(ps, last);
    } else {
      later, last := groups, open.(end := open.end + 1);
      OpenGrows(cs, ps, groups, open);
    }
  }

  lemma CutTurn(cs: Classes, section: Section, ps: seq<string>, chunks: seq<Chunk>, groups: seq<Group>, open: Group,
                laid: seq<Chunk>, more: seq<Chunk>) returns (later: seq<Group>, last: Group)
    requires Grouped(cs, ps, groups, open) && Laid(section, ps, groups, chunks, laid) && open.end < |ps| && FullAt(ps, open, open.end)
    requires more == laid + [Chunk(TextUpTo(ps, open, open.end), TitleOf(section), section.page, |laid|)]
    ensures Grouped(cs, ps, later, last) && Laid(section, ps, later, chunks, more)
    ensures last == Group(open.end, open.end + 1, Ending(cs, TextUpTo(ps, open, open.end)))
  {
    later, last := groups + [open], Group(open.end, open.end + 1, Ending(cs, TextUpTo(ps, open, open.end)));
    GroupsGrow(cs, ps, groups, open, last);
    LaidGrows(section, ps, groups, open, chunks, laid, more);
  }

  lemma OpensWith(ps: seq<string>, g: Group)
    requires g.first < |ps| && g.end == g.first + 1
    ensures TextUpTo(ps, g, g.end) == if g.head == "" then ps[g.first] else g.head + ("\n\n" + ps[g.first])
  {}

  lemma OpenGrows(cs: Classes, ps: seq<string>, groups: seq<Group>, open: Group)
    requires Grouped(cs, ps, groups, open) && open.end < |ps| && !FullAt(ps, open, open.end)
    ensures var more := open.(end := open.end + 1);
      Grouped(cs, ps, groups, more) && TextUpTo(ps, more, more.end) == TextUpTo(ps, open, open.end) + ("\n\n" + ps[open.end])
  {
    TextGrows(ps, open);
    var more := open.(end := open.end + 1);
    forall j: nat | more.first < j < more.end ensures !FullAt(ps, more, j) {
      assert TextUpTo(ps, more, j) == TextUpTo(ps, open, j);
      assert j < open.end ==> !FullAt(ps, open, j);
    }
  }

  lemma TextGrows(ps: seq<string>, open: Group)
    requires Fits(ps, open) && open.end < |ps|
    ensures var more := open.(end := open.end + 1);
      TextUpTo(ps, more, more.end) == TextUpTo(ps, open, open.end) + ("\n\n" + ps[open.end])
  {
    var n := open.end;
    var own := Joined(ps, open.first, n);
    assert Joined(ps, open.first, n + 1) == own + ("\n\n" + ps[n]);
    assert open.head + ("\n\n" + (own + ("\n\n" + ps[n]))) == (open.head + ("\n\n" + own)) + ("\n\n" + ps[n]);
  }

  lemma GroupsGrow(cs: Classes, ps: seq<string>, groups: seq<Group>, open: Group, last: Group)
    requires Grouped(cs, ps, groups, open) && Finished(ps, open)
    requires last == Group(open.end, open.end + 1, Ending(cs, TextUpTo(ps, open, open.end)))
    ensures Grouped(cs, ps, groups + [open], last)
  {
    var later := groups + [open];
    forall k: nat | k < |later| ensures Stands(cs, ps, later, k) {
      StandsStill(cs, ps, groups, open, k);
    }
    OpensBehind(cs, ps, open, last);
  }

  lemma StandsStill(cs: Classes, ps: seq<string>, groups: seq<Group>, open: Group, k: nat)
    requires Behind(cs, ps, open, Before(groups, |groups|)) && Finished(ps, open) && k <= |groups|
    requires k < |groups| ==> Stands(cs, ps, groups, k)
    ensures Stands(cs, ps, groups + [open], k)
  {
    var later := groups + [open];
    assert Before(later, k) == Before(groups, k);
    if k < |groups| {
      assert Stands(cs, ps, groups, k);
      assert later[k] == groups[k];
    } else {
      assert later[k] == open;
    }
  }

  lemma OpensBehind(cs: Classes, ps: seq<string>, open: Group, last: Group)
    requires Finished(ps, open) && last == Group(open.end, open.end + 1, Ending(cs, TextUpTo(ps, open, open.end)))
    ensures Whole(ps, last) && Behind(cs, ps, last, Some(open))
  {}

  lemma LaidGrows(section: Section, ps: seq<string>, groups: seq<Group>, open: Group, chunks: seq<Chunk>, laid: seq<Chunk>, more: seq<Chunk>)
    requires Fits(ps, open) && Laid(section, ps, groups, chunks, laid)
    requires more == laid + [Chunk(TextUpTo(ps, open, open.end), TitleOf(section), section.page, |laid|)]
    ensures Laid(section, ps, groups + [open], chunks, more)
  {
    var later := groups + [open];
    forall k: nat | k < |later| ensures IsGroup(section, ps, later[k], |chunks| + k, more[|chunks| + k]) {
      if k < |groups| { assert IsGroup(section, ps, groups[k], |chunks| + k, laid[|chunks| + k]); }
    }
  }

  // Everything packed so far is in a chunk of this section or in the buffer.
  ghost predicate Packed(chunks: seq<Chunk>, title: Option<string>, buffer: string, paras: seq<string>, n: nat)
    requires n <= |paras|
  {
    forall j | 0 <= j < n :: Held(chunks, title, paras[j]) || Contains(buffer, paras[j])
  }

  method AddParagraph(cs: Classes, section: Section, chunks: seq<Chunk>, buffer: string, paras: seq<string>, n: nat)
    returns (more: seq<Chunk>, next: string)
    requires n < |paras| && AllTidy(cs, paras) && AllShort(paras) && Numbered(chunks)
    requires Neat(cs, buffer) && |buffer| <= LONGEST && Packed(chunks, TitleOf(section), buffer, paras, n)
    ensures Numbered(more) && Grows(chunks, more) && Neat(cs, next) && |next| <= LONGEST
    ensures Packed(more, TitleOf(section), next, paras, n + 1)
    ensures Turned(cs, section, chunks, buffer, paras[n], more, next) && next != ""
  {
    var para := paras[n];
    assert Tidy(cs, para) && |para| <= MAX_CHUNK_SIZE;
    if |buffer| + |para| > MAX_CHUNK_SIZE && |buffer| >= MIN_CHUNK_SIZE {
      NeatNeedsNoTrim(cs, buffer);
      var finalized := Trim(cs, buffer);
      more := chunks + [Chunk(finalized, TitleOf(section), section.page, |chunks|)];
      var overlap := OverlapPrefix(cs, finalized);
      TrimIsNeat(cs, if |finalized| > OVERLAP_SIZE then finalized[|finalized| - OVERLAP_SIZE..] else finalized);
      next := Extended(overlap, para);
      ExtendedKeeps(cs, overlap, para);
      Flushed(chunks, TitleOf(section), buffer, paras, n, more, next);
      return;
    }
    more, next := chunks, Extended(buffer, para);
    ExtendedKeeps(cs, buffer, para);
    forall j | 0 <= j < n + 1 ensures Held(more, TitleOf(section), paras[j]) || Contains(next, paras[j]) {
      assert Tidy(cs, paras[j]);
      if Contains(buffer, paras[j]) { ExtendedContains(buffer, para, paras[j]); }
    }
  }

  lemma Flushed(chunks: seq<Chunk>, title: Option<string>, buffer: string, paras: seq<string>, n: nat,
                more: seq<Chunk>, next: string)
    requires n < |paras| && Packed(chunks, title, buffer, paras, n) && Grows(chunks, more) && |more| == |chunks| + 1
    requires more[|chunks|].title == title && more[|chunks|].content == buffer && Contains(next, paras[n])
    ensures Packed(more, title, next, paras, n + 1)
  {
    forall j | 0 <= j < n ensures Held(more, title, paras[j]) {
      if Held(chunks, title, paras[j]) {
        HeldStays(chunks, more, title, paras[j]);
      } else {
        assert Contains(more[|chunks|].content, paras[j]);
      }
    }
  }

  // The tail of a section joins the last chunk if both are short and it is the same
  // section's; otherwise it is a chunk of its own.
  method FinishSection(cs: Classes, section: Section, chunks: seq<Chunk>, buffer: string, ghost paras: seq<string>)
    returns (more: seq<Chunk>)
    requires AllTidy(cs, paras) && Numbered(chunks) && Neat(cs, buffer) && |buffer| <= LONGEST
    requires Packed(chunks, TitleOf(section), buffer, paras, |paras|)
    ensures Numbered(more) && Grows(chunks, more)
    ensures forall j | 0 <= j < |paras| :: Held(more, TitleOf(section), paras[j])
    ensures if buffer == "" then more == chunks else Closed(section, chunks, buffer, more)
  {
    more := chunks;
    NeatNeedsNoTrim(cs, buffer);
    if Trim(cs, buffer) != "" {
      var last := |chunks| - 1;
      if |buffer| < MIN_CHUNK_SIZE && |chunks| > 0 && chunks[last].title == TitleOf(section)
        && |chunks[last].content| + |buffer| <= MAX_CHUNK_SIZE
      {
        var merged := chunks[last].content + ("\n\n" + Trim(cs, buffer));
        more := chunks[last := chunks[last].(content := merged)];
        forall p | Contains(buffer, p) ensures Contains(more[last].content, p) {
          MergedContains(chunks[last].content + "\n\n", buffer, p);
          assert merged == (chunks[last].content + "\n\n") + buffer;
        }
      } else {
        more := chunks + [Chunk(Trim(cs, buffer), TitleOf(section), section.page, |chunks|)];
      }
    }
    forall j | 0 <= j < |paras| ensures Held(more, TitleOf(section), paras[j]) {
      assert Tidy(cs, paras[j]);
      if Held(chunks, TitleOf(section), paras[j]) {
        HeldStays(chunks, more, TitleOf(section), paras[j]);
      } else {
        assert Contains(buffer, paras[j]);
        assert buffer != "";
        assert Contains(more[|more| - 1].content, paras[j]);
      }
    }
  }

  lemma MergedContains(a: string, b: string, p: string)
    requires Contains(b, p)
    ensures Contains(a + b, p)
  {
    var i: nat :| Occurs(b, p, i);
    assert (a + b)[|a| + i..|a| + i + |p|] == b[i..i + |p|];
    assert Occurs(a + b, p, |a| + i);
  }

  ghost predicate SectionHeld(cs: Classes, section: Section, chunks: seq<Chunk>) {
    forall p | p in Paragraphs(cs, section.content) :: Held(chunks, TitleOf(section), p)
  }

  lemma SectionStaysHeld(cs: Classes, section: Section, a: seq<Chunk>, b: seq<Chunk>)
    requires Grows(a, b) && SectionHeld(cs, section, a)
    ensures SectionHeld(cs, section, b)
  {
    forall p | p in Paragraphs(cs, section.content) ensures Held(b, TitleOf(section), p) {
      HeldStays(a, b, TitleOf(section), p);
    }
  }

  method ChunkSection(cs: Classes, section: Section, chunks: seq<Chunk>) returns (more: seq<Chunk>)
    requires Numbered(chunks)
    ensures Numbered(more) && Grows(chunks, more)
    ensures SectionHeld(cs, section, more) && Adds(cs, section, chunks, more)
    ensures !Blank(cs, section) ==> more != []
  {
    var paras := Paragraphs(cs, section.content);
    ParagraphsFit(cs, section.content);
    more := chunks;
    var buffer := "";
    ghost var groups: seq<Group>, open := [], Group(0, 0, "");
    for n := 0 to |paras|
      invariant Numbered(more) && Grows(chunks, more) && Neat(cs, buffer) && |buffer| <= LONGEST
      invariant Packed(more, TitleOf(section), buffer, paras, n)
      invariant Reached(cs, section, paras, chunks, groups, open, more, buffer, n)
    {
      ghost var laid, before := more, buffer;
      more, buffer := AddParagraph(cs, section, more, buffer, paras, n);
      groups, open := NextTurn(cs, section, paras, chunks, groups, open, n, laid, before, more, buffer);
    }
    ghost var laid := more;
    more := FinishSection(cs, section, more, buffer, paras);
    SectionIsAdded(cs, section, chunks, groups, open, laid, buffer, more);
    if paras != [] { assert Held(more, TitleOf(section), paras[0]); }
  }

  // The first n sections are held; none of them has any text.
  ghost predicate HeldUpTo(cs: Classes, sections: seq<Section>, n: nat, chunks: seq<Chunk>)
    requires n <= |sections|
  {
    n > 0 ==> HeldUpTo(cs, sections, n - 1, chunks) && SectionHeld(cs, sections[n - 1], chunks)
  }

  predicate NoTextUpTo(cs: Classes, sections: seq<Section>, n: nat)
    requires n <= |sections|
  {
    n > 0 ==> NoTextUpTo(cs, sections, n - 1) && Blank(cs, sections[n - 1])
  }

  predicate Blank(cs: Classes, section: Section) {
    Paragraphs(cs, section.content) == []
  }

  lemma {:induction false} StayHeld(cs: Classes, sections: seq<Section>, n: nat, a: seq<Chunk>, b: seq<Chunk>)
    requires n <= |sections| && Grows(a, b) && HeldUpTo(cs, sections, n, a)
    ensures HeldUpTo(cs, sections, n, b)
  {
    if n > 0 {
      StayHeld(cs, sections, n - 1, a, b);
      SectionStaysHeld(cs, sections[n - 1], a, b);
    }
  }

  lemma {:induction false} EachIsHeld(cs: Classes, sections: seq<Section>, n: nat, chunks: seq<Chunk>, j: nat)
    requires j < n <= |sections| && HeldUpTo(cs, sections, n, chunks)
    ensures SectionHeld(cs, sections[j], chunks)
  {
    if j < n - 1 { EachIsHeld(cs, sections, n - 1, chunks, j); }
  }

  lemma AllAreHeld(cs: Classes, sections: seq<Section>, chunks: seq<Chunk>)
    requires HeldUpTo(cs, sections, |sections|, chunks)
    ensures forall j | 0 <= j < |sections| :: SectionHeld(cs, sections[j], chunks)
  {
    forall j | 0 <= j < |sections| ensures SectionHeld(cs, sections[j], chunks) {
      EachIsHeld(cs, sections, |sections|, chunks, j);
    }
  }

  method ChunkSections(cs: Classes, sections: seq<Section>) returns (chunks: seq<Chunk>, ghost stages: seq<seq<Chunk>>)
    ensures Numbered(chunks) && HeldUpTo(cs, sections, |sections|, chunks)
    ensures Built(cs, sections, stages) && |stages| == |sections| + 1 && chunks == stages[|sections|]
    ensures chunks == [] <==> NoTextUpTo(cs, sections, |sections|)
  {
    chunks, stages := [], [[]];
    for i := 0 to |sections|
      invariant Numbered(chunks) && HeldUpTo(cs, sections, i, chunks)
      invariant Built(cs, sections, stages) && |stages| == i + 1 && chunks == stages[i]
      invariant chunks == [] <==> NoTextUpTo(cs, sections, i)
    {
      ghost var before := chunks;
      chunks := ChunkSection(cs, sections[i], chunks);
      StayHeld(cs, sections, i, before, chunks);
      OneMoreStage(cs, sections, stages, chunks);
      stages := stages + [chunks];
    }
  }

  // ---------------------------------------------------------------------------
  // Text without sections: windows of 800 characters that step back 120

  const STEP: nat := MAX_CHUNK_SIZE - OVERLAP_SIZE

  function Window(text: string, k: nat): string
    requires k * STEP <= |text|
  {
    text[k * STEP..Min(k * STEP + MAX_CHUNK_SIZE, |text|)]
  }

  // The first n windows, trimmed and numbered.
  predicate Windowed(cs: Classes, text: string, chunks: seq<Chunk>) {
    forall k | 0 <= k < |chunks| ::
      k * STEP <= |text| && IsWindow(cs, text, k, chunks[k])
  }

  predicate IsWindow(cs: Classes, text: string, k: nat, c: Chunk)
    requires k * STEP <= |text|
  {
    c == Chunk(Trim(cs, Window(text, k)), None, None, k)
  }

  // As many windows as it takes to reach the end of the text, and no more.
  predicate JustEnough(text: string, n: nat) {
    if text == "" then n == 0
    else n > 0 && (n - 1) * STEP + MAX_CHUNK_SIZE >= |text| && (n > 1 ==> (n - 2) * STEP + MAX_CHUNK_SIZE < |text|)
  }

  method ChunkPlain(cs: Classes, text: string) returns (chunks: seq<Chunk>)
    ensures Windowed(cs, text, chunks) && JustEnough(text, |chunks|)
  {
    chunks := [];
    var offset := 0;
    while offset < |text|
      invariant Windowed(cs, text, chunks)
      invariant if offset < |text| then BetweenWindows(text, |chunks|, offset) else offset == |text| && JustEnough(text, |chunks|)
      decreases |text| - offset
    {
      var end := Min(offset + MAX_CHUNK_SIZE, |text|);
      var next := Chunk(Trim(cs, text[offset..end]), None, None, |chunks|);
      NextWindow(text, |chunks|, offset, end);
      OneMoreWindow(cs, text, chunks, next);
      chunks := chunks + [next];
      offset := if end >= |text| then end else Max(end - OVERLAP_SIZE, offset + 1);
    }
  }

  // The loop stands before window n, and the windows so far do not reach the end.
  predicate BetweenWindows(text: string, n: nat, offset: nat) {
    offset == n * STEP && (n > 0 ==> (n - 1) * STEP + MAX_CHUNK_SIZE < |text|)
  }

  lemma OneMoreWindow(cs: Classes, text: string, chunks: seq<Chunk>, c: Chunk)
    requires Windowed(cs, text, chunks) && |chunks| * STEP <= |text| && IsWindow(cs, text, |chunks|, c)
    ensures Windowed(cs, text, chunks + [c])
  {
    var more := chunks + [c];
    forall k | 0 <= k < |more| ensures k * STEP <= |text| && IsWindow(cs, text, k, more[k]) {
      if k < |chunks| { assert IsWindow(cs, text, k, chunks[k]); }
    }
  }

  lemma NextWindow(text: string, n: nat, offset: nat, end: nat)
    requires BetweenWindows(text, n, offset) && offset < |text| && end == Min(offset + MAX_CHUNK_SIZE, |text|)
    ensures Window(text, n) == text[offset..end]
    ensures if end == |text| then JustEnough(text, n + 1) else BetweenWindows(text, n + 1, end - OVERLAP_SIZE)
  {}

  // Each character is in a window, and each window but the first begins with the
  // last 120 characters of the one before.
  lemma WindowsCoverText(text: string, n: nat, i: nat)
    requires JustEnough(text, n) && i < |text|
    ensures var k := if i / STEP < n then i / STEP else n - 1;
      k < n && k * STEP <= i < k * STEP + |Window(text, k)| && Window(text, k)[i - k * STEP] == text[i]
  {}

  lemma WindowsOverlap(text: string, n: nat, k: nat)
    requires JustEnough(text, n) && 0 < k < n
    ensures |Window(text, k - 1)| == MAX_CHUNK_SIZE && |Window(text, k)| > OVERLAP_SIZE
    ensures Window(text, k)[..OVERLAP_SIZE] == Window(text, k - 1)[STEP..]
  {}

  // Every chunk is short and numbered by position, and every paragraph of every
  // section survives whole in a chunk under its section's title; without any
  // paragraph, the plain text is cut into windows.
  method ChunkDocument(cs: Classes, sections: seq<Section>, text: string) returns (chunks: seq<Chunk>, ghost stages: seq<seq<Chunk>>)
    ensures Numbered(chunks)
    ensures forall j | 0 <= j < |sections| :: SectionHeld(cs, sections[j], chunks)
    ensures Built(cs, sections, stages) && |stages| == |sections| + 1
    ensures if stages[|sections|] != [] || Trim(cs, text) == "" then chunks == stages[|sections|]
            else Windowed(cs, text, chunks) && JustEnough(text, |chunks|)
    ensures stages[|sections|] == [] <==> NoTextUpTo(cs, sections, |sections|)
  {
    chunks, stages := ChunkSections(cs, sections);
    if |chunks| == 0 && Trim(cs, text) != "" {
      var plain := ChunkPlain(cs, text);
      StayHeld(cs, sections, |sections|, chunks, plain);
      WindowsAreShort(cs, text, plain);
      chunks := plain;
    }
    AllAreHeld(cs, sections, chunks);
  }

  lemma WindowsAreShort(cs: Classes, text: string, chunks: seq<Chunk>)
    requires Windowed(cs, text, chunks)
    ensures Numbered(chunks)
  {
    forall k | 0 <= k < |chunks| ensures chunks[k].index == k && |chunks[k].content| <= LONGEST {
      assert IsWindow(cs, text, k, chunks[k]);
      WindowIsShort(cs, text, k, chunks[k]);
    }
  }

  lemma WindowIsShort(cs: Classes, text: string, k: nat, c: Chunk)
    requires k * STEP <= |text| && IsWindow(cs, text, k, c)
    ensures c.index == k && |c.content| <= MAX_CHUNK_SIZE
  {
    TrimIsNeat(cs, Window(text, k));
  }
}
