/** The visible text is the output with its comments cut out, and the markers stand
    where theirs were. */
module VisibleComments {
  import opened Options
  import opened TokenWindows
  import opened VisibleText

  // A comment opens at i, and j is where it first closes.
  predicate IsComment(t: string, i: nat, j: nat) {
    && Occurs(t, "<!--", i) && i + 4 <= j && Occurs(t, "-->", j)
    && forall m | i + 4 <= m < j :: !Occurs(t, "-->", m)
  }

  lemma CommentIff(t: string, i: nat, j: nat)
    ensures CommentAt(t, i) == Some(j) <==> IsComment(t, i, j)
  {
    FirstIndexFinds(t, "-->", i + 4);
    FirstIndexIsFirst(t, "-->", i + 4);
    var first := FirstIndex(t, "-->", i + 4);
    if IsComment(t, i, j) && first >= 0 {
      var closes := Occurs(t, "-->", first);
    }
  }

  lemma NoCommentIff(t: string, i: nat)
    ensures CommentAt(t, i).None? <==> forall j: nat :: !IsComment(t, i, j)
  {
    if CommentAt(t, i).Some? { CommentIff(t, i, CommentAt(t, i).value); }
    forall j: nat | IsComment(t, i, j) ensures CommentAt(t, i) == Some(j) { CommentIff(t, i, j); }
  }

  // Where each comment opens and closes.
  type Cuts = seq<(nat, nat)>

  // The comments from p on, left to right, and no others.
  ghost predicate AreComments(t: string, p: nat, cuts: Cuts)
    decreases |cuts|
  {
    if cuts == [] then forall i: nat, j: nat | p <= i :: !IsComment(t, i, j)
    else
      var (i, j) := cuts[0];
      && p <= i && IsComment(t, i, j) && (forall k: nat, m: nat | p <= k < i :: !IsComment(t, k, m))
      && AreComments(t, j + 3, cuts[1..])
  }

  predicate Inside(t: string, p: nat, cuts: Cuts)
    decreases |cuts|
  {
    if cuts == [] then p <= |t| else p <= cuts[0].0 && cuts[0].0 + 4 <= cuts[0].1 && Inside(t, cuts[0].1 + 3, cuts[1..])
  }

  lemma {:induction false} InsideStarts(t: string, p: nat, cuts: Cuts)
    requires Inside(t, p, cuts)
    ensures p <= |t| && (cuts != [] ==> cuts[0].1 + 3 <= |t|)
    decreases |cuts|
  {
    if cuts != [] { InsideStarts(t, cuts[0].1 + 3, cuts[1..]); }
  }

  lemma {:induction false} CommentsAreInside(t: string, p: nat, cuts: Cuts)
    requires p <= |t| && AreComments(t, p, cuts)
    ensures Inside(t, p, cuts)
    decreases |cuts|
  {
    if cuts != [] { CommentsAreInside(t, cuts[0].1 + 3, cuts[1..]); }
  }

  function Body(t: string, cut: (nat, nat)): string
    requires cut.0 + 4 <= cut.1 <= |t|
  {
    t[cut.0 + 4..cut.1]
  }

  function ClaimIn(comment: Comment, at: nat): seq<Marker> {
    match comment
    case Claim(x, ids) => [Marker(x, ids, at)]
    case _ => []
  }

  // The text without the comments, the claims among them, each at the length of the
  // text before it, and whether one of them does not parse.
  datatype Reading = Reading(text: string, markers: seq<Marker>, malformed: bool)

  function Read(g: Grammar, t: string, p: nat, cuts: Cuts, before: nat): Reading
    requires Inside(t, p, cuts)
    decreases |cuts|
  {
    InsideStarts(t, p, cuts);
    if cuts == [] then Reading(t[p..], [], false)
    else
      var comment, at := g.comment(Body(t, cuts[0])), before + cuts[0].0 - p;
      Behind(t[p..cuts[0].0], comment, at, Read(g, t, cuts[0].1 + 3, cuts[1..], at))
  }

  function Behind(piece: string, comment: Comment, at: nat, rest: Reading): Reading {
    Reading(piece + rest.text, ClaimIn(comment, at) + rest.markers, comment.Malformed? || rest.malformed)
  }

  // Text without a comment is visible as it stands.
  lemma {:induction false} PlainIsVisible(g: Grammar, t: string, i: nat, text: string, markers: seq<Marker>, end: nat)
    requires i <= end <= |t| && forall k: nat, m: nat | i <= k < end :: !IsComment(t, k, m)
    ensures Visible(g, t, i, text, markers) == Visible(g, t, end, text + t[i..end], markers)
    decreases end - i
  {
    if i < end {
      NoCommentIff(t, i);
      PlainIsVisible(g, t, i + 1, text + [t[i]], markers, end);
      assert (text + [t[i]]) + t[i + 1..end] == text + t[i..end];
    } else {
      assert text + t[i..end] == text;
    }
  }

  // What was read before, and a reading of the rest.
  function After(text: string, markers: seq<Marker>, rest: Reading): Option<(string, seq<Marker>)> {
    if rest.malformed then None else Some((text + rest.text, markers + rest.markers))
  }

  lemma AfterBehind(text: string, markers: seq<Marker>, piece: string, comment: Comment, at: nat, rest: Reading)
    requires !comment.Malformed?
    ensures After(text + piece, markers + ClaimIn(comment, at), rest) == After(text, markers, Behind(piece, comment, at, rest))
  {
    assert (text + piece) + rest.text == text + (piece + rest.text);
    assert (markers + ClaimIn(comment, at)) + rest.markers == markers + (ClaimIn(comment, at) + rest.markers);
  }

  // One comment: what its body says, and then the text behind it.
  lemma CommentStep(g: Grammar, t: string, i: nat, j: nat, text: string, markers: seq<Marker>)
    requires i < |t| && CommentAt(t, i) == Some(j)
    ensures var comment := g.comment(t[i + 4..j]);
      Visible(g, t, i, text, markers) ==
        if comment.Malformed? then None else Visible(g, t, j + 3, text, markers + ClaimIn(comment, |text|))
  {
    VisibleComment(g, t, i, text, markers);
    assert markers + [] == markers;
  }

  // What the loop makes of the text from i on, and what its comments say it is.
  function Looped(g: Grammar, t: string, i: nat, text: string, markers: seq<Marker>): Option<(string, seq<Marker>)>
    requires i <= |t|
  {
    Visible(g, t, i, text, markers)
  }

  function Reckoned(g: Grammar, t: string, p: nat, cuts: Cuts, text: string, markers: seq<Marker>): Option<(string, seq<Marker>)>
    requires Inside(t, p, cuts)
  {
    After(text, markers, Read(g, t, p, cuts, |text|))
  }

  lemma NothingCut(g: Grammar, t: string, p: nat, text: string, markers: seq<Marker>)
    requires p <= |t| && forall k: nat, m: nat | p <= k :: !IsComment(t, k, m)
    ensures Looped(g, t, p, text, markers) == Reckoned(g, t, p, [], text, markers)
  {
    PlainIsVisible(g, t, p, text, markers, |t|);
    assert t[p..|t|] == t[p..] && markers + [] == markers;
  }

  lemma LoopStep(g: Grammar, t: string, p: nat, i: nat, j: nat, text: string, markers: seq<Marker>)
    requires p <= i && i + 4 <= j && j + 3 <= |t| && IsComment(t, i, j)
    requires forall k: nat, m: nat | p <= k < i :: !IsComment(t, k, m)
    ensures var comment, all := g.comment(Body(t, (i, j))), text + t[p..i];
      Looped(g, t, p, text, markers) ==
        if comment.Malformed? then None else Looped(g, t, j + 3, all, markers + ClaimIn(comment, |all|))
  {
    PlainIsVisible(g, t, p, text, markers, i);
    CommentIff(t, i, j);
    CommentStep(g, t, i, j, text + t[p..i], markers);
  }

  lemma ReckonStep(g: Grammar, t: string, p: nat, cuts: Cuts, i: nat, j: nat, text: string, markers: seq<Marker>)
    requires Inside(t, p, cuts) && cuts != [] && cuts[0] == (i, j)
    ensures p <= i && i + 4 <= j && j + 3 <= |t| && Inside(t, j + 3, cuts[1..])
    ensures var comment, all := g.comment(Body(t, (i, j))), text + t[p..i];
      Reckoned(g, t, p, cuts, text, markers) ==
        if comment.Malformed? then None else Reckoned(g, t, j + 3, cuts[1..], all, markers + ClaimIn(comment, |all|))
  {
    InsideStarts(t, p, cuts);
    var comment, all := g.comment(Body(t, (i, j))), text + t[p..i];
    if !comment.Malformed? {
      AfterBehind(text, markers, t[p..i], comment, |all|, Read(g, t, j + 3, cuts[1..], |all|));
    }
  }

  lemma {:induction false} LoopIsReckoned(g: Grammar, t: string, p: nat, text: string, markers: seq<Marker>, cuts: Cuts)
    requires p <= |t| && AreComments(t, p, cuts) && Inside(t, p, cuts)
    ensures Looped(g, t, p, text, markers) == Reckoned(g, t, p, cuts, text, markers)
    decreases |cuts|
  {
    if cuts == [] {
      NothingCut(g, t, p, text, markers);
    } else {
      var i, j := cuts[0].0, cuts[0].1;
      ReckonStep(g, t, p, cuts, i, j, text, markers);
      LoopStep(g, t, p, i, j, text, markers);
      var comment, all := g.comment(Body(t, (i, j))), text + t[p..i];
      if !comment.Malformed? { LoopIsReckoned(g, t, j + 3, all, markers + ClaimIn(comment, |all|), cuts[1..]); }
    }
  }

  // Every text has its comments.
  lemma {:induction false} CommentsExist(t: string, p: nat) returns (cuts: Cuts)
    requires p <= |t|
    ensures AreComments(t, p, cuts)
    decreases |t| - p
  {
    if p == |t| {
      cuts := [];
      forall i: nat, j: nat | p <= i ensures !IsComment(t, i, j) {}
    } else if CommentAt(t, p).Some? {
      var j := CommentAt(t, p).value;
      CommentIff(t, p, j);
      var rest := CommentsExist(t, j + 3);
      cuts := [(p, j)] + rest;
      assert cuts[1..] == rest;
    } else {
      NoCommentIff(t, p);
      cuts := CommentsExist(t, p + 1);
      NothingAt(t, p, cuts);
    }
  }

  lemma NothingAt(t: string, p: nat, cuts: Cuts)
    requires AreComments(t, p + 1, cuts) && forall j: nat :: !IsComment(t, p, j)
    ensures AreComments(t, p, cuts)
  {}

  // Reading an output cuts out its comments, and fails exactly if a claim among them
  // does not parse.
  lemma OutputIsCut(g: Grammar, t: string) returns (cuts: Cuts)
    ensures AreComments(t, 0, cuts) && Inside(t, 0, cuts)
    ensures var r := Read(g, t, 0, cuts, 0);
      Visible(g, t, 0, "", []) == if r.malformed then None else Some((r.text, r.markers))
  {
    cuts := CommentsExist(t, 0);
    CommentsAreInside(t, 0, cuts);
    LoopIsReckoned(g, t, 0, "", [], cuts);
    AfterNothing(Read(g, t, 0, cuts, 0));
    assert Visible(g, t, 0, "", []) == Looped(g, t, 0, "", []);
  }

  lemma AfterNothing(r: Reading)
    ensures After("", [], r) == if r.malformed then None else Some((r.text, r.markers))
  {
    assert "" + r.text == r.text && [] + r.markers == r.markers;
  }
}
