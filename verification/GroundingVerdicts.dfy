/** When verification returns and what: exactly if every marker closely follows a
    statement of its own that it repeats, with evidence that is assigned and valid. */
module GroundingVerdicts {
  import opened Options
  import opened TokenWindows
  import opened Sentences
  import opened EvidenceOffsets
  import opened VisibleText
  import opened GroundingVerifier

  // Only blanks stand between the statement and the marker.
  predicate Precedes(g: Grammar, text: string, s: Segment, offset: nat) {
    s.start + |s.text| <= offset <= |text| && forall p | s.start + |s.text| <= p < offset :: g.cs.space(text[p])
  }

  lemma {:induction false} BlankTrimsAway(cs: Classes, t: string)
    ensures Trim(cs, t) == "" <==> forall p | 0 <= p < |t| :: cs.space(t[p])
  {
    LeadIsBlank(cs, t);
    TailIsBlank(cs, t);
    if Trim(cs, t) == "" { BlankTrims(cs, t); }
    if Trim(cs, t) != "" {
      var lead, tail := TrimParts(cs, t);
    }
  }

  lemma AdjacentIff(g: Grammar, text: string, s: Segment, offset: nat)
    ensures Adjacent(g, text, s, offset) <==> Precedes(g, text, s, offset)
  {
    var end := s.start + |s.text|;
    if end <= offset <= |text| {
      var gap := text[end..offset];
      BlankTrimsAway(g.cs, gap);
      assert forall p | end <= p < offset :: text[p] == gap[p - end];
      if Trim(g.cs, gap) == "" {
        forall p | end <= p < offset ensures g.cs.space(text[p]) { assert g.cs.space(gap[p - end]); }
      }
    }
  }

  // The last statement that precedes the marker.
  ghost predicate Nearest(g: Grammar, text: string, ss: seq<Segment>, offset: nat, n: nat, k: nat) {
    k < n <= |ss| && Precedes(g, text, ss[k], offset) && forall j | k < j < n :: !Precedes(g, text, ss[j], offset)
  }

  lemma {:induction false} LastAdjacentIff(g: Grammar, text: string, ss: seq<Segment>, n: nat, offset: nat, k: nat)
    requires n <= |ss|
    ensures LastAdjacent(g, text, ss, n, offset) == Some(k) <==> Nearest(g, text, ss, offset, n, k)
  {
    if n > 0 {
      AdjacentIff(g, text, ss[n - 1], offset);
      LastAdjacentIff(g, text, ss, n - 1, offset, k);
    }
  }

  // What was assigned under the id last, if it is valid, with its place in the chunk.
  ghost predicate Supplies(input: Input, id: string, link: Link) {
    && link.id == id && ValidateEvidence(input.request, link.snapshot) == Ok((link.chunkStart, link.chunkEnd))
    && exists e: nat :: IsLast(input.evidence, id, e) && input.evidence[e].snapshot == link.snapshot
  }

  predicate IsLast(evidence: seq<Evidence>, id: string, e: nat) {
    e < |evidence| && evidence[e].id == id && forall j | e < j < |evidence| :: evidence[j].id != id
  }

  lemma {:induction false} LookupIff(evidence: seq<Evidence>, id: string)
    ensures match Lookup(evidence, id)
      case None => forall e: nat :: !IsLast(evidence, id, e)
      case Some(snapshot) => exists e: nat :: IsLast(evidence, id, e) && evidence[e].snapshot == snapshot
  {
    if evidence != [] {
      var last := |evidence| - 1;
      if evidence[last].id == id {
        assert IsLast(evidence, id, last);
      } else {
        LookupIff(evidence[..last], id);
        forall e: nat ensures IsLast(evidence, id, e) <==> IsLast(evidence[..last], id, e) { LastOfFront(evidence, id, e); }
        if Lookup(evidence[..last], id).Some? {
          var e: nat :| IsLast(evidence[..last], id, e) && evidence[..last][e].snapshot == Lookup(evidence[..last], id).value;
          assert IsLast(evidence, id, e);
        }
      }
    }
  }

  lemma LastOfFront(evidence: seq<Evidence>, id: string, e: nat)
    requires evidence != [] && evidence[|evidence| - 1].id != id
    ensures IsLast(evidence, id, e) <==> IsLast(evidence[..|evidence| - 1], id, e)
  {
    var front := evidence[..|evidence| - 1];
    if IsLast(front, id, e) {
      forall j | e < j < |evidence| ensures evidence[j].id != id { if j < |front| { assert front[j] == evidence[j]; } }
    }
  }

  lemma OneLast(evidence: seq<Evidence>, id: string, d: nat, e: nat)
    requires IsLast(evidence, id, d) && IsLast(evidence, id, e)
    ensures d == e
  {}

  lemma LinkIff(input: Input, id: string, link: Link)
    ensures LinkOf(input, id) == Ok(link) <==> Supplies(input, id, link)
  {
    LookupIff(input.evidence, id);
    if Supplies(input, id, link) {
      var e: nat :| IsLast(input.evidence, id, e) && input.evidence[e].snapshot == link.snapshot;
      if Lookup(input.evidence, id).Some? {
        var d: nat :| IsLast(input.evidence, id, d) && input.evidence[d].snapshot == Lookup(input.evidence, id).value;
        OneLast(input.evidence, id, d, e);
      }
    }
  }

  // The links are what the ids supply, one each and in order.
  ghost predicate Supplied(input: Input, ids: seq<string>, links: seq<Link>) {
    |links| == |ids| && forall j | 0 <= j < |ids| :: Supplies(input, ids[j], links[j])
  }

  ghost predicate SuppliedUpTo(input: Input, ids: seq<string>, n: nat, links: seq<Link>) {
    |links| == n <= |ids| && forall j | 0 <= j < n :: Supplies(input, ids[j], links[j])
  }

  lemma {:induction false} LinksFromIff(input: Input, ids: seq<string>, i: nat, links: seq<Link>, all: seq<Link>)
    requires SuppliedUpTo(input, ids, i, links)
    ensures LinksFrom(input, ids, i, links) == Ok(all) <==> Supplied(input, ids, all)
    decreases |ids| - i
  {
    if i == |ids| {
      if Supplied(input, ids, all) { SuppliedOnce(input, ids, links, all, i); }
    } else {
      forall link ensures LinkOf(input, ids[i]) == Ok(link) <==> Supplies(input, ids[i], link) { LinkIff(input, ids[i], link); }
      if LinkOf(input, ids[i]).Ok? {
        var link := LinkOf(input, ids[i]).value;
        LinksFromIff(input, ids, i + 1, links + [link], all);
      } else if Supplied(input, ids, all) {
        LinkIff(input, ids[i], all[i]);
      }
    }
  }

  lemma SuppliedOnce(input: Input, ids: seq<string>, a: seq<Link>, b: seq<Link>, n: nat)
    requires SuppliedUpTo(input, ids, n, a) && n == |ids| && Supplied(input, ids, b)
    ensures a == b
  {
    forall j | 0 <= j < n ensures a[j] == b[j] {
      LinkIff(input, ids[j], a[j]);
      LinkIff(input, ids[j], b[j]);
    }
  }

  // ---------------------------------------------------------------------------
  // All markers

  // The marker claims statement k with these links.
  ghost predicate ClaimsWith(g: Grammar, input: Input, text: string, ss: seq<Segment>, m: Marker, k: nat, links: seq<Link>) {
    Nearest(g, text, ss, m.offset, |ss|, k) && ss[k].text == m.text && Supplied(input, m.evidenceIds, links)
  }

  // Some statement is the nearest before the marker, has its text, and its ids are
  // supplied.
  ghost predicate Answerable(g: Grammar, input: Input, text: string, ss: seq<Segment>, m: Marker) {
    exists k: nat, links :: ClaimsWith(g, input, text, ss, m, k, links)
  }

  ghost predicate At(g: Grammar, text: string, ss: seq<Segment>, m: Marker, k: nat) {
    Nearest(g, text, ss, m.offset, |ss|, k)
  }

  // No earlier marker stands at the same statement.
  ghost predicate First(g: Grammar, text: string, ss: seq<Segment>, ms: seq<Marker>, i: nat)
    requires i < |ms|
  {
    forall j, k: nat | 0 <= j < i :: !(At(g, text, ss, ms[j], k) && At(g, text, ss, ms[i], k))
  }

  // From the n-th on, every marker is the first at a statement that answers it.
  ghost predicate AllAnswerable(g: Grammar, input: Input, text: string, ss: seq<Segment>, ms: seq<Marker>, n: nat) {
    forall i | n <= i < |ms| :: Answerable(g, input, text, ss, ms[i]) && First(g, text, ss, ms, i)
  }

  // The cover holds exactly what the first n markers claim.
  ghost predicate Tracks(g: Grammar, input: Input, text: string, ss: seq<Segment>, ms: seq<Marker>, n: nat, cover: Cover) {
    && n <= |ms|
    && (forall k | k in cover :: exists i :: 0 <= i < n && At(g, text, ss, ms[i], k))
    && (forall i, k: nat | 0 <= i < n && At(g, text, ss, ms[i], k) ::
          k in cover && ClaimsWith(g, input, text, ss, ms[i], k, cover[k]))
  }

  lemma CoverOneIff(g: Grammar, input: Input, text: string, ss: seq<Segment>, m: Marker, cover: Cover)
    ensures CoverOne(g, input, text, ss, m, cover).Ok? <==>
      Answerable(g, input, text, ss, m) && forall k: nat | At(g, text, ss, m, k) :: k !in cover
    ensures CoverOne(g, input, text, ss, m, cover).Ok? ==>
      exists k: nat, links :: ClaimsWith(g, input, text, ss, m, k, links) && k !in cover
        && CoverOne(g, input, text, ss, m, cover).value == cover[k := links]
  {
    var last := LastAdjacent(g, text, ss, |ss|, m.offset);
    forall k: nat ensures last == Some(k) <==> At(g, text, ss, m, k) { LastAdjacentIff(g, text, ss, |ss|, m.offset, k); }
    forall links ensures LinksFrom(input, m.evidenceIds, 0, []) == Ok(links) <==> Supplied(input, m.evidenceIds, links) {
      LinksFromIff(input, m.evidenceIds, 0, [], links);
    }
    if Answerable(g, input, text, ss, m) {
      var k: nat, links :| ClaimsWith(g, input, text, ss, m, k, links);
      assert At(g, text, ss, m, k) && LinksFrom(input, m.evidenceIds, 0, []) == Ok(links);
    }
    if CoverOne(g, input, text, ss, m, cover).Ok? {
      assert ClaimsWith(g, input, text, ss, m, last.value, LinksFrom(input, m.evidenceIds, 0, []).value);
    }
  }

  lemma OneNearest(g: Grammar, text: string, ss: seq<Segment>, m: Marker, j: nat, k: nat)
    requires At(g, text, ss, m, j) && At(g, text, ss, m, k)
    ensures j == k
  {}

  lemma TracksOneMore(g: Grammar, input: Input, text: string, ss: seq<Segment>, ms: seq<Marker>, n: nat, cover: Cover,
                      k: nat, links: seq<Link>)
    requires n < |ms| && Tracks(g, input, text, ss, ms, n, cover) && k !in cover
    requires ClaimsWith(g, input, text, ss, ms[n], k, links)
    ensures Tracks(g, input, text, ss, ms, n + 1, cover[k := links])
  {
    var next, last := cover[k := links], n + 1;
    assert At(g, text, ss, ms[n], k);
    forall x | x in next ensures exists i :: 0 <= i < last && At(g, text, ss, ms[i], x) {
      if x == k {
        assert At(g, text, ss, ms[n], x);
      } else {
        var i :| 0 <= i < n && At(g, text, ss, ms[i], x);
      }
    }
    forall i, x: nat | 0 <= i < last && At(g, text, ss, ms[i], x)
      ensures x in next && ClaimsWith(g, input, text, ss, ms[i], x, next[x])
    {
      if i == n { OneNearest(g, text, ss, ms[n], k, x); }
    }
  }

  lemma {:induction false} CoverFromIff(g: Grammar, input: Input, text: string, ss: seq<Segment>, ms: seq<Marker>, n: nat, cover: Cover)
    requires Tracks(g, input, text, ss, ms, n, cover)
    ensures CoverFrom(g, input, text, ss, ms, n, cover).Ok? <==> AllAnswerable(g, input, text, ss, ms, n)
    ensures CoverFrom(g, input, text, ss, ms, n, cover).Ok? ==>
      Tracks(g, input, text, ss, ms, |ms|, CoverFrom(g, input, text, ss, ms, n, cover).value)
    decreases |ms| - n
  {
    if n < |ms| {
      CoverOneIff(g, input, text, ss, ms[n], cover);
      FirstIff(g, input, text, ss, ms, n, cover);
      if CoverOne(g, input, text, ss, ms[n], cover).Ok? {
        var next := CoverOne(g, input, text, ss, ms[n], cover).value;
        var k: nat, links :| ClaimsWith(g, input, text, ss, ms[n], k, links) && k !in cover && next == cover[k := links];
        TracksOneMore(g, input, text, ss, ms, n, cover, k, links);
        CoverFromIff(g, input, text, ss, ms, n + 1, next);
        AllFrom(g, input, text, ss, ms, n);
      }
    }
  }

  lemma AllFrom(g: Grammar, input: Input, text: string, ss: seq<Segment>, ms: seq<Marker>, n: nat)
    requires n < |ms|
    ensures AllAnswerable(g, input, text, ss, ms, n) <==>
      Answerable(g, input, text, ss, ms[n]) && First(g, text, ss, ms, n) && AllAnswerable(g, input, text, ss, ms, n + 1)
  {}

  lemma FirstIff(g: Grammar, input: Input, text: string, ss: seq<Segment>, ms: seq<Marker>, n: nat, cover: Cover)
    requires n < |ms| && Tracks(g, input, text, ss, ms, n, cover)
    ensures First(g, text, ss, ms, n) <==> forall k: nat | At(g, text, ss, ms[n], k) :: k !in cover
  {
    if First(g, text, ss, ms, n) {
      forall k: nat | At(g, text, ss, ms[n], k) ensures k !in cover {}
    }
  }

  // The claim on statement k: the statement, with the links of the marker that claims
  // it or none.
  ghost predicate ClaimIs(g: Grammar, input: Input, text: string, ss: seq<Segment>, ms: seq<Marker>, k: nat, c: VerifiedClaim)
    requires k < |ss|
  {
    && c.text == ss[k].text && c.start == ss[k].start && c.end == ss[k].start + |ss[k].text|
    && c.support == Support(Unverifiable, 0.0, "legacy_unverifiable")
    && (forall i | 0 <= i < |ms| && At(g, text, ss, ms[i], k) :: ClaimsWith(g, input, text, ss, ms[i], k, c.links))
    && ((forall i | 0 <= i < |ms| :: !At(g, text, ss, ms[i], k)) ==> c.links == [])
  }

  // A strict verification asks for one targeted revision and then waits; otherwise the
  // text is allowed, with or without unsupported claims.
  predicate Decides(input: Input, claims: seq<VerifiedClaim>, decision: Decision) {
    decision == if input.strict then (if input.revisionAttempts == 0 then TargetedRetrievalRevision else WaitingMaterial)
                else if claims == [] then Allow else AllowWithUnsupported
  }

  lemma TextIsVerifiedIff(g: Grammar, input: Input, text: string, ms: seq<Marker>)
    ensures VerifiedText(g, input, text, ms).Ok? <==> AllAnswerable(g, input, text, StatementsOf(g, text), ms, 0)
    ensures VerifiedText(g, input, text, ms).Ok? ==>
      var r, ss := VerifiedText(g, input, text, ms).value, StatementsOf(g, text);
      && |r.claims| == |ss| && (forall k: nat | k < |ss| :: ClaimIs(g, input, text, ss, ms, k, r.claims[k]))
      && Decides(input, r.claims, r.decision)
  {
    var ss := StatementsOf(g, text);
    CoverFromIff(g, input, text, ss, ms, 0, map[]);
    if VerifiedText(g, input, text, ms).Ok? {
      var cover := CoverFrom(g, input, text, ss, ms, 0, map[]).value;
      TrackedClaims(g, input, text, ss, ms, cover);
    }
  }

  lemma TrackedClaims(g: Grammar, input: Input, text: string, ss: seq<Segment>, ms: seq<Marker>, cover: Cover)
    requires Tracks(g, input, text, ss, ms, |ms|, cover)
    ensures forall k: nat | k < |ss| :: ClaimIs(g, input, text, ss, ms, k, ClaimsOf(ss, cover)[k])
  {
    forall k: nat | k < |ss| ensures ClaimIs(g, input, text, ss, ms, k, ClaimAt(ss[k], cover, k)) {
      if k in cover {
        var i :| 0 <= i < |ms| && At(g, text, ss, ms[i], k);
      }
    }
  }

  // Verification returns exactly if every marker parses and is the first at a
  // statement that answers it; then every statement is a claim, with the links of its
  // marker, and the decision is by strictness and attempts.
  lemma VerifiesIff(g: Grammar, input: Input)
    ensures Verified(g, input).Ok? <==>
      Visible(g, input.output, 0, "", []).Some?
      && var (text, ms) := Visible(g, input.output, 0, "", []).value;
         AllAnswerable(g, input, text, StatementsOf(g, text), ms, 0)
    ensures Verified(g, input).Ok? ==>
      var (text, ms) := Visible(g, input.output, 0, "", []).value;
      var r, ss := Verified(g, input).value, StatementsOf(g, text);
      && |r.claims| == |ss| && (forall k: nat | k < |ss| :: ClaimIs(g, input, text, ss, ms, k, r.claims[k]))
      && Decides(input, r.claims, r.decision)
  {
    if Visible(g, input.output, 0, "", []).Some? {
      var (text, ms) := Visible(g, input.output, 0, "", []).value;
      TextIsVerifiedIff(g, input, text, ms);
    }
  }
}
