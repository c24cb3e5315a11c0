/** The verification loop: every marker must sit right after the statement it
    repeats, its evidence is validated, statements without a marker become claims
    of their own, and the verdict on all of them is the same. */
module GroundingVerifier {
  import opened Options
  import opened Bags
  import opened StableSort
  import opened TokenWindows
  import opened Sentences
  import opened EvidenceOffsets
  import opened VisibleText

  datatype Evidence = Evidence(id: string, snapshot: Assigned)
  datatype Link = Link(id: string, snapshot: Assigned, chunkStart: int, chunkEnd: int)
  datatype Status = Supported | Contradicted | Insufficient | Unverifiable
  datatype Support = Support(status: Status, score: real, verification: string)
  datatype VerifiedClaim = VerifiedClaim(text: string, start: nat, end: nat, support: Support, links: seq<Link>)

  datatype Decision = Allow | AllowWithUnsupported | TargetedRetrievalRevision | WaitingMaterial
  datatype Problem = BadMarker | NotAdjacent | Unassigned(id: string) | Refused(rejection: Rejection)

  datatype Input = Input(
    request: Request, output: string, evidence: seq<Evidence>, strict: bool, revisionAttempts: nat)

  const CAPPED := Support(Unverifiable, 0.0, "legacy_unverifiable")

  // ---------------------------------------------------------------------------
  // Markers and their statements

  // Nothing but white space between the statement and the marker.
  predicate Adjacent(g: Grammar, text: string, s: Segment, offset: nat) {
    var end := s.start + |s.text|;
    end <= offset <= |text| && Trim(g.cs, text[end..offset]) == ""
  }

  // The last adjacent statement among the first n.
  function LastAdjacent(g: Grammar, text: string, ss: seq<Segment>, n: nat, offset: nat): (k: Option<nat>)
    requires n <= |ss|
    ensures k.Some? ==> k.value < n && Adjacent(g, text, ss[k.value], offset)
  {
    if n == 0 then None
    else if Adjacent(g, text, ss[n - 1], offset) then Some(n - 1)
    else LastAdjacent(g, text, ss, n - 1, offset)
  }

  // A map built from a list: the last item with an id wins.
  function Lookup(evidence: seq<Evidence>, id: string): (found: Option<Assigned>)
    ensures found.Some? ==> Evidence(id, found.value) in evidence
  {
    if evidence == [] then None
    else
      var last := |evidence| - 1;
      if evidence[last].id == id then Some(evidence[last].snapshot) else Lookup(evidence[..last], id)
  }

  function LinkOf(input: Input, id: string): Result<Link, Problem> {
    match Lookup(input.evidence, id)
    case None => Err(Unassigned(id))
    case Some(snapshot) =>
      match ValidateEvidence(input.request, snapshot)
      case Err(rejection) => Err(Refused(rejection))
      case Ok((start, end)) => Ok(Link(id, snapshot, start, end))
  }

  // The links so far, and those of the ids from i on, or the first problem.
  function LinksFrom(input: Input, ids: seq<string>, i: nat, links: seq<Link>): Result<seq<Link>, Problem>
    requires i <= |ids|
    decreases |ids| - i
  {
    if i == |ids| then Ok(links)
    else
      match LinkOf(input, ids[i])
      case Err(p) => Err(p)
      case Ok(link) => LinksFrom(input, ids, i + 1, links + [link])
  }

  type Cover = map<nat, seq<Link>>

  // One marker: the statement it claims and its links, added to the cover.
  function CoverOne(g: Grammar, input: Input, text: string, ss: seq<Segment>, m: Marker, cover: Cover): Result<Cover, Problem> {
    match LastAdjacent(g, text, ss, |ss|, m.offset)
    case None => Err(NotAdjacent)
    case Some(k) =>
      if ss[k].text != m.text || k in cover then Err(NotAdjacent)
      else
        match LinksFrom(input, m.evidenceIds, 0, [])
        case Err(p) => Err(p)
        case Ok(links) => Ok(cover[k := links])
  }

  function CoverFrom(g: Grammar, input: Input, text: string, ss: seq<Segment>, ms: seq<Marker>, i: nat, cover: Cover)
    : Result<Cover, Problem>
    requires i <= |ms|
    decreases |ms| - i
  {
    if i == |ms| then Ok(cover)
    else
      match CoverOne(g, input, text, ss, ms[i], cover)
      case Err(p) => Err(p)
      case Ok(next) => CoverFrom(g, input, text, ss, ms, i + 1, next)
  }

  function ClaimAt(s: Segment, cover: Cover, k: nat): VerifiedClaim {
    VerifiedClaim(s.text, s.start, s.start + |s.text|, CAPPED, if k in cover then cover[k] else [])
  }

  function ClaimsOf(ss: seq<Segment>, cover: Cover): seq<VerifiedClaim> {
    seq(|ss|, k requires 0 <= k < |ss| => ClaimAt(ss[k], cover, k))
  }

  function DecisionOf(input: Input, claims: nat): Decision {
    if !input.strict && claims == 0 then Allow
    else if !input.strict then AllowWithUnsupported
    else if input.revisionAttempts < 1 then TargetedRetrievalRevision
    else WaitingMaterial
  }

  datatype Outcome = Outcome(claims: seq<VerifiedClaim>, decision: Decision)

  function VerifiedText(g: Grammar, input: Input, text: string, markers: seq<Marker>): Result<Outcome, Problem> {
    var ss := StatementsOf(g, text);
    match CoverFrom(g, input, text, ss, markers, 0, map[])
    case Err(p) => Err(p)
    case Ok(cover) => Ok(Outcome(ClaimsOf(ss, cover), DecisionOf(input, |ss|)))
  }

  function Verified(g: Grammar, input: Input): Result<Outcome, Problem> {
    match Visible(g, input.output, 0, "", [])
    case None => Err(BadMarker)
    case Some((text, markers)) => VerifiedText(g, input, text, markers)
  }

  // ---------------------------------------------------------------------------
  // What a result says

  // The link's evidence was assigned under its id and passes validation at exactly
  // these offsets.
  predicate Justified(input: Input, link: Link) {
    && Evidence(link.id, link.snapshot) in input.evidence
    && ValidateEvidence(input.request, link.snapshot) == Ok((link.chunkStart, link.chunkEnd))
  }

  predicate AllJustified(input: Input, links: seq<Link>) {
    forall j | 0 <= j < |links| :: Justified(input, links[j])
  }

  predicate Named(links: seq<Link>, ids: seq<string>, n: nat) {
    |links| == n <= |ids| && forall j | 0 <= j < n :: links[j].id == ids[j]
  }

  lemma {:induction false} LinksAreJustified(input: Input, ids: seq<string>, i: nat, links: seq<Link>)
    requires Named(links, ids, i) && AllJustified(input, links) && LinksFrom(input, ids, i, links).Ok?
    ensures var all := LinksFrom(input, ids, i, links).value; Named(all, ids, |ids|) && AllJustified(input, all)
    decreases |ids| - i
  {
    if i < |ids| { LinksAreJustified(input, ids, i + 1, links + [LinkOf(input, ids[i]).value]); }
  }

  // Marker m was answered: a statement just before it has its text and carries the
  // links of its evidence ids.
  predicate Answers(g: Grammar, text: string, s: Segment, links: seq<Link>, m: Marker) {
    s.text == m.text && Adjacent(g, text, s, m.offset) && Named(links, m.evidenceIds, |m.evidenceIds|)
  }

  predicate AnsweredAt(g: Grammar, text: string, ss: seq<Segment>, cover: Cover, m: Marker, k: nat) {
    k in cover && k < |ss| && Answers(g, text, ss[k], cover[k], m)
  }

  ghost predicate Answered(g: Grammar, text: string, ss: seq<Segment>, cover: Cover, m: Marker) {
    exists k: nat :: AnsweredAt(g, text, ss, cover, m, k)
  }

  ghost predicate CoverOk(g: Grammar, input: Input, text: string, ss: seq<Segment>, ms: seq<Marker>, n: nat, cover: Cover) {
    && n <= |ms| && |cover| == n
    && (forall k | k in cover :: k < |ss| && AllJustified(input, cover[k]))
    && (forall i | 0 <= i < n :: Answered(g, text, ss, cover, ms[i]))
  }

  lemma CoverOneIsOk(g: Grammar, input: Input, text: string, ss: seq<Segment>, ms: seq<Marker>, n: nat, cover: Cover)
    requires n < |ms| && CoverOk(g, input, text, ss, ms, n, cover) && CoverOne(g, input, text, ss, ms[n], cover).Ok?
    ensures CoverOk(g, input, text, ss, ms, n + 1, CoverOne(g, input, text, ss, ms[n], cover).value)
  {
    var m := ms[n];
    var next := CoverOne(g, input, text, ss, m, cover).value;
    var last := LastAdjacent(g, text, ss, |ss|, m.offset).value;
    LinksAreJustified(input, m.evidenceIds, 0, []);
    var links := LinksFrom(input, m.evidenceIds, 0, []).value;
    assert AnsweredAt(g, text, ss, next, m, last);
    forall i | 0 <= i < n ensures Answered(g, text, ss, next, ms[i]) {
      StaysAnswered(g, text, ss, cover, ms[i], last, links);
    }
  }

  lemma StaysAnswered(g: Grammar, text: string, ss: seq<Segment>, cover: Cover, m: Marker, last: nat, links: seq<Link>)
    requires Answered(g, text, ss, cover, m) && last !in cover
    ensures Answered(g, text, ss, cover[last := links], m)
  {
    var k: nat :| AnsweredAt(g, text, ss, cover, m, k);
    assert AnsweredAt(g, text, ss, cover[last := links], m, k);
  }

  lemma {:induction false} CoverIsOk(g: Grammar, input: Input, text: string, ss: seq<Segment>, ms: seq<Marker>, i: nat, cover: Cover)
    requires CoverOk(g, input, text, ss, ms, i, cover) && CoverFrom(g, input, text, ss, ms, i, cover).Ok?
    ensures CoverOk(g, input, text, ss, ms, |ms|, CoverFrom(g, input, text, ss, ms, i, cover).value)
    decreases |ms| - i
  {
    if i < |ms| {
      CoverOneIsOk(g, input, text, ss, ms, i, cover);
      CoverIsOk(g, input, text, ss, ms, i + 1, CoverOne(g, input, text, ss, ms[i], cover).value);
    }
  }

  // Claim c is the visible text at its place.
  predicate ClaimIsText(text: string, c: VerifiedClaim) {
    c.text != "" && c.end == c.start + |c.text| && Occurs(text, c.text, c.start)
  }

  // The claims are the visible statements, in order and apart, each the text where
  // it stands, its links assigned and valid, and none judged supported.
  ghost predicate Accounts(g: Grammar, input: Input, text: string, claims: seq<VerifiedClaim>) {
    var ss := StatementsOf(g, text);
    && |claims| == |ss|
    && (forall k | 0 <= k < |claims| :: claims[k].text == ss[k].text && claims[k].start == ss[k].start)
    && (forall k | 0 <= k < |claims| :: ClaimIsText(text, claims[k]) && AllJustified(input, claims[k].links))
    && (forall k, m | 0 <= k < m < |claims| :: claims[k].end <= claims[m].start)
    && (forall k | 0 <= k < |claims| :: claims[k].support == Support(Unverifiable, 0.0, "legacy_unverifiable"))
  }

  // Every marker is answered by the claim on the statement before it.
  ghost predicate MarkersAnswered(g: Grammar, text: string, markers: seq<Marker>, claims: seq<VerifiedClaim>) {
    forall i | 0 <= i < |markers| :: ClaimFound(g, text, claims, markers[i])
  }

  ghost predicate ClaimFound(g: Grammar, text: string, claims: seq<VerifiedClaim>, m: Marker) {
    exists k: nat :: ClaimAnswers(g, text, claims, m, k)
  }

  predicate ClaimAnswers(g: Grammar, text: string, claims: seq<VerifiedClaim>, m: Marker, k: nat) {
    k < |claims| && Answers(g, text, Segment(claims[k].text, claims[k].start), claims[k].links, m)
  }

  // Whenever verification returns, its claims account for exactly the visible
  // statements, every marker is answered, and only a text without statements, not
  // strict, is simply allowed.
  lemma VerifiedClaimsAreTheStatements(g: Grammar, input: Input)
    requires Verified(g, input).Ok?
    ensures Visible(g, input.output, 0, "", []).Some?
    ensures var (text, markers) := Visible(g, input.output, 0, "", []).value;
      Accounts(g, input, text, Verified(g, input).value.claims)
      && MarkersAnswered(g, text, markers, Verified(g, input).value.claims)
    ensures Verified(g, input).value.decision.Allow? <==> !input.strict && Verified(g, input).value.claims == []
  {
    var (text, markers) := Visible(g, input.output, 0, "", []).value;
    VerifiedTextAccounts(g, input, text, markers);
  }

  lemma VerifiedTextAccounts(g: Grammar, input: Input, text: string, markers: seq<Marker>)
    requires VerifiedText(g, input, text, markers).Ok?
    ensures var r := VerifiedText(g, input, text, markers).value;
      && Accounts(g, input, text, r.claims) && MarkersAnswered(g, text, markers, r.claims)
      && (r.decision.Allow? <==> !input.strict && r.claims == [])
  {
    var ss := StatementsOf(g, text);
    CoverIsOk(g, input, text, ss, markers, 0, map[]);
    var cover := CoverFrom(g, input, text, ss, markers, 0, map[]).value;
    ClaimsAccount(g, input, text, cover);
    ClaimsAnswer(g, input, text, ss, markers, cover);
  }

  lemma ClaimsAnswer(g: Grammar, input: Input, text: string, ss: seq<Segment>, markers: seq<Marker>, cover: Cover)
    requires CoverOk(g, input, text, ss, markers, |markers|, cover)
    ensures MarkersAnswered(g, text, markers, ClaimsOf(ss, cover))
  {
    forall i | 0 <= i < |markers| ensures ClaimFound(g, text, ClaimsOf(ss, cover), markers[i]) {
      assert Answered(g, text, ss, cover, markers[i]);
      var k: nat :| AnsweredAt(g, text, ss, cover, markers[i], k);
      assert ClaimsOf(ss, cover)[k] == ClaimAt(ss[k], cover, k);
      assert ClaimAnswers(g, text, ClaimsOf(ss, cover), markers[i], k);
    }
  }

  lemma ClaimsAccount(g: Grammar, input: Input, text: string, cover: Cover)
    requires forall k | k in cover :: AllJustified(input, cover[k])
    ensures Accounts(g, input, text, ClaimsOf(StatementsOf(g, text), cover))
  {
    var ss := StatementsOf(g, text);
    StatementsAreTheText(g, text);
    var claims := ClaimsOf(ss, cover);
    forall k | 0 <= k < |claims| ensures ClaimIsText(text, claims[k]) && AllJustified(input, claims[k].links) {
      assert StatementOf(text, ss[k]);
    }
    forall k, m | 0 <= k < m < |claims| ensures claims[k].end <= claims[m].start {
      assert SegmentBefore(ss[k], ss[m]);
    }
  }

  // ---------------------------------------------------------------------------
  // The loop

  function StartOf(c: VerifiedClaim): int { c.start }

  function AtMost(a: int, b: int): bool { a <= b }

  function Capped(c: VerifiedClaim): VerifiedClaim {
    c.(support := CAPPED)
  }

  function CappedAll(claims: seq<VerifiedClaim>): seq<VerifiedClaim> {
    seq(|claims|, k requires 0 <= k < |claims| => Capped(claims[k]))
  }

  // The claims made so far, by the statement they are about.
  type Drafts = map<nat, VerifiedClaim>

  ghost predicate DraftsOk(ss: seq<Segment>, cover: Cover, drafts: Drafts) {
    forall k | k in drafts :: k < |ss| && Capped(drafts[k]) == ClaimAt(ss[k], cover, k)
  }

  // The drafts of the first n statements, in no order.
  ghost function Bag(drafts: Drafts, n: nat): multiset<VerifiedClaim> {
    ValuesBelow(drafts, n)
  }

  ghost function InStatementOrder(drafts: Drafts, n: nat): seq<VerifiedClaim>
    requires forall k: nat | k < n :: k in drafts
  {
    seq(n, k requires 0 <= k < n => drafts[k])
  }

  lemma {:induction false} BagInOrder(drafts: Drafts, n: nat)
    requires forall k: nat | k < n :: k in drafts
    ensures Bag(drafts, n) == multiset(InStatementOrder(drafts, n))
  {
    if n > 0 {
      BagInOrder(drafts, n - 1);
      assert InStatementOrder(drafts, n) == InStatementOrder(drafts, n - 1) + [drafts[n - 1]];
      BagOfMore(InStatementOrder(drafts, n - 1), drafts[n - 1]);
    }
  }

  lemma BagOfMore(claims: seq<VerifiedClaim>, c: VerifiedClaim)
    ensures multiset(claims + [c]) == multiset(claims) + multiset{c}
  {}

  lemma DraftsAscend(text: string, ss: seq<Segment>, cover: Cover, drafts: Drafts)
    requires InOrder(text, ss, 0, |text|) && DraftsOk(ss, cover, drafts)
    requires forall k: nat | k < |ss| :: k in drafts
    ensures var u := InStatementOrder(drafts, |ss|); forall i, j | 0 <= i < j < |u| :: StartOf(u[i]) < StartOf(u[j])
  {
    var u := InStatementOrder(drafts, |ss|);
    forall i, j | 0 <= i < j < |u| ensures StartOf(u[i]) < StartOf(u[j]) {
      assert SegmentBefore(ss[i], ss[j]) && StatementOf(text, ss[i]);
      assert Capped(drafts[i]) == ClaimAt(ss[i], cover, i) && Capped(drafts[j]) == ClaimAt(ss[j], cover, j);
    }
  }

  lemma AscendingHasNoTies(u: seq<VerifiedClaim>)
    requires forall i, j | 0 <= i < j < |u| :: StartOf(u[i]) < StartOf(u[j])
    ensures NoTies(AtMost, StartOf, multiset(u))
  {
    forall x, y | x in multiset(u) && y in multiset(u) ensures Apart(AtMost, StartOf, x, y) {
      var i :| 0 <= i < |u| && u[i] == x;
      var j :| 0 <= j < |u| && u[j] == y;
    }
  }

  lemma AscendingIsTheSort(u: seq<VerifiedClaim>, claims: seq<VerifiedClaim>)
    requires forall i, j | 0 <= i < j < |u| :: StartOf(u[i]) < StartOf(u[j])
    requires multiset(claims) == multiset(u)
    ensures Sort(AtMost, StartOf, claims) == u
  {
    AscendingHasNoTies(u);
    SortPermutes(AtMost, StartOf, claims);
    SortSorts(AtMost, StartOf, claims);
    SortedIsUnique(AtMost, StartOf, Sort(AtMost, StartOf, claims), u);
  }

  // Sorting the finished drafts by start and capping them gives the result's claims.
  lemma SortRestoresOrder(text: string, ss: seq<Segment>, cover: Cover, drafts: Drafts, claims: seq<VerifiedClaim>)
    requires InOrder(text, ss, 0, |text|) && DraftsOk(ss, cover, drafts)
    requires forall k: nat | k < |ss| :: k in drafts
    requires multiset(claims) == Bag(drafts, |ss|)
    ensures CappedAll(Sort(AtMost, StartOf, claims)) == ClaimsOf(ss, cover)
  {
    BagInOrder(drafts, |ss|);
    DraftsAscend(text, ss, cover, drafts);
    AscendingIsTheSort(InStatementOrder(drafts, |ss|), claims);
    CappedInOrder(ss, cover, drafts, InStatementOrder(drafts, |ss|));
  }

  lemma CappedInOrder(ss: seq<Segment>, cover: Cover, drafts: Drafts, u: seq<VerifiedClaim>)
    requires DraftsOk(ss, cover, drafts) && (forall k: nat | k < |ss| :: k in drafts)
    requires u == InStatementOrder(drafts, |ss|)
    ensures CappedAll(u) == ClaimsOf(ss, cover)
  {
    forall k: nat | k < |ss| ensures Capped(u[k]) == ClaimAt(ss[k], cover, k) { assert k in drafts; }
  }

  method Adjoining(g: Grammar, text: string, ss: seq<Segment>, offset: nat) returns (k: Option<nat>)
    ensures k == LastAdjacent(g, text, ss, |ss|, offset)
  {
    k := None;
    for i := 0 to |ss|
      invariant k == LastAdjacent(g, text, ss, i, offset)
    {
      if Adjacent(g, text, ss[i], offset) { k := Some(i); }
    }
  }

  method ResolveLinks(input: Input, ids: seq<string>) returns (r: Result<seq<Link>, Problem>)
    ensures r == LinksFrom(input, ids, 0, [])
  {
    var links: seq<Link> := [];
    for i := 0 to |ids|
      invariant LinksFrom(input, ids, 0, []) == LinksFrom(input, ids, i, links)
    {
      var link := LinkOf(input, ids[i]);
      if link.Err? { return Err(link.error); }
      links := links + [link.value];
    }
    return Ok(links);
  }

  // What the loops keep: drafts of distinct statements, known by their starts.
  ghost predicate Drafted(ss: seq<Segment>, cover: Cover, drafts: Drafts, covered: set<nat>, claims: seq<VerifiedClaim>) {
    DraftsOk(ss, cover, drafts) && CoveredStarts(ss, cover, covered) && multiset(claims) == Bag(drafts, |ss|)
  }

  lemma DraftGrows(ss: seq<Segment>, cover: Cover, drafts: Drafts, claims: seq<VerifiedClaim>, k: nat, c: VerifiedClaim, next: Cover)
    requires DraftsOk(ss, cover, drafts) && multiset(claims) == Bag(drafts, |ss|) && k < |ss| && k !in drafts
    requires forall j | j in drafts :: (j in cover <==> j in next) && (j in cover ==> cover[j] == next[j])
    requires Capped(c) == ClaimAt(ss[k], next, k)
    ensures DraftsOk(ss, next, drafts[k := c]) && multiset(claims + [c]) == Bag(drafts[k := c], |ss|)
  {
    ValuesGrow(drafts, |ss|, k, c);
    BagOfMore(claims, c);
  }

  // One marker. Support is what the deterministic rules would say.
  method DraftOne(g: Grammar, input: Input, text: string, statements: seq<Segment>, parsed: Marker,
                  support: (string, seq<Link>) -> Support, covered: set<nat>, ghost cover: Cover)
    returns (r: Result<VerifiedClaim, Problem>, k: nat, ghost next: Cover)
    requires Ascending(statements) && CoveredStarts(statements, cover, covered)
    ensures r.Err? ==> CoverOne(g, input, text, statements, parsed, cover) == Err(r.error)
    ensures r.Ok? ==> CoverOne(g, input, text, statements, parsed, cover) == Ok(next)
    ensures r.Ok? ==> k < |statements| && k !in cover && r.value.start == statements[k].start
    ensures r.Ok? ==> k in next && next == cover[k := next[k]] && Capped(r.value) == ClaimAt(statements[k], next, k)
  {
    next := cover;
    var adjoining := Adjoining(g, text, statements, parsed.offset);
    if adjoining.None? { return Err(NotAdjacent), 0, next; }
    k := adjoining.value;
    var statement := statements[k];
    StartTellsStatement(statements, cover, covered, k);
    if statement.text != parsed.text || statement.start in covered { return Err(NotAdjacent), k, next; }
    var links := ResolveLinks(input, parsed.evidenceIds);
    if links.Err? { return Err(links.error), k, next; }
    var claim := VerifiedClaim(parsed.text, statement.start, statement.start + |statement.text|,
                               support(parsed.text, links.value), links.value);
    return Ok(claim), k, cover[k := links.value];
  }

  lemma MarkedGrows(ss: seq<Segment>, cover: Cover, drafts: Drafts, covered: set<nat>, claims: seq<VerifiedClaim>,
                    k: nat, c: VerifiedClaim, next: Cover)
    requires Drafted(ss, cover, drafts, covered, claims) && drafts.Keys == cover.Keys
    requires k < |ss| && k !in cover && k in next && next == cover[k := next[k]]
    requires Capped(c) == ClaimAt(ss[k], next, k) && c.start == ss[k].start
    ensures Drafted(ss, next, drafts[k := c], covered + {c.start}, claims + [c]) && drafts[k := c].Keys == next.Keys
  {
    DraftGrows(ss, cover, drafts, claims, k, c, next);
    CoverGrows(ss, cover, covered, k, next[k]);
  }

  method DraftMarked(g: Grammar, input: Input, text: string, statements: seq<Segment>, markers: seq<Marker>,
                     support: (string, seq<Link>) -> Support)
    returns (r: Result<seq<VerifiedClaim>, Problem>, covered: set<nat>, ghost cover: Cover, ghost drafts: Drafts)
    requires Ascending(statements)
    ensures r.Err? ==> CoverFrom(g, input, text, statements, markers, 0, map[]) == Err(r.error)
    ensures r.Ok? ==> CoverFrom(g, input, text, statements, markers, 0, map[]) == Ok(cover)
    ensures r.Ok? ==> Drafted(statements, cover, drafts, covered, r.value) && drafts.Keys == cover.Keys
  {
    var claims := [];
    covered, cover, drafts := {}, map[], map[];
    NoValues(drafts, |statements|);
    for i := 0 to |markers|
      invariant CoverFrom(g, input, text, statements, markers, 0, map[]) ==
        CoverFrom(g, input, text, statements, markers, i, cover)
      invariant Drafted(statements, cover, drafts, covered, claims) && drafts.Keys == cover.Keys
    {
      var claim, k, next := DraftOne(g, input, text, statements, markers[i], support, covered, cover);
      if claim.Err? { return Err(claim.error), covered, cover, drafts; }
      MarkedGrows(statements, cover, drafts, covered, claims, k, claim.value, next);
      covered := covered + {claim.value.start};
      claims := claims + [claim.value];
      cover, drafts := next, drafts[k := claim.value];
    }
    return Ok(claims), covered, cover, drafts;
  }

  lemma CoverGrows(ss: seq<Segment>, cover: Cover, covered: set<nat>, k: nat, links: seq<Link>)
    requires CoveredStarts(ss, cover, covered) && k < |ss|
    ensures CoveredStarts(ss, cover[k := links], covered + {ss[k].start})
  {
    var next := cover[k := links];
    assert k in next;
    forall start | start in covered + {ss[k].start} ensures exists j :: j in next && j < |ss| && ss[j].start == start {
      if start in covered {
        var j :| j in cover && j < |ss| && ss[j].start == start;
        assert j in next;
      }
    }
  }

  // One statement: a claim of its own unless a marker claimed it.
  method DraftStatement(statements: seq<Segment>, covered: set<nat>, k: nat, marked: seq<VerifiedClaim>,
                        ghost cover: Cover, ghost before: Drafts)
    returns (claims: seq<VerifiedClaim>, ghost drafts: Drafts)
    requires Ascending(statements) && k < |statements| && (k in before <==> k in cover)
    requires Drafted(statements, cover, before, covered, marked)
    ensures Drafted(statements, cover, drafts, covered, claims) && drafts.Keys == before.Keys + {k}
  {
    claims, drafts := marked, before;
    StartTellsStatement(statements, cover, covered, k);
    if statements[k].start in covered { return; }
    var claim := UnmarkedVisibleClaim(statements[k]);
    DraftGrows(statements, cover, drafts, claims, k, claim, cover);
    claims := claims + [claim];
    drafts := drafts[k := claim];
  }

  // The loop over the statements no marker claimed.
  method DraftUnmarked(statements: seq<Segment>, covered: set<nat>, marked: seq<VerifiedClaim>,
                       ghost cover: Cover, ghost before: Drafts)
    returns (claims: seq<VerifiedClaim>, ghost drafts: Drafts)
    requires Ascending(statements)
    requires Drafted(statements, cover, before, covered, marked) && before.Keys == cover.Keys
    ensures Drafted(statements, cover, drafts, covered, claims)
    ensures forall k: nat | k < |statements| :: k in drafts
  {
    claims, drafts := marked, before;
    for k := 0 to |statements|
      invariant forall j: nat :: j in drafts <==> j in cover || j < k
      invariant Drafted(statements, cover, drafts, covered, claims)
    {
      claims, drafts := DraftStatement(statements, covered, k, claims, cover, drafts);
    }
  }

  method Verify(g: Grammar, input: Input, support: (string, seq<Link>) -> Support) returns (r: Result<Outcome, Problem>)
    ensures r == Verified(g, input)
  {
    var visible := ParseVisibleOutput(g, input.output);
    if visible.None? { return Err(BadMarker); }
    var (text, markers) := visible.value;
    var statements := ExtractVisibleStatements(g, text);
    StatementsAreTheText(g, text);
    StartsAscend(text, statements);
    var marked, covered, cover, drafts := DraftMarked(g, input, text, statements, markers, support);
    if marked.Err? { return Err(marked.error); }
    var claims, all := DraftUnmarked(statements, covered, marked.value, cover, drafts);
    SortRestoresOrder(text, statements, cover, all, claims);
    claims := Sort(AtMost, StartOf, claims);
    var capped := CappedAll(claims);
    return Ok(Outcome(capped, DecisionOf(input, |capped|)));
  }

  function UnmarkedVisibleClaim(s: Segment): VerifiedClaim {
    VerifiedClaim(s.text, s.start, s.start + |s.text|, Support(Unverifiable, 0.0, "deterministic_missing_claim_marker"), [])
  }

  ghost predicate CoveredStarts(ss: seq<Segment>, cover: Cover, covered: set<nat>) {
    && (forall k | k in cover :: k < |ss| && ss[k].start in covered)
    && (forall start | start in covered :: exists k :: k in cover && k < |ss| && ss[k].start == start)
  }

  // Statements start at different places, so a start stands for its statement.
  predicate Ascending(ss: seq<Segment>) {
    forall i, j | 0 <= i < j < |ss| :: ss[i].start < ss[j].start
  }

  lemma StartsAscend(text: string, ss: seq<Segment>)
    requires InOrder(text, ss, 0, |text|)
    ensures Ascending(ss)
  {
    forall i, j | 0 <= i < j < |ss| ensures ss[i].start < ss[j].start {
      assert SegmentBefore(ss[i], ss[j]) && StatementOf(text, ss[i]);
    }
  }

  lemma StartTellsStatement(ss: seq<Segment>, cover: Cover, covered: set<nat>, k: nat)
    requires Ascending(ss) && CoveredStarts(ss, cover, covered) && k < |ss|
    ensures ss[k].start in covered <==> k in cover
  {
    if ss[k].start in covered {
      var j :| j in cover && j < |ss| && ss[j].start == ss[k].start;
    }
  }
}
