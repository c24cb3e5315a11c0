/** Choosing the evidence context: greedy by marginal relevance under a count, a
    token budget and a cap per source. The run is characterised round by round, and
    that characterisation has one solution. */
module Selection {
  import opened Options
  import opened StableSort

  type Id = nat
  datatype Item = Item(
    chunkId: Id, fileId: Id, tokenCount: nat, contentLength: nat, rerankScore: real, embedding: Option<seq<real>>)
  datatype Limits = Limits(topK: nat, tokenBudget: int, maxPerSource: int, query: Option<seq<real>>, lambda: real)

  // Cosine similarity and the order localeCompare puts chunk ids in.
  datatype Measure = Measure(cosine: (seq<real>, seq<real>) -> real, tie: Order<Id>)

  function Tokens(x: Item): (n: nat)
    ensures n >= 1
  {
    var counted := if x.tokenCount > 0 then x.tokenCount else (x.contentLength + 1) / 2;
    if counted < 1 then 1 else counted
  }

  function Sum(xs: seq<Item>): nat {
    if xs == [] then 0 else Sum(xs[..|xs| - 1]) + Tokens(xs[|xs| - 1])
  }

  function FromSource(xs: seq<Item>, file: Id): nat {
    if xs == [] then 0
    else FromSource(xs[..|xs| - 1], file) + if xs[|xs| - 1].fileId == file then 1 else 0
  }

  // ---------------------------------------------------------------------------
  // The score

  function Likeness(m: Measure, x: Item, other: Item): real
    requires x.embedding.Some?
  {
    if other.embedding.Some? && |other.embedding.value| == |x.embedding.value|
    then m.cosine(x.embedding.value, other.embedding.value) else 0.0
  }

  // The largest likeness to anything selected.
  function Redundancy(m: Measure, x: Item, selected: seq<Item>): real
    requires x.embedding.Some? && selected != []
  {
    var last := Likeness(m, x, selected[|selected| - 1]);
    if |selected| == 1 then last
    else
      var before := Redundancy(m, x, selected[..|selected| - 1]);
      if before >= last then before else last
  }

  function MmrScore(m: Measure, limits: Limits, x: Item, selected: seq<Item>): real {
    if limits.query.None? || x.embedding.None? || |x.embedding.value| != |limits.query.value| then x.rerankScore
    else
      var relevance := m.cosine(x.embedding.value, limits.query.value);
      var redundancy := if selected == [] then 0.0 else Redundancy(m, x, selected);
      limits.lambda * relevance - (1.0 - limits.lambda) * redundancy
  }

  // ---------------------------------------------------------------------------
  // What a greedy run is

  function Elements(xs: seq<Item>): set<Item> {
    set x | x in xs
  }

  predicate Fits(limits: Limits, selected: seq<Item>, x: Item) {
    FromSource(selected, x.fileId) < limits.maxPerSource && Sum(selected) + Tokens(x) <= limits.tokenBudget
  }

  // x may be chosen next.
  predicate Eligible(candidates: set<Item>, limits: Limits, selected: seq<Item>, x: Item) {
    x in candidates && x !in selected && Fits(limits, selected, x)
  }

  predicate Preferred(m: Measure, limits: Limits, selected: seq<Item>, x: Item, y: Item) {
    var a, b := MmrScore(m, limits, x, selected), MmrScore(m, limits, y, selected);
    a > b || (a == b && m.tie(x.chunkId, y.chunkId))
  }

  ghost predicate BestNext(candidates: set<Item>, m: Measure, limits: Limits, selected: seq<Item>, x: Item) {
    && Eligible(candidates, limits, selected, x)
    && (forall y {:trigger Preferred(m, limits, selected, x, y)} | Eligible(candidates, limits, selected, y) ::
          Preferred(m, limits, selected, x, y))
  }

  ghost predicate Stuck(candidates: set<Item>, limits: Limits, selected: seq<Item>) {
    forall y :: !Eligible(candidates, limits, selected, y)
  }

  // Every round takes a best eligible item, and the run stops only when full or
  // when nothing that remains fits.
  ghost predicate Rounds(candidates: set<Item>, m: Measure, limits: Limits, selected: seq<Item>) {
    |selected| <= limits.topK
    && forall k {:trigger Round(candidates, m, limits, selected, k)} | 0 <= k < |selected| ::
         Round(candidates, m, limits, selected, k)
  }

  ghost predicate Round(candidates: set<Item>, m: Measure, limits: Limits, selected: seq<Item>, k: nat)
    requires k < |selected|
  {
    BestNext(candidates, m, limits, selected[..k], selected[k])
  }

  ghost predicate GreedyRun(candidates: set<Item>, m: Measure, limits: Limits, selected: seq<Item>) {
    Rounds(candidates, m, limits, selected) && (|selected| < limits.topK ==> Stuck(candidates, limits, selected))
  }

  ghost predicate DistinctIds(candidates: set<Item>) {
    forall x, y | x in candidates && y in candidates && x.chunkId == y.chunkId :: x == y
  }

  // The collation tells the candidates' ids apart.
  ghost predicate IdsApart(candidates: set<Item>, tie: Order<Id>) {
    forall x, y | x in candidates && y in candidates && Tied(tie, x.chunkId, y.chunkId) :: x == y
  }

  // A round in which two candidates are both best: equal scores and tied ids.
  ghost predicate Draw(candidates: set<Item>, m: Measure, limits: Limits, selected: seq<Item>, x: Item, y: Item) {
    && Rounds(candidates, m, limits, selected) && |selected| < limits.topK && x != y
    && BestNext(candidates, m, limits, selected, x) && BestNext(candidates, m, limits, selected, y)
  }

  ghost predicate NoDraw(candidates: set<Item>, m: Measure, limits: Limits) {
    forall selected, x, y :: !Draw(candidates, m, limits, selected, x, y)
  }

  // ---------------------------------------------------------------------------
  // The loop

  method Consider(m: Measure, limits: Limits, remaining: seq<Item>, selected: seq<Item>, usedTokens: int,
                  sourceCounts: map<Id, int>)
    returns (eligible: seq<Item>)
    requires usedTokens == Sum(selected)
    requires forall f :: (if f in sourceCounts then sourceCounts[f] else 0) == FromSource(selected, f)
    ensures forall x :: x in eligible <==> x in remaining && Fits(limits, selected, x)
  {
    eligible := [];
    for k := 0 to |remaining|
      invariant forall x :: x in eligible <==> x in remaining[..k] && Fits(limits, selected, x)
    {
      var item := remaining[k];
      assert remaining[..k + 1] == remaining[..k] + [item];
      var count := if item.fileId in sourceCounts then sourceCounts[item.fileId] else 0;
      if count < limits.maxPerSource && usedTokens + Tokens(item) <= limits.tokenBudget {
        eligible := eligible + [item];
      }
    }
    assert remaining[..|remaining|] == remaining;
  }

  function Rank(m: Measure): Order<(real, Id)> {
    (a: (real, Id), b: (real, Id)) => a.0 > b.0 || (a.0 == b.0 && m.tie(a.1, b.1))
  }

  function RankKey(m: Measure, limits: Limits, selected: seq<Item>): Item -> (real, Id) {
    x => (MmrScore(m, limits, x, selected), x.chunkId)
  }

  lemma RankIsTotal(m: Measure)
    requires TotalOrder(m.tie)
    ensures TotalOrder(Rank(m))
  {
    var rank := Rank(m);
    forall a, b ensures rank(a, b) || rank(b, a) { assert m.tie(a.1, b.1) || m.tie(b.1, a.1); }
    forall a, b, c | rank(a, b) && rank(b, c) ensures rank(a, c) {
      assert m.tie(a.1, b.1) && m.tie(b.1, c.1) ==> m.tie(a.1, c.1);
    }
  }

  // The head of the sorted list is preferred to every other.
  method First(m: Measure, limits: Limits, eligible: seq<Item>, selected: seq<Item>) returns (next: Item)
    requires TotalOrder(m.tie) && eligible != []
    ensures next == Sort(Rank(m), RankKey(m, limits, selected), eligible)[0]
    ensures next in eligible && forall y | y in eligible :: Preferred(m, limits, selected, next, y)
  {
    var rank, key := Rank(m), RankKey(m, limits, selected);
    var sorted := Sort(rank, key, eligible);
    SortPermutes(rank, key, eligible);
    RankIsTotal(m);
    SortSorts(rank, key, eligible);
    next := sorted[0];
    assert next in multiset(eligible);
    forall y | y in eligible ensures Preferred(m, limits, selected, next, y) {
      assert y in multiset(sorted);
      var j :| 0 <= j < |sorted| && sorted[j] == y;
      if j == 0 { assert m.tie(y.chunkId, y.chunkId); } else { assert rank(key(sorted[0]), key(sorted[j])); }
    }
  }

  method BuildEvidenceContext(candidates: seq<Item>, m: Measure, limits: Limits)
    returns (selected: seq<Item>, usedTokens: int)
    requires TotalOrder(m.tie) && forall i, j | 0 <= i < j < |candidates| :: candidates[i].chunkId != candidates[j].chunkId
    ensures GreedyRun(Elements(candidates), m, limits, selected) && usedTokens == Sum(selected)
  {
    ghost var all := Elements(candidates);
    var remaining := candidates;
    var sourceCounts: map<Id, int> := map[];
    selected, usedTokens := [], 0;
    while |remaining| > 0 && |selected| < limits.topK
      invariant usedTokens == Sum(selected) && Rounds(all, m, limits, selected)
      invariant forall f :: (if f in sourceCounts then sourceCounts[f] else 0) == FromSource(selected, f)
      invariant forall i, j | 0 <= i < j < |remaining| :: remaining[i].chunkId != remaining[j].chunkId
      invariant forall x :: x in remaining <==> x in all && x !in selected
      decreases |remaining|
    {
      var eligible := Consider(m, limits, remaining, selected, usedTokens, sourceCounts);
      if |eligible| == 0 { break; }
      var next := First(m, limits, eligible, selected);
      NextRound(all, m, limits, selected, next, remaining, eligible);
      usedTokens := usedTokens + Tokens(next);
      var count := if next.fileId in sourceCounts then sourceCounts[next.fileId] else 0;
      sourceCounts := sourceCounts[next.fileId := count + 1];
      remaining := Remove(remaining, next);
      selected := selected + [next];
    }
  }

  lemma NextRound(all: set<Item>, m: Measure, limits: Limits, selected: seq<Item>, next: Item, remaining: seq<Item>, eligible: seq<Item>)
    requires Rounds(all, m, limits, selected) && |selected| < limits.topK
    requires forall x :: x in remaining <==> x in all && x !in selected
    requires forall x :: x in eligible <==> x in remaining && Fits(limits, selected, x)
    requires next in eligible && forall y | y in eligible :: Preferred(m, limits, selected, next, y)
    ensures Rounds(all, m, limits, selected + [next])
    ensures Sum(selected + [next]) == Sum(selected) + Tokens(next)
    ensures forall f :: FromSource(selected + [next], f) == FromSource(selected, f) + if next.fileId == f then 1 else 0
  {
    var longer := selected + [next];
    assert longer[..|selected|] == selected;
    forall k: nat | k < |longer| ensures Round(all, m, limits, longer, k) {
      if k < |selected| {
        assert Round(all, m, limits, selected, k);
        assert longer[..k] == selected[..k];
      } else {
        BestIsNext(all, m, limits, selected, next, remaining, eligible);
      }
    }
  }

  lemma BestIsNext(all: set<Item>, m: Measure, limits: Limits, selected: seq<Item>, next: Item, remaining: seq<Item>, eligible: seq<Item>)
    requires forall x :: x in remaining <==> x in all && x !in selected
    requires forall x :: x in eligible <==> x in remaining && Fits(limits, selected, x)
    requires next in eligible && forall y | y in eligible :: Preferred(m, limits, selected, next, y)
    ensures BestNext(all, m, limits, selected, next)
  {
    forall y | Eligible(all, limits, selected, y) ensures Preferred(m, limits, selected, next, y) {
      assert y in remaining && y in eligible;
    }
  }

  // splice(findIndex by chunk id, 1)
  method Remove(remaining: seq<Item>, next: Item) returns (rest: seq<Item>)
    requires next in remaining
    requires forall i, j | 0 <= i < j < |remaining| :: remaining[i].chunkId != remaining[j].chunkId
    ensures |rest| == |remaining| - 1 && forall x :: x in rest <==> x in remaining && x != next
    ensures forall i, j | 0 <= i < j < |rest| :: rest[i].chunkId != rest[j].chunkId
  {
    var k := 0;
    while remaining[k].chunkId != next.chunkId
      invariant k < |remaining| && next in remaining[k..]
      decreases |remaining| - k
    {
      assert remaining[k..] == [remaining[k]] + remaining[k + 1..];
      k := k + 1;
    }
    rest := remaining[..k] + remaining[k + 1..];
    SpliceRemoves(remaining, k, next);
  }

  lemma SpliceRemoves(remaining: seq<Item>, k: nat, next: Item)
    requires k < |remaining| && remaining[k].chunkId == next.chunkId && next in remaining
    requires forall i, j | 0 <= i < j < |remaining| :: remaining[i].chunkId != remaining[j].chunkId
    ensures var rest := remaining[..k] + remaining[k + 1..];
      && (forall x :: x in rest <==> x in remaining && x != next)
      && forall i, j | 0 <= i < j < |rest| :: rest[i].chunkId != rest[j].chunkId
  {
    var rest := remaining[..k] + remaining[k + 1..];
    assert remaining[k] == next;
    assert remaining == remaining[..k] + ([remaining[k]] + remaining[k + 1..]);
    forall i | 0 <= i < |rest| ensures rest[i] == remaining[if i < k then i else i + 1] {}
  }

  // ---------------------------------------------------------------------------
  // What a run guarantees

  // The three caps, and nothing chosen twice.
  lemma {:induction false} RunKeepsCaps(candidates: set<Item>, m: Measure, limits: Limits, selected: seq<Item>)
    requires Rounds(candidates, m, limits, selected)
    ensures |selected| <= limits.topK
    ensures selected != [] ==> Sum(selected) <= limits.tokenBudget
    ensures forall f :: FromSource(selected, f) == 0 || FromSource(selected, f) <= limits.maxPerSource
    ensures forall x | x in selected :: x in candidates
    ensures forall i, j | 0 <= i < j < |selected| :: selected[i] != selected[j]
  {
    if selected != [] {
      var last := |selected| - 1;
      var before := selected[..last];
      forall k: nat | k < last ensures Round(candidates, m, limits, before, k) {
        assert Round(candidates, m, limits, selected, k);
        assert before[..k] == selected[..k];
      }
      RunKeepsCaps(candidates, m, limits, before);
      assert Round(candidates, m, limits, selected, last);
      assert selected == before + [selected[last]];
    }
  }

  // Without draws one candidate set has one greedy run: the order the candidates
  // came in, and anything else the loop might have done differently, cannot show.
  lemma {:induction false} RunIsUnique(candidates: set<Item>, m: Measure, limits: Limits, p: seq<Item>, q: seq<Item>, k: nat)
    requires NoDraw(candidates, m, limits)
    requires GreedyRun(candidates, m, limits, p) && GreedyRun(candidates, m, limits, q)
    requires k <= |p| && k <= |q| && p[..k] == q[..k]
    ensures p == q
    decreases |p| - k
  {
    if k < |p| && k < |q| {
      NextIsUnique(candidates, m, limits, p, q, k);
      assert p[..k + 1] == p[..k] + [p[k]] && q[..k + 1] == q[..k] + [q[k]];
      RunIsUnique(candidates, m, limits, p, q, k + 1);
    } else {
      if k < |p| { NeverStuckBefore(candidates, m, limits, p, k); }
      if k < |q| { NeverStuckBefore(candidates, m, limits, q, k); }
      assert k == |q| ==> q == q[..k];
      assert k == |p| ==> p == p[..k];
    }
  }

  lemma NeverStuckBefore(candidates: set<Item>, m: Measure, limits: Limits, p: seq<Item>, k: nat)
    requires Rounds(candidates, m, limits, p) && k < |p|
    ensures !Stuck(candidates, limits, p[..k]) && k < limits.topK
  {
    assert Round(candidates, m, limits, p, k);
  }

  lemma BeginningIsRun(candidates: set<Item>, m: Measure, limits: Limits, p: seq<Item>, k: nat)
    requires Rounds(candidates, m, limits, p) && k <= |p|
    ensures Rounds(candidates, m, limits, p[..k])
  {
    forall i | 0 <= i < k ensures Round(candidates, m, limits, p[..k], i) {
      assert Round(candidates, m, limits, p, i) && p[..k][..i] == p[..i];
    }
  }

  lemma NextIsUnique(candidates: set<Item>, m: Measure, limits: Limits, p: seq<Item>, q: seq<Item>, k: nat)
    requires NoDraw(candidates, m, limits) && k < |p| && k < |q| && p[..k] == q[..k]
    requires Rounds(candidates, m, limits, p) && Rounds(candidates, m, limits, q)
    ensures p[k] == q[k]
  {
    assert Round(candidates, m, limits, p, k) && Round(candidates, m, limits, q, k);
    BeginningIsRun(candidates, m, limits, p, k);
    assert !Draw(candidates, m, limits, p[..k], p[k], q[k]);
  }

  lemma ApartMeansNoDraw(candidates: set<Item>, m: Measure, limits: Limits)
    requires IdsApart(candidates, m.tie)
    ensures NoDraw(candidates, m, limits)
  {
    forall selected, x, y ensures !Draw(candidates, m, limits, selected, x, y) {
      if Draw(candidates, m, limits, selected, x, y) { DrawIsTie(candidates, m, limits, selected, x, y); }
    }
  }

  lemma DrawIsTie(candidates: set<Item>, m: Measure, limits: Limits, selected: seq<Item>, x: Item, y: Item)
    requires Draw(candidates, m, limits, selected, x, y)
    ensures Tied(m.tie, x.chunkId, y.chunkId) && MmrScore(m, limits, x, selected) == MmrScore(m, limits, y, selected)
  {
    assert Preferred(m, limits, selected, x, y) && Preferred(m, limits, selected, y, x);
  }

  lemma SelectionIgnoresOrder(a: seq<Item>, b: seq<Item>, m: Measure, limits: Limits, p: seq<Item>, q: seq<Item>)
    requires multiset(a) == multiset(b) && NoDraw(Elements(a), m, limits)
    requires GreedyRun(Elements(a), m, limits, p) && GreedyRun(Elements(b), m, limits, q)
    ensures p == q
  {
    assert forall x :: x in a <==> x in multiset(a);
    assert forall x :: x in b <==> x in multiset(b);
    assert Elements(a) == Elements(b);
    RunIsUnique(Elements(a), m, limits, p, q, 0);
  }

  // ---------------------------------------------------------------------------
  // A draw shows

  lemma OneMoreRound(candidates: set<Item>, m: Measure, limits: Limits, p: seq<Item>, x: Item)
    requires Rounds(candidates, m, limits, p) && |p| < limits.topK && BestNext(candidates, m, limits, p, x)
    ensures Rounds(candidates, m, limits, p + [x])
  {
    var longer := p + [x];
    forall k | 0 <= k < |longer| ensures Round(candidates, m, limits, longer, k) {
      if k < |p| { assert Round(candidates, m, limits, p, k) && longer[..k] == p[..k]; } else { assert longer[..k] == p; }
    }
  }

  // Some member of a set that is not empty is preferred to all.
  lemma {:induction false} BestExists(xs: set<Item>, m: Measure, limits: Limits, p: seq<Item>) returns (x: Item)
    requires TotalOrder(m.tie) && xs != {}
    ensures x in xs && forall y | y in xs :: Preferred(m, limits, p, x, y)
    decreases xs
  {
    var some :| some in xs;
    var rest := xs - {some};
    OneIsPreferred(m, limits, p, some, some);
    x := some;
    if rest == {} {
      assert xs == {some};
    } else {
      var z := BestExists(rest, m, limits, p);
      OneIsPreferred(m, limits, p, some, z);
      if !Preferred(m, limits, p, some, z) { x := z; }
      forall y | y in xs ensures Preferred(m, limits, p, x, y) {
        assert y == some || y in rest;
        if y != some && x == some { PreferenceChains(m, limits, p, some, z, y); }
      }
    }
  }

  lemma OneIsPreferred(m: Measure, limits: Limits, p: seq<Item>, x: Item, y: Item)
    requires TotalOrder(m.tie)
    ensures Preferred(m, limits, p, x, y) || Preferred(m, limits, p, y, x)
  {
    assert m.tie(x.chunkId, y.chunkId) || m.tie(y.chunkId, x.chunkId);
  }

  lemma PreferenceChains(m: Measure, limits: Limits, p: seq<Item>, x: Item, y: Item, z: Item)
    requires TotalOrder(m.tie) && Preferred(m, limits, p, x, y) && Preferred(m, limits, p, y, z)
    ensures Preferred(m, limits, p, x, z)
  {
    assert m.tie(x.chunkId, y.chunkId) && m.tie(y.chunkId, z.chunkId) ==> m.tie(x.chunkId, z.chunkId);
  }

  // Every beginning can be completed to a run.
  lemma {:induction false} Complete(candidates: set<Item>, m: Measure, limits: Limits, p: seq<Item>) returns (q: seq<Item>)
    requires TotalOrder(m.tie) && Rounds(candidates, m, limits, p)
    ensures GreedyRun(candidates, m, limits, q) && p <= q
    decreases limits.topK - |p|
  {
    q := p;
    if |p| < limits.topK && !Stuck(candidates, limits, p) {
      var eligible := set x | x in candidates && Eligible(candidates, limits, p, x);
      var some :| Eligible(candidates, limits, p, some);
      assert some in eligible;
      var x := BestExists(eligible, m, limits, p);
      OneMoreRound(candidates, m, limits, p, x);
      q := Complete(candidates, m, limits, p + [x]);
    }
  }

  ghost predicate OneRun(candidates: set<Item>, m: Measure, limits: Limits) {
    forall p, q | GreedyRun(candidates, m, limits, p) && GreedyRun(candidates, m, limits, q) :: p == q
  }

  // A candidate set has one run exactly when no round is a draw.
  lemma OneRunIffNoDraw(candidates: set<Item>, m: Measure, limits: Limits)
    requires TotalOrder(m.tie)
    ensures OneRun(candidates, m, limits) <==> NoDraw(candidates, m, limits)
  {
    if NoDraw(candidates, m, limits) {
      forall p, q | GreedyRun(candidates, m, limits, p) && GreedyRun(candidates, m, limits, q) ensures p == q {
        RunIsUnique(candidates, m, limits, p, q, 0);
      }
    } else {
      var selected, x, y :| Draw(candidates, m, limits, selected, x, y);
      OneMoreRound(candidates, m, limits, selected, x);
      OneMoreRound(candidates, m, limits, selected, y);
      var p := Complete(candidates, m, limits, selected + [x]);
      var q := Complete(candidates, m, limits, selected + [y]);
      assert p[|selected|] == (selected + [x])[|selected|] == x && q[|selected|] == (selected + [y])[|selected|] == y;
    }
  }

  // In a draw the candidate that came first is taken, so the incoming order shows.
  lemma FirstComeFirst(m: Measure, limits: Limits, selected: seq<Item>, x: Item, rest: seq<Item>)
    requires forall y | y in rest :: Preferred(m, limits, selected, x, y)
    ensures Sort(Rank(m), RankKey(m, limits, selected), [x] + rest)[0] == x
  {
    var rank, key := Rank(m), RankKey(m, limits, selected);
    var sorted := Sort(rank, key, rest);
    SortPermutes(rank, key, rest);
    assert ([x] + rest)[1..] == rest;
    if sorted != [] {
      assert sorted[0] in multiset(rest);
      assert Preferred(m, limits, selected, x, sorted[0]);
    }
  }

  const FIRST := Item(1, 1, 10, 40, 0.5, None)
  const SECOND := Item(2, 2, 10, 40, 0.5, None)
  const ONE := Limits(1, 100, 1, None, 0.75)

  // Two candidates with equal scores whose ids the collation ties.
  lemma TiedPairShows(m: Measure)
    requires forall a, b :: m.tie(a, b)
    ensures Draw({FIRST, SECOND}, m, ONE, [], FIRST, SECOND)
    ensures Sort(Rank(m), RankKey(m, ONE, []), [FIRST, SECOND])[0] == FIRST
    ensures Sort(Rank(m), RankKey(m, ONE, []), [SECOND, FIRST])[0] == SECOND
  {
    FirstComeFirst(m, ONE, [], FIRST, [SECOND]);
    FirstComeFirst(m, ONE, [], SECOND, [FIRST]);
    assert [FIRST] + [SECOND] == [FIRST, SECOND] && [SECOND] + [FIRST] == [SECOND, FIRST];
  }
}
