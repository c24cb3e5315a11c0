/** What a selected item has over those it was preferred to: it is more relevant to the
    query, or less like what was selected before, at the exchange rate lambda sets. */
module Relevance {
  import opened Options
  import opened StableSort
  import opened Selection

  // The item can be compared with the query.
  predicate Comparable(limits: Limits, x: Item) {
    limits.query.Some? && x.embedding.Some? && |x.embedding.value| == |limits.query.value|
  }

  function ToQuery(m: Measure, limits: Limits, x: Item): real
    requires Comparable(limits, x)
  {
    m.cosine(x.embedding.value, limits.query.value)
  }

  // How alike two items are: not at all if one has no embedding of the same length.
  predicate AlikeBy(m: Measure, x: Item, other: Item, v: real)
    requires x.embedding.Some?
  {
    v == if other.embedding.Some? && |x.embedding.value| == |other.embedding.value|
         then m.cosine(x.embedding.value, other.embedding.value) else 0.0
  }

  // v is the greatest likeness of x to any of the selected, or zero when there are
  // none.
  ghost predicate GreatestLikeness(m: Measure, x: Item, selected: seq<Item>, v: real)
    requires x.embedding.Some?
  {
    if selected == [] then v == 0.0
    else
      && (exists k :: 0 <= k < |selected| && AlikeBy(m, x, selected[k], v))
      && (forall k, w | 0 <= k < |selected| && AlikeBy(m, x, selected[k], w) :: w <= v)
  }

  lemma {:induction false} RedundancyIsGreatest(m: Measure, x: Item, selected: seq<Item>)
    requires x.embedding.Some? && selected != []
    ensures GreatestLikeness(m, x, selected, Redundancy(m, x, selected))
  {
    var last, v := |selected| - 1, Redundancy(m, x, selected);
    assert AlikeBy(m, x, selected[last], Likeness(m, x, selected[last]));
    if last > 0 {
      RedundancyIsGreatest(m, x, selected[..last]);
      var k :| 0 <= k < last && AlikeBy(m, x, selected[..last][k], Redundancy(m, x, selected[..last]));
      assert selected[..last][k] == selected[k];
      forall j, w | 0 <= j < |selected| && AlikeBy(m, x, selected[j], w) ensures w <= v {
        assert j < last ==> AlikeBy(m, x, selected[..last][j], w);
      }
    }
  }

  lemma OneGreatest(m: Measure, x: Item, selected: seq<Item>, v: real, w: real)
    requires x.embedding.Some? && GreatestLikeness(m, x, selected, v) && GreatestLikeness(m, x, selected, w)
    ensures v == w
  {}

  lemma ScoreIs(m: Measure, limits: Limits, x: Item, selected: seq<Item>, v: real)
    requires Comparable(limits, x) && GreatestLikeness(m, x, selected, v)
    ensures MmrScore(m, limits, x, selected) == limits.lambda * ToQuery(m, limits, x) - (1.0 - limits.lambda) * v
  {
    if selected != [] {
      RedundancyIsGreatest(m, x, selected);
      OneGreatest(m, x, selected, v, Redundancy(m, x, selected));
    }
  }

  // Item y could have been taken in round k, in which x was.
  ghost predicate PassedOver(candidates: set<Item>, m: Measure, limits: Limits, selected: seq<Item>, k: nat, x: Item, y: Item) {
    GreedyRun(candidates, m, limits, selected) && k < |selected| && x == selected[k]
    && Eligible(candidates, limits, selected[..k], y)
  }

  lemma PassedOverScores(candidates: set<Item>, m: Measure, limits: Limits, selected: seq<Item>, k: nat, x: Item, y: Item)
    requires PassedOver(candidates, m, limits, selected, k, x, y)
    ensures MmrScore(m, limits, x, selected[..k]) >= MmrScore(m, limits, y, selected[..k])
    ensures MmrScore(m, limits, x, selected[..k]) == MmrScore(m, limits, y, selected[..k]) ==> m.tie(x.chunkId, y.chunkId)
  {
    assert Round(candidates, m, limits, selected, k);
    assert Preferred(m, limits, selected[..k], x, y);
  }

  // What y would have gained in relevance it would have lost in likeness: one unit of
  // relevance is worth lambda, one of likeness one minus lambda. If the two balance,
  // the ids decide.
  lemma GainIsOutweighed(candidates: set<Item>, m: Measure, limits: Limits, selected: seq<Item>, k: nat, x: Item, y: Item,
                         v: real, w: real)
    requires PassedOver(candidates, m, limits, selected, k, x, y) && Comparable(limits, x) && Comparable(limits, y)
    requires GreatestLikeness(m, x, selected[..k], v) && GreatestLikeness(m, y, selected[..k], w)
    ensures limits.lambda * (ToQuery(m, limits, y) - ToQuery(m, limits, x)) <= (1.0 - limits.lambda) * (w - v)
    ensures limits.lambda * (ToQuery(m, limits, y) - ToQuery(m, limits, x)) == (1.0 - limits.lambda) * (w - v) ==>
      m.tie(x.chunkId, y.chunkId)
  {
    PassedOverScores(candidates, m, limits, selected, k, x, y);
    ScoreIs(m, limits, x, selected[..k], v);
    ScoreIs(m, limits, y, selected[..k], w);
    Balance(limits.lambda, ToQuery(m, limits, x), ToQuery(m, limits, y), v, w);
  }

  lemma Balance(lambda: real, a: real, b: real, v: real, w: real)
    ensures lambda * a - (1.0 - lambda) * v >= lambda * b - (1.0 - lambda) * w
      <==> lambda * (b - a) <= (1.0 - lambda) * (w - v)
    ensures lambda * a - (1.0 - lambda) * v == lambda * b - (1.0 - lambda) * w
      <==> lambda * (b - a) == (1.0 - lambda) * (w - v)
  {}

  lemma Gains(a: real, b: real)
    requires a > 0.0 && b > 0.0
    ensures a * b > 0.0 && a * -b < 0.0
  {}

  lemma Loses(lambda: real, gain: real, rate: real, v: real, w: real)
    requires gain == 0.0 && rate > 0.0 && v > w
    ensures lambda * gain > rate * (w - v)
  {
    var d := v - w;
    Gains(rate, d);
    assert w - v == -d && lambda * gain == 0.0;
  }

  // Of equally relevant items one that is least like the selected is taken.
  lemma LessAlikeIsTaken(candidates: set<Item>, m: Measure, limits: Limits, selected: seq<Item>, k: nat, x: Item, y: Item,
                         v: real, w: real)
    requires PassedOver(candidates, m, limits, selected, k, x, y) && Comparable(limits, x) && Comparable(limits, y)
    requires GreatestLikeness(m, x, selected[..k], v) && GreatestLikeness(m, y, selected[..k], w)
    requires limits.lambda < 1.0 && ToQuery(m, limits, x) == ToQuery(m, limits, y)
    ensures v <= w
  {
    GainIsOutweighed(candidates, m, limits, selected, k, x, y, v, w);
    if v > w { Loses(limits.lambda, ToQuery(m, limits, y) - ToQuery(m, limits, x), 1.0 - limits.lambda, v, w); }
  }

  // Of items equally like the selected a most relevant one is taken, and so the first.
  lemma MoreRelevantIsTaken(candidates: set<Item>, m: Measure, limits: Limits, selected: seq<Item>, k: nat, x: Item, y: Item, v: real)
    requires PassedOver(candidates, m, limits, selected, k, x, y) && Comparable(limits, x) && Comparable(limits, y)
    requires GreatestLikeness(m, x, selected[..k], v) && GreatestLikeness(m, y, selected[..k], v) && limits.lambda > 0.0
    ensures ToQuery(m, limits, x) >= ToQuery(m, limits, y)
  {
    GainIsOutweighed(candidates, m, limits, selected, k, x, y, v, v);
    var gain := ToQuery(m, limits, y) - ToQuery(m, limits, x);
    if gain > 0.0 { Gains(limits.lambda, gain); }
  }

  lemma FirstIsMostRelevant(candidates: set<Item>, m: Measure, limits: Limits, selected: seq<Item>, x: Item, y: Item)
    requires PassedOver(candidates, m, limits, selected, 0, x, y) && Comparable(limits, x) && Comparable(limits, y)
    requires limits.lambda > 0.0
    ensures ToQuery(m, limits, x) >= ToQuery(m, limits, y)
  {
    assert selected[..0] == [];
    MoreRelevantIsTaken(candidates, m, limits, selected, 0, x, y, 0.0);
  }

  // Items that cannot be compared with the query go by their rerank scores, which
  // stand against the other items' balance.
  lemma RerankDecides(candidates: set<Item>, m: Measure, limits: Limits, selected: seq<Item>, k: nat, x: Item, y: Item)
    requires PassedOver(candidates, m, limits, selected, k, x, y) && !Comparable(limits, x)
    ensures !Comparable(limits, y) ==> x.rerankScore >= y.rerankScore
    ensures forall w | Comparable(limits, y) && GreatestLikeness(m, y, selected[..k], w) ::
      x.rerankScore >= limits.lambda * ToQuery(m, limits, y) - (1.0 - limits.lambda) * w
  {
    PassedOverScores(candidates, m, limits, selected, k, x, y);
    forall w | Comparable(limits, y) && GreatestLikeness(m, y, selected[..k], w)
      ensures x.rerankScore >= limits.lambda * ToQuery(m, limits, y) - (1.0 - limits.lambda) * w
    {
      ScoreIs(m, limits, y, selected[..k], w);
    }
  }

  // An item's size is its token count, or half its length rounded up, and never zero.
  lemma SizeIs(x: Item)
    ensures x.tokenCount > 0 ==> Tokens(x) == x.tokenCount
    ensures x.tokenCount == 0 && x.contentLength > 0 ==> 2 * (Tokens(x) - 1) < x.contentLength <= 2 * Tokens(x)
    ensures x.tokenCount == 0 && x.contentLength == 0 ==> Tokens(x) == 1
  {}
}
