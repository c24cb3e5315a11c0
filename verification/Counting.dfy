/** Counting distinct numbers: they fit in any set that holds them, and a range of n
    is filled by n of them. */
module Counting {

  predicate Distinct(xs: seq<nat>) {
    forall i, j | 0 <= i < j < |xs| :: xs[i] != xs[j]
  }

  lemma {:induction false} DistinctFit(xs: seq<nat>, pool: set<nat>)
    requires Distinct(xs) && forall i | 0 <= i < |xs| :: xs[i] in pool
    ensures |xs| <= |pool|
  {
    if xs != [] {
      var last := |xs| - 1;
      DistinctFit(xs[..last], pool - {xs[last]});
    }
  }

  function Range(n: nat): (r: set<nat>)
    ensures |r| == n && forall k: nat :: k in r <==> k < n
  {
    if n == 0 then {} else Range(n - 1) + {n - 1}
  }

  // n distinct numbers below n are all of them.
  lemma DistinctFill(xs: seq<nat>, i: nat)
    requires Distinct(xs) && i < |xs| && forall j | 0 <= j < |xs| :: xs[j] < |xs|
    ensures i in xs
  {
    if i !in xs { DistinctFit(xs, Range(|xs|) - {i}); }
  }
}
