/** Lists as bags: taking one element out, and bringing two to the front. */
module Bags {

  function Without<T>(xs: seq<T>, i: nat): seq<T>
    requires i < |xs|
  {
    xs[..i] + xs[i + 1..]
  }

  lemma BagWithout<T>(xs: seq<T>, i: nat)
    requires i < |xs|
    ensures multiset(xs) == multiset(Without(xs, i)) + multiset{xs[i]}
    ensures |Without(xs, i)| == |xs| - 1 && xs[i] in multiset(xs)
  {
    assert xs == xs[..i] + ([xs[i]] + xs[i + 1..]);
  }

  lemma BagTail<T>(xs: seq<T>)
    requires xs != []
    ensures multiset(xs) == multiset(xs[1..]) + multiset{xs[0]} && xs[0] in multiset(xs)
  {
    assert xs == [xs[0]] + xs[1..];
  }

  lemma IndexIn<T>(xs: seq<T>, x: T) returns (k: nat)
    requires x in multiset(xs)
    ensures k < |xs| && xs[k] == x
  {
    k :| k < |xs| && xs[k] == x;
  }

  lemma SameLength<T>(xs: seq<T>, ys: seq<T>)
    requires multiset(xs) == multiset(ys)
    ensures |xs| == |ys|
  {
    assert |multiset(xs)| == |xs| && |multiset(ys)| == |ys|;
  }

  lemma Cancel<T>(xs: multiset<T>, ys: multiset<T>, x: T)
    requires xs + multiset{x} == ys + multiset{x}
    ensures xs == ys
  {
    assert xs == (xs + multiset{x}) - multiset{x} && ys == (ys + multiset{x}) - multiset{x};
  }

  // The first element of one list, found and taken out of the other.
  lemma TakeFirst<T>(xs: seq<T>, ys: seq<T>) returns (k: nat)
    requires multiset(xs) == multiset(ys) && xs != []
    ensures k < |ys| && ys[k] == xs[0] && multiset(xs[1..]) == multiset(Without(ys, k))
  {
    BagTail(xs);
    k := IndexIn(ys, xs[0]);
    BagWithout(ys, k);
    Cancel(multiset(xs[1..]), multiset(Without(ys, k)), xs[0]);
  }

  lemma PutFirst<T>(xs: seq<T>, ys: seq<T>, k: nat)
    requires xs != [] && k < |ys| && ys[k] == xs[0] && multiset(xs[1..]) == multiset(Without(ys, k))
    ensures multiset(xs) == multiset(ys)
  {
    BagTail(xs);
    BagWithout(ys, k);
  }

  // Two different elements first, then the rest.
  lemma TwoFirst<T>(xs: seq<T>, x: T, y: T) returns (rest: seq<T>)
    requires x in multiset(xs) && y in multiset(xs) && x != y
    ensures multiset([x, y] + rest) == multiset(xs)
  {
    var i := IndexIn(xs, x);
    BagWithout(xs, i);
    var k := IndexIn(Without(xs, i), y);
    BagWithout(Without(xs, i), k);
    rest := Without(Without(xs, i), k);
  }

  // Their order, and whether the second comes last, is nothing to the bag.
  lemma SecondAnywhere<T>(xs: seq<T>, x: T, y: T)
    ensures multiset([x] + (xs + [y])) == multiset([x, y] + xs) == multiset([y, x] + xs)
  {}

  // ---------------------------------------------------------------------------
  // The values a map gives to the numbers below n

  ghost function ValueAt<T>(m: map<nat, T>, k: nat): multiset<T> {
    if k in m then multiset{m[k]} else multiset{}
  }

  ghost function ValuesBelow<T>(m: map<nat, T>, n: nat): multiset<T> {
    if n == 0 then multiset{} else ValuesBelow(m, n - 1) + ValueAt(m, n - 1)
  }

  lemma {:induction false} NoValues<T>(m: map<nat, T>, n: nat)
    requires m == map[]
    ensures ValuesBelow(m, n) == multiset{}
  {
    if n > 0 { NoValues(m, n - 1); }
  }

  lemma {:induction false} ValuesStay<T>(m: map<nat, T>, n: nat, k: nat, x: T)
    requires n <= k
    ensures ValuesBelow(m[k := x], n) == ValuesBelow(m, n)
  {
    if n > 0 { ValuesStay(m, n - 1, k, x); }
  }

  lemma Rearrange<T>(a: multiset<T>, b: multiset<T>, c: multiset<T>)
    ensures (a + b) + c == (a + c) + b
  {}

  lemma {:induction false} ValuesGrow<T>(m: map<nat, T>, n: nat, k: nat, x: T)
    requires k < n && k !in m
    ensures ValuesBelow(m[k := x], n) == ValuesBelow(m, n) + multiset{x}
  {
    var bag, last := ValuesBelow(m, n - 1), ValueAt(m, n - 1);
    if k == n - 1 {
      ValuesStay(m, n - 1, k, x);
      assert bag + last == bag;
    } else {
      ValuesGrow(m, n - 1, k, x);
      assert ValueAt(m[k := x], n - 1) == last;
      Rearrange(bag, multiset{x}, last);
    }
  }
}
