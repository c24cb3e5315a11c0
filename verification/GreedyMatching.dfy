/** Each claim in turn takes the first unused piece that serves it. Such a choice
    finds a one-to-one matching in whatever order the lists come exactly when there
    is one and pieces that serve one claim in common serve the same claims. */
module GreedyMatching {
  import opened Options
  import opened Bags

  type Relation<!E, !C> = (E, C) -> bool

  function FirstServing<E, C>(serves: Relation<E, C>, xs: seq<E>, claim: C, from: nat): (i: Option<nat>)
    ensures i.Some? ==> from <= i.value < |xs| && serves(xs[i.value], claim)
    ensures i.None? ==> forall k | from <= k < |xs| :: !serves(xs[k], claim)
    decreases |xs| - from
  {
    if from >= |xs| then None
    else if serves(xs[from], claim) then Some(from)
    else FirstServing(serves, xs, claim, from + 1)
  }

  // All claims are served and no piece is left.
  predicate Greedy<E(==), C(==)>(serves: Relation<E, C>, unused: seq<E>, claims: seq<C>)
    decreases |claims|
  {
    if claims == [] then unused == []
    else
      var i := FirstServing(serves, unused, claims[0], 0);
      i.Some? && Greedy(serves, Without(unused, i.value), claims[1..])
  }

  // The pieces can be put in an order in which each serves the claim at its place:
  // one piece for each claim and none used twice.
  predicate Matching<E(==), C>(serves: Relation<E, C>, pieces: seq<E>, claims: seq<C>, order: seq<E>) {
    multiset(order) == multiset(pieces) && Serve(serves, order, claims)
  }

  predicate Serve<E, C>(serves: Relation<E, C>, order: seq<E>, claims: seq<C>) {
    |order| == |claims| && forall j | 0 <= j < |order| :: serves(order[j], claims[j])
  }

  ghost predicate Matched<E(!new), C>(serves: Relation<E, C>, pieces: seq<E>, claims: seq<C>) {
    exists order :: Matching(serves, pieces, claims, order)
  }

  // Pieces that serve one of the claims in common serve the same claims.
  ghost predicate Rectangular<E(!new), C(!new)>(serves: Relation<E, C>, pieces: multiset<E>, claims: multiset<C>) {
    forall x, y, a, b | x in pieces && y in pieces && a in claims && b in claims ::
      serves(x, a) && serves(x, b) && serves(y, a) ==> serves(y, b)
  }

  ghost predicate SucceedsInEveryOrder<E(!new), C(!new)>(serves: Relation<E, C>, pieces: seq<E>, claims: seq<C>) {
    forall e, c {:trigger Greedy(serves, e, c)} | multiset(e) == multiset(pieces) && multiset(c) == multiset(claims) ::
      Greedy(serves, e, c)
  }

  // ---------------------------------------------------------------------------
  // Success is a matching

  lemma {:induction false} GreedyMatches<E(!new), C(!new)>(serves: Relation<E, C>, pieces: seq<E>, claims: seq<C>)
    returns (order: seq<E>)
    requires Greedy(serves, pieces, claims)
    ensures Matching(serves, pieces, claims, order)
    decreases |claims|
  {
    if claims == [] {
      order := [];
    } else {
      var i := FirstServing(serves, pieces, claims[0], 0).value;
      var rest := GreedyMatches(serves, Without(pieces, i), claims[1..]);
      BagWithout(pieces, i);
      ServeOneMore(serves, pieces[i], claims, rest);
      order := [pieces[i]] + rest;
    }
  }

  lemma ServeOneMore<E, C>(serves: Relation<E, C>, x: E, claims: seq<C>, rest: seq<E>)
    requires claims != [] && serves(x, claims[0]) && Serve(serves, rest, claims[1..])
    ensures Serve(serves, [x] + rest, claims)
    ensures multiset([x] + rest) == multiset(rest) + multiset{x}
  {
    forall j | 0 < j <= |rest| ensures serves(([x] + rest)[j], claims[j]) {
      assert serves(rest[j - 1], claims[1..][j - 1]);
    }
  }

  // ---------------------------------------------------------------------------
  // A matching is found

  // What the greedy choice takes can be exchanged for what the matching gave.
  lemma Exchange<E(!new), C(!new)>(serves: Relation<E, C>, pieces: seq<E>, claims: seq<C>, order: seq<E>, i: nat)
    returns (rest: seq<E>)
    requires Matching(serves, pieces, claims, order) && claims != [] && i < |pieces| && serves(pieces[i], claims[0])
    requires Rectangular(serves, multiset(pieces), multiset(claims))
    ensures Matching(serves, Without(pieces, i), claims[1..], rest)
  {
    BagWithout(pieces, i);
    var k := IndexIn(order, pieces[i]);
    assert order[0] in multiset(order) && claims[0] in multiset(claims) && claims[k] in multiset(claims);
    assert serves(order[k], claims[k]) && serves(order[0], claims[0]);
    Swapped(order, k);
    Cancel(multiset(Without(pieces, i)), multiset(order[k := order[0]][1..]), pieces[i]);
    SwappedServes(serves, order, claims, k);
    rest := order[k := order[0]][1..];
  }

  lemma SwappedServes<E, C>(serves: Relation<E, C>, order: seq<E>, claims: seq<C>, k: nat)
    requires Serve(serves, order, claims) && k < |order| && serves(order[0], claims[k])
    ensures Serve(serves, order[k := order[0]][1..], claims[1..])
  {
    var rest := order[k := order[0]][1..];
    forall j | 0 <= j < |rest| ensures serves(rest[j], claims[1..][j]) {
      assert serves(order[j + 1], claims[j + 1]);
    }
  }

  lemma Swapped<T>(xs: seq<T>, k: nat)
    requires k < |xs|
    ensures multiset(xs) == multiset(xs[k := xs[0]][1..]) + multiset{xs[k]}
  {
    if k == 0 {
      BagTail(xs);
      assert xs[0 := xs[0]] == xs;
    } else {
      assert xs == [xs[0]] + (xs[1..k] + ([xs[k]] + xs[k + 1..]));
      assert xs[k := xs[0]][1..] == xs[1..k] + ([xs[0]] + xs[k + 1..]);
    }
  }

  lemma RectangularWithin<E(!new), C(!new)>(serves: Relation<E, C>, pieces: seq<E>, claims: seq<C>, i: nat)
    requires Rectangular(serves, multiset(pieces), multiset(claims)) && i < |pieces| && claims != []
    ensures Rectangular(serves, multiset(Without(pieces, i)), multiset(claims[1..]))
  {
    BagWithout(pieces, i);
    BagTail(claims);
  }

  lemma {:induction false} GreedyFinds<E(!new), C(!new)>(serves: Relation<E, C>, pieces: seq<E>, claims: seq<C>, order: seq<E>)
    requires Rectangular(serves, multiset(pieces), multiset(claims)) && Matching(serves, pieces, claims, order)
    ensures Greedy(serves, pieces, claims)
    decreases |claims|
  {
    SameLength(order, pieces);
    if claims != [] {
      assert order[0] in multiset(order);
      var k := IndexIn(pieces, order[0]);
      assert serves(pieces[k], claims[0]);
      var i := FirstServing(serves, pieces, claims[0], 0).value;
      var rest := Exchange(serves, pieces, claims, order, i);
      RectangularWithin(serves, pieces, claims, i);
      GreedyFinds(serves, Without(pieces, i), claims[1..], rest);
    }
  }

  lemma WithoutServes<E, C>(serves: Relation<E, C>, order: seq<E>, claims: seq<C>, k: nat)
    requires Serve(serves, order, claims) && k < |order|
    ensures Serve(serves, Without(order, k), Without(claims, k))
  {
    forall j | 0 <= j < |order| - 1 ensures serves(Without(order, k)[j], Without(claims, k)[j]) {
      assert serves(order[if j < k then j else j + 1], claims[if j < k then j else j + 1]);
    }
  }

  // The order of the claims does not decide whether there is a matching.
  lemma {:induction false} ServedInAnyOrder<E(!new), C(!new)>(serves: Relation<E, C>, order: seq<E>, claims: seq<C>, other: seq<C>)
    returns (moved: seq<E>)
    requires Serve(serves, order, claims) && multiset(claims) == multiset(other)
    ensures Matching(serves, order, other, moved)
    decreases |other|
  {
    SameLength(claims, other);
    if other == [] {
      moved := [];
    } else {
      var k := TakeFirst(other, claims);
      BagWithout(order, k);
      WithoutServes(serves, order, claims, k);
      var rest := ServedInAnyOrder(serves, Without(order, k), Without(claims, k), other[1..]);
      ServeOneMore(serves, order[k], other, rest);
      moved := [order[k]] + rest;
    }
  }

  // ---------------------------------------------------------------------------
  // Only rectangular relations succeed in every order

  // A piece that comes last is left for the claim that comes last.
  lemma {:induction false} LastIsLeft<E(!new), C(!new)>(serves: Relation<E, C>, pieces: seq<E>, claims: seq<C>, x: E, a: C)
    requires Greedy(serves, pieces, claims)
    ensures Greedy(serves, pieces + [x], claims + [a]) <==> serves(x, a)
    decreases |claims|
  {
    if claims == [] {
      assert pieces + [x] == [x] && claims + [a] == [a];
      assert FirstServing(serves, [x], a, 0) == if serves(x, a) then Some(0) else FirstServing(serves, [x], a, 1);
      assert Without([x], 0) == [] && [a][1..] == [];
    } else {
      var i := FirstServing(serves, pieces, claims[0], 0).value;
      FirstStays(serves, pieces, x, claims[0], 0);
      assert Without(pieces + [x], i) == Without(pieces, i) + [x];
      assert (claims + [a])[1..] == claims[1..] + [a];
      LastIsLeft(serves, Without(pieces, i), claims[1..], x, a);
    }
  }

  lemma {:induction false} FirstStays<E(!new), C(!new)>(serves: Relation<E, C>, pieces: seq<E>, x: E, claim: C, from: nat)
    requires FirstServing(serves, pieces, claim, from).Some?
    ensures FirstServing(serves, pieces + [x], claim, from) == FirstServing(serves, pieces, claim, from)
    decreases |pieces| - from
  {
    if !serves(pieces[from], claim) { FirstStays(serves, pieces, x, claim, from + 1); }
  }

  lemma FirstOne<E(!new), C(!new)>(serves: Relation<E, C>, pieces: seq<E>, claims: seq<C>, x: E, a: C)
    requires serves(x, a)
    ensures Greedy(serves, [x] + pieces, [a] + claims) <==> Greedy(serves, pieces, claims)
  {
    assert Without([x] + pieces, 0) == pieces && ([a] + claims)[1..] == claims;
  }

  lemma FirstTwo<E(!new), C(!new)>(serves: Relation<E, C>, pieces: seq<E>, claims: seq<C>, x: E, y: E, a: C, b: C)
    requires serves(x, a) && serves(y, b)
    ensures Greedy(serves, [x, y] + pieces, [a, b] + claims) <==> Greedy(serves, pieces, claims)
  {
    assert [x, y] + pieces == [x] + ([y] + pieces) && [a, b] + claims == [a] + ([b] + claims);
    FirstOne(serves, [y] + pieces, [b] + claims, x, a);
    FirstOne(serves, pieces, claims, y, b);
  }

  // The two orders that tell: in one y is the only piece left for a, and the rest
  // matches; in the other x serves a, and y comes last, where only b is left.
  lemma OrdersThatTell<E(!new), C(!new)>(serves: Relation<E, C>, pieces: seq<E>, claims: seq<C>, x: E, y: E, a: C, b: C)
    requires Greedy(serves, [x, y] + pieces, [b, a] + claims)
    requires Greedy(serves, [x] + (pieces + [y]), [a] + (claims + [b]))
    requires serves(x, a) && serves(x, b) && serves(y, a)
    ensures serves(y, b)
  {
    FirstTwo(serves, pieces, claims, x, y, b, a);
    FirstOne(serves, pieces + [y], claims + [b], x, a);
    LastIsLeft(serves, pieces, claims, y, b);
  }

  lemma EveryOrderIsRectangular<E(!new), C(!new)>(serves: Relation<E, C>, pieces: seq<E>, claims: seq<C>)
    requires SucceedsInEveryOrder(serves, pieces, claims)
    ensures Rectangular(serves, multiset(pieces), multiset(claims))
  {
    forall x, y, a, b | x in multiset(pieces) && y in multiset(pieces) && a in multiset(claims) && b in multiset(claims)
                        && serves(x, a) && serves(x, b) && serves(y, a)
      ensures serves(y, b)
    {
      ServesTheOther(serves, pieces, claims, x, y, a, b);
    }
  }

  lemma ServesTheOther<E(!new), C(!new)>(serves: Relation<E, C>, pieces: seq<E>, claims: seq<C>, x: E, y: E, a: C, b: C)
    requires SucceedsInEveryOrder(serves, pieces, claims)
    requires x in multiset(pieces) && y in multiset(pieces) && a in multiset(claims) && b in multiset(claims)
    requires serves(x, a) && serves(x, b) && serves(y, a)
    ensures serves(y, b)
  {
    if x != y && a != b {
      var e := TwoFirst(pieces, x, y);
      var c := TwoFirst(claims, b, a);
      TheyTell(serves, pieces, claims, e, c, x, y, a, b);
    }
  }

  lemma TheyTell<E(!new), C(!new)>(serves: Relation<E, C>, pieces: seq<E>, claims: seq<C>, e: seq<E>, c: seq<C>,
                                   x: E, y: E, a: C, b: C)
    requires SucceedsInEveryOrder(serves, pieces, claims)
    requires multiset([x, y] + e) == multiset(pieces) && multiset([b, a] + c) == multiset(claims)
    requires serves(x, a) && serves(x, b) && serves(y, a)
    ensures serves(y, b)
  {
    SecondAnywhere(e, x, y);
    SecondAnywhere(c, a, b);
    InThisOrder(serves, pieces, claims, [x, y] + e, [b, a] + c);
    InThisOrder(serves, pieces, claims, [x] + (e + [y]), [a] + (c + [b]));
    OrdersThatTell(serves, e, c, x, y, a, b);
  }

  lemma InThisOrder<E(!new), C(!new)>(serves: Relation<E, C>, pieces: seq<E>, claims: seq<C>, e: seq<E>, c: seq<C>)
    requires SucceedsInEveryOrder(serves, pieces, claims)
    requires multiset(e) == multiset(pieces) && multiset(c) == multiset(claims)
    ensures Greedy(serves, e, c)
  {}

  // ---------------------------------------------------------------------------

  lemma SucceedsIff<E(!new), C(!new)>(serves: Relation<E, C>, pieces: seq<E>, claims: seq<C>)
    ensures SucceedsInEveryOrder(serves, pieces, claims) <==>
      Matched(serves, pieces, claims) && Rectangular(serves, multiset(pieces), multiset(claims))
  {
    if SucceedsInEveryOrder(serves, pieces, claims) {
      assert Greedy(serves, pieces, claims);
      var order := GreedyMatches(serves, pieces, claims);
      EveryOrderIsRectangular(serves, pieces, claims);
    }
    if Matched(serves, pieces, claims) && Rectangular(serves, multiset(pieces), multiset(claims)) {
      var order :| Matching(serves, pieces, claims, order);
      forall e, c | multiset(e) == multiset(pieces) && multiset(c) == multiset(claims) ensures Greedy(serves, e, c) {
        var moved := ServedInAnyOrder(serves, order, claims, c);
        GreedyFinds(serves, e, c, moved);
      }
    }
  }
}
