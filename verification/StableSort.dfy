/** A stable sort by a key, as Array.prototype.sort is: where it puts an
    element depends on the keys alone, and on the incoming order among equals. */
module StableSort {
  import opened Bags

  type Order<!K> = (K, K) -> bool

  ghost predicate TotalOrder<K(!new)>(leq: Order<K>) {
    && (forall a, b :: leq(a, b) || leq(b, a))
    && (forall a, b, c :: leq(a, b) && leq(b, c) ==> leq(a, c))
  }

  // The collation cannot tell these two apart.
  predicate Tied<K>(leq: Order<K>, a: K, b: K) {
    leq(a, b) && leq(b, a)
  }

  function Insert<K, T>(leq: Order<K>, key: T -> K, x: T, xs: seq<T>): seq<T> {
    if xs == [] || leq(key(x), key(xs[0])) then [x] + xs else [xs[0]] + Insert(leq, key, x, xs[1..])
  }

  function Sort<K, T>(leq: Order<K>, key: T -> K, xs: seq<T>): seq<T> {
    if xs == [] then [] else Insert(leq, key, xs[0], Sort(leq, key, xs[1..]))
  }

  function Keys<K, T>(key: T -> K, xs: seq<T>): seq<K> {
    seq(|xs|, k requires 0 <= k < |xs| => key(xs[k]))
  }

  ghost predicate Sorted<K(!new), T>(leq: Order<K>, key: T -> K, xs: seq<T>) {
    forall i, j | 0 <= i < j < |xs| :: leq(key(xs[i]), key(xs[j]))
  }

  lemma {:induction false} InsertPermutes<K(!new), T>(leq: Order<K>, key: T -> K, x: T, xs: seq<T>)
    ensures |Insert(leq, key, x, xs)| == |xs| + 1
    ensures multiset(Insert(leq, key, x, xs)) == multiset{x} + multiset(xs)
  {
    if xs != [] && !leq(key(x), key(xs[0])) {
      InsertPermutes(leq, key, x, xs[1..]);
      assert xs == [xs[0]] + xs[1..];
    }
  }

  lemma {:induction false} SortPermutes<K(!new), T>(leq: Order<K>, key: T -> K, xs: seq<T>)
    ensures |Sort(leq, key, xs)| == |xs| && multiset(Sort(leq, key, xs)) == multiset(xs)
  {
    if xs != [] {
      SortPermutes(leq, key, xs[1..]);
      InsertPermutes(leq, key, xs[0], Sort(leq, key, xs[1..]));
      assert xs == [xs[0]] + xs[1..];
    }
  }

  lemma {:induction false} InsertedIsOld<K(!new), T>(leq: Order<K>, key: T -> K, x: T, xs: seq<T>, k: nat)
    requires k < |Insert(leq, key, x, xs)|
    ensures Insert(leq, key, x, xs)[k] == x || Insert(leq, key, x, xs)[k] in xs
  {
    if xs != [] && !leq(key(x), key(xs[0])) && k > 0 {
      InsertedIsOld(leq, key, x, xs[1..], k - 1);
    }
  }

  lemma {:induction false} InsertSorts<K(!new), T>(leq: Order<K>, key: T -> K, x: T, xs: seq<T>)
    requires TotalOrder(leq) && Sorted(leq, key, xs)
    ensures Sorted(leq, key, Insert(leq, key, x, xs))
  {
    if xs != [] && !leq(key(x), key(xs[0])) {
      InsertSorts(leq, key, x, xs[1..]);
      var rest := Insert(leq, key, x, xs[1..]);
      forall k | 0 <= k < |rest| ensures leq(key(xs[0]), key(rest[k])) { InsertedIsOld(leq, key, x, xs[1..], k); }
    }
  }

  lemma {:induction false} SortSorts<K(!new), T>(leq: Order<K>, key: T -> K, xs: seq<T>)
    requires TotalOrder(leq)
    ensures Sorted(leq, key, Sort(leq, key, xs))
  {
    if xs != [] {
      SortSorts(leq, key, xs[1..]);
      InsertSorts(leq, key, xs[0], Sort(leq, key, xs[1..]));
    }
  }

  // Two lists with the same keys in the same places are sorted the same way.
  lemma {:induction false} InsertFollowsKeys<K(!new), S, T>(leq: Order<K>, f: S -> K, g: T -> K, x: S, y: T, xs: seq<S>, ys: seq<T>)
    requires f(x) == g(y) && Keys(f, xs) == Keys(g, ys)
    ensures Keys(f, Insert(leq, f, x, xs)) == Keys(g, Insert(leq, g, y, ys))
  {
    assert |Keys(f, xs)| == |xs| && |Keys(g, ys)| == |ys|;
    if xs != [] {
      assert Keys(f, xs)[0] == f(xs[0]) && Keys(g, ys)[0] == g(ys[0]);
      assert Keys(f, xs[1..]) == Keys(f, xs)[1..] && Keys(g, ys[1..]) == Keys(g, ys)[1..];
      if leq(f(x), f(xs[0])) {
        assert Keys(f, [x] + xs) == [f(x)] + Keys(f, xs) && Keys(g, [y] + ys) == [g(y)] + Keys(g, ys);
      } else {
        InsertFollowsKeys(leq, f, g, x, y, xs[1..], ys[1..]);
        var p, q := Insert(leq, f, x, xs[1..]), Insert(leq, g, y, ys[1..]);
        assert Keys(f, [xs[0]] + p) == [f(xs[0])] + Keys(f, p) && Keys(g, [ys[0]] + q) == [g(ys[0])] + Keys(g, q);
      }
    }
  }

  lemma {:induction false} SortFollowsKeys<K(!new), S, T>(leq: Order<K>, f: S -> K, g: T -> K, xs: seq<S>, ys: seq<T>)
    requires Keys(f, xs) == Keys(g, ys)
    ensures Keys(f, Sort(leq, f, xs)) == Keys(g, Sort(leq, g, ys))
  {
    assert |Keys(f, xs)| == |xs| && |Keys(g, ys)| == |ys|;
    if xs != [] {
      assert Keys(f, xs)[0] == f(xs[0]) && Keys(g, ys)[0] == g(ys[0]);
      assert Keys(f, xs[1..]) == Keys(f, xs)[1..] && Keys(g, ys[1..]) == Keys(g, ys)[1..];
      SortFollowsKeys(leq, f, g, xs[1..], ys[1..]);
      InsertFollowsKeys(leq, f, g, xs[0], ys[0], Sort(leq, f, xs[1..]), Sort(leq, g, ys[1..]));
    }
  }

  lemma {:induction false} InsertUndone<K(!new), T>(leq: Order<K>, key: T -> K, x: T, y: T, xs: seq<T>, ys: seq<T>)
    requires key(x) == key(y) && Keys(key, xs) == Keys(key, ys)
    requires Insert(leq, key, x, xs) == Insert(leq, key, y, ys)
    ensures x == y && xs == ys
  {
    assert |Keys(key, xs)| == |xs| && |Keys(key, ys)| == |ys|;
    if xs != [] {
      assert Keys(key, xs)[0] == key(xs[0]) && Keys(key, ys)[0] == key(ys[0]);
      assert Keys(key, xs[1..]) == Keys(key, xs)[1..] && Keys(key, ys[1..]) == Keys(key, ys)[1..];
      if leq(key(x), key(xs[0])) {
        assert ([x] + xs)[0] == x && ([y] + ys)[0] == y && ([x] + xs)[1..] == xs && ([y] + ys)[1..] == ys;
      } else {
        var p, q := Insert(leq, key, x, xs[1..]), Insert(leq, key, y, ys[1..]);
        assert ([xs[0]] + p)[0] == xs[0] && ([ys[0]] + q)[0] == ys[0] && ([xs[0]] + p)[1..] == p && ([ys[0]] + q)[1..] == q;
        InsertUndone(leq, key, x, y, xs[1..], ys[1..]);
        assert xs == [xs[0]] + xs[1..] && ys == [ys[0]] + ys[1..];
      }
    } else {
      assert [x][0] == x && [y][0] == y;
      assert Insert(leq, key, x, xs) == [x] && Insert(leq, key, y, ys) == [y];
    }
  }

  // So equal sorted lists with equal key sequences came from equal lists.
  lemma {:induction false} SortUndone<K(!new), T>(leq: Order<K>, key: T -> K, xs: seq<T>, ys: seq<T>)
    requires Keys(key, xs) == Keys(key, ys) && Sort(leq, key, xs) == Sort(leq, key, ys)
    ensures xs == ys
  {
    assert |Keys(key, xs)| == |xs| && |Keys(key, ys)| == |ys|;
    if xs != [] {
      assert Keys(key, xs)[0] == key(xs[0]) && Keys(key, ys)[0] == key(ys[0]);
      assert Keys(key, xs[1..]) == Keys(key, xs)[1..] && Keys(key, ys[1..]) == Keys(key, ys)[1..];
      SortFollowsKeys(leq, key, key, xs[1..], ys[1..]);
      InsertUndone(leq, key, xs[0], ys[0], Sort(leq, key, xs[1..]), Sort(leq, key, ys[1..]));
      SortUndone(leq, key, xs[1..], ys[1..]);
      assert xs == [xs[0]] + xs[1..] && ys == [ys[0]] + ys[1..];
    }
  }

  ghost predicate Apart<K(!new), T>(leq: Order<K>, key: T -> K, x: T, y: T) {
    x != y ==> !Tied(leq, key(x), key(y))
  }

  // Different elements have keys the collation tells apart.
  ghost predicate NoTies<K(!new), T(!new)>(leq: Order<K>, key: T -> K, xs: multiset<T>) {
    forall x, y {:trigger Apart(leq, key, x, y)} | x in xs && y in xs :: Apart(leq, key, x, y)
  }

  lemma SameHead<K(!new), T(!new)>(leq: Order<K>, key: T -> K, xs: seq<T>, ys: seq<T>)
    requires Sorted(leq, key, xs) && Sorted(leq, key, ys) && multiset(xs) == multiset(ys)
    requires NoTies(leq, key, multiset(xs)) && xs != [] && ys != [] && TotalOrder(leq)
    ensures xs[0] == ys[0]
  {
    assert xs[0] in multiset(ys) && ys[0] in multiset(xs);
    var i :| 0 <= i < |ys| && ys[i] == xs[0];
    var j :| 0 <= j < |xs| && xs[j] == ys[0];
    assert leq(key(ys[0]), key(ys[i])) && leq(key(xs[0]), key(xs[j]));
    assert xs[0] in multiset(xs) && ys[0] in multiset(xs);
    assert Apart(leq, key, xs[0], ys[0]);
  }

  lemma SameTails<T>(xs: seq<T>, ys: seq<T>)
    requires xs != [] && ys != [] && xs[0] == ys[0] && multiset(xs) == multiset(ys)
    ensures multiset(xs[1..]) == multiset(ys[1..])
  {
    BagTail(xs);
    BagTail(ys);
    Cancel(multiset(xs[1..]), multiset(ys[1..]), xs[0]);
  }

  lemma TailDoesNotTie<K(!new), T(!new)>(leq: Order<K>, key: T -> K, xs: seq<T>)
    requires xs != [] && NoTies(leq, key, multiset(xs))
    ensures NoTies(leq, key, multiset(xs[1..]))
  {
    BagTail(xs);
  }

  // Then only one sorted list holds them.
  lemma {:induction false} SortedIsUnique<K(!new), T(!new)>(leq: Order<K>, key: T -> K, xs: seq<T>, ys: seq<T>)
    requires Sorted(leq, key, xs) && Sorted(leq, key, ys) && multiset(xs) == multiset(ys)
    requires NoTies(leq, key, multiset(xs)) && TotalOrder(leq)
    ensures xs == ys
  {
    SameLength(xs, ys);
    if xs != [] {
      SameHead(leq, key, xs, ys);
      SameTails(xs, ys);
      TailDoesNotTie(leq, key, xs);
      SortedIsUnique(leq, key, xs[1..], ys[1..]);
      assert xs == [xs[0]] + xs[1..] && ys == [ys[0]] + ys[1..];
    }
  }

  lemma SortIgnoresOrder<K(!new), T(!new)>(leq: Order<K>, key: T -> K, xs: seq<T>, ys: seq<T>)
    requires multiset(xs) == multiset(ys) && NoTies(leq, key, multiset(xs)) && TotalOrder(leq)
    ensures Sort(leq, key, xs) == Sort(leq, key, ys)
  {
    SortPermutes(leq, key, xs);
    SortPermutes(leq, key, ys);
    SortSorts(leq, key, xs);
    SortSorts(leq, key, ys);
    SortedIsUnique(leq, key, Sort(leq, key, xs), Sort(leq, key, ys));
  }

  // ---------------------------------------------------------------------------
  // Elements the order ties keep their incoming order

  function Ties<K, T>(leq: Order<K>, key: T -> K, k: K, xs: seq<T>): seq<T> {
    if xs == [] then []
    else (if Tied(leq, key(xs[0]), k) then [xs[0]] else []) + Ties(leq, key, k, xs[1..])
  }

  lemma TiesFirst<K(!new), T>(leq: Order<K>, key: T -> K, k: K, x: T, xs: seq<T>)
    ensures Ties(leq, key, k, [x] + xs) == (if Tied(leq, key(x), k) then [x] else []) + Ties(leq, key, k, xs)
  {
    assert ([x] + xs)[1..] == xs;
  }

  lemma {:induction false} InsertIsStable<K(!new), T>(leq: Order<K>, key: T -> K, k: K, x: T, xs: seq<T>)
    requires TotalOrder(leq)
    ensures Ties(leq, key, k, Insert(leq, key, x, xs)) == (if Tied(leq, key(x), k) then [x] else []) + Ties(leq, key, k, xs)
  {
    if xs == [] || leq(key(x), key(xs[0])) {
      assert Insert(leq, key, x, xs) == [x] + xs;
      TiesFirst(leq, key, k, x, xs);
    } else {
      InsertIsStable(leq, key, k, x, xs[1..]);
      assert Insert(leq, key, x, xs) == [xs[0]] + Insert(leq, key, x, xs[1..]);
      TiesFirst(leq, key, k, xs[0], Insert(leq, key, x, xs[1..]));
      TiesFirst(leq, key, k, xs[0], xs[1..]);
      assert xs == [xs[0]] + xs[1..];
      TiedTogether(leq, key(x), key(xs[0]), k);
    }
  }

  lemma TiedTogether<K(!new)>(leq: Order<K>, a: K, b: K, k: K)
    requires TotalOrder(leq)
    ensures Tied(leq, a, k) && Tied(leq, b, k) ==> leq(a, b)
  {}

  lemma {:induction false} SortIsStable<K(!new), T>(leq: Order<K>, key: T -> K, k: K, xs: seq<T>)
    requires TotalOrder(leq)
    ensures Ties(leq, key, k, Sort(leq, key, xs)) == Ties(leq, key, k, xs)
  {
    if xs != [] {
      SortIsStable(leq, key, k, xs[1..]);
      InsertIsStable(leq, key, k, xs[0], Sort(leq, key, xs[1..]));
    }
  }

  // x before y, somewhere in the list.
  ghost predicate Comes<T>(xs: seq<T>, x: T, y: T) {
    exists i, j :: 0 <= i < j < |xs| && xs[i] == x && xs[j] == y
  }

  lemma {:induction false} InsertPlace<K(!new), T>(leq: Order<K>, key: T -> K, x: T, xs: seq<T>) returns (k: nat)
    ensures k <= |xs| && Insert(leq, key, x, xs) == xs[..k] + [x] + xs[k..]
    ensures forall i | 0 <= i < k :: !leq(key(x), key(xs[i]))
  {
    if xs == [] || leq(key(x), key(xs[0])) {
      k := 0;
    } else {
      var m := InsertPlace(leq, key, x, xs[1..]);
      k := m + 1;
      assert xs == [xs[0]] + xs[1..];
    }
  }

  // Of two elements the order ties, the one that came first is sorted first.
  lemma {:induction false} TiedKeepOrder<K(!new), T>(leq: Order<K>, key: T -> K, xs: seq<T>, i: nat, j: nat)
    requires i < j < |Sort(leq, key, xs)|
    requires Tied(leq, key(Sort(leq, key, xs)[i]), key(Sort(leq, key, xs)[j]))
    ensures Comes(xs, Sort(leq, key, xs)[i], Sort(leq, key, xs)[j])
  {
    var tail := Sort(leq, key, xs[1..]);
    var k := InsertPlace(leq, key, xs[0], tail);
    InsertedAt(xs[0], tail, k, i);
    InsertedAt(xs[0], tail, k, j);
    if i == k {
      SortPermutes(leq, key, xs[1..]);
      FirstComes(xs, tail, j - 1);
    } else {
      assert j != k;
      var a, b := if i < k then i else i - 1, if j < k then j else j - 1;
      TiedKeepOrder(leq, key, xs[1..], a, b);
      ComesLater(xs, tail[a], tail[b]);
    }
  }

  lemma InsertedAt<T>(x: T, xs: seq<T>, k: nat, i: nat)
    requires k <= |xs| && i <= |xs|
    ensures (xs[..k] + [x] + xs[k..])[i] == if i < k then xs[i] else if i == k then x else xs[i - 1]
  {}

  lemma FirstComes<T>(xs: seq<T>, ys: seq<T>, j: nat)
    requires xs != [] && multiset(ys) == multiset(xs[1..]) && j < |ys|
    ensures Comes(xs, xs[0], ys[j])
  {
    assert ys[j] in multiset(ys) && ys[j] in multiset(xs[1..]);
    var q :| 0 <= q < |xs[1..]| && xs[1..][q] == ys[j];
    assert xs[q + 1] == ys[j];
  }

  lemma ComesLater<T>(xs: seq<T>, x: T, y: T)
    requires xs != [] && Comes(xs[1..], x, y)
    ensures Comes(xs, x, y)
  {
    var i, j :| 0 <= i < j < |xs[1..]| && xs[1..][i] == x && xs[1..][j] == y;
    assert xs[i + 1] == x && xs[j + 1] == y;
  }

  // So two tied elements at the front show which of them came first.
  lemma TieShows<K(!new), T>(leq: Order<K>, key: T -> K, x: T, y: T, rest: seq<T>)
    requires TotalOrder(leq) && x != y && Tied(leq, key(x), key(y))
    ensures Sort(leq, key, [x, y] + rest) != Sort(leq, key, [y, x] + rest)
  {
    assert leq(key(x), key(x));
    assert [x, y] + rest == [x] + ([y] + rest) && [y, x] + rest == [y] + ([x] + rest);
    TiesFirst(leq, key, key(x), x, [y] + rest);
    TiesFirst(leq, key, key(x), y, [x] + rest);
    SortIsStable(leq, key, key(x), [x, y] + rest);
    SortIsStable(leq, key, key(x), [y, x] + rest);
    assert Ties(leq, key, key(x), [x, y] + rest)[0] == x && Ties(leq, key, key(x), [y, x] + rest)[0] == y;
  }

  ghost predicate OrderIgnored<K(!new), T(!new)>(leq: Order<K>, key: T -> K, xs: seq<T>) {
    forall ys {:trigger Sort(leq, key, ys)} | multiset(ys) == multiset(xs) :: Sort(leq, key, ys) == Sort(leq, key, xs)
  }

  // Sorting forgets the incoming order exactly when it ties no different elements.
  lemma OrderIgnoredIff<K(!new), T(!new)>(leq: Order<K>, key: T -> K, xs: seq<T>)
    requires TotalOrder(leq)
    ensures OrderIgnored(leq, key, xs) <==> NoTies(leq, key, multiset(xs))
  {
    if NoTies(leq, key, multiset(xs)) {
      forall ys | multiset(ys) == multiset(xs) ensures Sort(leq, key, ys) == Sort(leq, key, xs) {
        SortIgnoresOrder(leq, key, xs, ys);
      }
    } else {
      var x, y :| x in multiset(xs) && y in multiset(xs) && !Apart(leq, key, x, y);
      var rest := TwoFirst(xs, x, y);
      TieIsSeen(leq, key, xs, x, y, rest);
    }
  }

  lemma TieIsSeen<K(!new), T(!new)>(leq: Order<K>, key: T -> K, xs: seq<T>, x: T, y: T, rest: seq<T>)
    requires TotalOrder(leq) && x != y && Tied(leq, key(x), key(y)) && multiset([x, y] + rest) == multiset(xs)
    ensures !OrderIgnored(leq, key, xs)
  {
    SecondAnywhere(rest, x, y);
    TieShows(leq, key, x, y, rest);
  }
}
