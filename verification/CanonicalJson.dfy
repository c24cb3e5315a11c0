/** The law of the serialiser: equal strings exactly when the values mean the same,
    as long as the collation tells every two keys of an object apart. */
module CanonicalJson {
  import opened Bags
  import opened StableSort
  import opened Serialiser
  import opened JsonText

  // ---------------------------------------------------------------------------
  // Sorting the keys keeps the meaning

  // Every finite number is a numeral; nothing is said of keys.
  predicate Numerals(v: Json) {
    match v
    case Num(n) => Numeral(n)
    case Arr(items) => AllNumerals(items)
    case Obj(es) => EntriesNumerals(es)
    case _ => true
  }

  predicate AllNumerals(items: seq<Json>) {
    items != [] ==> Numerals(items[0]) && AllNumerals(items[1..])
  }

  predicate EntriesNumerals(es: seq<Entry<Json>>) {
    es != [] ==> Numerals(es[0].value) && EntriesNumerals(es[1..])
  }

  lemma {:induction false} WellFormedHasNumerals(v: Json)
    requires WellFormed(v)
    ensures Numerals(v)
  {
    match v {
      case Arr(items) => ItemsHaveNumerals(items);
      case Obj(es) => EntriesHaveNumerals(es);
      case _ =>
    }
  }

  lemma {:induction false} ItemsHaveNumerals(items: seq<Json>)
    requires AllWellFormed(items)
    ensures AllNumerals(items)
  {
    if items != [] {
      WellFormedHasNumerals(items[0]);
      ItemsHaveNumerals(items[1..]);
    }
  }

  lemma {:induction false} EntriesHaveNumerals(es: seq<Entry<Json>>)
    requires EntriesWellFormed(es)
    ensures EntriesNumerals(es)
  {
    if es != [] {
      WellFormedHasNumerals(es[0].value);
      EntriesHaveNumerals(es[1..]);
    }
  }

  lemma {:induction false} CanonIsPlain(leq: Order<string>, v: Json)
    requires Numerals(v)
    ensures Plain(Canon(leq, v))
  {
    match v {
      case Arr(items) => CanonItemsArePlain(leq, items);
      case Obj(es) => CanonEntriesArePlain(leq, es); SortStaysPlain(leq, CanonEntries(leq, es));
      case _ =>
    }
  }

  lemma {:induction false} CanonItemsArePlain(leq: Order<string>, items: seq<Json>)
    requires AllNumerals(items)
    ensures AllPlain(CanonItems(leq, items))
  {
    if items != [] {
      CanonIsPlain(leq, items[0]);
      CanonItemsArePlain(leq, items[1..]);
      assert CanonItems(leq, items)[1..] == CanonItems(leq, items[1..]);
    }
  }

  lemma {:induction false} CanonEntriesArePlain(leq: Order<string>, es: seq<Entry<Json>>)
    requires EntriesNumerals(es)
    ensures EntriesPlain(CanonEntries(leq, es))
  {
    if es != [] {
      CanonIsPlain(leq, es[0].value);
      CanonEntriesArePlain(leq, es[1..]);
      assert CanonEntries(leq, es)[1..] == CanonEntries(leq, es[1..]);
    }
  }

  lemma {:induction false} InsertStaysPlain(leq: Order<string>, e: Entry<Json>, es: seq<Entry<Json>>)
    requires Plain(e.value) && EntriesPlain(es)
    ensures EntriesPlain(Insert(leq, KeyOf, e, es))
  {
    if es == [] || leq(e.key, es[0].key) {
      assert ([e] + es)[1..] == es;
    } else {
      InsertStaysPlain(leq, e, es[1..]);
      var rest := Insert(leq, KeyOf, e, es[1..]);
      assert ([es[0]] + rest)[1..] == rest;
    }
  }

  lemma {:induction false} SortStaysPlain(leq: Order<string>, es: seq<Entry<Json>>)
    requires EntriesPlain(es)
    ensures EntriesPlain(Sort(leq, KeyOf, es))
  {
    if es != [] {
      SortStaysPlain(leq, es[1..]);
      InsertStaysPlain(leq, es[0], Sort(leq, KeyOf, es[1..]));
    }
  }

  lemma {:induction false} InsertKeepsFields(leq: Order<string>, e: Entry<Json>, es: seq<Entry<Json>>)
    requires e.key !in Fields(es) && Distinct(es)
    ensures Fields(Insert(leq, KeyOf, e, es)) == Fields(es)[e.key := Meaning(e.value)]
    ensures Distinct(Insert(leq, KeyOf, e, es))
  {
    if es == [] || leq(e.key, es[0].key) {
      assert ([e] + es)[1..] == es;
    } else {
      InsertKeepsFields(leq, e, es[1..]);
      var rest := Insert(leq, KeyOf, e, es[1..]);
      assert ([es[0]] + rest)[1..] == rest;
    }
  }

  lemma {:induction false} SortKeepsFields(leq: Order<string>, es: seq<Entry<Json>>)
    requires Distinct(es)
    ensures Fields(Sort(leq, KeyOf, es)) == Fields(es) && Distinct(Sort(leq, KeyOf, es))
  {
    if es != [] {
      SortKeepsFields(leq, es[1..]);
      InsertKeepsFields(leq, es[0], Sort(leq, KeyOf, es[1..]));
    }
  }

  lemma {:induction false} CanonKeepsMeaning(leq: Order<string>, v: Json)
    requires WellFormed(v)
    ensures Meaning(Canon(leq, v)) == Meaning(v)
  {
    match v {
      case Arr(items) => CanonKeepsItems(leq, items);
      case Obj(es) => CanonKeepsFields(leq, es); SortKeepsFields(leq, CanonEntries(leq, es));
      case _ =>
    }
  }

  lemma {:induction false} CanonKeepsItems(leq: Order<string>, items: seq<Json>)
    requires AllWellFormed(items)
    ensures Meanings(CanonItems(leq, items)) == Meanings(items)
  {
    if items != [] {
      CanonKeepsMeaning(leq, items[0]);
      CanonKeepsItems(leq, items[1..]);
      assert CanonItems(leq, items)[1..] == CanonItems(leq, items[1..]);
    }
  }

  lemma {:induction false} CanonKeepsFields(leq: Order<string>, es: seq<Entry<Json>>)
    requires Distinct(es) && EntriesWellFormed(es)
    ensures Fields(CanonEntries(leq, es)) == Fields(es) && Distinct(CanonEntries(leq, es))
  {
    if es != [] {
      CanonKeepsMeaning(leq, es[0].value);
      CanonKeepsFields(leq, es[1..]);
      assert CanonEntries(leq, es)[1..] == CanonEntries(leq, es[1..]);
    }
  }

  // ---------------------------------------------------------------------------
  // The text is JSON: it reads as the value, its keys ascending at every depth

  ghost predicate KeysAscend(leq: Order<string>, v: Json) {
    match v
    case Arr(items) => forall k: nat | k < |items| :: KeysAscend(leq, items[k])
    case Obj(es) => Sorted(leq, KeyOf, es) && forall k: nat | k < |es| :: KeysAscend(leq, es[k].value)
    case _ => true
  }

  lemma {:induction false} CanonAscends(leq: Order<string>, v: Json)
    requires TotalOrder(leq)
    ensures KeysAscend(leq, Canon(leq, v))
  {
    match v {
      case Arr(items) => ItemsAscend(leq, items);
      case Obj(es) =>
        EntriesAscend(leq, es);
        var cs := CanonEntries(leq, es);
        SortSorts(leq, KeyOf, cs);
        SortPermutes(leq, KeyOf, cs);
        forall k: nat | k < |Sort(leq, KeyOf, cs)| ensures KeysAscend(leq, Sort(leq, KeyOf, cs)[k].value) {
          assert Sort(leq, KeyOf, cs)[k] in multiset(cs);
        }
      case _ =>
    }
  }

  lemma {:induction false} ItemsAscend(leq: Order<string>, items: seq<Json>)
    requires TotalOrder(leq)
    ensures forall k: nat | k < |CanonItems(leq, items)| :: KeysAscend(leq, CanonItems(leq, items)[k])
  {
    if items != [] {
      CanonAscends(leq, items[0]);
      ItemsAscend(leq, items[1..]);
    }
  }

  lemma {:induction false} EntriesAscend(leq: Order<string>, es: seq<Entry<Json>>)
    requires TotalOrder(leq)
    ensures forall k: nat | k < |CanonEntries(leq, es)| :: KeysAscend(leq, CanonEntries(leq, es)[k].value)
  {
    if es != [] {
      CanonAscends(leq, es[0].value);
      EntriesAscend(leq, es[1..]);
    }
  }

  lemma TextReadsBack(leq: Order<string>, v: Json)
    requires TotalOrder(leq) && WellFormed(v)
    ensures var w := Parse(StableJson(leq, v));
      w.Some? && Meaning(w.value) == Meaning(v) && KeysAscend(leq, w.value)
  {
    WellFormedHasNumerals(v);
    CanonIsPlain(leq, v);
    StableJsonWritesCanon(leq, v);
    var text := Write(Canon(leq, v));
    WriteIsRead(Canon(leq, v), "");
    assert text + "" == text;
    CanonKeepsMeaning(leq, v);
    CanonAscends(leq, v);
  }

  // The text determines the value up to the order of its keys.
  lemma EqualStringsSameCanon(leq: Order<string>, a: Json, b: Json)
    requires Numerals(a) && Numerals(b) && StableJson(leq, a) == StableJson(leq, b)
    ensures Canon(leq, a) == Canon(leq, b)
  {
    StableJsonWritesCanon(leq, a);
    StableJsonWritesCanon(leq, b);
    CanonIsPlain(leq, a);
    CanonIsPlain(leq, b);
    WriteUndone(Canon(leq, a), Canon(leq, b), "", "");
  }

  // Equal strings mean equal values, whatever the collation does.
  lemma EqualStringsMeanTheSame(leq: Order<string>, a: Json, b: Json)
    requires WellFormed(a) && WellFormed(b) && StableJson(leq, a) == StableJson(leq, b)
    ensures Canon(leq, a) == Canon(leq, b) && Meaning(a) == Meaning(b)
  {
    WellFormedHasNumerals(a);
    WellFormedHasNumerals(b);
    EqualStringsSameCanon(leq, a, b);
    CanonKeepsMeaning(leq, a);
    CanonKeepsMeaning(leq, b);
  }

  // ---------------------------------------------------------------------------
  // Values that mean the same sort to the same text

  lemma {:induction false} FindField(es: seq<Entry<Json>>, key: string) returns (j: nat)
    requires key in Fields(es)
    ensures j < |es| && es[j].key == key && Fields(es)[key] == Meaning(es[j].value)
  {
    if es[0].key == key {
      j := 0;
    } else {
      var k := FindField(es[1..], key);
      j := k + 1;
    }
  }

  lemma {:induction false} RemoveField(es: seq<Entry<Json>>, j: nat)
    requires Distinct(es) && j < |es|
    ensures es[j].key in Fields(es) && Fields(es)[es[j].key] == Meaning(es[j].value)
    ensures Distinct(Without(es, j)) && Fields(Without(es, j)) == Fields(es) - {es[j].key}
  {
    if j == 0 {
      assert Without(es, 0) == es[1..];
    } else {
      RemoveField(es[1..], j - 1);
      WithoutTail(es, j);
      RemoveFromMap(Fields(es[1..]), es[0].key, Meaning(es[0].value), es[j].key);
    }
  }

  lemma {:induction false} DistinctKeys(es: seq<Entry<Json>>, i: nat, j: nat)
    requires Distinct(es) && i < j < |es|
    ensures es[i].key != es[j].key
  {
    if i == 0 {
      RemoveField(es[1..], j - 1);
    } else {
      DistinctKeys(es[1..], i - 1, j - 1);
    }
  }

  lemma RemoveFromMap<K, V>(m: map<K, V>, k: K, v: V, gone: K)
    requires k != gone
    ensures m[k := v] - {gone} == (m - {gone})[k := v]
  {}

  lemma WithoutTail(es: seq<Entry<Json>>, j: nat)
    requires 0 < j < |es|
    ensures Without(es, j) != [] && Without(es, j)[0] == es[0] && Without(es, j)[1..] == Without(es[1..], j - 1)
  {}

  lemma {:induction false} CanonEntry(leq: Order<string>, es: seq<Entry<Json>>, j: nat)
    requires j < |es|
    ensures |CanonEntries(leq, es)| == |es|
    ensures CanonEntries(leq, es)[j] == Entry(es[j].key, Canon(leq, es[j].value))
  {
    CanonEntriesLength(leq, es);
    if j > 0 {
      CanonEntry(leq, es[1..], j - 1);
      assert CanonEntries(leq, es)[j] == CanonEntries(leq, es[1..])[j - 1];
    }
  }

  lemma CanonFirst(leq: Order<string>, e: Entry<Json>, es: seq<Entry<Json>>)
    ensures CanonEntries(leq, [e] + es) == [Entry(e.key, Canon(leq, e.value))] + CanonEntries(leq, es)
  {
    assert ([e] + es)[1..] == es;
  }

  lemma WithoutFirst<T>(x: T, xs: seq<T>, j: nat)
    requires j < |xs|
    ensures Without([x] + xs, j + 1) == [x] + Without(xs, j)
  {}

  lemma {:induction false} CanonWithout(leq: Order<string>, es: seq<Entry<Json>>, j: nat)
    requires j < |es| == |CanonEntries(leq, es)|
    ensures CanonEntries(leq, Without(es, j)) == Without(CanonEntries(leq, es), j)
  {
    var e, rest := es[0], es[1..];
    assert es == [e] + rest;
    CanonFirst(leq, e, rest);
    if j == 0 {
      assert Without(es, 0) == rest;
    } else {
      CanonEntriesLength(leq, rest);
      CanonWithout(leq, rest, j - 1);
      WithoutFirst(e, rest, j - 1);
      WithoutFirst(Entry(e.key, Canon(leq, e.value)), CanonEntries(leq, rest), j - 1);
      CanonFirst(leq, e, Without(rest, j - 1));
    }
  }

  lemma {:induction false} CanonEntriesLength(leq: Order<string>, es: seq<Entry<Json>>)
    ensures |CanonEntries(leq, es)| == |es|
  {
    if es != [] { CanonEntriesLength(leq, es[1..]); }
  }

  lemma CanonBag(leq: Order<string>, es: seq<Entry<Json>>, j: nat)
    requires j < |es|
    ensures multiset(CanonEntries(leq, es)) ==
      multiset(CanonEntries(leq, Without(es, j))) + multiset{Entry(es[j].key, Canon(leq, es[j].value))}
  {
    CanonEntry(leq, es, j);
    CanonWithout(leq, es, j);
    BagWithout(CanonEntries(leq, es), j);
  }

  lemma {:induction false} WithoutKeepsEntries(leq: Order<string>, es: seq<Entry<Json>>, j: nat)
    requires j < |es| && EntriesWellFormed(es) && EntriesKeysApart(leq, es)
    ensures EntriesWellFormed(Without(es, j)) && EntriesKeysApart(leq, Without(es, j))
    ensures WellFormed(es[j].value) && KeysApart(leq, es[j].value)
  {
    if j == 0 {
      assert Without(es, 0) == es[1..];
    } else {
      WithoutKeepsEntries(leq, es[1..], j - 1);
      var rest := Without(es[1..], j - 1);
      assert Without(es, j) == [es[0]] + rest;
      assert ([es[0]] + rest)[1..] == rest;
    }
  }

  lemma {:induction false} SameMeaningSameCanon(leq: Order<string>, a: Json, b: Json)
    requires TotalOrder(leq) && WellFormed(a) && WellFormed(b) && KeysApart(leq, a) && KeysApart(leq, b)
    requires Meaning(a) == Meaning(b)
    ensures Canon(leq, a) == Canon(leq, b)
    decreases a, 0
  {
    match a {
      case Arr(items) => SameItemsSameCanon(leq, items, b.items);
      case Obj(es) =>
        SameFieldsSameBag(leq, es, b.entries);
        NoTiesInCanon(leq, es);
        SortIgnoresOrder(leq, KeyOf, CanonEntries(leq, es), CanonEntries(leq, b.entries));
      case _ =>
    }
  }

  lemma NoTiesInCanon(leq: Order<string>, es: seq<Entry<Json>>)
    requires forall i, j | 0 <= i < |es| && 0 <= j < |es| && i != j :: !Tied(leq, es[i].key, es[j].key)
    ensures NoTies(leq, KeyOf, multiset(CanonEntries(leq, es)))
  {
    var ce := CanonEntries(leq, es);
    CanonEntriesLength(leq, es);
    forall x, y | x in multiset(ce) && y in multiset(ce) ensures Apart(leq, KeyOf, x, y) {
      var i := IndexIn(ce, x);
      var j := IndexIn(ce, y);
      CanonEntry(leq, es, i);
      CanonEntry(leq, es, j);
    }
  }

  lemma {:induction false} SameItemsSameCanon(leq: Order<string>, xs: seq<Json>, ys: seq<Json>)
    requires TotalOrder(leq) && AllWellFormed(xs) && AllWellFormed(ys) && AllKeysApart(leq, xs) && AllKeysApart(leq, ys)
    requires Meanings(xs) == Meanings(ys)
    ensures CanonItems(leq, xs) == CanonItems(leq, ys)
    decreases xs, 0
  {
    if xs != [] && ys != [] {
      assert Meanings(xs)[0] == Meaning(xs[0]) && Meanings(ys)[0] == Meaning(ys[0]);
      assert Meanings(xs)[1..] == Meanings(xs[1..]) && Meanings(ys)[1..] == Meanings(ys[1..]);
      SameMeaningSameCanon(leq, xs[0], ys[0]);
      SameItemsSameCanon(leq, xs[1..], ys[1..]);
    }
  }

  lemma NoFields(es: seq<Entry<Json>>)
    ensures Fields(es) == map[] ==> es == []
  {
    if es != [] { assert es[0].key in Fields(es); }
  }

  lemma {:induction false} SameFieldsSameBag(leq: Order<string>, xs: seq<Entry<Json>>, ys: seq<Entry<Json>>)
    requires TotalOrder(leq) && EntriesWellFormed(xs) && EntriesWellFormed(ys)
    requires EntriesKeysApart(leq, xs) && EntriesKeysApart(leq, ys)
    requires Distinct(xs) && Distinct(ys) && Fields(xs) == Fields(ys)
    ensures multiset(CanonEntries(leq, xs)) == multiset(CanonEntries(leq, ys))
    decreases xs, 0
  {
    if xs == [] {
      NoFields(ys);
    } else {
      var key := xs[0].key;
      var j := FindField(ys, key);
      RemoveField(xs, 0);
      RemoveField(ys, j);
      assert Without(xs, 0) == xs[1..];
      WithoutKeepsEntries(leq, ys, j);
      SameMeaningSameCanon(leq, xs[0].value, ys[j].value);
      SameFieldsSameBag(leq, xs[1..], Without(ys, j));
      CanonBag(leq, xs, 0);
      CanonBag(leq, ys, j);
    }
  }

  // ---------------------------------------------------------------------------
  // Whether the collation tells the keys apart is a matter of the meaning alone

  lemma {:induction false} KeysApartFollows(leq: Order<string>, a: Json, b: Json)
    requires WellFormed(a) && WellFormed(b) && KeysApart(leq, a) && Meaning(a) == Meaning(b)
    ensures KeysApart(leq, b)
    decreases a, 0
  {
    match a {
      case Arr(items) => ItemsApartFollow(leq, items, b.items);
      case Obj(es) =>
        FieldsAre(b.entries);
        EntriesApartFollow(leq, es, b.entries);
        forall i, j | 0 <= i < |b.entries| && 0 <= j < |b.entries| && i != j
          ensures !Tied(leq, b.entries[i].key, b.entries[j].key)
        {
          TieFollows(leq, es, b.entries, i, j);
        }
      case _ =>
    }
  }

  // Every entry is where the map says, under its own key.
  predicate Holds(fields: map<string, Value>, es: seq<Entry<Json>>) {
    forall k | 0 <= k < |es| :: es[k].key in fields && fields[es[k].key] == Meaning(es[k].value)
  }

  lemma FieldsAre(es: seq<Entry<Json>>)
    requires Distinct(es)
    ensures Holds(Fields(es), es)
  {
    forall k | 0 <= k < |es| ensures es[k].key in Fields(es) && Fields(es)[es[k].key] == Meaning(es[k].value) {
      RemoveField(es, k);
    }
  }

  lemma TieFollows(leq: Order<string>, xs: seq<Entry<Json>>, ys: seq<Entry<Json>>, i: nat, j: nat)
    requires Distinct(ys) && Holds(Fields(xs), ys) && i < |ys| && j < |ys| && i != j
    requires forall i, j | 0 <= i < |xs| && 0 <= j < |xs| && i != j :: !Tied(leq, xs[i].key, xs[j].key)
    ensures !Tied(leq, ys[i].key, ys[j].key)
  {
    DistinctKeys(ys, if i < j then i else j, if i < j then j else i);
    var p := FindField(xs, ys[i].key);
    var q := FindField(xs, ys[j].key);
  }

  lemma {:induction false} ItemsApartFollow(leq: Order<string>, xs: seq<Json>, ys: seq<Json>)
    requires AllWellFormed(xs) && AllWellFormed(ys) && AllKeysApart(leq, xs) && Meanings(xs) == Meanings(ys)
    ensures AllKeysApart(leq, ys)
    decreases xs, 0
  {
    if xs != [] && ys != [] {
      assert Meanings(xs)[0] == Meaning(xs[0]) && Meanings(ys)[0] == Meaning(ys[0]);
      assert Meanings(xs)[1..] == Meanings(xs[1..]) && Meanings(ys)[1..] == Meanings(ys[1..]);
      KeysApartFollows(leq, xs[0], ys[0]);
      ItemsApartFollow(leq, xs[1..], ys[1..]);
    }
  }

  lemma {:induction false} EntriesApartFollow(leq: Order<string>, xs: seq<Entry<Json>>, ys: seq<Entry<Json>>)
    requires EntriesWellFormed(xs) && EntriesKeysApart(leq, xs) && EntriesWellFormed(ys) && Holds(Fields(xs), ys)
    ensures EntriesKeysApart(leq, ys)
    decreases xs, |ys|
  {
    if ys != [] {
      var j := FindField(xs, ys[0].key);
      WithoutKeepsEntries(leq, xs, j);
      KeysApartFollows(leq, xs[j].value, ys[0].value);
      EntriesApartFollow(leq, xs, ys[1..]);
    }
  }

  // Canonical and injective: the strings are equal exactly when the values are
  // equal up to the order of keys.
  lemma StringsEqualIffSameMeaning(leq: Order<string>, a: Json, b: Json)
    requires TotalOrder(leq) && WellFormed(a) && WellFormed(b) && KeysApart(leq, a)
    ensures StableJson(leq, a) == StableJson(leq, b) <==> Meaning(a) == Meaning(b)
  {
    if StableJson(leq, a) == StableJson(leq, b) { EqualStringsMeanTheSame(leq, a, b); }
    if Meaning(a) == Meaning(b) {
      KeysApartFollows(leq, a, b);
      SameMeaningSameCanon(leq, a, b);
      StableJsonWritesCanon(leq, a);
      StableJsonWritesCanon(leq, b);
    }
  }

  // ---------------------------------------------------------------------------
  // Keys the collation ties keep their incoming order, and it shows

  lemma {:induction false} FirstTie(leq: Order<string>, key: string, es: seq<Entry<Json>>, i: nat) returns (m: nat)
    requires i < |es| && Tied(leq, es[i].key, key)
    ensures m <= i && Ties(leq, KeyOf, key, es) != [] && Ties(leq, KeyOf, key, es)[0] == es[m]
  {
    if Tied(leq, es[0].key, key) {
      m := 0;
    } else {
      var k := FirstTie(leq, key, es[1..], i - 1);
      m := k + 1;
    }
  }

  function MovedToFront(es: seq<Entry<Json>>, j: nat): seq<Entry<Json>>
    requires j < |es|
  {
    [es[j]] + Without(es, j)
  }

  // An object with two tied keys has another order of its keys that serialises
  // differently.
  lemma TiedKeysShowTheirOrder(leq: Order<string>, es: seq<Entry<Json>>, i: nat, j: nat)
    requires TotalOrder(leq) && WellFormed(Obj(es)) && i < j < |es| && Tied(leq, es[i].key, es[j].key)
    ensures Reordered(leq, Obj(es), Obj(MovedToFront(es, j)))
  {
    var fs := MovedToFront(es, j);
    var key := es[j].key;
    RemoveField(es, j);
    assert fs[1..] == Without(es, j);
    WithoutStaysWellFormed(es, j);
    assert Fields(fs) == Fields(es);
    SortIsStable(leq, KeyOf, key, CanonEntries(leq, es));
    SortIsStable(leq, KeyOf, key, CanonEntries(leq, fs));
    CanonEntry(leq, es, i);
    var m := FirstTie(leq, key, CanonEntries(leq, es), i);
    CanonEntry(leq, es, m);
    CanonEntry(leq, fs, 0);
    var n := FirstTie(leq, key, CanonEntries(leq, fs), 0);
    DistinctKeys(es, m, j);
  }

  lemma {:induction false} WithoutStaysWellFormed(es: seq<Entry<Json>>, j: nat)
    requires j < |es| && EntriesWellFormed(es)
    ensures EntriesWellFormed(Without(es, j)) && WellFormed(es[j].value)
  {
    if j == 0 {
      assert Without(es, 0) == es[1..];
    } else {
      WithoutStaysWellFormed(es[1..], j - 1);
      var rest := Without(es[1..], j - 1);
      assert Without(es, j) == [es[0]] + rest;
      assert ([es[0]] + rest)[1..] == rest;
    }
  }

  // The same value, sorted to something else.
  predicate Reordered(leq: Order<string>, a: Json, b: Json) {
    WellFormed(b) && Meaning(b) == Meaning(a) && Canon(leq, b) != Canon(leq, a)
  }

  // A tie anywhere inside a value gives the whole value such an order.
  lemma {:induction false} Reorder(leq: Order<string>, a: Json) returns (b: Json)
    requires TotalOrder(leq) && WellFormed(a) && !KeysApart(leq, a)
    ensures Reordered(leq, a, b)
    decreases a, 0
  {
    match a {
      case Arr(items) =>
        var others := ReorderItems(leq, items);
        b := Arr(others);
      case Obj(es) =>
        if i, j :| 0 <= i < |es| && 0 <= j < |es| && i != j && Tied(leq, es[i].key, es[j].key) {
          var p, q := if i < j then i else j, if i < j then j else i;
          TiedKeysShowTheirOrder(leq, es, p, q);
          b := Obj(MovedToFront(es, q));
        } else {
          var fs := ReorderEntries(leq, es);
          SortTells(leq, es, fs);
          b := Obj(fs);
        }
    }
  }

  lemma {:induction false} ReorderItems(leq: Order<string>, items: seq<Json>) returns (others: seq<Json>)
    requires TotalOrder(leq) && AllWellFormed(items) && !AllKeysApart(leq, items)
    ensures AllWellFormed(others) && Meanings(others) == Meanings(items) && CanonItems(leq, others) != CanonItems(leq, items)
    decreases items, 0
  {
    if !KeysApart(leq, items[0]) {
      var b := Reorder(leq, items[0]);
      others := [b] + items[1..];
      assert CanonItems(leq, others)[0] != CanonItems(leq, items)[0];
    } else {
      var rest := ReorderItems(leq, items[1..]);
      others := [items[0]] + rest;
      assert others[1..] == rest;
      assert CanonItems(leq, others)[1..] == CanonItems(leq, rest) && CanonItems(leq, items)[1..] == CanonItems(leq, items[1..]);
    }
  }

  lemma {:induction false} ReorderEntries(leq: Order<string>, es: seq<Entry<Json>>) returns (fs: seq<Entry<Json>>)
    requires TotalOrder(leq) && EntriesWellFormed(es) && Distinct(es) && !EntriesKeysApart(leq, es)
    ensures EntriesWellFormed(fs) && Distinct(fs) && Fields(fs) == Fields(es) && SameKeys(es, fs)
    ensures CanonEntries(leq, fs) != CanonEntries(leq, es)
    decreases es, 0
  {
    if !KeysApart(leq, es[0].value) {
      var b := Reorder(leq, es[0].value);
      fs := [Entry(es[0].key, b)] + es[1..];
      assert CanonEntries(leq, fs)[0] != CanonEntries(leq, es)[0];
    } else {
      var rest := ReorderEntries(leq, es[1..]);
      fs := [es[0]] + rest;
      assert fs[1..] == rest;
      assert CanonEntries(leq, fs)[1..] == CanonEntries(leq, rest);
      assert CanonEntries(leq, es)[1..] == CanonEntries(leq, es[1..]);
      SameKeysTail(es, fs);
    }
  }

  predicate SameKeys(es: seq<Entry<Json>>, fs: seq<Entry<Json>>) {
    |es| == |fs| && forall k | 0 <= k < |es| :: es[k].key == fs[k].key
  }

  lemma SameKeysTail(es: seq<Entry<Json>>, fs: seq<Entry<Json>>)
    requires es != [] && fs != [] && es[0].key == fs[0].key && SameKeys(es[1..], fs[1..])
    ensures SameKeys(es, fs)
  {
    forall k | 0 < k < |es| ensures es[k].key == fs[k].key { assert es[1..][k - 1].key == fs[1..][k - 1].key; }
  }

  // Different values under the same keys stay different when sorted.
  lemma SortTells(leq: Order<string>, es: seq<Entry<Json>>, fs: seq<Entry<Json>>)
    requires SameKeys(es, fs) && CanonEntries(leq, es) != CanonEntries(leq, fs)
    ensures Sort(leq, KeyOf, CanonEntries(leq, es)) != Sort(leq, KeyOf, CanonEntries(leq, fs))
  {
    var p, q := CanonEntries(leq, es), CanonEntries(leq, fs);
    CanonEntriesLength(leq, es);
    CanonEntriesLength(leq, fs);
    forall k | 0 <= k < |es| ensures KeyOf(p[k]) == KeyOf(q[k]) {
      CanonEntry(leq, es, k);
      CanonEntry(leq, fs, k);
    }
    SameKeyLists(p, q);
    if Sort(leq, KeyOf, p) == Sort(leq, KeyOf, q) { SortUndone(leq, KeyOf, p, q); }
  }

  lemma SameKeyLists(p: seq<Entry<Json>>, q: seq<Entry<Json>>)
    requires |p| == |q| && forall k | 0 <= k < |p| :: KeyOf(p[k]) == KeyOf(q[k])
    ensures Keys(KeyOf, p) == Keys(KeyOf, q)
  {}

  ghost predicate TextIsCanonical(leq: Order<string>, a: Json) {
    forall b | WellFormed(b) && Meaning(b) == Meaning(a) :: StableJson(leq, b) == StableJson(leq, a)
  }

  // A value has one text, whatever the order of its keys, exactly when the collation
  // tells the keys of each object in it apart.
  lemma CanonicalIffKeysApart(leq: Order<string>, a: Json)
    requires TotalOrder(leq) && WellFormed(a)
    ensures TextIsCanonical(leq, a) <==> KeysApart(leq, a)
  {
    if KeysApart(leq, a) {
      forall b | WellFormed(b) && Meaning(b) == Meaning(a) ensures StableJson(leq, b) == StableJson(leq, a) {
        StringsEqualIffSameMeaning(leq, a, b);
      }
    } else {
      var b := Reorder(leq, a);
      if StableJson(leq, b) == StableJson(leq, a) { EqualStringsMeanTheSame(leq, b, a); }
    }
  }
}
