/** The canonical serialiser behind the snapshot digests: objects are written with
    their keys in collation order, so that equal values give equal strings, and
    the text can be read only one way, so that equal strings mean equal values. */
module Serialiser {
  import opened StableSort

  datatype Entry<+T> = Entry(key: string, value: T)

  // A finite number is its shortest decimal; NonFinite is NaN or an infinity.
  datatype Json =
    | Null
    | Bool(b: bool)
    | Num(numeral: string)
    | NonFinite
    | Str(s: string)
    | Arr(items: seq<Json>)
    | Obj(entries: seq<Entry<Json>>)

  function KeyOf<T>(e: Entry<T>): string { e.key }

  // ---------------------------------------------------------------------------
  // JSON.stringify on scalars

  function Hex(d: nat): char
    requires d < 16
  {
    if d < 10 then '0' + d as char else 'a' + (d - 10) as char
  }

  // The letter of a short escape, if the character has one.
  function Short(c: char): char {
    if c == '"' then '"' else if c == '\\' then '\\' else if c == '\U{0008}' then 'b'
    else if c == '\t' then 't' else if c == '\n' then 'n' else if c == '\U{000C}' then 'f'
    else if c == '\r' then 'r' else ' '
  }

  function Escape(c: char): string {
    if Short(c) != ' ' then ['\\', Short(c)]
    else if c < ' ' then ['\\', 'u', '0', '0', Hex(c as nat / 16), Hex(c as nat % 16)]
    else [c]
  }

  function EscapeAll(s: string): string {
    if s == "" then "" else Escape(s[0]) + EscapeAll(s[1..])
  }

  function Quote(s: string): string {
    "\"" + (EscapeAll(s) + "\"")
  }

  function Join(parts: seq<string>): string {
    if parts == [] then "" else if |parts| == 1 then parts[0] else parts[0] + ("," + Join(parts[1..]))
  }

  function Pairs(es: seq<Entry<string>>): seq<string> {
    seq(|es|, k requires 0 <= k < |es| => Quote(es[k].key) + (":" + es[k].value))
  }

  // ---------------------------------------------------------------------------
  // The serialiser

  function StableJson(leq: Order<string>, v: Json): string {
    match v
    case Arr(items) => "[" + (Join(StableItems(leq, items)) + "]")
    case Obj(es) => "{" + (Join(Pairs(Sort(leq, KeyOf, StableEntries(leq, es)))) + "}")
    case NonFinite => "null"
    case _ => Scalar(v)
  }

  function Scalar(v: Json): string
    requires !v.Arr? && !v.Obj?
  {
    match v
    case Null => "null"
    case Bool(b) => if b then "true" else "false"
    case Num(n) => n
    case NonFinite => "null"
    case Str(s) => Quote(s)
  }

  function StableItems(leq: Order<string>, items: seq<Json>): seq<string> {
    if items == [] then [] else [StableJson(leq, items[0])] + StableItems(leq, items[1..])
  }

  function StableEntries(leq: Order<string>, es: seq<Entry<Json>>): seq<Entry<string>> {
    if es == [] then [] else [Entry(es[0].key, StableJson(leq, es[0].value))] + StableEntries(leq, es[1..])
  }

  // ---------------------------------------------------------------------------
  // What a value means, keys in no order

  datatype Value =
    | VNull
    | VBool(b: bool)
    | VNum(numeral: string)
    | VStr(s: string)
    | VArr(items: seq<Value>)
    | VObj(fields: map<string, Value>)

  function Meaning(v: Json): Value {
    match v
    case Null => VNull
    case Bool(b) => VBool(b)
    case Num(n) => VNum(n)
    case NonFinite => VNull
    case Str(s) => VStr(s)
    case Arr(items) => VArr(Meanings(items))
    case Obj(es) => VObj(Fields(es))
  }

  function Meanings(items: seq<Json>): seq<Value> {
    if items == [] then [] else [Meaning(items[0])] + Meanings(items[1..])
  }

  function Fields(es: seq<Entry<Json>>): map<string, Value> {
    if es == [] then map[] else Fields(es[1..])[es[0].key := Meaning(es[0].value)]
  }

  predicate NumberChar(c: char) {
    '0' <= c <= '9' || c == '-' || c == '+' || c == '.' || c == 'e'
  }

  predicate Numeral(n: string) {
    n != "" && ('0' <= n[0] <= '9' || n[0] == '-') && forall k | 0 <= k < |n| :: NumberChar(n[k])
  }

  predicate Distinct(es: seq<Entry<Json>>) {
    es != [] ==> es[0].key !in Fields(es[1..]) && Distinct(es[1..])
  }

  // Values as the runtime holds them: numerals are numerals, keys are distinct.
  predicate WellFormed(v: Json) {
    match v
    case Num(n) => Numeral(n)
    case Arr(items) => AllWellFormed(items)
    case Obj(es) => Distinct(es) && EntriesWellFormed(es)
    case _ => true
  }

  predicate AllWellFormed(items: seq<Json>) {
    items != [] ==> WellFormed(items[0]) && AllWellFormed(items[1..])
  }

  predicate EntriesWellFormed(es: seq<Entry<Json>>) {
    es != [] ==> WellFormed(es[0].value) && EntriesWellFormed(es[1..])
  }

  // The collation tells all keys of every object apart.
  ghost predicate KeysApart(leq: Order<string>, v: Json) {
    match v
    case Arr(items) => AllKeysApart(leq, items)
    case Obj(es) =>
      && (forall i, j | 0 <= i < |es| && 0 <= j < |es| && i != j :: !Tied(leq, es[i].key, es[j].key))
      && EntriesKeysApart(leq, es)
    case _ => true
  }

  ghost predicate AllKeysApart(leq: Order<string>, items: seq<Json>) {
    items != [] ==> KeysApart(leq, items[0]) && AllKeysApart(leq, items[1..])
  }

  ghost predicate EntriesKeysApart(leq: Order<string>, es: seq<Entry<Json>>) {
    es != [] ==> KeysApart(leq, es[0].value) && EntriesKeysApart(leq, es[1..])
  }

  // ---------------------------------------------------------------------------
  // Serialising is sorting the keys, then writing in order

  function Canon(leq: Order<string>, v: Json): Json {
    match v
    case NonFinite => Null
    case Arr(items) => Arr(CanonItems(leq, items))
    case Obj(es) => Obj(Sort(leq, KeyOf, CanonEntries(leq, es)))
    case _ => v
  }

  function CanonItems(leq: Order<string>, items: seq<Json>): seq<Json> {
    if items == [] then [] else [Canon(leq, items[0])] + CanonItems(leq, items[1..])
  }

  function CanonEntries(leq: Order<string>, es: seq<Entry<Json>>): seq<Entry<Json>> {
    if es == [] then [] else [Entry(es[0].key, Canon(leq, es[0].value))] + CanonEntries(leq, es[1..])
  }

  function Write(v: Json): string {
    match v
    case Arr(items) => "[" + (Join(WriteItems(items)) + "]")
    case Obj(es) => "{" + (Join(Pairs(WriteEntries(es))) + "}")
    case _ => Scalar(v)
  }

  function WriteItems(items: seq<Json>): seq<string> {
    if items == [] then [] else [Write(items[0])] + WriteItems(items[1..])
  }

  function WriteEntries(es: seq<Entry<Json>>): seq<Entry<string>> {
    if es == [] then [] else [Entry(es[0].key, Write(es[0].value))] + WriteEntries(es[1..])
  }

  lemma {:induction false} InsertWrites(leq: Order<string>, e: Entry<Json>, es: seq<Entry<Json>>)
    ensures WriteEntries(Insert(leq, KeyOf, e, es)) == Insert(leq, KeyOf, Entry(e.key, Write(e.value)), WriteEntries(es))
  {
    if es == [] || leq(e.key, es[0].key) {
      assert ([e] + es)[1..] == es;
    } else {
      InsertWrites(leq, e, es[1..]);
      var rest := Insert(leq, KeyOf, e, es[1..]);
      assert ([es[0]] + rest)[1..] == rest;
      assert WriteEntries(es)[1..] == WriteEntries(es[1..]);
    }
  }

  lemma {:induction false} SortWrites(leq: Order<string>, es: seq<Entry<Json>>)
    ensures WriteEntries(Sort(leq, KeyOf, es)) == Sort(leq, KeyOf, WriteEntries(es))
  {
    if es != [] {
      SortWrites(leq, es[1..]);
      InsertWrites(leq, es[0], Sort(leq, KeyOf, es[1..]));
      assert WriteEntries(es)[1..] == WriteEntries(es[1..]);
    }
  }

  lemma {:induction false} StableJsonWritesCanon(leq: Order<string>, v: Json)
    ensures StableJson(leq, v) == Write(Canon(leq, v))
  {
    match v {
      case Arr(items) => ItemsWriteCanon(leq, items);
      case Obj(es) =>
        EntriesWriteCanon(leq, es);
        SortWrites(leq, CanonEntries(leq, es));
      case _ =>
    }
  }

  lemma {:induction false} ItemsWriteCanon(leq: Order<string>, items: seq<Json>)
    ensures StableItems(leq, items) == WriteItems(CanonItems(leq, items))
  {
    if items != [] {
      StableJsonWritesCanon(leq, items[0]);
      ItemsWriteCanon(leq, items[1..]);
      assert CanonItems(leq, items)[1..] == CanonItems(leq, items[1..]);
    }
  }

  lemma {:induction false} EntriesWriteCanon(leq: Order<string>, es: seq<Entry<Json>>)
    ensures StableEntries(leq, es) == WriteEntries(CanonEntries(leq, es))
  {
    if es != [] {
      StableJsonWritesCanon(leq, es[0].value);
      EntriesWriteCanon(leq, es[1..]);
      assert CanonEntries(leq, es)[1..] == CanonEntries(leq, es[1..]);
    }
  }

  // ---------------------------------------------------------------------------
  // Values that a text can show

  predicate Plain(v: Json) {
    match v
    case NonFinite => false
    case Num(n) => Numeral(n)
    case Arr(items) => AllPlain(items)
    case Obj(es) => EntriesPlain(es)
    case _ => true
  }

  predicate AllPlain(items: seq<Json>) {
    items != [] ==> Plain(items[0]) && AllPlain(items[1..])
  }

  predicate EntriesPlain(es: seq<Entry<Json>>) {
    es != [] ==> Plain(es[0].value) && EntriesPlain(es[1..])
  }
}
