/** A reader of JSON text in its compact form, as RFC 8259 defines it, and what it
    makes of the serialiser's text: the value itself, its keys in ascending order. */
module JsonText {
  import opened Options
  import opened StableSort
  import opened Serialiser

  // ---------------------------------------------------------------------------
  // Section 7: strings

  function HexValue(c: char): Option<nat> {
    if '0' <= c <= '9' then Some((c - '0') as nat)
    else if 'a' <= c <= 'f' then Some(10 + (c - 'a') as nat)
    else if 'A' <= c <= 'F' then Some(10 + (c - 'A') as nat)
    else None
  }

  function Unescaped(letter: char): Option<char> {
    match letter
    case '"' => Some('\U{0022}')
    case '\\' => Some('\U{005C}')
    case '/' => Some('\U{002F}')
    case 'b' => Some('\U{0008}')
    case 'f' => Some('\U{000C}')
    case 'n' => Some('\U{000A}')
    case 'r' => Some('\U{000D}')
    case 't' => Some('\U{0009}')
    case _ => None
  }

  // The character of a \u escape; the surrogates are none.
  function CodePoint(digits: string): Option<char>
    requires |digits| == 4
  {
    match (HexValue(digits[0]), HexValue(digits[1]), HexValue(digits[2]), HexValue(digits[3]))
    case (Some(a), Some(b), Some(c), Some(d)) =>
      var n := ((a * 16 + b) * 16 + c) * 16 + d;
      if n < 0xD800 || 0xE000 <= n < 0x10000 then Some(n as char) else None
    case _ => None
  }

  // The character that the text begins with, escaped or not, and what follows.
  function ReadChar(t: string): (r: Option<(char, string)>)
    ensures r.Some? ==> |r.value.1| < |t|
  {
    if t == "" || t[0] == '"' || t[0] < ' ' then None
    else if t[0] != '\\' then Some((t[0], t[1..]))
    else if |t| >= 6 && t[1] == 'u' then WithRest(CodePoint(t[2..6]), t[6..])
    else if |t| >= 2 then WithRest(Unescaped(t[1]), t[2..])
    else None
  }

  function WithRest(c: Option<char>, rest: string): Option<(char, string)> {
    match c
    case None => None
    case Some(c) => Some((c, rest))
  }

  // From behind the opening quote to behind the closing one.
  function ReadChars(t: string): (r: Option<(string, string)>)
    ensures r.Some? ==> |r.value.1| < |t|
    decreases |t|
  {
    if t != "" && t[0] == '"' then Some(("", t[1..]))
    else
      match ReadChar(t)
      case None => None
      case Some((c, u)) =>
        match ReadChars(u)
        case None => None
        case Some((s, rest)) => Some(([c] + s, rest))
  }

  function ReadString(t: string): (r: Option<(string, string)>)
    ensures r.Some? ==> |r.value.1| < |t|
  {
    if t != "" && t[0] == '"' then ReadChars(t[1..]) else None
  }

  // ---------------------------------------------------------------------------
  // Sections 3 to 6: literals, objects, arrays and numbers

  predicate Starts(t: string, w: string) {
    |w| <= |t| && t[..|w|] == w
  }

  function Run(t: string): (n: nat)
    ensures n <= |t|
  {
    if t != "" && NumberChar(t[0]) then 1 + Run(t[1..]) else 0
  }

  function ReadScalar(t: string): (r: Option<(Json, string)>)
    ensures r.Some? ==> |r.value.1| < |t|
  {
    if Starts(t, "null") then Some((Null, t[4..]))
    else if Starts(t, "true") then Some((Bool(true), t[4..]))
    else if Starts(t, "false") then Some((Bool(false), t[5..]))
    else if Run(t) > 0 && Numeral(t[..Run(t)]) then Some((Num(t[..Run(t)]), t[Run(t)..]))
    else None
  }

  function ReadValue(t: string): (r: Option<(Json, string)>)
    ensures r.Some? ==> |r.value.1| < |t|
    decreases |t|, 0
  {
    if t == "" then None
    else if t[0] == '"' then
      match ReadString(t)
      case None => None
      case Some((s, rest)) => Some((Str(s), rest))
    else if t[0] == '[' then
      if Starts(t, "[]") then Some((Arr([]), t[2..]))
      else
        match ReadItems(t[1..])
        case None => None
        case Some((vs, rest)) => Some((Arr(vs), rest))
    else if t[0] == '{' then
      if Starts(t, "{}") then Some((Obj([]), t[2..]))
      else
        match ReadMembers(t[1..])
        case None => None
        case Some((es, rest)) => Some((Obj(es), rest))
    else ReadScalar(t)
  }

  // The items up to the closing bracket, at least one.
  function ReadItems(t: string): (r: Option<(seq<Json>, string)>)
    ensures r.Some? ==> |r.value.1| < |t|
    decreases |t|, 1
  {
    match ReadValue(t)
    case None => None
    case Some((v, u)) =>
      if Starts(u, "]") then Some(([v], u[1..]))
      else if Starts(u, ",") then
        match ReadItems(u[1..])
        case None => None
        case Some((vs, rest)) => Some(([v] + vs, rest))
      else None
  }

  function ReadMember(t: string): (r: Option<(Entry<Json>, string)>)
    ensures r.Some? ==> |r.value.1| < |t|
    decreases |t|, 1
  {
    match ReadString(t)
    case None => None
    case Some((key, u)) =>
      if Starts(u, ":") then
        match ReadValue(u[1..])
        case None => None
        case Some((v, rest)) => Some((Entry(key, v), rest))
      else None
  }

  function ReadMembers(t: string): (r: Option<(seq<Entry<Json>>, string)>)
    ensures r.Some? ==> |r.value.1| < |t|
    decreases |t|, 2
  {
    match ReadMember(t)
    case None => None
    case Some((e, u)) =>
      if Starts(u, "}") then Some(([e], u[1..]))
      else if Starts(u, ",") then
        match ReadMembers(u[1..])
        case None => None
        case Some((es, rest)) => Some(([e] + es, rest))
      else None
  }

  // A whole text.
  function Parse(t: string): Option<Json> {
    match ReadValue(t)
    case None => None
    case Some((v, rest)) => if rest == "" then Some(v) else None
  }

  // ---------------------------------------------------------------------------
  // The written text, part by part

  predicate Ends(s: string) {
    s == "" || s[0] == ',' || s[0] == ']' || s[0] == '}'
  }

  lemma Assoc(a: string, b: string, c: string)
    ensures (a + b) + c == a + (b + c)
  {}

  // The first character tells the kind of value.
  function FirstOf(v: Json): char
    requires Plain(v)
  {
    match v
    case Null => 'n'
    case Bool(b) => if b then 't' else 'f'
    case Num(n) => n[0]
    case Str(_) => '"'
    case Arr(_) => '['
    case Obj(_) => '{'
  }

  lemma WriteStarts(v: Json)
    requires Plain(v)
    ensures Write(v) != "" && Write(v)[0] == FirstOf(v)
  {}

  // What follows the first item of a nonempty list.
  function AfterItem(xs: seq<Json>, s: string): string
    requires xs != []
  {
    if |xs| == 1 then "]" + s else "," + (Join(WriteItems(xs[1..])) + ("]" + s))
  }

  lemma ItemsSplit(xs: seq<Json>, s: string)
    requires xs != []
    ensures Join(WriteItems(xs)) + ("]" + s) == Write(xs[0]) + AfterItem(xs, s)
  {
    var parts := WriteItems(xs);
    assert parts[1..] == WriteItems(xs[1..]);
    assert |xs| > 1 ==> |parts| > 1;
    if |xs| > 1 {
      Assoc(parts[0], "," + Join(parts[1..]), "]" + s);
      Assoc(",", Join(parts[1..]), "]" + s);
    } else {
      assert xs[1..] == [];
    }
  }

  function AfterEntry(xs: seq<Entry<Json>>, s: string): string
    requires xs != []
  {
    if |xs| == 1 then "}" + s else "," + (Join(Pairs(WriteEntries(xs[1..]))) + ("}" + s))
  }

  lemma EntriesSplit(xs: seq<Entry<Json>>, s: string)
    requires xs != []
    ensures Join(Pairs(WriteEntries(xs))) + ("}" + s) == Quote(xs[0].key) + (":" + (Write(xs[0].value) + AfterEntry(xs, s)))
  {
    var written := WriteEntries(xs);
    var parts := Pairs(written);
    assert parts[0] == Quote(xs[0].key) + (":" + Write(xs[0].value));
    assert parts[1..] == Pairs(WriteEntries(xs[1..]));
    assert |xs| > 1 ==> |parts| > 1;
    if |xs| > 1 {
      Assoc(parts[0], "," + Join(parts[1..]), "}" + s);
      Assoc(",", Join(parts[1..]), "}" + s);
    } else {
      assert xs[1..] == [];
    }
    Assoc(Quote(xs[0].key), ":" + Write(xs[0].value), AfterEntry(xs, s));
    Assoc(":", Write(xs[0].value), AfterEntry(xs, s));
  }

  // ---------------------------------------------------------------------------
  // What is written is read

  lemma EscapeIsRead(c: char, t: string)
    ensures ReadChar(Escape(c) + t) == Some((c, t)) && (Escape(c) + t)[0] != '"'
  {
    var e := Escape(c);
    var all := e + t;
    assert all[|e|..] == t && forall k: nat | k < |e| :: all[k] == e[k];
    if |e| == 6 {
      assert all[2..6] == e[2..6];
      var high, low := c as nat / 16, c as nat % 16;
      assert HexValue(Hex(high)) == Some(high) && HexValue(Hex(low)) == Some(low);
    }
  }

  lemma {:induction false} StringIsRead(s: string, t: string)
    ensures ReadChars(EscapeAll(s) + ("\"" + t)) == Some((s, t))
  {
    if s == "" {
      assert EscapeAll(s) + ("\"" + t) == "\"" + t;
    } else {
      StringIsRead(s[1..], t);
      EscapeIsRead(s[0], EscapeAll(s[1..]) + ("\"" + t));
      Assoc(Escape(s[0]), EscapeAll(s[1..]), "\"" + t);
      assert s == [s[0]] + s[1..];
    }
  }

  lemma QuoteIsRead(s: string, t: string)
    ensures ReadString(Quote(s) + t) == Some((s, t)) && (Quote(s) + t)[0] == '"'
  {
    StringIsRead(s, t);
    Assoc("\"", EscapeAll(s) + "\"", t);
    Assoc(EscapeAll(s), "\"", t);
  }

  lemma {:induction false} RunOf(m: string, t: string)
    requires (forall k | 0 <= k < |m| :: NumberChar(m[k])) && Ends(t)
    ensures Run(m + t) == |m|
  {
    if m == "" {
      assert m + t == t;
    } else {
      RunOf(m[1..], t);
      assert (m + t)[1..] == m[1..] + t && (m + t)[0] == m[0];
    }
  }

  lemma StartsWith(w: string, t: string)
    ensures Starts(w + t, w) && (w + t)[|w|..] == t
  {}

  lemma ScalarIsRead(v: Json, t: string)
    requires Plain(v) && !v.Arr? && !v.Obj? && Ends(t)
    ensures ReadValue(Write(v) + t) == Some((v, t))
  {
    StartsWith(Write(v), t);
    WriteStarts(v);
    assert (Write(v) + t)[0] == FirstOf(v);
    match v {
      case Str(s) => QuoteIsRead(s, t);
      case Num(n) =>
        RunOf(n, t);
        assert (n + t)[..|n|] == n;
        assert "null"[0] == 'n' && "true"[0] == 't' && "false"[0] == 'f';
      case _ =>
    }
  }

  lemma {:induction false} WriteIsRead(v: Json, t: string)
    requires Plain(v) && Ends(t)
    ensures ReadValue(Write(v) + t) == Some((v, t))
    decreases v, 0
  {
    match v {
      case Arr(items) => ArrayIsRead(items, t);
      case Obj(es) => ObjectIsRead(es, t);
      case _ => ScalarIsRead(v, t);
    }
  }

  lemma {:induction false} ArrayIsRead(items: seq<Json>, t: string)
    requires AllPlain(items)
    ensures ReadValue(Write(Arr(items)) + t) == Some((Arr(items), t))
    decreases items, 1
  {
    var written := Join(WriteItems(items));
    Assoc("[", written + "]", t);
    Assoc(written, "]", t);
    var inner := written + ("]" + t);
    StartsWith("[", inner);
    if items == [] {
      assert "[" + inner == "[]" + t;
      StartsWith("[]", t);
    } else {
      ItemsAreRead(items, t);
      ItemsSplit(items, t);
      WriteStarts(items[0]);
      assert ("[" + inner)[1] == inner[0] && "[]"[1] == ']';
    }
  }

  lemma {:induction false} ItemsAreRead(items: seq<Json>, t: string)
    requires AllPlain(items) && items != []
    ensures ReadItems(Join(WriteItems(items)) + ("]" + t)) == Some((items, t))
    decreases items, 0
  {
    ItemsSplit(items, t);
    var after := AfterItem(items, t);
    if |items| == 1 {
      StartsWith("]", t);
      assert items == [items[0]];
    } else {
      StartsWith(",", Join(WriteItems(items[1..])) + ("]" + t));
      ItemsAreRead(items[1..], t);
      assert items == [items[0]] + items[1..];
    }
    WriteIsRead(items[0], after);
  }

  lemma {:induction false} ObjectIsRead(es: seq<Entry<Json>>, t: string)
    requires EntriesPlain(es)
    ensures ReadValue(Write(Obj(es)) + t) == Some((Obj(es), t))
    decreases es, 2
  {
    var written := Join(Pairs(WriteEntries(es)));
    Assoc("{", written + "}", t);
    Assoc(written, "}", t);
    var inner := written + ("}" + t);
    StartsWith("{", inner);
    if es == [] {
      assert "{" + inner == "{}" + t;
      StartsWith("{}", t);
    } else {
      MembersAreRead(es, t);
      EntriesSplit(es, t);
      assert ("{" + inner)[1] == inner[0] && "{}"[1] == '}';
    }
  }

  lemma {:induction false} MembersAreRead(es: seq<Entry<Json>>, t: string)
    requires EntriesPlain(es) && es != []
    ensures ReadMembers(Join(Pairs(WriteEntries(es))) + ("}" + t)) == Some((es, t))
    decreases es, 1
  {
    EntriesSplit(es, t);
    var after := AfterEntry(es, t);
    if |es| == 1 {
      StartsWith("}", t);
      assert es == [es[0]];
    } else {
      StartsWith(",", Join(Pairs(WriteEntries(es[1..]))) + ("}" + t));
      MembersAreRead(es[1..], t);
      assert es == [es[0]] + es[1..];
    }
    MemberIsRead(es, after);
  }

  lemma {:induction false} MemberIsRead(es: seq<Entry<Json>>, after: string)
    requires es != [] && Plain(es[0].value) && Ends(after)
    ensures ReadMember(Quote(es[0].key) + (":" + (Write(es[0].value) + after))) == Some((es[0], after))
    decreases es, 0
  {
    QuoteIsRead(es[0].key, ":" + (Write(es[0].value) + after));
    StartsWith(":", Write(es[0].value) + after);
    WriteIsRead(es[0].value, after);
  }

  // So the text determines the value and where it ends.
  lemma WriteUndone(a: Json, b: Json, s: string, t: string)
    requires Plain(a) && Plain(b) && Ends(s) && Ends(t) && Write(a) + s == Write(b) + t
    ensures a == b && s == t
  {
    WriteIsRead(a, s);
    WriteIsRead(b, t);
  }
}
