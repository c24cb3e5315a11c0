/** Printing tokens as text and reading them back. The lexer inverts the printer;
    the code first rewrites every backslash-quote, and the law then holds exactly
    when the printed text has none. */
module CheckRoundTrip {
  import opened Options
  import opened CheckClause
  import opened CheckText

  // Tokens the lexer can produce.
  predicate Printable(t: Token) {
    match t
    case Word(w) => Lower(w) == w
    case Number(d) => d != "" && forall k | 0 <= k < |d| :: Digit(d[k])
    case Quoted(_) => true
    case Symbol(c) => SymbolChar(c)
  }

  predicate AllPrintable(ts: seq<Token>) {
    forall k | 0 <= k < |ts| :: Printable(ts[k])
  }

  function Doubled(s: string, quote: char): string {
    if s == "" then "" else (if s[0] == quote then [quote, quote] else [s[0]]) + Doubled(s[1..], quote)
  }

  function Enclosed(s: string, quote: char): string {
    [quote] + (Doubled(s, quote) + [quote])
  }

  function TokenText(t: Token): string {
    match t
    case Word(w) => Enclosed(w, '`')
    case Number(d) => d
    case Quoted(s) => Enclosed(s, '\'')
    case Symbol(c) => [c]
  }

  function Text(ts: seq<Token>): string {
    if ts == [] then "" else TokenText(ts[0]) + (" " + Text(ts[1..]))
  }

  // ---------------------------------------------------------------------------
  // The lexer inverts the printer

  predicate Has(v: string, i: nat, part: string) {
    i + |part| <= |v| && v[i..i + |part|] == part
  }

  lemma HasSplit(v: string, i: nat, first: string, second: string)
    requires Has(v, i, first + second)
    ensures Has(v, i, first) && Has(v, i + |first|, second)
  {
    var all := first + second;
    assert all[..|first|] == first && all[|first|..] == second;
    assert v[i..i + |first|] == v[i..i + |all|][..|first|];
    assert v[i + |first|..i + |all|] == v[i..i + |all|][|first|..];
  }

  lemma HasChar(v: string, i: nat, c: char)
    requires Has(v, i, [c])
    ensures i < |v| && v[i] == c
  {
    assert v[i..i + 1][0] == c;
  }

  lemma {:induction false} DoubledReadsBack(v: string, i: nat, s: string, quote: char, end: nat)
    requires Has(v, i, Doubled(s, quote) + [quote]) && end == i + |Doubled(s, quote)| + 1
    requires end < |v| ==> v[end] != quote
    ensures ReadQuoted(v, i, quote) == Some((s, end))
    decreases |s|
  {
    if s == "" {
      assert Doubled(s, quote) + [quote] == [quote];
      HasChar(v, i, quote);
    } else {
      DoubledSplit(v, i, s, quote);
      DoubledReadsBack(v, if s[0] == quote then i + 2 else i + 1, s[1..], quote, end);
      assert [s[0]] + s[1..] == s;
    }
  }

  lemma DoubledSplit(v: string, i: nat, s: string, quote: char)
    requires s != "" && Has(v, i, Doubled(s, quote) + [quote])
    ensures i < |v| && v[i] == s[0] && (s[0] == quote ==> i + 1 < |v| && v[i + 1] == quote)
    ensures var j := if s[0] == quote then i + 2 else i + 1;
      Has(v, j, Doubled(s[1..], quote) + [quote]) && i + |Doubled(s, quote)| == j + |Doubled(s[1..], quote)|
  {
    var head := if s[0] == quote then [quote, quote] else [s[0]];
    assert Doubled(s, quote) + [quote] == head + (Doubled(s[1..], quote) + [quote]);
    HasSplit(v, i, head, Doubled(s[1..], quote) + [quote]);
    assert v[i] == v[i..i + |head|][0];
    assert s[0] == quote ==> v[i + 1] == v[i..i + |head|][1];
  }

  lemma EnclosedReadsBack(v: string, i: nat, s: string, quote: char)
    requires Has(v, i, Enclosed(s, quote)) && Has(v, i + |Enclosed(s, quote)|, " ") && quote != ' '
    ensures i < |v| && v[i] == quote && ReadQuoted(v, i + 1, quote) == Some((s, i + |Enclosed(s, quote)|))
  {
    var end := EnclosedAt(v, i, Doubled(s, quote), quote);
    DoubledReadsBack(v, i + 1, s, quote, end);
  }

  lemma EnclosedAt(v: string, i: nat, inner: string, quote: char) returns (end: nat)
    requires Has(v, i, [quote] + (inner + [quote])) && Has(v, i + |inner| + 2, " ")
    ensures i < |v| && v[i] == quote && Has(v, i + 1, inner + [quote])
    ensures end == i + |inner| + 2 < |v| && v[end] == ' '
  {
    end := i + |inner| + 2;
    HasSplit(v, i, [quote], inner + [quote]);
    HasChar(v, i, quote);
    HasChar(v, end, ' ');
  }

  lemma {:induction false} DigitsStop(v: string, i: nat, end: nat)
    requires i <= end < |v| && !Digit(v[end]) && forall k | i <= k < end :: Digit(v[k])
    ensures DigitsEnd(v, i) == end
    decreases end - i
  {
    if i < end { DigitsStop(v, i + 1, end); }
  }

  lemma TokenReadsBack(v: string, i: nat, t: Token)
    requires Printable(t) && Has(v, i, TokenText(t)) && Has(v, i + |TokenText(t)|, " ")
    ensures i < |v| && TokenAt(v, i) == Some(([t], i + |TokenText(t)|))
  {
    match t {
      case Word(w) => EnclosedReadsBack(v, i, w, '`');
      case Quoted(s) => EnclosedReadsBack(v, i, s, '\'');
      case Symbol(c) => HasChar(v, i, c);
      case Number(d) =>
        HasChar(v, i + |d|, ' ');
        forall k | i <= k < i + |d| ensures Digit(v[k]) { assert v[k] == v[i..i + |d|][k - i]; }
        DigitsStop(v, i + 1, i + |d|);
    }
  }

  lemma TextSplit(v: string, i: nat, first: string, rest: string)
    requires i <= |v| && v[i..] == first + (" " + rest)
    ensures var j := i + |first|; Has(v, i, first) && Has(v, j, " ") && j < |v| && v[j] == ' ' && v[j + 1..] == rest
  {
    var all := first + (" " + rest);
    assert v[i..i + |all|] == v[i..];
    HasSplit(v, i, first, " " + rest);
    HasSplit(v, i + |first|, " ", rest);
    HasChar(v, i + |first|, ' ');
    assert v[i + |first| + 1..] == v[i..][|first| + 1..] == rest;
  }

  // The text from i on lexes to these tokens.
  function Lexed(v: string, i: nat): Option<seq<Token>>
    requires i <= |v|
  {
    TokensFrom(v, i)
  }

  lemma {:induction false} TextReadsBack(v: string, i: nat, ts: seq<Token>)
    requires AllPrintable(ts) && i <= |v| && v[i..] == Text(ts)
    ensures Lexed(v, i) == Some(ts)
    decreases |ts|
  {
    if ts == [] {
      assert i == |v|;
    } else {
      TextUnfolds(ts);
      var j := TextStep(v, i, TokenText(ts[0]), Text(ts[1..]));
      TextReadsBack(v, j, ts[1..]);
      TokenThenSpace(v, i, j, ts);
    }
  }

  lemma TextUnfolds(ts: seq<Token>)
    requires ts != []
    ensures Text(ts) == TokenText(ts[0]) + (" " + Text(ts[1..]))
  {}

  lemma TextStep(v: string, i: nat, first: string, rest: string) returns (j: nat)
    requires i <= |v| && v[i..] == first + (" " + rest)
    ensures j == i + |first| + 1 <= |v| && v[j..] == rest
    ensures Has(v, i, first) && Has(v, j - 1, " ")
  {
    j := i + |first| + 1;
    TextSplit(v, i, first, rest);
  }

  lemma TokenThenSpace(v: string, i: nat, j: nat, ts: seq<Token>)
    requires ts != [] && Printable(ts[0]) && j == i + |TokenText(ts[0])| + 1
    requires Has(v, i, TokenText(ts[0])) && Has(v, j - 1, " ") && Lexed(v, j) == Some(ts[1..])
    ensures i < |v| && Lexed(v, i) == Some(ts)
  {
    TokenReadsBack(v, i, ts[0]);
    HasChar(v, j - 1, ' ');
    assert TokenAt(v, j - 1) == Some(([], j));
    assert TokensFrom(v, j - 1) == Some([] + ts[1..]);
    assert [] + ts[1..] == ts[1..] && [ts[0]] + ts[1..] == ts;
  }

  // ---------------------------------------------------------------------------
  // Backslashes are only ever data, so a lost one shows

  function Count(s: string): nat {
    if s == "" then 0 else (if s[0] == '\\' then 1 else 0) + Count(s[1..])
  }

  function Content(t: Token): nat {
    if t.Symbol? then 0 else Count(t.text)
  }

  function CountAll(ts: seq<Token>): nat {
    if ts == [] then 0 else Content(ts[0]) + CountAll(ts[1..])
  }

  lemma {:induction false} CountAppends(a: string, b: string)
    ensures Count(a + b) == Count(a) + Count(b)
  {
    if a == "" {
      assert a + b == b;
    } else {
      CountAppends(a[1..], b);
      assert (a + b)[1..] == a[1..] + b;
    }
  }

  lemma {:induction false} CountAllAppends(a: seq<Token>, b: seq<Token>)
    ensures CountAll(a + b) == CountAll(a) + CountAll(b)
  {
    if a == [] {
      assert a + b == b;
    } else {
      CountAllAppends(a[1..], b);
      assert (a + b)[1..] == a[1..] + b;
    }
  }

  lemma CountSlice(v: string, i: nat, j: nat, k: nat)
    requires i <= j <= k <= |v|
    ensures Count(v[i..k]) == Count(v[i..j]) + Count(v[j..k])
  {
    assert v[i..k] == v[i..j] + v[j..k];
    CountAppends(v[i..j], v[j..k]);
  }

  lemma CountOne(v: string, i: nat)
    requires i < |v|
    ensures Count(v[i..i + 1]) == if v[i] == '\\' then 1 else 0
  {
    assert v[i..i + 1] == [v[i]] && [v[i]][1..] == "";
  }

  lemma {:induction false} NoneCounted(s: string)
    requires forall k | 0 <= k < |s| :: s[k] != '\\'
    ensures Count(s) == 0
  {
    if s != "" { NoneCounted(s[1..]); }
  }

  lemma {:induction false} CountLower(s: string)
    ensures Count(Lower(s)) == Count(s)
  {
    if s != "" {
      CountLower(s[1..]);
      assert Lower(s)[1..] == Lower(s[1..]);
    }
  }

  lemma {:induction false} CountDoubled(s: string, quote: char)
    requires quote != '\\'
    ensures Count(Doubled(s, quote)) == Count(s)
  {
    if s != "" {
      CountDoubled(s[1..], quote);
      var head := if s[0] == quote then [quote, quote] else [s[0]];
      CountAppends(head, Doubled(s[1..], quote));
      assert head[1..] == if s[0] == quote then [quote] else "";
      assert [quote][1..] == "";
    }
  }

  lemma {:induction false} CountText(ts: seq<Token>)
    requires AllPrintable(ts)
    ensures Count(Text(ts)) == CountAll(ts)
  {
    if ts != [] {
      CountText(ts[1..]);
      CountAppends(TokenText(ts[0]), " " + Text(ts[1..]));
      CountAppends(" ", Text(ts[1..]));
      CountTokenText(ts[0]);
    }
  }

  lemma CountTokenText(t: Token)
    requires Printable(t)
    ensures Count(TokenText(t)) == Content(t)
  {
    match t {
      case Word(w) => CountEnclosed(w, '`');
      case Quoted(s) => CountEnclosed(s, '\'');
      case Number(_) =>
      case Symbol(c) => NoneCounted([c]);
    }
  }

  lemma CountEnclosed(s: string, quote: char)
    requires quote != '\\'
    ensures Count(Enclosed(s, quote)) == Count(s)
  {
    CountDoubled(s, quote);
    CountAppends(Doubled(s, quote), [quote]);
    NoneCounted([quote]);
  }

  lemma {:induction false} CountQuoted(v: string, i: nat, quote: char)
    requires i <= |v| && quote != '\\' && ReadQuoted(v, i, quote).Some?
    ensures var (s, j) := ReadQuoted(v, i, quote).value; Count(s) == Count(v[i..j])
    decreases |v| - i
  {
    var (s, j) := ReadQuoted(v, i, quote).value;
    CountOne(v, i);
    if v[i] != quote {
      CountQuoted(v, i + 1, quote);
      CountSlice(v, i, i + 1, j);
    } else if i + 1 < |v| && v[i + 1] == quote {
      CountQuoted(v, i + 2, quote);
      CountOne(v, i + 1);
      CountSlice(v, i, i + 1, i + 2);
      CountSlice(v, i, i + 2, j);
    }
  }

  lemma CountToken(v: string, i: nat, ts: seq<Token>, j: nat)
    requires i < |v| && TokenAt(v, i) == Some((ts, j))
    ensures CountAll(ts) == Count(v[i..j])
  {
    if |ts| == 1 { CountSingle(ts[0]); }
    assert |ts| == 1 ==> ts == [ts[0]];
    CountOne(v, i);
    if v[i] == '`' {
      CountQuoted(v, i + 1, '`');
      CountSlice(v, i, i + 1, j);
      CountLower(ReadQuoted(v, i + 1, '`').value.0);
    } else if v[i] == '\'' {
      CountQuoted(v, i + 1, '\'');
      CountSlice(v, i, i + 1, j);
    } else if WordStart(v[i]) {
      CountWord(v, i, ts, j);
    } else if Digit(v[i]) {
      DigitsArePlain(v, i + 1);
      NoneCounted(v[i..j]);
    }
  }

  lemma CountSingle(t: Token)
    ensures CountAll([t]) == Content(t)
  {
    assert [t][1..] == [];
  }

  lemma IntroducedToken(v: string, i: nat, end: nat)
    requires i < |v| && WordStart(v[i]) && end == WordEnd(v, i + 1) && Introducer(Lower(v[i..end]))
    requires end < |v| && v[end] == '\'' && TokenAt(v, i).Some?
    ensures ReadQuoted(v, end + 1, '\'').Some?
    ensures var (s, j) := ReadQuoted(v, end + 1, '\'').value; TokenAt(v, i) == Some(([Quoted(s)], j))
  {}

  lemma CountWord(v: string, i: nat, ts: seq<Token>, j: nat)
    requires i < |v| && WordStart(v[i]) && TokenAt(v, i) == Some((ts, j))
    ensures CountAll(ts) == Count(v[i..j])
  {
    var end := WordEnd(v, i + 1);
    WordsAreEmpty(v, i);
    CountSingle(ts[0]);
    if Introducer(Lower(v[i..end])) && end < |v| && v[end] == '\'' {
      CountIntroducedWord(v, i, end, ts, j);
    } else {
      assert ts == [Word(Lower(v[i..end]))] && j == end;
    }
  }

  lemma CountIntroducedWord(v: string, i: nat, end: nat, ts: seq<Token>, j: nat)
    requires i < |v| && WordStart(v[i]) && TokenAt(v, i) == Some((ts, j))
    requires end == WordEnd(v, i + 1) && Introducer(Lower(v[i..end])) && end < |v| && v[end] == '\''
    requires Count(v[i..end]) == 0
    ensures CountAll(ts) == Count(v[i..j])
  {
    IntroducedToken(v, i, end);
    CountIntroduced(v, end);
    CountSlice(v, i, end, j);
    CountSingle(ts[0]);
    assert ts == [ts[0]];
  }

  lemma {:induction false} WordIsPlain(v: string, i: nat)
    requires i <= |v|
    ensures forall k | i <= k < WordEnd(v, i) :: v[k] != '\\'
    decreases |v| - i
  {
    if i < |v| && WordPart(v[i]) { WordIsPlain(v, i + 1); }
  }

  lemma {:induction false} DigitsArePlain(v: string, i: nat)
    requires i <= |v|
    ensures forall k | i <= k < DigitsEnd(v, i) :: v[k] != '\\'
    decreases |v| - i
  {
    if i < |v| && Digit(v[i]) { DigitsArePlain(v, i + 1); }
  }

  lemma WordsAreEmpty(v: string, i: nat)
    requires i < |v| && WordStart(v[i])
    ensures Count(v[i..WordEnd(v, i + 1)]) == 0 && Count(Lower(v[i..WordEnd(v, i + 1)])) == 0
  {
    var end := WordEnd(v, i + 1);
    WordIsPlain(v, i + 1);
    NoneCounted(v[i..end]);
    CountLower(v[i..end]);
  }

  lemma CountIntroduced(v: string, end: nat)
    requires end < |v| && v[end] == '\'' && ReadQuoted(v, end + 1, '\'').Some?
    ensures var (s, j) := ReadQuoted(v, end + 1, '\'').value; Count(s) == Count(v[end..j])
  {
    var (s, j) := ReadQuoted(v, end + 1, '\'').value;
    CountOne(v, end);
    CountQuoted(v, end + 1, '\'');
    CountSlice(v, end, end + 1, j);
  }

  lemma {:induction false} CountTokens(v: string, i: nat)
    requires i <= |v| && TokensFrom(v, i).Some?
    ensures CountAll(TokensFrom(v, i).value) == Count(v[i..])
    decreases |v| - i
  {
    if i < |v| {
      var (ts, j) := TokenAt(v, i).value;
      CountTokens(v, j);
      CountToken(v, i, ts, j);
      CountAllAppends(ts, TokensFrom(v, j).value);
      CountSlice(v, i, j, |v|);
      assert v[i..|v|] == v[i..] && v[j..|v|] == v[j..];
    }
  }

  // ---------------------------------------------------------------------------
  // Backslash-quote

  predicate HasEscape(v: string) {
    exists i | 0 <= i < |v| - 1 :: v[i] == '\\' && v[i + 1] == '\''
  }

  lemma {:induction false} UnescapeCounts(v: string)
    ensures !HasEscape(v) ==> Unescape(v) == v
    ensures Count(Unescape(v)) <= Count(v)
    ensures HasEscape(v) ==> Count(Unescape(v)) < Count(v)
  {
    if v != "" {
      if |v| >= 2 && v[0] == '\\' && v[1] == '\'' {
        UnescapeCounts(v[2..]);
        assert Unescape(v)[1..] == Unescape(v[2..]);
        assert v[1..][1..] == v[2..];
      } else {
        UnescapeCounts(v[1..]);
        assert Unescape(v)[1..] == Unescape(v[1..]);
        if HasEscape(v) {
          var i :| 0 <= i < |v| - 1 && v[i] == '\\' && v[i + 1] == '\'';
          assert v[1..][i - 1] == v[i] && v[1..][i] == v[i + 1];
        }
      }
    }
  }

  // Printed tokens read back through the code's own rewriting exactly when the
  // printed text has no backslash before a quote.
  lemma TextReadsBackIff(ts: seq<Token>)
    requires AllPrintable(ts)
    ensures TokensFrom(Unescape(Text(ts)), 0) == Some(ts) <==> !HasEscape(Text(ts))
  {
    var v := Text(ts);
    UnescapeCounts(v);
    CountText(ts);
    assert Unescape(v)[0..] == Unescape(v);
    if TokensFrom(Unescape(v), 0).Some? { CountTokens(Unescape(v), 0); }
    if !HasEscape(v) {
      TextReadsBack(v, 0, ts);
    }
  }

  // A string constant ending in a backslash loses it.
  lemma TrailingBackslashIsLost()
    ensures var ts := [Quoted("\\")]; AllPrintable(ts) && TokensFrom(Unescape(Text(ts)), 0) != Some(ts)
  {
    var ts := [Quoted("\\")];
    assert Doubled("\\", '\'') == "\\" by { assert "\\"[1..] == ""; }
    assert Text(ts)[1] == '\\' && Text(ts)[2] == '\'';
    TextReadsBackIff(ts);
  }

  // ---------------------------------------------------------------------------
  // The parser keeps every backslash too

  function Weight(t: Node): nat {
    match t
    case Value(_, x) => Count(x)
    case Call(f, xs) => Count(f) + WeightAll(xs)
    case Logical(_, xs) => WeightAll(xs)
    case Equals(l, r) => Weight(l) + Weight(r)
    case Is(x, _, _) => Weight(x)
  }

  function WeightAll(xs: seq<Node>): nat {
    if xs == [] then 0 else Weight(xs[0]) + WeightAll(xs[1..])
  }

  lemma {:induction false} WeightAppends(xs: seq<Node>, ys: seq<Node>)
    ensures WeightAll(xs + ys) == WeightAll(xs) + WeightAll(ys)
  {
    if xs == [] {
      assert xs + ys == ys;
    } else {
      WeightAppends(xs[1..], ys);
      assert (xs + ys)[1..] == xs[1..] + ys;
    }
  }

  lemma WeightOne(x: Node)
    ensures WeightAll([x]) == Weight(x)
  {
    assert [x][1..] == [];
  }

  lemma {:induction false} SpreadKeepsWeight(c: Connective, xs: seq<Node>)
    ensures WeightAll(Spread(c, xs)) == WeightAll(xs)
  {
    if xs != [] {
      var head := if IsLogical(xs[0], c) then xs[0].operands else [xs[0]];
      SpreadKeepsWeight(c, xs[1..]);
      WeightAppends(head, Spread(c, xs[1..]));
      WeightOne(xs[0]);
    }
  }

  lemma CombineKeepsWeight(c: Connective, xs: seq<Node>)
    requires |xs| >= 1
    ensures Weight(Combine(c, xs, true)) == WeightAll(xs)
  {
    SpreadKeepsWeight(c, xs);
    var all := Spread(c, xs);
    if |all| == 1 {
      WeightOne(all[0]);
      assert all == [all[0]];
    }
  }

  // The tokens from i to j hold n backslashes.
  predicate Holds(ts: seq<Token>, i: nat, j: nat, n: int) {
    i <= j <= |ts| && CountAll(ts[i..j]) == n
  }

  lemma HoldsOne(ts: seq<Token>, i: nat)
    requires i < |ts|
    ensures Holds(ts, i, i + 1, Content(ts[i]))
  {
    assert ts[i..i + 1] == [ts[i]] && [ts[i]][1..] == [];
  }

  lemma HoldsNone(ts: seq<Token>, i: nat)
    requires i <= |ts|
    ensures Holds(ts, i, i, 0)
  {}

  lemma HoldsJoin(ts: seq<Token>, i: nat, j: nat, k: nat, m: nat, n: nat)
    requires Holds(ts, i, j, m) && Holds(ts, j, k, n)
    ensures Holds(ts, i, k, m + n)
  {
    assert ts[i..k] == ts[i..j] + ts[j..k];
    CountAllAppends(ts[i..j], ts[j..k]);
  }

  // A keyword or symbol in front adds nothing.
  lemma HoldsAfter(ts: seq<Token>, i: nat, k: nat, n: nat)
    requires i < |ts| && Content(ts[i]) == 0 && Holds(ts, i + 1, k, n)
    ensures Holds(ts, i, k, n)
  {
    HoldsOne(ts, i);
    HoldsJoin(ts, i, i + 1, k, 0, n);
  }

  lemma KeywordsAreEmpty()
    ensures Count("or") == Count("and") == Count("is") == Count("not") == 0
  {
    NoneCounted("or");
    NoneCounted("and");
    NoneCounted("is");
    NoneCounted("not");
  }

  lemma KnownIsEmpty(w: string)
    requires KnownOf(w).Some?
    ensures Count(w) == 0
  {
    NoneCounted(w);
  }

  predicate Keeps(r: Parsed, ts: seq<Token>, i: nat, before: nat) {
    r.Some? ==> Holds(ts, i, r.value.1, Weight(r.value.0) - before)
  }

  lemma KeepsFrom(r: Parsed, ts: seq<Token>, i: nat, j: nat, before: nat, n: nat)
    requires Holds(ts, i, j, n) && Keeps(r, ts, j, before + n)
    ensures Keeps(r, ts, i, before)
  {
    if r.Some? { HoldsJoin(ts, i, j, r.value.1, n, Weight(r.value.0) - before - n); }
  }

  lemma {:induction false} OrKeeps(ts: seq<Token>, i: nat)
    ensures Keeps(ParseOr(ts, i, true), ts, i, 0)
    decreases |ts| - i, 4
  {
    AndKeeps(ts, i);
    match ParseAnd(ts, i, true)
    case None =>
    case Some((first, j)) =>
      OrTailKeeps(ts, j, [first]);
      WeightOne(first);
      KeepsFrom(ParseOr(ts, i, true), ts, i, j, 0, Weight(first));
  }

  lemma {:induction false} OrTailKeeps(ts: seq<Token>, i: nat, xs: seq<Node>)
    requires |xs| >= 1 && 0 < i <= |ts|
    ensures Keeps(OrTail(ts, i, xs, true), ts, i, WeightAll(xs))
    decreases |ts| - i, 5
  {
    if !WordAt(ts, i, "or") {
      CombineKeepsWeight(Disjunction, xs);
      HoldsNone(ts, i);
    } else {
      AndKeeps(ts, i + 1);
      KeywordsAreEmpty();
      match ParseAnd(ts, i + 1, true)
      case None =>
      case Some((x, j)) =>
        HoldsAfter(ts, i, j, Weight(x));
        WeightOne(x);
        WeightAppends(xs, [x]);
        OrTailKeeps(ts, j, xs + [x]);
        KeepsFrom(OrTail(ts, i, xs, true), ts, i, j, WeightAll(xs), Weight(x));
    }
  }

  lemma {:induction false} AndKeeps(ts: seq<Token>, i: nat)
    ensures Keeps(ParseAnd(ts, i, true), ts, i, 0)
    decreases |ts| - i, 3
  {
    PredicateKeeps(ts, i);
    match ParsePredicate(ts, i, true)
    case None =>
    case Some((first, j)) =>
      AndTailKeeps(ts, j, [first]);
      WeightOne(first);
      KeepsFrom(ParseAnd(ts, i, true), ts, i, j, 0, Weight(first));
  }

  lemma {:induction false} AndTailKeeps(ts: seq<Token>, i: nat, xs: seq<Node>)
    requires |xs| >= 1 && 0 < i <= |ts|
    ensures Keeps(AndTail(ts, i, xs, true), ts, i, WeightAll(xs))
    decreases |ts| - i, 4
  {
    if !WordAt(ts, i, "and") {
      CombineKeepsWeight(Conjunction, xs);
      HoldsNone(ts, i);
    } else {
      PredicateKeeps(ts, i + 1);
      KeywordsAreEmpty();
      match ParsePredicate(ts, i + 1, true)
      case None =>
      case Some((x, j)) =>
        HoldsAfter(ts, i, j, Weight(x));
        WeightOne(x);
        WeightAppends(xs, [x]);
        AndTailKeeps(ts, j, xs + [x]);
        KeepsFrom(AndTail(ts, i, xs, true), ts, i, j, WeightAll(xs), Weight(x));
    }
  }

  lemma IsTailKeeps(ts: seq<Token>, left: Node, i: nat)
    requires 0 < i <= |ts|
    ensures Keeps(IsTail(ts, left, i), ts, i, Weight(left))
  {
    HoldsNone(ts, i);
    if IsTail(ts, left, i).Some? && WordAt(ts, i, "is") {
      KeywordsAreEmpty();
      var j := if WordAt(ts, i + 1, "not") then i + 2 else i + 1;
      KnownIsEmpty(ts[j].text);
      HoldsOne(ts, j);
      if j == i + 2 { HoldsAfter(ts, i + 1, j + 1, 0); }
      HoldsAfter(ts, i, j + 1, 0);
    }
  }

  lemma {:induction false} PredicateKeeps(ts: seq<Token>, i: nat)
    ensures Keeps(ParsePredicate(ts, i, true), ts, i, 0)
    decreases |ts| - i, 2
  {
    PrimaryKeeps(ts, i);
    match ParsePrimary(ts, i, true)
    case None =>
    case Some((left, j)) =>
      if !SymbolAt(ts, j, '=') {
        IsTailKeeps(ts, left, j);
        KeepsFrom(IsTail(ts, left, j), ts, i, j, 0, Weight(left));
      } else {
        PrimaryKeeps(ts, j + 1);
        match ParsePrimary(ts, j + 1, true)
        case None =>
        case Some((right, k)) => EqualsKeep(ts, i, left, j, right, k);
      }
  }

  lemma EqualsKeep(ts: seq<Token>, i: nat, left: Node, j: nat, right: Node, k: nat)
    requires Holds(ts, i, j, Weight(left)) && SymbolAt(ts, j, '=') && Holds(ts, j + 1, k, Weight(right)) && 0 < k <= |ts|
    ensures Keeps(IsTail(ts, Equals(left, right), k), ts, i, 0)
  {
    HoldsAfter(ts, j, k, Weight(right));
    HoldsJoin(ts, i, j, k, Weight(left), Weight(right));
    IsTailKeeps(ts, Equals(left, right), k);
    KeepsFrom(IsTail(ts, Equals(left, right), k), ts, i, k, 0, Weight(left) + Weight(right));
  }

  lemma {:induction false} PrimaryKeeps(ts: seq<Token>, i: nat)
    ensures Keeps(ParsePrimary(ts, i, true), ts, i, 0)
    decreases |ts| - i, 1
  {
    if SymbolAt(ts, i, '(') {
      OrKeeps(ts, i + 1);
      match ParseOr(ts, i + 1, true)
      case None =>
      case Some((x, j)) =>
        if SymbolAt(ts, j, ')') {
          HoldsAfter(ts, i, j, Weight(x));
          HoldsOne(ts, j);
          HoldsJoin(ts, i, j, j + 1, Weight(x), 0);
        }
    } else if i < |ts| {
      HoldsOne(ts, i);
      if ts[i].Word? && SymbolAt(ts, i + 1, '(') { CallKeeps(ts, i); }
    }
  }

  lemma {:induction false} CallKeeps(ts: seq<Token>, i: nat)
    requires i < |ts| && ts[i].Word? && SymbolAt(ts, i + 1, '(')
    ensures Keeps(ParsePrimary(ts, i, true), ts, i, 0)
    decreases |ts| - i, 0
  {
    HoldsOne(ts, i);
    HoldsOne(ts, i + 1);
    HoldsJoin(ts, i, i + 1, i + 2, Count(ts[i].text), 0);
    if SymbolAt(ts, i + 2, ')') {
      HoldsOne(ts, i + 2);
      HoldsJoin(ts, i, i + 2, i + 3, Count(ts[i].text), 0);
    } else {
      ArgumentsKeep(ts, i + 2, ts[i].text, []);
      KeepsFrom(ParsePrimary(ts, i, true), ts, i, i + 2, 0, Count(ts[i].text));
    }
  }

  lemma {:induction false} ArgumentsKeep(ts: seq<Token>, i: nat, name: string, xs: seq<Node>)
    requires i <= |ts|
    ensures Keeps(ArgumentTail(ts, i, name, xs, true), ts, i, Count(name) + WeightAll(xs))
    decreases |ts| - i, 5
  {
    OrKeeps(ts, i);
    match ParseOr(ts, i, true)
    case None =>
    case Some((x, j)) =>
      WeightOne(x);
      WeightAppends(xs, [x]);
      if j < |ts| {
        HoldsOne(ts, j);
        if ts[j].Symbol? { HoldsJoin(ts, i, j, j + 1, Weight(x), 0); }
      }
      if SymbolAt(ts, j, ',') {
        ArgumentsKeep(ts, j + 1, name, xs + [x]);
        KeepsFrom(ArgumentTail(ts, i, name, xs, true), ts, i, j + 1, Count(name) + WeightAll(xs), Weight(x));
      }
  }

  lemma ParseKeeps(ts: seq<Token>)
    ensures CheckClause.Parse(ts, true).Some? ==> Weight(CheckClause.Parse(ts, true).value) == CountAll(ts)
  {
    OrKeeps(ts, 0);
    assert ts[0..|ts|] == ts;
  }

  // A canonical tree survives being printed as text, lexed and parsed exactly when
  // its text has no backslash before a quote.
  lemma ClauseTextReadsBackIff(t: Node)
    requires Canonical(t) && AllPrintable(Print(t))
    ensures CanonicalCheck(Text(Print(t))) == Some(t) <==> !HasEscape(Text(Print(t)))
  {
    var v := Text(Print(t));
    TextReadsBackIff(Print(t));
    PrintedClauseReadsBack(t);
    ParseKeeps(Print(t));
    CountText(Print(t));
    UnescapeCounts(v);
    assert Unescape(v)[0..] == Unescape(v);
    if TokensFrom(Unescape(v), 0).Some? {
      CountTokens(Unescape(v), 0);
      ParseKeeps(TokensFrom(Unescape(v), 0).value);
    }
  }
}
