/** The migration's own expression, from its text: it lexes to the tokens whose tree
    is the expected one, so the code accepts the very clause it installs. */
module CheckExpression {
  import opened Options
  import opened CheckClause
  import opened CheckSemantics
  import opened CheckText

  // A text in pieces: white space, symbols, words, numbers and introduced strings.
  datatype Piece =
    | Gap(text: string)
    | Sym(c: char)
    | Bare(text: string)
    | Num(text: string)
    | Ascii(text: string)

  function Spelled(p: Piece): string {
    match p
    case Gap(s) => s
    case Sym(c) => [c]
    case Bare(w) => w
    case Num(d) => d
    case Ascii(s) => "_ascii'" + (s + "'")
  }

  function Meant(p: Piece): seq<Token> {
    match p
    case Gap(_) => []
    case Sym(c) => [Symbol(c)]
    case Bare(w) => [Word(Lower(w))]
    case Num(d) => [Number(d)]
    case Ascii(s) => [Quoted(s)]
  }

  function Spell(ps: seq<Piece>): string {
    if ps == [] then "" else Spelled(ps[0]) + Spell(ps[1..])
  }

  function Means(ps: seq<Piece>): seq<Token> {
    if ps == [] then [] else Meant(ps[0]) + Means(ps[1..])
  }

  // White space and symbols end whatever comes before them.
  predicate Soft(p: Piece) {
    p.Gap? || p.Sym?
  }

  predicate Sound(p: Piece) {
    match p
    case Gap(s) => s != "" && forall k | 0 <= k < |s| :: White(s[k])
    case Sym(c) => SymbolChar(c)
    case Bare(w) => w != "" && WordStart(w[0]) && (forall k | 0 <= k < |w| :: WordPart(w[k])) && !Introducer(Lower(w))
    case Num(d) => d != "" && forall k | 0 <= k < |d| :: Digit(d[k])
    case Ascii(s) => forall k | 0 <= k < |s| :: s[k] != '\''
  }

  predicate AllSound(ps: seq<Piece>) {
    && (forall k | 0 <= k < |ps| :: Sound(ps[k]))
    && (forall k | 0 <= k < |ps| - 1 :: Soft(ps[k]) || Soft(ps[k + 1]))
  }

  // ---------------------------------------------------------------------------
  // Lexing the pieces

  // What follows ends a word, a number and a string.
  predicate Ends(v: string, i: nat) {
    i < |v| ==> White(v[i]) || SymbolChar(v[i])
  }

  lemma {:induction false} GapLexes(v: string, i: nat, j: nat)
    requires i <= j <= |v| && forall k | i <= k < j :: White(v[k])
    ensures TokensFrom(v, i) == TokensFrom(v, j)
    decreases j - i
  {
    if i < j {
      GapLexes(v, i + 1, j);
      assert TokenAt(v, i) == Some(([], i + 1));
      JoinStep([], [], TokensFrom(v, i + 1));
    }
  }

  lemma {:induction false} WordStops(v: string, i: nat, j: nat)
    requires i <= j <= |v| && Ends(v, j) && forall k | i <= k < j :: WordPart(v[k])
    ensures WordEnd(v, i) == j
    decreases j - i
  {
    if i < j { WordStops(v, i + 1, j); }
  }

  lemma {:induction false} NumberStops(v: string, i: nat, j: nat)
    requires i <= j <= |v| && Ends(v, j) && forall k | i <= k < j :: Digit(v[k])
    ensures DigitsEnd(v, i) == j
    decreases j - i
  {
    if i < j { NumberStops(v, i + 1, j); }
  }

  lemma {:induction false} StringStops(v: string, i: nat, j: nat)
    requires i <= j < |v| && v[j] == '\'' && Ends(v, j + 1) && forall k | i <= k < j :: v[k] != '\''
    ensures ReadQuoted(v, i, '\'') == Some((v[i..j], j + 1))
    decreases j - i
  {
    if i < j {
      StringStops(v, i + 1, j);
      assert v[i..j] == [v[i]] + v[i + 1..j];
    } else {
      assert v[i..j] == "" && (j + 1 < |v| ==> v[j + 1] != '\'');
    }
  }

  lemma AsciiLexes(v: string, i: nat, s: string)
    requires i + |s| + 8 <= |v| && v[i..i + |s| + 8] == "_ascii'" + (s + "'") && Ends(v, i + |s| + 8)
    requires forall k | 0 <= k < |s| :: s[k] != '\''
    ensures TokenAt(v, i) == Some(([Quoted(s)], i + |s| + 8))
  {
    var all := v[i..i + |s| + 8];
    assert all == "_ascii" + ("'" + (s + "'"));
    assert all[..6] == "_ascii" && all[6] == '\'' && all[7..7 + |s|] == s && all[7 + |s|] == '\'';
    forall k | 0 <= k < 6 ensures v[i + k] == "_ascii"[k] { assert v[i + k] == all[k] == all[..6][k]; }
    assert v[i..i + 6] == "_ascii" && v[i + 6] == all[6];
    forall k | 0 <= k < |s| ensures v[i + 7 + k] == s[k] { assert v[i + 7 + k] == all[7 + k] == all[7..7 + |s|][k]; }
    assert v[i + 7..i + 7 + |s|] == s && v[i + 7 + |s|] == all[7 + |s|];
    forall k | i + 7 <= k < i + 7 + |s| ensures v[k] != '\'' { assert v[k] == s[k - i - 7]; }
    StringStops(v, i + 7, i + 7 + |s|);
    AsciiIsAWord(v, i);
  }

  lemma AsciiIsAWord(v: string, i: nat)
    requires i + 6 < |v| && v[i..i + 6] == "_ascii" && v[i + 6] == '\''
    ensures WordStart(v[i]) && WordEnd(v, i + 1) == i + 6 && Lower(v[i..i + 6]) == "_ascii"
    ensures !White(v[i]) && v[i] != '`' && v[i] != '\''
  {
    var w := v[i..i + 6];
    assert v[i] == w[0] && v[i + 1] == w[1] && v[i + 2] == w[2] && v[i + 3] == w[3] && v[i + 4] == w[4] && v[i + 5] == w[5];
    assert WordEnd(v, i + 6) == i + 6;
    assert WordEnd(v, i + 5) == i + 6;
    assert WordEnd(v, i + 4) == i + 6;
    assert WordEnd(v, i + 3) == i + 6;
    assert WordEnd(v, i + 2) == i + 6;
    assert Lower("_ascii") == "_ascii";
  }

  lemma WordLexes(v: string, i: nat, w: string)
    requires i + |w| <= |v| && v[i..i + |w|] == w && Ends(v, i + |w|) && Sound(Bare(w))
    ensures TokenAt(v, i) == Some(([Word(Lower(w))], i + |w|))
  {
    forall k | i <= k < i + |w| ensures v[k] == w[k - i] { assert v[k] == v[i..i + |w|][k - i]; }
    WordStops(v, i + 1, i + |w|);
  }

  lemma NumberLexes(v: string, i: nat, d: string)
    requires i + |d| <= |v| && v[i..i + |d|] == d && Ends(v, i + |d|) && Sound(Num(d))
    ensures TokenAt(v, i) == Some(([Number(d)], i + |d|))
  {
    forall k | i <= k < i + |d| ensures v[k] == d[k - i] { assert v[k] == v[i..i + |d|][k - i]; }
    NumberStops(v, i + 1, i + |d|);
  }

  lemma BlankLexes(v: string, i: nat, s: string, j: nat)
    requires Sound(Gap(s)) && j == i + |s| <= |v| && v[i..j] == s
    ensures TokensFrom(v, i) == Joined([], TokensFrom(v, j))
  {
    forall k | i <= k < j ensures White(v[k]) { assert v[k] == v[i..j][k - i]; }
    GapLexes(v, i, j);
    JoinStep([], [], TokensFrom(v, j));
  }

  lemma PieceLexes(v: string, i: nat, p: Piece, j: nat)
    requires Sound(p) && j == i + |Spelled(p)| <= |v| && v[i..j] == Spelled(p)
    requires Soft(p) || Ends(v, j)
    ensures TokensFrom(v, i) == Joined(Meant(p), TokensFrom(v, j))
  {
    match p {
      case Gap(s) => BlankLexes(v, i, s, j);
      case Sym(c) => assert v[i] == v[i..j][0];
      case Bare(w) => WordLexes(v, i, w);
      case Num(d) => NumberLexes(v, i, d);
      case Ascii(s) => AsciiLexes(v, i, s);
    }
  }

  lemma SoftEnds(v: string, i: nat, ps: seq<Piece>)
    requires i <= |v| && v[i..] == Spell(ps) && AllSound(ps) && (ps != [] ==> Soft(ps[0]))
    ensures Ends(v, i)
  {
    if ps != [] {
      assert v[i] == v[i..][0] == Spelled(ps[0])[0];
    }
  }

  lemma TailIsSound(ps: seq<Piece>)
    requires AllSound(ps) && ps != []
    ensures AllSound(ps[1..]) && (Soft(ps[0]) || ps[1..] == [] || Soft(ps[1..][0]))
  {
    assert |ps| > 1 ==> Soft(ps[0]) || Soft(ps[0 + 1]);
    forall k | 0 <= k < |ps| - 2 ensures Soft(ps[1..][k]) || Soft(ps[1..][k + 1]) {
      assert Soft(ps[k + 1]) || Soft(ps[(k + 1) + 1]);
    }
  }

  // The text from i on lexes to these tokens.
  function Lexed(v: string, i: nat): Option<seq<Token>>
    requires i <= |v|
  {
    TokensFrom(v, i)
  }

  lemma {:induction false} PiecesLex(v: string, i: nat, ps: seq<Piece>)
    requires i <= |v| && v[i..] == Spell(ps) && AllSound(ps)
    ensures Lexed(v, i) == Some(Means(ps))
    decreases |ps|
  {
    if ps != [] {
      var j := i + |Spelled(ps[0])|;
      TextStep(v, i, Spelled(ps[0]), Spell(ps[1..]));
      TailIsSound(ps);
      PiecesLex(v, j, ps[1..]);
      if !Soft(ps[0]) { SoftEnds(v, j, ps[1..]); }
      PieceLexes(v, i, ps[0], j);
    }
  }

  lemma TextStep(v: string, i: nat, first: string, rest: string)
    requires i <= |v| && v[i..] == first + rest
    ensures var j := i + |first|; j <= |v| && v[i..j] == first && v[j..] == rest
  {
    var all := first + rest;
    assert all[..|first|] == first && all[|first|..] == rest;
    assert v[i..i + |first|] == v[i..][..|first|] && v[i + |first|..] == v[i..][|first|..];
  }

  // ---------------------------------------------------------------------------
  // Pieces put together

  lemma Parts<T>(first: seq<T>, a: seq<T>, b: seq<T>)
    ensures (first + a) + b == first + (a + b)
  {}

  lemma PieceFirst(p: Piece, ps: seq<Piece>)
    ensures Spell([p] + ps) == Spelled(p) + Spell(ps) && Means([p] + ps) == Meant(p) + Means(ps)
  {
    assert ([p] + ps)[1..] == ps;
  }

  lemma {:induction false} Together(a: seq<Piece>, b: seq<Piece>)
    ensures Spell(a + b) == Spell(a) + Spell(b) && Means(a + b) == Means(a) + Means(b)
  {
    if a == [] {
      assert a + b == b;
    } else {
      Together(a[1..], b);
      PieceFirst(a[0], a[1..] + b);
      assert a == [a[0]] + a[1..];
      Parts([a[0]], a[1..], b);
      Parts(Spelled(a[0]), Spell(a[1..]), Spell(b));
      Parts(Meant(a[0]), Means(a[1..]), Means(b));
    }
  }

  // Sound on its own, and between what ends a word.
  predicate Closed(ps: seq<Piece>) {
    AllSound(ps) && ps != [] && Soft(ps[0])
  }

  lemma ClosedTogether(a: seq<Piece>, b: seq<Piece>)
    requires Closed(a) && Closed(b)
    ensures Closed(a + b)
  {
    var ps := a + b;
    forall k | 0 <= k < |ps| ensures Sound(ps[k]) { assert ps[k] == if k < |a| then a[k] else b[k - |a|]; }
    forall k | 0 <= k < |ps| - 1 ensures Soft(ps[k]) || Soft(ps[k + 1]) {
      if k < |a| - 1 {
        assert Soft(a[k]) || Soft(a[k + 1]);
      } else if k >= |a| {
        assert Soft(b[k - |a|]) || Soft(b[k - |a| + 1]);
      }
    }
  }

  predicate NoBackslash(s: string) {
    forall k | 0 <= k < |s| :: s[k] != '\\'
  }

  // A piece with the white space before it, which only a symbol can do without.
  datatype Item = Item(gap: string, piece: Piece)

  function Laid(x: Item): seq<Piece> {
    if x.gap == "" then [x.piece] else [Gap(x.gap), x.piece]
  }

  function Spread(items: seq<Item>): seq<Piece> {
    if items == [] then [] else Laid(items[0]) + Spread(items[1..])
  }

  predicate Blank(gap: string) {
    forall k | 0 <= k < |gap| :: White(gap[k])
  }

  // The item is one token.
  predicate Stands(x: Item, t: Token) {
    && Blank(x.gap) && !x.piece.Gap? && (x.gap == "" ==> x.piece.Sym?)
    && Sound(x.piece) && Meant(x.piece) == [t] && NoBackslash(Spelled(x.piece))
  }

  predicate Reads(items: seq<Item>, ts: seq<Token>) {
    |items| == |ts| && forall k | 0 <= k < |items| :: Stands(items[k], ts[k])
  }

  lemma Append(a: seq<Item>, s: seq<Token>, b: seq<Item>, t: seq<Token>)
    requires Reads(a, s) && Reads(b, t)
    ensures Reads(a + b, s + t)
  {
    var items, ts := a + b, s + t;
    forall k | 0 <= k < |items| ensures Stands(items[k], ts[k]) {
      if k < |a| {
        assert Stands(a[k], s[k]) && items[k] == a[k] && ts[k] == s[k];
      } else {
        assert Stands(b[k - |a|], t[k - |a|]) && items[k] == b[k - |a|] && ts[k] == t[k - |a|];
      }
    }
  }

  lemma ItemReads(x: Item, t: Token)
    requires Stands(x, t)
    ensures var ps := Laid(x); Closed(ps) && Means(ps) == [t] && NoBackslash(Spell(ps))
  {
    PieceFirst(x.piece, []);
    PieceFirst(Gap(x.gap), [x.piece]);
    assert [x.piece] + [] == [x.piece] && [Gap(x.gap)] + [x.piece] == [Gap(x.gap), x.piece];
  }

  lemma {:induction false} ItemsRead(items: seq<Item>, ts: seq<Token>)
    requires Reads(items, ts)
    ensures var ps := Spread(items);
      (ps == [] || Closed(ps)) && Means(ps) == ts && NoBackslash(Spell(ps))
  {
    if items != [] {
      var ps, rest := Laid(items[0]), Spread(items[1..]);
      ItemReads(items[0], ts[0]);
      ItemsRead(items[1..], ts[1..]);
      Together(ps, rest);
      if rest == [] { assert ps + rest == ps; } else { ClosedTogether(ps, rest); }
      assert [ts[0]] + ts[1..] == ts;
    }
  }

  lemma {:induction false} UnescapeKeeps(v: string)
    requires NoBackslash(v)
    ensures Unescape(v) == v
  {
    if v != "" {
      UnescapeKeeps(v[1..]);
      assert v == [v[0]] + v[1..];
    }
  }

  // ---------------------------------------------------------------------------
  // The expression

  const IS := Item(" ", Bare("IS"))
  const NOT := Item(" ", Bare("NOT"))
  const NULL := Item(" ", Bare("NULL"))
  const AND := Item("\n    ", Bare("AND"))
  const COMMA := Item("", Sym(','))

  const UNSCOPED_ITEMS := [
    Item("\n    ", Bare("workflow_job_id")), IS, NULL,
    AND, Item(" ", Bare("revision_attempt")), IS, NULL,
    AND, Item(" ", Bare("request_sha256")), IS, NULL]
  const MATCHES_ITEMS := [
    Item(" ", Bare("REGEXP_LIKE")), Item("", Sym('(')),
    Item("\n      ", Bare("request_sha256")), COMMA,
    Item("\n      ", Ascii("^[0-9a-f]{64}$")), COMMA,
    Item("\n      ", Ascii("c")),
    Item("\n    ", Sym(')'))]
  const SCOPED_ITEMS := [
    Item("\n    ", Bare("workflow_job_id")), IS, NOT, NULL,
    AND, Item(" ", Bare("revision_attempt")), Item(" ", Sym('=')), Item(" ", Num("1")),
    AND, Item(" ", Bare("request_sha256")), IS, NOT, NULL,
    AND] + MATCHES_ITEMS
  const EXPRESSION_ITEMS :=
    [Item("", Sym('('))] + Parenthesised(UNSCOPED_ITEMS) + [Item("\n  ", Bare("OR"))] + Parenthesised(SCOPED_ITEMS)
    + [Item("\n", Sym(')')), IS, Item(" ", Bare("TRUE"))]

  function Parenthesised(items: seq<Item>): seq<Item> {
    [Item("\n  ", Sym('('))] + (items + [Item("\n  ", Sym(')'))])
  }

  const EXPRESSION_TEXT := Spell(Spread(EXPRESSION_ITEMS))

  // A word, and what it is in small letters.
  predicate Lowered(w: string, l: string) {
    && |w| == |l| && w != "" && WordStart(w[0]) && w[0] != '_'
    && forall k | 0 <= k < |w| :: WordPart(w[k]) && l[k] == LowerChar(w[k])
  }

  lemma WordStands(gap: string, w: string, l: string)
    requires Blank(gap) && gap != "" && Lowered(w, l)
    ensures Stands(Item(gap, Bare(w)), Word(l))
  {
    assert Lower(w) == l && l[0] != '_';
  }

  lemma WordsAreLowered()
    ensures Lowered("IS", "is") && Lowered("NOT", "not") && Lowered("NULL", "null") && Lowered("AND", "and")
    ensures Lowered("OR", "or") && Lowered("TRUE", "true") && Lowered("REGEXP_LIKE", "regexp_like")
  {}

  lemma ColumnsAreLowered()
    ensures Lowered("workflow_job_id", "workflow_job_id")
    ensures Lowered("revision_attempt", "revision_attempt") && Lowered("request_sha256", "request_sha256")
  {}

  lemma KeywordsStand()
    ensures Stands(IS, Word("is")) && Stands(NOT, Word("not")) && Stands(NULL, Word("null")) && Stands(AND, Word("and"))
    ensures Stands(Item("\n  ", Bare("OR")), Word("or")) && Stands(Item(" ", Bare("TRUE")), Word("true"))
    ensures Stands(Item(" ", Bare("REGEXP_LIKE")), Word("regexp_like"))
  {
    WordsAreLowered();
    WordStands(" ", "IS", "is");
    WordStands(" ", "NOT", "not");
    WordStands(" ", "NULL", "null");
    WordStands("\n    ", "AND", "and");
    WordStands("\n  ", "OR", "or");
    WordStands(" ", "TRUE", "true");
    WordStands(" ", "REGEXP_LIKE", "regexp_like");
  }

  lemma ColumnsStand()
    ensures Stands(Item("\n    ", Bare("workflow_job_id")), Word("workflow_job_id"))
    ensures Stands(Item(" ", Bare("revision_attempt")), Word("revision_attempt"))
    ensures Stands(Item(" ", Bare("request_sha256")), Word("request_sha256"))
    ensures Stands(Item("\n      ", Bare("request_sha256")), Word("request_sha256"))
  {
    ColumnsAreLowered();
    WordStands("\n    ", "workflow_job_id", "workflow_job_id");
    WordStands(" ", "revision_attempt", "revision_attempt");
    WordStands(" ", "request_sha256", "request_sha256");
    WordStands("\n      ", "request_sha256", "request_sha256");
  }

  lemma LiteralsStand()
    ensures Stands(Item("\n      ", Ascii("^[0-9a-f]{64}$")), Quoted("^[0-9a-f]{64}$"))
    ensures Stands(Item("\n      ", Ascii("c")), Quoted("c"))
    ensures Stands(Item(" ", Num("1")), Number("1"))
  {}

  lemma UnscopedReads()
    ensures Reads(UNSCOPED_ITEMS, UNSCOPED_TOKENS)
  {
    KeywordsStand();
    ColumnsStand();
  }

  lemma MatchesReads()
    ensures Reads(MATCHES_ITEMS, MATCHES_TOKENS)
  {
    KeywordsStand();
    ColumnsStand();
    LiteralsStand();
  }

  lemma ScopedReads()
    ensures Reads(SCOPED_ITEMS, SCOPED_TOKENS)
  {
    KeywordsStand();
    ColumnsStand();
    LiteralsStand();
    MatchesReads();
    var items := SCOPED_ITEMS[..14];
    Append(items, SCOPED_TOKENS[..14], MATCHES_ITEMS, MATCHES_TOKENS);
  }

  lemma GroupReads(items: seq<Item>, ts: seq<Token>)
    requires Reads(items, ts)
    ensures Reads(Parenthesised(items), Group(ts))
  {
    Append(items, ts, [Item("\n  ", Sym(')'))], [Symbol(')')]);
    Append([Item("\n  ", Sym('('))], [Symbol('(')], items + [Item("\n  ", Sym(')'))], ts + [Symbol(')')]);
  }

  lemma ExpressionReads()
    ensures Reads(EXPRESSION_ITEMS, EXPRESSION)
  {
    KeywordsStand();
    UnscopedReads();
    ScopedReads();
    GroupReads(UNSCOPED_ITEMS, UNSCOPED_TOKENS);
    GroupReads(SCOPED_ITEMS, SCOPED_TOKENS);
  }

  // The text the migration installs is accepted as the scope check.
  lemma ExpressionTextIsAccepted()
    ensures TokensFrom(Unescape(EXPRESSION_TEXT), 0) == Some(EXPRESSION)
    ensures CanonicalCheck(EXPRESSION_TEXT) == Some(EXPECTED)
  {
    ExpressionReads();
    ItemsRead(EXPRESSION_ITEMS, EXPRESSION);
    UnescapeKeeps(EXPRESSION_TEXT);
    assert EXPRESSION_TEXT[0..] == EXPRESSION_TEXT;
    PiecesLex(EXPRESSION_TEXT, 0, Spread(EXPRESSION_ITEMS));
    ExpressionIsAccepted();
  }
}
