/** The lexical grammar of CHECK clauses, by itself: a text is lexed exactly if it is
    pieces end to end, each ending where it must, and the tokens are what they mean. */
module CheckPieces {
  import opened Options
  import opened CheckClause
  import opened CheckText
  import opened CheckRoundTrip

  datatype Piece =
    | Blank(c: char)
    | Sign(c: char)
    | Plain(word: string)
    | Digits(number: string)
    | Name(text: string)
    | Text(text: string)
    | Marked(mark: string, text: string)

  function Meant(p: Piece): seq<Token> {
    match p
    case Blank(_) => []
    case Sign(c) => [Symbol(c)]
    case Plain(w) => [Word(Lower(w))]
    case Digits(d) => [Number(d)]
    case Name(s) => [Word(Lower(s))]
    case Text(s) => [Quoted(s)]
    case Marked(_, s) => [Quoted(s)]
  }

  // A whole word, and a whole number: no character of the kind stands behind it.
  predicate WordFrom(v: string, i: nat, j: nat) {
    && i < j <= |v| && WordStart(v[i]) && (forall k: nat | i <= k < j :: WordPart(v[k]))
    && (j < |v| ==> !WordPart(v[j]))
  }

  predicate NumberFrom(v: string, i: nat, j: nat) {
    i < j <= |v| && (forall k: nat | i <= k < j :: Digit(v[k])) && (j < |v| ==> !Digit(v[j]))
  }

  // A text between quotes, those inside it doubled; no quote stands behind it.
  predicate Encloses(v: string, i: nat, j: nat, s: string, quote: char) {
    i < j <= |v| && v[i..j] == Enclosed(s, quote) && (j < |v| ==> v[j] != quote)
  }

  predicate QuoteAt(v: string, i: nat) {
    i < |v| && v[i] == '\''
  }

  predicate PieceAt(v: string, i: nat, p: Piece, j: nat) {
    i < j <= |v|
    && match p
       case Blank(c) => White(c) && v[i..j] == [c]
       case Sign(c) => SymbolChar(c) && v[i..j] == [c]
       case Plain(w) => WordFrom(v, i, j) && v[i..j] == w && !(Introducer(Lower(w)) && QuoteAt(v, j))
       case Digits(d) => NumberFrom(v, i, j) && v[i..j] == d
       case Name(s) => Encloses(v, i, j, s, '`')
       case Text(s) => Encloses(v, i, j, s, '\'')
       case Marked(m, s) => MarkedAt(v, i, m, s, i + |m|, j)
  }

  predicate MarkedAt(v: string, i: nat, mark: string, s: string, k: nat, j: nat) {
    Introducer(Lower(mark)) && WordFrom(v, i, k) && v[i..k] == mark && Encloses(v, k, j, s, '\'')
  }

  // The text from i on is these pieces, one behind the other.
  predicate Consists(v: string, i: nat, ps: seq<Piece>, ends: seq<nat>)
    requires |ends| == |ps|
    decreases |ps|
  {
    if ps == [] then i == |v| else PieceAt(v, i, ps[0], ends[0]) && Consists(v, ends[0], ps[1..], ends[1..])
  }

  function Means(ps: seq<Piece>): seq<Token> {
    if ps == [] then [] else Meant(ps[0]) + Means(ps[1..])
  }

  // ---------------------------------------------------------------------------
  // Quotes, words and numbers

  lemma EnclosedIff(v: string, i: nat, j: nat, s: string, quote: char)
    requires i < |v| && v[i] == quote
    ensures ReadQuoted(v, i + 1, quote) == Some((s, j)) <==> Encloses(v, i, j, s, quote)
  {
    if ReadQuoted(v, i + 1, quote) == Some((s, j)) {
      ReadIsDoubled(v, i + 1, quote);
      assert v[i..j] == [quote] + v[i + 1..j];
    }
    if Encloses(v, i, j, s, quote) {
      assert Has(v, i, [quote] + (Doubled(s, quote) + [quote]));
      HasSplit(v, i, [quote], Doubled(s, quote) + [quote]);
      DoubledReadsBack(v, i + 1, s, quote, j);
    }
  }

  lemma {:induction false} ReadIsDoubled(v: string, i: nat, quote: char)
    requires i <= |v| && ReadQuoted(v, i, quote).Some?
    ensures var (s, j) := ReadQuoted(v, i, quote).value;
      i < j <= |v| && v[i..j] == Doubled(s, quote) + [quote] && (j < |v| ==> v[j] != quote)
    decreases |v| - i
  {
    var (s, j) := ReadQuoted(v, i, quote).value;
    if v[i] != quote || (i + 1 < |v| && v[i + 1] == quote) {
      var next := if v[i] != quote then i + 1 else i + 2;
      ReadIsDoubled(v, next, quote);
      var rest := ReadQuoted(v, next, quote).value.0;
      assert s == [v[i]] + rest && s[1..] == rest;
      assert v[i..j] == v[i..next] + v[next..j];
      assert v[i..next] == if v[i] == quote then [quote, quote] else [v[i]];
    } else {
      assert s == "" && v[i..j] == [quote];
    }
  }

  lemma {:induction false} WordEndIff(v: string, i: nat, j: nat)
    requires i <= |v|
    ensures WordEnd(v, i) == j <==>
      i <= j <= |v| && (forall k: nat | i <= k < j :: WordPart(v[k])) && (j < |v| ==> !WordPart(v[j]))
    decreases |v| - i
  {
    if i < |v| && WordPart(v[i]) { WordEndIff(v, i + 1, j); }
  }

  lemma {:induction false} DigitsEndIff(v: string, i: nat, j: nat)
    requires i <= |v|
    ensures DigitsEnd(v, i) == j <==>
      i <= j <= |v| && (forall k: nat | i <= k < j :: Digit(v[k])) && (j < |v| ==> !Digit(v[j]))
    decreases |v| - i
  {
    if i < |v| && Digit(v[i]) { DigitsEndIff(v, i + 1, j); }
  }

  lemma WordFromIff(v: string, i: nat, j: nat)
    requires i < |v| && WordStart(v[i])
    ensures WordEnd(v, i + 1) == j <==> WordFrom(v, i, j)
  {
    WordEndIff(v, i + 1, j);
  }

  lemma NumberFromIff(v: string, i: nat, j: nat)
    requires i < |v| && Digit(v[i])
    ensures DigitsEnd(v, i + 1) == j <==> NumberFrom(v, i, j)
  {
    DigitsEndIff(v, i + 1, j);
  }

  // ---------------------------------------------------------------------------
  // One piece

  lemma PieceIsRead(v: string, i: nat, p: Piece, j: nat)
    requires PieceAt(v, i, p, j)
    ensures TokenAt(v, i) == Some((Meant(p), j))
  {
    match p {
      case Blank(c) => assert v[i] == v[i..j][0];
      case Sign(c) => assert v[i] == v[i..j][0];
      case Plain(w) => WordFromIff(v, i, j);
      case Digits(d) => NumberFromIff(v, i, j);
      case Name(s) => EnclosedIsRead(v, i, j, s, '`');
      case Text(s) => EnclosedIsRead(v, i, j, s, '\'');
      case Marked(m, s) =>
        WordFromIff(v, i, i + |m|);
        EnclosedIsRead(v, i + |m|, j, s, '\'');
    }
  }

  lemma EnclosedIsRead(v: string, i: nat, j: nat, s: string, quote: char)
    requires Encloses(v, i, j, s, quote)
    ensures v[i] == quote && ReadQuoted(v, i + 1, quote) == Some((s, j))
  {
    assert v[i] == v[i..j][0];
    EnclosedIff(v, i, j, s, quote);
  }

  lemma ReadIsPiece(v: string, i: nat) returns (p: Piece)
    requires i < |v| && TokenAt(v, i).Some?
    ensures PieceAt(v, i, p, TokenAt(v, i).value.1) && Meant(p) == TokenAt(v, i).value.0
  {
    var c, j := v[i], TokenAt(v, i).value.1;
    if White(c) {
      p := Blank(c);
    } else if c == '`' {
      p := Name(ReadQuoted(v, i + 1, '`').value.0);
      EnclosedIff(v, i, j, p.text, '`');
    } else if c == '\'' {
      p := Text(ReadQuoted(v, i + 1, '\'').value.0);
      EnclosedIff(v, i, j, p.text, '\'');
    } else if WordStart(c) {
      p := WordIsPiece(v, i);
    } else if Digit(c) {
      p := Digits(v[i..j]);
      NumberFromIff(v, i, j);
    } else {
      p := Sign(c);
    }
  }

  lemma WordIsPiece(v: string, i: nat) returns (p: Piece)
    requires i < |v| && TokenAt(v, i).Some? && WordStart(v[i])
    ensures PieceAt(v, i, p, TokenAt(v, i).value.1) && Meant(p) == TokenAt(v, i).value.0
  {
    var k := WordEnd(v, i + 1);
    WordFromIff(v, i, k);
    var w := v[i..k];
    if Introducer(Lower(w)) && QuoteAt(v, k) {
      var (s, j) := ReadQuoted(v, k + 1, '\'').value;
      EnclosedIff(v, k, j, s, '\'');
      p := Marked(w, s);
    } else {
      p := Plain(w);
    }
  }

  // ---------------------------------------------------------------------------
  // The whole text

  ghost predicate IsPieces(v: string, i: nat, ts: seq<Token>) {
    exists ps, ends: seq<nat> :: |ends| == |ps| && Consists(v, i, ps, ends) && Means(ps) == ts
  }

  lemma {:induction false} PiecesAreRead(v: string, i: nat, ps: seq<Piece>, ends: seq<nat>)
    requires i <= |v| && |ends| == |ps| && Consists(v, i, ps, ends)
    ensures Lexed(v, i) == Some(Means(ps))
    decreases |ps|
  {
    if ps != [] {
      PieceIsRead(v, i, ps[0], ends[0]);
      PiecesAreRead(v, ends[0], ps[1..], ends[1..]);
    }
  }

  lemma {:induction false} ReadIsPieces(v: string, i: nat) returns (ps: seq<Piece>, ends: seq<nat>)
    requires i <= |v| && Lexed(v, i).Some?
    ensures |ends| == |ps| && Consists(v, i, ps, ends) && Lexed(v, i) == Some(Means(ps))
    decreases |v| - i
  {
    if i == |v| {
      ps, ends := [], [];
    } else {
      var p := ReadIsPiece(v, i);
      var j := TokenAt(v, i).value.1;
      var rest, later := ReadIsPieces(v, j);
      ps, ends := [p] + rest, [j] + later;
      assert ps[1..] == rest && ends[1..] == later;
    }
  }

  lemma LexesIff(v: string, ts: seq<Token>)
    ensures TokensFrom(v, 0) == Some(ts) <==> IsPieces(v, 0, ts)
  {
    if TokensFrom(v, 0) == Some(ts) {
      assert Lexed(v, 0) == Some(ts);
      var ps, ends := ReadIsPieces(v, 0);
    }
    if IsPieces(v, 0, ts) {
      var ps, ends: seq<nat> :| |ends| == |ps| && Consists(v, 0, ps, ends) && Means(ps) == ts;
      PiecesAreRead(v, 0, ps, ends);
      assert Lexed(v, 0) == Some(ts);
    }
  }

  // ---------------------------------------------------------------------------
  // Backslashes before quotes

  // Every backslash-quote becomes a quote, wherever it stands, and nothing else changes.
  lemma {:induction false} EscapesAreReplaced(before: string, behind: string)
    ensures Unescape(before + ("\\'" + behind)) == Unescape(before) + ("'" + Unescape(behind))
    decreases |before|
  {
    var escape := "\\'";
    if before == "" {
      assert before + (escape + behind) == escape + behind && (escape + behind)[2..] == behind;
      assert Unescape(before) + ("'" + Unescape(behind)) == "'" + Unescape(behind);
    } else {
      var step := if |before| >= 2 && before[0] == '\\' && before[1] == '\'' then 2 else 1;
      EscapesAreReplaced(before[step..], behind);
      assert (before + (escape + behind))[step..] == before[step..] + (escape + behind);
      var head := if step == 2 then "'" else [before[0]];
      assert (head + Unescape(before[step..])) + ("'" + Unescape(behind)) == head + (Unescape(before[step..]) + ("'" + Unescape(behind)));
    }
  }
}
