/** The text of a CHECK clause: the lexer as a loop over its characters, a printer
    that quotes every word, and exactly when printed text reads back. */
module CheckText {
  import opened Options
  import opened CheckClause
  import opened CheckParsing
  import opened CheckSemantics

  // The white space of ECMAScript regular expressions.
  predicate White(c: char) {
    || '\t' <= c <= '\r' || c == ' ' || c == '\U{00A0}' || c == '\U{1680}' || '\U{2000}' <= c <= '\U{200A}'
    || c == '\U{2028}' || c == '\U{2029}' || c == '\U{202F}' || c == '\U{205F}' || c == '\U{3000}' || c == '\U{FEFF}'
  }

  predicate Digit(c: char) { '0' <= c <= '9' }

  predicate WordStart(c: char) { 'A' <= c <= 'Z' || 'a' <= c <= 'z' || c == '_' }

  predicate WordPart(c: char) { WordStart(c) || Digit(c) || c == '$' }

  predicate SymbolChar(c: char) { c == '(' || c == ')' || c == ',' || c == '=' }

  function LowerChar(c: char): char {
    if 'A' <= c <= 'Z' then c - 'A' + 'a' else c
  }

  function Lower(s: string): string {
    seq(|s|, k requires 0 <= k < |s| => LowerChar(s[k]))
  }

  // ---------------------------------------------------------------------------
  // The lexer

  // From just after the opening quote: the text, and the place after the closing
  // quote. A doubled quote stands for one.
  function ReadQuoted(v: string, i: nat, quote: char): (r: Option<(string, nat)>)
    requires i <= |v|
    ensures r.Some? ==> i < r.value.1 <= |v|
    decreases |v| - i
  {
    if i == |v| then None
    else if v[i] != quote then Prefixed(v[i], ReadQuoted(v, i + 1, quote))
    else if i + 1 < |v| && v[i + 1] == quote then Prefixed(quote, ReadQuoted(v, i + 2, quote))
    else Some(("", i + 1))
  }

  function Prefixed(c: char, r: Option<(string, nat)>): Option<(string, nat)> {
    match r
    case None => None
    case Some((s, j)) => Some(([c] + s, j))
  }

  function WordEnd(v: string, i: nat): (j: nat)
    requires i <= |v|
    ensures i <= j <= |v|
    decreases |v| - i
  {
    if i < |v| && WordPart(v[i]) then WordEnd(v, i + 1) else i
  }

  function DigitsEnd(v: string, i: nat): (j: nat)
    requires i <= |v|
    ensures i <= j <= |v|
    decreases |v| - i
  {
    if i < |v| && Digit(v[i]) then DigitsEnd(v, i + 1) else i
  }

  predicate Introducer(w: string) {
    w in {"_ascii", "_utf8mb4", "_latin1"}
  }

  // One turn of the lexer: the tokens read, at most one, and the next place.
  function TokenAt(v: string, i: nat): (r: Option<(seq<Token>, nat)>)
    requires i < |v|
    ensures r.Some? ==> i < r.value.1 <= |v|
  {
    var c := v[i];
    if White(c) then Some(([], i + 1))
    else if c == '`' then
      match ReadQuoted(v, i + 1, '`')
      case None => None
      case Some((s, j)) => Some(([Word(Lower(s))], j))
    else if c == '\'' then QuotedAt(v, i)
    else if WordStart(c) then
      var end := WordEnd(v, i + 1);
      var word := Lower(v[i..end]);
      if Introducer(word) && end < |v| && v[end] == '\'' then QuotedAt(v, end) else Some(([Word(word)], end))
    else if Digit(c) then
      var end := DigitsEnd(v, i + 1);
      Some(([Number(v[i..end])], end))
    else if SymbolChar(c) then Some(([Symbol(c)], i + 1))
    else None
  }

  function QuotedAt(v: string, i: nat): (r: Option<(seq<Token>, nat)>)
    requires i < |v|
    ensures r.Some? ==> i < r.value.1 <= |v|
  {
    match ReadQuoted(v, i + 1, '\'')
    case None => None
    case Some((s, j)) => Some(([Quoted(s)], j))
  }

  function TokensFrom(v: string, i: nat): Option<seq<Token>>
    requires i <= |v|
    decreases |v| - i
  {
    if i == |v| then Some([])
    else
      match TokenAt(v, i)
      case None => None
      case Some((ts, j)) => Joined(ts, TokensFrom(v, j))
  }

  function Joined(ts: seq<Token>, r: Option<seq<Token>>): Option<seq<Token>> {
    match r
    case None => None
    case Some(rest) => Some(ts + rest)
  }

  // replaceAll of \' by '.
  function Unescape(v: string): string {
    if v == "" then ""
    else if |v| >= 2 && v[0] == '\\' && v[1] == '\'' then "'" + Unescape(v[2..])
    else [v[0]] + Unescape(v[1..])
  }

  function CanonicalCheck(v: string): Option<Node> {
    match TokensFrom(Unescape(v), 0)
    case None => None
    case Some(ts) => CheckClause.Parse(ts, true)
  }

  // ---------------------------------------------------------------------------
  // The loops

  method ScanQuoted(v: string, start: nat, quote: char) returns (r: Option<(string, nat)>)
    requires start < |v|
    ensures r == ReadQuoted(v, start + 1, quote)
  {
    var text := "";
    var index := start + 1;
    PrefixStep("", quote, ReadQuoted(v, index, quote));
    while index < |v|
      invariant index <= |v|
      invariant ReadQuoted(v, start + 1, quote) == PrefixedAll(text, ReadQuoted(v, index, quote))
    {
      if v[index] == quote {
        if index + 1 < |v| && v[index + 1] == quote {
          PrefixStep(text, quote, ReadQuoted(v, index + 2, quote));
          text := text + [quote];
          index := index + 2;
          continue;
        }
        assert text + "" == text;
        return Some((text, index + 1));
      }
      PrefixStep(text, v[index], ReadQuoted(v, index + 1, quote));
      text := text + [v[index]];
      index := index + 1;
    }
    return None;
  }

  function PrefixedAll(s: string, r: Option<(string, nat)>): Option<(string, nat)> {
    match r
    case None => None
    case Some((t, j)) => Some((s + t, j))
  }

  lemma PrefixStep(s: string, c: char, r: Option<(string, nat)>)
    ensures PrefixedAll(s, Prefixed(c, r)) == PrefixedAll(s + [c], r)
    ensures PrefixedAll("", r) == r
  {
    if r.Some? { assert "" + r.value.0 == r.value.0; }
    if r.Some? { assert s + ([c] + r.value.0) == (s + [c]) + r.value.0; }
  }

  lemma JoinStep(a: seq<Token>, b: seq<Token>, r: Option<seq<Token>>)
    ensures Joined(a, Joined(b, r)) == Joined(a + b, r)
    ensures Joined([], r) == r
  {
    if r.Some? { assert [] + r.value == r.value; }
    if r.Some? { assert a + (b + r.value) == (a + b) + r.value; }
  }

  // The word or introduced string that starts here.
  method ScanWord(v: string, index: nat) returns (r: Option<(seq<Token>, nat)>)
    requires index < |v| && WordStart(v[index])
    ensures r == TokenAt(v, index)
  {
    var end := index + 1;
    while end < |v| && WordPart(v[end])
      invariant index < end <= |v| && WordEnd(v, index + 1) == WordEnd(v, end)
    {
      end := end + 1;
    }
    var word := Lower(v[index..end]);
    if Introducer(word) && end < |v| && v[end] == '\'' {
      var quoted := ScanQuoted(v, end, '\'');
      if quoted.None? { return None; }
      return Some(([Quoted(quoted.value.0)], quoted.value.1));
    }
    return Some(([Word(word)], end));
  }

  method ScanNumber(v: string, index: nat) returns (token: Token, end: nat)
    requires index < |v| && Digit(v[index])
    ensures TokenAt(v, index) == Some(([token], end))
  {
    end := index + 1;
    while end < |v| && Digit(v[end])
      invariant index < end <= |v| && DigitsEnd(v, index + 1) == DigitsEnd(v, end)
    {
      end := end + 1;
    }
    token := Number(v[index..end]);
  }

  method Tokenize(v: string) returns (r: Option<seq<Token>>)
    ensures r == TokensFrom(v, 0)
  {
    var tokens: seq<Token> := [];
    var index := 0;
    JoinStep([], [], TokensFrom(v, 0));
    while index < |v|
      invariant index <= |v|
      invariant TokensFrom(v, 0) == Joined(tokens, TokensFrom(v, index))
    {
      var c := v[index];
      ghost var turn := TokenAt(v, index);
      if turn.Some? { JoinStep(tokens, turn.value.0, TokensFrom(v, turn.value.1)); }
      if White(c) {
        assert tokens + [] == tokens;
        index := index + 1;
        continue;
      }
      if c == '`' || c == '\'' {
        var quoted := ScanQuoted(v, index, c);
        if quoted.None? { return None; }
        tokens := tokens + [if c == '`' then Word(Lower(quoted.value.0)) else Quoted(quoted.value.0)];
        index := quoted.value.1;
        continue;
      }
      if WordStart(c) {
        var read := ScanWord(v, index);
        if read.None? { return None; }
        tokens := tokens + read.value.0;
        index := read.value.1;
        continue;
      }
      if Digit(c) {
        var number, end := ScanNumber(v, index);
        tokens := tokens + [number];
        index := end;
        continue;
      }
      if SymbolChar(c) {
        tokens := tokens + [Symbol(c)];
        index := index + 1;
        continue;
      }
      return None;
    }
    assert tokens + [] == tokens;
    return Some(tokens);
  }

  // isAtomicScopeCheckClause on a text.
  method IsAtomicScopeCheckClause(v: string) returns (accepted: bool)
    ensures accepted <==> CanonicalCheck(v) == Some(EXPECTED)
    ensures accepted ==> exists ts :: TokensFrom(Unescape(v), 0) == Some(ts) && Accepts(ts)
  {
    var tokens := Tokenize(Unescape(v));
    if tokens.None? { return false; }
    var parser := new CheckParser(tokens.value);
    var tree := parser.Parse();
    return tree == Some(EXPECTED);
  }
}
