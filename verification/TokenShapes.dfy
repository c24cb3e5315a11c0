/** What the tokens of a text are: every character that is not blank is in one, Han and
    marks stand alone, and a word is as long as it can be. */
module TokenShapes {
  import opened TokenWindows

  // A word goes on from e: with one of its characters, or a joiner and one.
  predicate GoesOn(cs: Classes, t: string, e: nat) {
    e < |t| && (cs.word(t[e]) || (Joiner(t[e]) && e + 1 < |t| && cs.word(t[e + 1])))
  }

  // The character at p is a word's, or joins two of them.
  predicate WordPart(cs: Classes, t: string, a: nat, p: nat, b: nat)
    requires a <= p < b <= |t|
  {
    cs.word(t[p]) || (Joiner(t[p]) && a < p && p + 1 < b && cs.word(t[p - 1]) && cs.word(t[p + 1]))
  }

  // From a to b: a character of its own, or a word that could not be longer.
  predicate IsToken(cs: Classes, t: string, a: nat, b: nat) {
    && a < b <= |t|
    && if cs.word(t[a]) && !cs.han(t[a]) then !GoesOn(cs, t, b) && forall p | a <= p < b :: WordPart(cs, t, a, p, b)
       else b == a + 1 && (cs.han(t[a]) || !cs.space(t[a]))
  }

  lemma {:induction false} WordIsMaximal(cs: Classes, t: string, a: nat, i: nat)
    requires a < i <= |t| && cs.word(t[i - 1])
    ensures var e := WordEnd(cs, t, i);
      && !GoesOn(cs, t, e) && cs.word(t[e - 1])
      && forall p | i <= p < e :: WordPart(cs, t, a, p, e)
    decreases |t| - i
  {
    var e := WordEnd(cs, t, i);
    if i < |t| && cs.word(t[i]) {
      WordIsMaximal(cs, t, a, i + 1);
      assert WordPart(cs, t, a, i, e);
    } else if i + 1 < |t| && Joiner(t[i]) && cs.word(t[i + 1]) {
      WordIsMaximal(cs, t, a, i + 2);
      assert WordPart(cs, t, a, i, e) && WordPart(cs, t, a, i + 1, e);
    }
  }

  lemma {:induction false} WordExtends(cs: Classes, t: string, a: nat, i: nat, e: nat)
    requires a < i <= e <= |t| && e == WordEnd(cs, t, i) && cs.word(t[i - 1])
    requires forall p | a <= p < i :: cs.word(t[p])
    ensures forall p | a <= p < e :: WordPart(cs, t, a, p, e)
  {
    WordIsMaximal(cs, t, a, i);
    forall p | a <= p < e ensures WordPart(cs, t, a, p, e) {
      if p < i { assert cs.word(t[p]); }
    }
  }

  lemma TokenEndIs(cs: Classes, t: string, i: nat)
    requires i < |t| && Starts(cs, t[i])
    ensures IsToken(cs, t, i, TokenEnd(cs, t, i))
  {
    if !cs.han(t[i]) && cs.word(t[i]) {
      WordIsMaximal(cs, t, i, i + 1);
      WordExtends(cs, t, i, i + 1, TokenEnd(cs, t, i));
    }
  }

  lemma {:induction false} TokensAre(cs: Classes, t: string, i: nat, k: nat)
    requires i <= |t| && k < |Tokens(cs, t, i)|
    ensures var s := Tokens(cs, t, i)[k]; IsToken(cs, t, s.start, s.end)
    decreases |t| - i
  {
    if Starts(cs, t[i]) {
      if k == 0 { TokenEndIs(cs, t, i); } else { TokensAre(cs, t, TokenEnd(cs, t, i), k - 1); }
    } else {
      TokensAre(cs, t, i + 1, k);
    }
  }

  // Every character that is not blank is in a token.
  lemma {:induction false} TokensCoverText(cs: Classes, t: string, i: nat, p: nat) returns (k: nat)
    requires i <= p < |t| && !cs.space(t[p])
    ensures k < |Tokens(cs, t, i)| && Tokens(cs, t, i)[k].start <= p < Tokens(cs, t, i)[k].end
    decreases |t| - i
  {
    if Starts(cs, t[i]) {
      var e := TokenEnd(cs, t, i);
      if p < e {
        k := 0;
      } else {
        var m := TokensCoverText(cs, t, e, p);
        k := m + 1;
        assert Tokens(cs, t, i)[k] == Tokens(cs, t, e)[m];
      }
    } else {
      k := TokensCoverText(cs, t, i + 1, p);
    }
  }

  // A list of spans that are tokens, in order, apart and holding every character that
  // is not blank is the list of tokens.
  ghost predicate Tokenizes(cs: Classes, t: string, i: nat, spans: seq<Span>) {
    && (forall k | 0 <= k < |spans| :: i <= spans[k].start && IsToken(cs, t, spans[k].start, spans[k].end))
    && (forall k, m | 0 <= k < m < |spans| :: Before(spans[k], spans[m]))
    && (forall p | i <= p < |t| && !cs.space(t[p]) :: Held(spans, p))
  }

  ghost predicate Held(spans: seq<Span>, p: nat) {
    exists k :: 0 <= k < |spans| && spans[k].start <= p < spans[k].end
  }

  lemma TokensTokenize(cs: Classes, t: string)
    ensures Tokenizes(cs, t, 0, Tokens(cs, t, 0))
  {
    var ts := Tokens(cs, t, 0);
    TokensAreOrdered(cs, t, 0);
    forall k | 0 <= k < |ts| ensures IsToken(cs, t, ts[k].start, ts[k].end) { TokensAre(cs, t, 0, k); }
    forall p | 0 <= p < |t| && !cs.space(t[p]) ensures Held(ts, p) { var k := TokensCoverText(cs, t, 0, p); }
  }

  // One end for each start.
  lemma {:induction false} OneTokenEnd(cs: Classes, t: string, a: nat, b: nat)
    requires IsToken(cs, t, a, b)
    ensures b == TokenEnd(cs, t, a) && Starts(cs, t[a])
  {
    if cs.word(t[a]) && !cs.han(t[a]) { OneWordEnd(cs, t, a, a + 1, b); }
  }

  lemma {:induction false} OneWordEnd(cs: Classes, t: string, a: nat, i: nat, b: nat)
    requires a < i <= b <= |t| && cs.word(t[i - 1]) && !GoesOn(cs, t, b)
    requires forall p | a <= p < b :: WordPart(cs, t, a, p, b)
    ensures WordEnd(cs, t, i) == b
    decreases b - i
  {
    if i < b {
      assert WordPart(cs, t, a, i, b);
      if cs.word(t[i]) { OneWordEnd(cs, t, a, i + 1, b); } else { OneWordEnd(cs, t, a, i + 2, b); }
    }
  }

  lemma {:induction false} TokensAreUnique(cs: Classes, t: string, i: nat, spans: seq<Span>)
    requires Sound(cs) && i <= |t| && Tokenizes(cs, t, i, spans)
    ensures spans == Tokens(cs, t, i)
    decreases |t| - i
  {
    if i < |t| {
      assert CharOk(cs, t[i]);
      if Starts(cs, t[i]) {
        StartIsFirst(cs, t, i, spans);
        var e := TokenEnd(cs, t, i);
        RestTokenizes(cs, t, i, e, spans);
        TokensAreUnique(cs, t, e, spans[1..]);
        assert spans == [spans[0]] + spans[1..];
      } else {
        SkipTokenizes(cs, t, i, spans);
        TokensAreUnique(cs, t, i + 1, spans);
      }
    } else {
      NoTokenAtEnd(cs, t, spans);
    }
  }

  function FirstOf(spans: seq<Span>): Span {
    if spans == [] then Span(0, 0) else spans[0]
  }

  lemma TokenIsInText(cs: Classes, t: string, s: Span)
    ensures IsToken(cs, t, s.start, s.end) ==> s.start < |t|
  {}

  lemma NoTokenAtEnd(cs: Classes, t: string, spans: seq<Span>)
    requires Tokenizes(cs, t, |t|, spans)
    ensures spans == []
  {
    TokenIsInText(cs, t, FirstOf(spans));
  }

  lemma NotLater(cs: Classes, t: string, i: nat, spans: seq<Span>, k: nat)
    requires Tokenizes(cs, t, i, spans) && k < |spans| && spans[k].start <= i
    ensures k == 0
  {
    TokenIsInText(cs, t, spans[0]);
    var apart := Before(spans[0], spans[k]);
  }

  lemma StartIsFirst(cs: Classes, t: string, i: nat, spans: seq<Span>)
    requires Sound(cs) && i < |t| && Starts(cs, t[i]) && Tokenizes(cs, t, i, spans)
    ensures spans != [] && spans[0] == Span(i, TokenEnd(cs, t, i))
  {
    assert CharOk(cs, t[i]) && Held(spans, i);
    var k :| 0 <= k < |spans| && spans[k].start <= i < spans[k].end;
    NotLater(cs, t, i, spans, k);
    OneTokenEnd(cs, t, i, spans[0].end);
  }

  lemma RestTokenizes(cs: Classes, t: string, i: nat, e: nat, spans: seq<Span>)
    requires i <= e <= |t| && spans != [] && spans[0] == Span(i, e) && Tokenizes(cs, t, i, spans)
    ensures Tokenizes(cs, t, e, spans[1..])
  {
    var rest := spans[1..];
    forall k | 0 <= k < |rest| ensures e <= rest[k].start && IsToken(cs, t, rest[k].start, rest[k].end) {
      assert rest[k] == spans[k + 1] && Before(spans[0], spans[k + 1]);
    }
    forall p | e <= p < |t| && !cs.space(t[p]) ensures Held(rest, p) {
      assert Held(spans, p);
      var k :| 0 <= k < |spans| && spans[k].start <= p < spans[k].end;
      assert rest[k - 1] == spans[k];
    }
  }

  lemma SkipTokenizes(cs: Classes, t: string, i: nat, spans: seq<Span>)
    requires i < |t| && !Starts(cs, t[i]) && Tokenizes(cs, t, i, spans)
    ensures Tokenizes(cs, t, i + 1, spans)
  {
    forall k | 0 <= k < |spans| ensures i + 1 <= spans[k].start { assert IsToken(cs, t, spans[k].start, spans[k].end); }
  }
}
