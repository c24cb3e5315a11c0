/** The mixed-script tokenizer and the overlapping token windows a block is cut
    into. Character classes are parameters: the laws need only that joiners and
    spaces are not letters, digits or Han. */
module TokenWindows {

  datatype Classes = Classes(han: char -> bool, word: char -> bool, space: char -> bool)
  datatype Span = Span(start: nat, end: nat)

  predicate Joiner(c: char) {
    c == '\'' || c == '\U{2019}' || c == '-'
  }

  // Spaces and joiners are no part of a word or of Han text.
  predicate CharOk(cs: Classes, c: char) {
    && (cs.space(c) ==> !cs.han(c) && !cs.word(c))
    && (Joiner(c) ==> !cs.han(c) && !cs.word(c) && !cs.space(c))
  }

  ghost predicate Sound(cs: Classes) {
    forall c {:trigger CharOk(cs, c)} :: CharOk(cs, c)
  }

  // ---------------------------------------------------------------------------
  // Tokens

  // Where a word that has reached i ends: runs of word characters joined by single
  // joiners.
  function WordEnd(cs: Classes, t: string, i: nat): (e: nat)
    requires i <= |t|
    ensures i <= e <= |t|
    decreases |t| - i
  {
    if i < |t| && cs.word(t[i]) then WordEnd(cs, t, i + 1)
    else if i + 1 < |t| && Joiner(t[i]) && cs.word(t[i + 1]) then WordEnd(cs, t, i + 2)
    else i
  }

  predicate Starts(cs: Classes, c: char) {
    cs.han(c) || cs.word(c) || !cs.space(c)
  }

  function TokenEnd(cs: Classes, t: string, i: nat): (e: nat)
    requires i < |t|
    ensures i < e <= |t|
  {
    if !cs.han(t[i]) && cs.word(t[i]) then WordEnd(cs, t, i + 1) else i + 1
  }

  // The tokens found from i on, left to right.
  function Tokens(cs: Classes, t: string, i: nat): seq<Span>
    requires i <= |t|
    decreases |t| - i
  {
    if i == |t| then []
    else if Starts(cs, t[i]) then [Span(i, TokenEnd(cs, t, i))] + Tokens(cs, t, TokenEnd(cs, t, i))
    else Tokens(cs, t, i + 1)
  }

  function CountTokens(cs: Classes, t: string): nat {
    |Tokens(cs, t, 0)|
  }

  method TokenizeStable(cs: Classes, t: string) returns (spans: seq<Span>)
    ensures spans == Tokens(cs, t, 0)
  {
    spans := [];
    var i := 0;
    while i < |t|
      invariant i <= |t|
      invariant spans + Tokens(cs, t, i) == Tokens(cs, t, 0)
    {
      if cs.han(t[i]) {
        spans := spans + [Span(i, i + 1)];
        i := i + 1;
      } else if cs.word(t[i]) {
        var end := i + 1;
        while (end < |t| && cs.word(t[end])) || (end + 1 < |t| && Joiner(t[end]) && cs.word(t[end + 1]))
          invariant i < end <= |t| && WordEnd(cs, t, i + 1) == WordEnd(cs, t, end)
          decreases |t| - end
        {
          end := if cs.word(t[end]) then end + 1 else end + 2;
        }
        spans := spans + [Span(i, end)];
        i := end;
      } else if !cs.space(t[i]) {
        spans := spans + [Span(i, i + 1)];
        i := i + 1;
      } else {
        i := i + 1;
      }
    }
  }

  // ---------------------------------------------------------------------------
  // Cutting text at token boundaries keeps the tokens

  function Shift(spans: seq<Span>, offset: nat): seq<Span> {
    seq(|spans|, k requires 0 <= k < |spans| => Span(spans[k].start + offset, spans[k].end + offset))
  }

  predicate Within(s: Span, lo: nat, hi: nat) {
    lo <= s.start < s.end <= hi
  }

  predicate Before(s: Span, u: Span) {
    s.end <= u.start
  }

  lemma {:induction false} TokensAreOrdered(cs: Classes, t: string, i: nat)
    requires i <= |t|
    ensures forall k | 0 <= k < |Tokens(cs, t, i)| :: Within(Tokens(cs, t, i)[k], i, |t|)
    ensures forall k, m | 0 <= k < m < |Tokens(cs, t, i)| :: Before(Tokens(cs, t, i)[k], Tokens(cs, t, i)[m])
    decreases |t| - i
  {
    if i < |t| {
      var next := if Starts(cs, t[i]) then TokenEnd(cs, t, i) else i + 1;
      TokensAreOrdered(cs, t, next);
      var ts, rest := Tokens(cs, t, i), Tokens(cs, t, next);
      if Starts(cs, t[i]) {
        assert ts == [Span(i, next)] + rest;
        forall k | 0 <= k < |ts| ensures Within(ts[k], i, |t|) {
          if k > 0 { assert ts[k] == rest[k - 1] && Within(rest[k - 1], next, |t|); }
        }
        forall k, m | 0 <= k < m < |ts| ensures Before(ts[k], ts[m]) {
          assert ts[m] == rest[m - 1] && Within(rest[m - 1], next, |t|);
          if k > 0 { assert ts[k] == rest[k - 1]; }
        }
      }
    }
  }

  lemma {:induction false} TokenStartsAndEnds(cs: Classes, t: string, i: nat, k: nat)
    requires Sound(cs) && i <= |t| && k < |Tokens(cs, t, i)|
    ensures var s := Tokens(cs, t, i)[k];
      i <= s.start < s.end <= |t| && !cs.space(t[s.start]) && !cs.space(t[s.end - 1])
    decreases |t| - i
  {
    assert CharOk(cs, t[i]);
    if Starts(cs, t[i]) {
      if k > 0 {
        TokenStartsAndEnds(cs, t, TokenEnd(cs, t, i), k - 1);
      } else if !cs.han(t[i]) && cs.word(t[i]) {
        WordEndsInWord(cs, t, i + 1);
        assert CharOk(cs, t[WordEnd(cs, t, i + 1) - 1]);
      }
    } else {
      TokenStartsAndEnds(cs, t, i + 1, k);
    }
  }

  lemma {:induction false} WordEndsInWord(cs: Classes, t: string, i: nat)
    requires 0 < i <= |t| && cs.word(t[i - 1])
    ensures cs.word(t[WordEnd(cs, t, i) - 1])
    decreases |t| - i
  {
    if i < |t| && cs.word(t[i]) {
      WordEndsInWord(cs, t, i + 1);
    } else if i + 1 < |t| && Joiner(t[i]) && cs.word(t[i + 1]) {
      WordEndsInWord(cs, t, i + 2);
    }
  }

  lemma {:induction false} WordEndCut(cs: Classes, t: string, i: nat, b: nat)
    requires i <= b <= |t| && WordEnd(cs, t, i) <= b
    ensures WordEnd(cs, t[..b], i) == WordEnd(cs, t, i)
    decreases |t| - i
  {
    if i < |t| && cs.word(t[i]) {
      WordEndCut(cs, t, i + 1, b);
    } else if i + 1 < |t| && Joiner(t[i]) && cs.word(t[i + 1]) {
      WordEndCut(cs, t, i + 2, b);
    }
  }

  // Text cut after its k-th token has exactly the first k tokens.
  lemma {:induction false} TokensCutAfter(cs: Classes, t: string, i: nat, k: nat)
    requires i <= |t| && 0 < k <= |Tokens(cs, t, i)|
    ensures var b := Tokens(cs, t, i)[k - 1].end; i <= b <= |t| && Tokens(cs, t[..b], i) == Tokens(cs, t, i)[..k]
    decreases |t| - i
  {
    var ts := Tokens(cs, t, i);
    TokensAreOrdered(cs, t, i);
    assert Within(ts[k - 1], i, |t|);
    var b := ts[k - 1].end;
    var u := t[..b];
    if Starts(cs, t[i]) {
      var e := TokenEnd(cs, t, i);
      assert ts[0] == Span(i, e);
      assert Within(ts[k - 1], i, |t|) && (k > 1 ==> Before(ts[0], ts[k - 1]));
      if !cs.han(t[i]) && cs.word(t[i]) { WordEndCut(cs, t, i + 1, b); }
      assert TokenEnd(cs, u, i) == e;
      if k == 1 {
        assert Tokens(cs, u, e) == [];
      } else {
        TokensCutAfter(cs, t, e, k - 1);
        assert ts[1..] == Tokens(cs, t, e);
      }
    } else {
      TokensCutAfter(cs, t, i + 1, k);
    }
  }

  lemma {:induction false} WordEndDrop(cs: Classes, t: string, a: nat, i: nat)
    requires a + i <= |t|
    ensures WordEnd(cs, t, a + i) == a + WordEnd(cs, t[a..], i)
    decreases |t| - i
  {
    if a + i < |t| && cs.word(t[a + i]) {
      WordEndDrop(cs, t, a, i + 1);
    } else if a + i + 1 < |t| && Joiner(t[a + i]) && cs.word(t[a + i + 1]) {
      WordEndDrop(cs, t, a, i + 2);
    }
  }

  // Tokens found from a are those of the text from a, moved by a.
  lemma {:induction false} TokensDrop(cs: Classes, t: string, a: nat, i: nat)
    requires a + i <= |t|
    ensures Tokens(cs, t, a + i) == Shift(Tokens(cs, t[a..], i), a)
    decreases |t| - i
  {
    var u := t[a..];
    if a + i < |t| {
      if !cs.han(u[i]) && cs.word(u[i]) { WordEndDrop(cs, t, a, i + 1); }
      if Starts(cs, u[i]) {
        TokensDrop(cs, t, a, TokenEnd(cs, u, i));
        var rest := Tokens(cs, u, TokenEnd(cs, u, i));
        assert Shift([Span(i, TokenEnd(cs, u, i))] + rest, a) == [Span(a + i, a + TokenEnd(cs, u, i))] + Shift(rest, a);
      } else {
        TokensDrop(cs, t, a, i + 1);
      }
    }
  }

  lemma {:induction false} TokensFromToken(cs: Classes, t: string, i: nat, k: nat)
    requires i <= |t| && k < |Tokens(cs, t, i)|
    ensures var a := Tokens(cs, t, i)[k].start; a <= |t| && Tokens(cs, t, a) == Tokens(cs, t, i)[k..]
    decreases |t| - i
  {
    if Starts(cs, t[i]) {
      if k > 0 {
        TokensFromToken(cs, t, TokenEnd(cs, t, i), k - 1);
      }
    } else {
      TokensFromToken(cs, t, i + 1, k);
    }
  }

  // The tokens of the text between tokens m and n are exactly those tokens.
  lemma SliceKeepsTokens(cs: Classes, t: string, m: nat, n: nat)
    requires m < n <= |Tokens(cs, t, 0)|
    ensures var ts := Tokens(cs, t, 0); var a, b := ts[m].start, ts[n - 1].end;
      a <= b <= |t| && Shift(Tokens(cs, t[a..b], 0), a) == ts[m..n]
  {
    var ts := Tokens(cs, t, 0);
    TokensAreOrdered(cs, t, 0);
    var a, b := ts[m].start, ts[n - 1].end;
    assert Within(ts[m], 0, |t|) && Within(ts[n - 1], 0, |t|) && (m < n - 1 ==> Before(ts[m], ts[n - 1]));
    TokensFromToken(cs, t, 0, m);
    assert ts[m..][n - m - 1] == ts[n - 1];
    TokensCutAfter(cs, t, a, n - m);
    TokensDrop(cs, t[..b], a, 0);
    assert t[..b][a..] == t[a..b];
    assert ts[m..][..n - m] == ts[m..n];
  }

  // ---------------------------------------------------------------------------
  // Trimming

  // The first character from i on that is not blank, and the end of the last one
  // before n.
  function BlankEnd(cs: Classes, t: string, i: nat): (n: nat)
    requires i <= |t|
    ensures i <= n <= |t| && (n < |t| ==> !cs.space(t[n]))
    decreases |t| - i
  {
    if i < |t| && cs.space(t[i]) then BlankEnd(cs, t, i + 1) else i
  }

  function BlankStart(cs: Classes, t: string, i: nat): (n: nat)
    requires i <= |t|
    ensures n <= i && (n > 0 ==> !cs.space(t[n - 1]))
  {
    if i > 0 && cs.space(t[i - 1]) then BlankStart(cs, t, i - 1) else i
  }

  function Lead(cs: Classes, t: string): (n: nat)
    ensures n <= |t| && (n < |t| ==> !cs.space(t[n]))
  {
    BlankEnd(cs, t, 0)
  }

  function Tail(cs: Classes, t: string): (n: nat)
    ensures n <= |t| && (n > 0 ==> !cs.space(t[n - 1]))
  {
    BlankStart(cs, t, |t|)
  }

  function Trim(cs: Classes, t: string): (u: string)
    ensures u != "" ==> Lead(cs, t) < Tail(cs, t) && u == t[Lead(cs, t)..Tail(cs, t)]
  {
    if Lead(cs, t) < Tail(cs, t) then t[Lead(cs, t)..Tail(cs, t)] else ""
  }

  lemma {:induction false} BlankEndIsBlank(cs: Classes, t: string, i: nat)
    requires i <= |t|
    ensures forall k | i <= k < BlankEnd(cs, t, i) :: cs.space(t[k])
    decreases |t| - i
  {
    if i < |t| && cs.space(t[i]) { BlankEndIsBlank(cs, t, i + 1); }
  }

  lemma {:induction false} BlankStartIsBlank(cs: Classes, t: string, i: nat)
    requires i <= |t|
    ensures forall k | BlankStart(cs, t, i) <= k < i :: cs.space(t[k])
  {
    if i > 0 && cs.space(t[i - 1]) { BlankStartIsBlank(cs, t, i - 1); }
  }

  lemma LeadIsBlank(cs: Classes, t: string)
    ensures forall k | 0 <= k < Lead(cs, t) :: cs.space(t[k])
  {
    BlankEndIsBlank(cs, t, 0);
  }

  lemma TailIsBlank(cs: Classes, t: string)
    ensures forall k | Tail(cs, t) <= k < |t| :: cs.space(t[k])
  {
    BlankStartIsBlank(cs, t, |t|);
  }

  // Only blank text trims to nothing.
  lemma BlankTrims(cs: Classes, t: string)
    requires Trim(cs, t) == ""
    ensures forall k | 0 <= k < |t| :: cs.space(t[k])
  {
    LeadIsBlank(cs, t);
    TailIsBlank(cs, t);
  }

  lemma {:induction false} TokensSkipSpace(cs: Classes, t: string, i: nat, j: nat)
    requires Sound(cs) && i <= j <= |t| && forall k | i <= k < j :: cs.space(t[k])
    ensures Tokens(cs, t, i) == Tokens(cs, t, j)
    decreases j - i
  {
    if i < j {
      assert CharOk(cs, t[i]);
      TokensSkipSpace(cs, t, i + 1, j);
    }
  }

  lemma {:induction false} WordEndBeforeSpace(cs: Classes, t: string, i: nat, b: nat)
    requires Sound(cs) && i <= b <= |t| && forall k | b <= k < |t| :: cs.space(t[k])
    ensures WordEnd(cs, t, i) <= b
    decreases |t| - i
  {
    assert i < |t| ==> CharOk(cs, t[i]);
    assert i + 1 < |t| ==> CharOk(cs, t[i + 1]);
    if i < |t| && cs.word(t[i]) {
      WordEndBeforeSpace(cs, t, i + 1, b);
    } else if i + 1 < |t| && Joiner(t[i]) && cs.word(t[i + 1]) {
      WordEndBeforeSpace(cs, t, i + 2, b);
    }
  }

  lemma {:induction false} TokensCutSpace(cs: Classes, t: string, i: nat, b: nat)
    requires Sound(cs) && i <= b <= |t| && forall k | b <= k < |t| :: cs.space(t[k])
    ensures Tokens(cs, t[..b], i) == Tokens(cs, t, i)
    decreases b - i
  {
    if i == b {
      TokensSkipSpace(cs, t, b, |t|);
    } else if Starts(cs, t[i]) {
      if !cs.han(t[i]) && cs.word(t[i]) {
        WordEndBeforeSpace(cs, t, i + 1, b);
        WordEndCut(cs, t, i + 1, b);
      }
      TokensCutSpace(cs, t, TokenEnd(cs, t, i), b);
    } else {
      TokensCutSpace(cs, t, i + 1, b);
    }
  }

  // Trimming moves the tokens and loses none.
  lemma TrimKeepsTokens(cs: Classes, t: string)
    requires Sound(cs) && Trim(cs, t) != ""
    ensures Tokens(cs, t, 0) == Shift(Tokens(cs, Trim(cs, t), 0), Lead(cs, t))
  {
    var a, b := Lead(cs, t), Tail(cs, t);
    LeadIsBlank(cs, t);
    TailIsBlank(cs, t);
    TokensSkipSpace(cs, t, 0, a);
    TokensCutSpace(cs, t, a, b);
    TokensDrop(cs, t[..b], a, 0);
    assert t[..b][a..] == t[a..b];
  }

  lemma TrimmedEnds(cs: Classes, t: string)
    requires Trim(cs, t) != ""
    ensures var u := Trim(cs, t); !cs.space(u[0]) && !cs.space(u[|u| - 1])
  {}

  lemma TrimParts(cs: Classes, u: string) returns (lead: nat, tail: nat)
    requires Trim(cs, u) != ""
    ensures lead == Lead(cs, u) && lead < tail <= |u| && Trim(cs, u) == u[lead..tail]
    ensures !cs.space(u[lead]) && !cs.space(u[tail - 1])
  {
    lead, tail := Lead(cs, u), Tail(cs, u);
  }

  lemma SliceOfSlice(t: string, a: nat, b: nat, c: nat, d: nat)
    requires a <= b <= |t| && c <= d <= b - a
    ensures t[a..b][c..d] == t[a + c..a + d]
  {
    assert forall k | 0 <= k < d - c :: t[a..b][c..d][k] == t[a + c..a + d][k];
  }

  // A trimmed slice is text of its own, with no blank ends.
  lemma TrimSliceText(cs: Classes, t: string, a: nat, b: nat)
    requires a <= b <= |t| && Trim(cs, t[a..b]) != ""
    ensures var content := Trim(cs, t[a..b]); var start := a + Lead(cs, t[a..b]);
      && !cs.space(content[0]) && !cs.space(content[|content| - 1])
      && start + |content| <= |t| && content == t[start..start + |content|]
  {
    TrimOccurs(cs, t, t[a..b], a);
  }

  lemma TrimOccurs(cs: Classes, t: string, u: string, a: nat)
    requires a + |u| <= |t| && u == t[a..a + |u|] && Trim(cs, u) != ""
    ensures var content := Trim(cs, u); var start := a + Lead(cs, u);
      && !cs.space(content[0]) && !cs.space(content[|content| - 1])
      && start + |content| <= |t| && content == t[start..start + |content|]
  {
    var lead, tail := TrimParts(cs, u);
    SliceOfSlice(t, a, a + |u|, lead, tail);
  }

  // indexOf: the first place where part occurs.
  predicate Occurs(t: string, part: string, i: nat) {
    i + |part| <= |t| && t[i..i + |part|] == part
  }

  // The first index from j on, or -1.
  function FirstIndex(t: string, part: string, j: nat): int
    decreases |t| - j
  {
    if j + |part| > |t| then -1 else if t[j..j + |part|] == part then j else FirstIndex(t, part, j + 1)
  }

  lemma {:induction false} FirstIndexFinds(t: string, part: string, j: nat)
    ensures FirstIndex(t, part, j) >= 0 ==> FirstIndex(t, part, j) >= j && Occurs(t, part, FirstIndex(t, part, j))
    ensures FirstIndex(t, part, j) < 0 ==> forall k: nat | k >= j :: !Occurs(t, part, k)
    decreases |t| - j
  {
    if j + |part| <= |t| && t[j..j + |part|] != part { FirstIndexFinds(t, part, j + 1); }
  }

  lemma {:induction false} FirstIndexIsFirst(t: string, part: string, j: nat)
    ensures forall k: nat | j <= k < FirstIndex(t, part, j) :: !Occurs(t, part, k)
    decreases |t| - j
  {
    if j + |part| <= |t| && t[j..j + |part|] != part { FirstIndexIsFirst(t, part, j + 1); }
  }

  method IndexOf(t: string, part: string) returns (i: int)
    ensures i == FirstIndex(t, part, 0)
  {
    var j := 0;
    while j + |part| <= |t|
      invariant FirstIndex(t, part, 0) == FirstIndex(t, part, j)
    {
      if t[j..j + |part|] == part { return j; }
      j := j + 1;
    }
    return -1;
  }

  lemma OccursWithin(t: string, part: string, inner: string, a: nat, b: nat)
    requires Occurs(t, part, a) && Occurs(part, inner, b)
    ensures Occurs(t, inner, a + b)
  {
    forall k | 0 <= k < |inner| ensures t[a + b + k] == inner[k] {
      assert inner[k] == part[b..b + |inner|][k] == part[b + k];
      assert part[b + k] == t[a..a + |part|][b + k];
    }
  }

  // Trimmed text first occurs where the leading space ends.
  lemma TrimOccursAtLead(cs: Classes, t: string)
    requires Trim(cs, t) != ""
    ensures Occurs(t, Trim(cs, t), Lead(cs, t))
    ensures forall k: nat | k < Lead(cs, t) :: !Occurs(t, Trim(cs, t), k)
  {
    LeadIsBlank(cs, t);
    forall k: nat | k < Lead(cs, t) ensures !Occurs(t, Trim(cs, t), k) { OccurrenceStarts(t, Trim(cs, t), k); }
  }

  lemma OccurrenceStarts(t: string, part: string, k: nat)
    requires part != ""
    ensures Occurs(t, part, k) ==> t[k] == part[0]
  {
    if Occurs(t, part, k) { assert t[k..k + |part|][0] == t[k]; }
  }

  // ---------------------------------------------------------------------------
  // Windows over n tokens, as pairs of token indices

  function Max(a: int, b: int): int { if a >= b then a else b }
  function Min(a: int, b: int): int { if a <= b then a else b }

  // Where the window from start ends, and where the next one starts: n when there
  // is none.
  function EndOf(n: nat, max: nat, start: nat): (e: nat)
    requires max >= 1 && start < n
    ensures start < e <= n
  {
    Min(start + max, n)
  }

  function NextOf(n: nat, max: nat, overlap: nat, start: nat): (next: nat)
    requires max >= 1 && start < n
    ensures start < next <= n
  {
    var end := EndOf(n, max, start);
    if end >= n then n else Max(end - overlap, start + 1)
  }

  function Windows(n: nat, max: nat, overlap: nat, start: nat): (ws: seq<Span>)
    requires max >= 1
    decreases n - start
  {
    if start >= n then []
    else [Span(start, EndOf(n, max, start))] + Windows(n, max, overlap, NextOf(n, max, overlap, start))
  }

  // Consecutive windows start strictly later and share exactly this many tokens.
  function Shared(max: nat, overlap: nat): int {
    Min(overlap, max - 1)
  }

  predicate WindowOk(w: Span, n: nat, max: nat) {
    w.start < w.end <= n && w.end - w.start <= max
  }

  predicate Linked(v: Span, w: Span, max: nat, overlap: nat) {
    v.start < w.start && v.end - v.start == max && v.end - w.start == Shared(max, overlap) && v.end < w.end
  }

  lemma {:induction false} WindowsAreSound(n: nat, max: nat, overlap: nat, start: nat)
    requires max >= 1 && start < n
    ensures var ws := Windows(n, max, overlap, start);
      && ws != [] && ws[0].start == start && ws[|ws| - 1].end == n
      && (forall k | 0 <= k < |ws| :: WindowOk(ws[k], n, max))
      && (forall k | 0 <= k < |ws| - 1 :: Linked(ws[k], ws[k + 1], max, overlap))
    decreases n - start
  {
    var next := NextOf(n, max, overlap, start);
    var ws, rest := Windows(n, max, overlap, start), Windows(n, max, overlap, next);
    assert ws == [Span(start, EndOf(n, max, start))] + rest;
    if next < n {
      WindowsAreSound(n, max, overlap, next);
      forall k | 0 <= k < |ws| ensures WindowOk(ws[k], n, max) {
        if k > 0 { assert ws[k] == rest[k - 1]; }
      }
      forall k | 0 <= k < |ws| - 1 ensures Linked(ws[k], ws[k + 1], max, overlap) {
        assert ws[k + 1] == rest[k];
        if k > 0 { assert ws[k] == rest[k - 1]; }
      }
    }
  }

  // Every token is in some window.
  lemma {:induction false} WindowsCover(n: nat, max: nat, overlap: nat, start: nat, i: nat)
    requires max >= 1 && start <= i < n
    ensures exists k | 0 <= k < |Windows(n, max, overlap, start)| ::
      Windows(n, max, overlap, start)[k].start <= i < Windows(n, max, overlap, start)[k].end
    decreases n - start
  {
    var ws := Windows(n, max, overlap, start);
    var next := NextOf(n, max, overlap, start);
    if i < EndOf(n, max, start) {
      assert ws[0] == Span(start, EndOf(n, max, start));
    } else {
      WindowsCover(n, max, overlap, next, i);
      var rest := Windows(n, max, overlap, next);
      var k :| 0 <= k < |rest| && rest[k].start <= i < rest[k].end;
      assert ws[k + 1] == rest[k];
    }
  }
}
