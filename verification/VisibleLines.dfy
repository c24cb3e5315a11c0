/** Which lines count and what the statements are, by positions in the text alone: an
    open fence is an opening mark with no closing mark after it, and a statement is a
    trimmed sentence of a line that counts. */
module VisibleLines {
  import opened Options
  import opened TokenWindows
  import opened Sentences
  import opened VisibleText
  import opened VisibleCoverage

  // ---------------------------------------------------------------------------
  // Lines

  // The text from x to y is a whole line, without what ends it.
  predicate IsLine(t: string, x: nat, y: nat) {
    && x < y <= |t| && (x > 0 ==> t[x - 1] == '\n' || t[x - 1] == '\r') && (y < |t| ==> t[y] == '\n' || t[y] == '\r')
    && forall p | x <= p < y :: t[p] != '\n' && t[p] != '\r'
  }

  lemma OneLineFrom(t: string, i: nat)
    requires i < |t| && !NEWLINES.stop(t[i]) && (i > 0 ==> NEWLINES.stop(t[i - 1]))
    ensures IsLine(t, i, RunEnd(NEWLINES, t, i + 1))
    ensures forall y: nat | IsLine(t, i, y) :: y == RunEnd(NEWLINES, t, i + 1)
    ensures forall x: nat, y: nat | IsLine(t, x, y) && x > i :: x > RunEnd(NEWLINES, t, i + 1)
  {
    RunHasNoStop(NEWLINES, t, i + 1);
    var end := RunEnd(NEWLINES, t, i + 1);
    var last := if end < |t| then t[end] else ' ';
    forall y: nat | IsLine(t, i, y) ensures y == end {
      var next := if y < |t| then t[y] else ' ';
    }
    forall x: nat, y: nat | IsLine(t, x, y) && x > i ensures x > end {
      var before := t[x - 1];
    }
  }

  ghost predicate FromLine(t: string, i: nat, s: Segment) {
    exists y: nat :: i <= s.start && IsLine(t, s.start, y) && s.text == t[s.start..y]
  }

  lemma {:induction false} LinesIff(t: string, i: nat, s: Segment)
    requires i <= |t| && (i == 0 || i == |t| || NEWLINES.stop(t[i - 1]) || NEWLINES.stop(t[i]))
    ensures s in Lines(t, i) <==> FromLine(t, i, s)
    decreases |t| - i
  {
    if i < |t| {
      if NEWLINES.stop(t[i]) {
        LinesIff(t, i + 1, s);
        if FromLine(t, i, s) {
          var y: nat :| IsLine(t, s.start, y) && s.text == t[s.start..y];
          assert s.start >= i + 1;
        }
      } else {
        var end := RunEnd(NEWLINES, t, i + 1);
        OneLineFrom(t, i);
        LinesIff(t, end, s);
        if FromLine(t, i, s) {
          var y: nat :| IsLine(t, s.start, y) && s.text == t[s.start..y];
          if s.start > i { assert FromLine(t, end, s); }
        }
      }
    }
  }

  // ---------------------------------------------------------------------------
  // Fence marks

  // Three or more of one mark, as many as there are, and the rest of the line.
  predicate IsMark(t: string, c: char, n: nat, rest: string) {
    && 3 <= n <= |t| && (c == '`' || c == '~') && (forall i | 0 <= i < n :: t[i] == c) && (n < |t| ==> t[n] != c)
    && rest == t[n..] && forall i | 0 <= i < |rest| :: rest[i] != '\U{2028}' && rest[i] != '\U{2029}'
  }

  lemma {:induction false} RunOfIs(c: char, t: string, i: nat)
    requires i <= |t|
    ensures var n := RunOf(c, t, i); (forall k | i <= k < n :: t[k] == c) && (n < |t| ==> t[n] != c)
    decreases |t| - i
  {
    if i < |t| && t[i] == c { RunOfIs(c, t, i + 1); }
  }

  lemma FenceMarkIff(t: string, c: char, n: nat, rest: string)
    ensures FenceMark(t) == Some((Fence(c, n), rest)) <==> IsMark(t, c, n, rest)
  {
    if t != "" {
      RunOfIs(t[0], t, 0);
      var m := RunOf(t[0], t, 0);
      if IsMark(t, c, n, rest) {
        assert t[0] == c;
        var ends := (if m < |t| then t[m] else ' ', if n < |t| then t[n] else ' ');
      }
    }
  }

  function Trimmed(g: Grammar, lines: seq<Segment>, k: nat): string
    requires k < |lines|
  {
    Trim(g.cs, lines[k].text)
  }

  ghost predicate Marked(g: Grammar, lines: seq<Segment>, k: nat)
    requires k < |lines|
  {
    exists c, n: nat, rest :: IsMark(Trimmed(g, lines, k), c, n, rest)
  }

  // Line k closes a fence that line i opened: as long a mark of the same kind, alone.
  ghost predicate Closes(g: Grammar, lines: seq<Segment>, i: nat, k: nat)
    requires i < |lines| && k < |lines|
  {
    exists c, n: nat, rest, m: nat, blank :: IsMark(Trimmed(g, lines, i), c, n, rest)
      && IsMark(Trimmed(g, lines, k), c, m, blank) && m >= n && Trim(g.cs, blank) == ""
  }

  // ---------------------------------------------------------------------------
  // Open fences, whatever marks and closes are

  type Mark = nat -> bool
  type Close = (nat, nat) -> bool

  predicate Unclosed(closes: Close, i: nat, k: nat) {
    forall j: nat | i < j < k :: !closes(i, j)
  }

  // Place k is inside an open fence: there is an earlier mark, in no fence itself, and
  // nothing in between closes it.
  ghost predicate Within(marked: Mark, closes: Close, k: nat) {
    exists i: nat :: i < k && marked(i) && !Within(marked, closes, i) && Unclosed(closes, i, k)
  }

  // The mark at i opened it.
  ghost predicate Opens(marked: Mark, closes: Close, i: nat, k: nat) {
    i < k && marked(i) && !Within(marked, closes, i) && Unclosed(closes, i, k)
  }

  lemma SomeOpens(marked: Mark, closes: Close, k: nat) returns (i: nat)
    requires Within(marked, closes, k)
    ensures Opens(marked, closes, i, k)
  {
    i :| i < k && marked(i) && !Within(marked, closes, i) && Unclosed(closes, i, k);
  }

  lemma NotBefore(marked: Mark, closes: Close, i: nat, j: nat, k: nat)
    requires Opens(marked, closes, i, k) && i < j <= k
    ensures Within(marked, closes, j)
  {
    assert Unclosed(closes, i, j);
  }

  lemma OneOpens(marked: Mark, closes: Close, i: nat, j: nat, k: nat)
    requires Opens(marked, closes, i, k) && Opens(marked, closes, j, k)
    ensures i == j
  {
    if i < j { NotBefore(marked, closes, i, j, k); }
    if j < i { NotBefore(marked, closes, j, i, k); }
  }

  lemma NothingOpens(marked: Mark, closes: Close, k: nat)
    requires forall i: nat :: !Opens(marked, closes, i, k)
    ensures !Within(marked, closes, k)
  {
    if Within(marked, closes, k) {
      var i := SomeOpens(marked, closes, k);
    }
  }

  // Behind place k: the fence that was open unless k closes it, or else one that k
  // opens.
  lemma OpenStays(marked: Mark, closes: Close, i: nat, k: nat)
    requires Opens(marked, closes, i, k) && !closes(i, k)
    ensures Opens(marked, closes, i, k + 1)
  {}

  lemma OpenCloses(marked: Mark, closes: Close, i: nat, k: nat)
    requires Opens(marked, closes, i, k) && closes(i, k)
    ensures !Within(marked, closes, k + 1)
  {
    var m := k + 1;
    NotBefore(marked, closes, i, k, k);
    forall j: nat ensures !Opens(marked, closes, j, m) {
      UnclosedStep(closes, j, k);
      if j < k && Opens(marked, closes, j, m) { OneOpens(marked, closes, i, j, k); }
    }
    NothingOpens(marked, closes, m);
  }

  lemma UnclosedStep(closes: Close, i: nat, k: nat)
    ensures Unclosed(closes, i, k + 1) && i < k ==> Unclosed(closes, i, k) && !closes(i, k)
  {}

  lemma NoneOpens(marked: Mark, closes: Close, k: nat)
    requires !Within(marked, closes, k)
    ensures if marked(k) then Opens(marked, closes, k, k + 1) else !Within(marked, closes, k + 1)
  {
    if !marked(k) {
      var m := k + 1;
      forall j: nat ensures !Opens(marked, closes, j, m) {
        UnclosedStep(closes, j, k);
        if Opens(marked, closes, j, m) { NotBefore(marked, closes, j, k, k); }
      }
      NothingOpens(marked, closes, m);
    }
  }

  // ---------------------------------------------------------------------------
  // The fences of the text

  ghost function MarksOf(g: Grammar, lines: seq<Segment>): Mark {
    (k: nat) => k < |lines| && Marked(g, lines, k)
  }

  ghost function ClosesOf(g: Grammar, lines: seq<Segment>): Close {
    (i: nat, k: nat) => i < |lines| && k < |lines| && Closes(g, lines, i, k)
  }

  // Line k stands inside an open fence, which line i opened.
  ghost predicate Inside(g: Grammar, lines: seq<Segment>, k: nat) {
    Within(MarksOf(g, lines), ClosesOf(g, lines), k)
  }

  ghost predicate Opener(g: Grammar, lines: seq<Segment>, i: nat, k: nat) {
    Opens(MarksOf(g, lines), ClosesOf(g, lines), i, k)
  }

  lemma {:induction false} FenceAtStep(next: Next, j: nat, fence: Option<Fence>, k: nat)
    requires j <= k
    ensures FenceAt(next, j, fence, k + 1) == next(k, FenceAt(next, j, fence, k))
    decreases k - j
  {
    if j < k { FenceAtStep(next, j + 1, next(j, fence), k); }
  }

  // The fence is the opener's mark.
  ghost predicate FenceOf(g: Grammar, lines: seq<Segment>, i: nat, k: nat, fence: Fence) {
    Opener(g, lines, i, k) && i < |lines| && MarkIs(g, lines, i, fence)
  }

  ghost predicate MarkIs(g: Grammar, lines: seq<Segment>, i: nat, fence: Fence)
    requires i < |lines|
  {
    exists rest :: IsMark(Trimmed(g, lines, i), fence.character, fence.length, rest)
  }

  lemma MarkedIff(g: Grammar, lines: seq<Segment>, k: nat)
    requires k < |lines|
    ensures Marked(g, lines, k) <==> FenceMark(Trimmed(g, lines, k)).Some?
  {
    var t := Trimmed(g, lines, k);
    if FenceMark(t).Some? {
      var (fence, rest) := FenceMark(t).value;
      FenceMarkIff(t, fence.character, fence.length, rest);
    }
    if Marked(g, lines, k) {
      var c, n: nat, rest :| IsMark(t, c, n, rest);
      FenceMarkIff(t, c, n, rest);
    }
  }

  // What the loop tests before it closes a fence.
  lemma ClosesIff(g: Grammar, lines: seq<Segment>, i: nat, k: nat, fence: Fence)
    requires i < |lines| && k < |lines|
    requires MarkIs(g, lines, i, fence)
    ensures Closes(g, lines, i, k) <==>
      var mark := FenceMark(Trimmed(g, lines, k));
      mark.Some? && mark.value.0.character == fence.character && mark.value.0.length >= fence.length && Trim(g.cs, mark.value.1) == ""
  {
    var ti, tk := Trimmed(g, lines, i), Trimmed(g, lines, k);
    var rest :| IsMark(ti, fence.character, fence.length, rest);
    FenceMarkIff(ti, fence.character, fence.length, rest);
    if FenceMark(tk).Some? {
      var (f, blank) := FenceMark(tk).value;
      FenceMarkIff(tk, f.character, f.length, blank);
    }
    if Closes(g, lines, i, k) {
      var c, n: nat, r, m: nat, blank :| IsMark(ti, c, n, r) && IsMark(tk, c, m, blank) && m >= n && Trim(g.cs, blank) == "";
      FenceMarkIff(ti, c, n, r);
      FenceMarkIff(tk, c, m, blank);
    }
  }

  // The loop's fence is exactly the open one.
  ghost predicate Tells(g: Grammar, lines: seq<Segment>, k: nat, open: Option<Fence>)
    requires k <= |lines|
  {
    match open
    case None => !Inside(g, lines, k)
    case Some(fence) => exists i: nat :: FenceOf(g, lines, i, k, fence)
  }

  ghost predicate KeepsTelling(g: Grammar, lines: seq<Segment>, next: Next) {
    forall k: nat, open | k < |lines| && Tells(g, lines, k, open) :: Tells(g, lines, k + 1, next(k, open))
  }

  lemma {:induction false} FenceTells(g: Grammar, lines: seq<Segment>, next: Next, k: nat)
    requires k <= |lines| && Tells(g, lines, 0, None) && KeepsTelling(g, lines, next)
    ensures Tells(g, lines, k, FenceAt(next, 0, None, k))
  {
    if k > 0 {
      FenceTells(g, lines, next, k - 1);
      FenceAtStep(next, 0, None, k - 1);
    }
  }

  // The fence that the loop has before line k is exactly the open one.
  lemma FenceIsOpen(g: Grammar, lines: seq<Segment>, k: nat)
    requires k <= |lines|
    ensures Tells(g, lines, k, FenceAt(VisibleCoverage.NextOf(g, lines), 0, None, k))
  {
    NothingOpens(MarksOf(g, lines), ClosesOf(g, lines), 0);
    var next := VisibleCoverage.NextOf(g, lines);
    forall j: nat, open | j < |lines| && Tells(g, lines, j, open) ensures Tells(g, lines, j + 1, next(j, open)) {
      TurnTells(g, lines, j, open);
    }
    FenceTells(g, lines, next, k);
  }

  lemma TurnTells(g: Grammar, lines: seq<Segment>, k: nat, open: Option<Fence>)
    requires k < |lines| && Tells(g, lines, k, open)
    ensures Tells(g, lines, k + 1, Turn(g, lines, k, open).0)
  {
    match open {
      case None => OpensIff(g, lines, k);
      case Some(fence) =>
        var i: nat :| FenceOf(g, lines, i, k, fence);
        StaysOpenIff(g, lines, i, k, fence);
    }
  }

  lemma OpensIff(g: Grammar, lines: seq<Segment>, k: nat)
    requires k < |lines| && !Inside(g, lines, k)
    ensures Tells(g, lines, k + 1, Turn(g, lines, k, None).0)
  {
    MarkedIff(g, lines, k);
    NoneOpens(MarksOf(g, lines), ClosesOf(g, lines), k);
    var t := Trimmed(g, lines, k);
    if FenceMark(t).Some? {
      var (fence, rest) := FenceMark(t).value;
      FenceMarkIff(t, fence.character, fence.length, rest);
      assert FenceOf(g, lines, k, k + 1, fence);
    }
  }

  lemma StaysOpenIff(g: Grammar, lines: seq<Segment>, i: nat, k: nat, fence: Fence)
    requires k < |lines| && FenceOf(g, lines, i, k, fence)
    ensures Tells(g, lines, k + 1, Turn(g, lines, k, Some(fence)).0)
  {
    ClosesIff(g, lines, i, k, fence);
    if Closes(g, lines, i, k) {
      OpenCloses(MarksOf(g, lines), ClosesOf(g, lines), i, k);
    } else {
      OpenStays(MarksOf(g, lines), ClosesOf(g, lines), i, k);
      assert FenceOf(g, lines, i, k + 1, fence);
    }
  }

  // ---------------------------------------------------------------------------
  // The lines that count

  // Before a separator, but for blank lines.
  ghost predicate Header(g: Grammar, lines: seq<Segment>, k: nat)
    requires k < |lines|
  {
    '|' in Trimmed(g, lines, k) && exists m: nat :: NextNonblank(g, lines, k, m) && g.separator(Trimmed(g, lines, m))
  }

  predicate NextNonblank(g: Grammar, lines: seq<Segment>, k: nat, m: nat) {
    && k < m < |lines| && Trimmed(g, lines, m) != "" && forall j | k < j < m :: Trimmed(g, lines, j) == ""
  }

  lemma {:induction false} SeparatorIff(g: Grammar, lines: seq<Segment>, k: nat, next: nat)
    requires k < next <= |lines| && forall j | k < j < next :: Trimmed(g, lines, j) == ""
    ensures SeparatorFollows(g, lines, next) <==>
      exists m: nat :: NextNonblank(g, lines, k, m) && g.separator(Trimmed(g, lines, m))
    decreases |lines| - next
  {
    if next < |lines| {
      if Trimmed(g, lines, next) == "" {
        SeparatorIff(g, lines, k, next + 1);
      } else {
        assert NextNonblank(g, lines, k, next);
        var trimmed := Trimmed(g, lines, next);
      }
    }
  }

  // A line counts if it is not blank and, inside an open fence, does not close it,
  // or else is no mark, no structure and no table header.
  ghost predicate IsCounted(g: Grammar, lines: seq<Segment>, k: nat)
    requires k < |lines|
  {
    && Trimmed(g, lines, k) != ""
    && if Inside(g, lines, k) then forall i: nat | i < k && Opener(g, lines, i, k) :: !Closes(g, lines, i, k)
       else !Marked(g, lines, k) && !g.structural(Trimmed(g, lines, k)) && !Header(g, lines, k)
  }

  lemma CountsIff(g: Grammar, lines: seq<Segment>, k: nat)
    requires k < |lines|
    ensures Counts(g, lines, k) <==> IsCounted(g, lines, k)
  {
    FenceIsOpen(g, lines, k);
    TurnCounts(g, lines, k, FenceAt(VisibleCoverage.NextOf(g, lines), 0, None, k));
  }

  // What the loop tests in a line, by its trimmed text.
  lemma TurnTests(g: Grammar, lines: seq<Segment>, k: nat, open: Option<Fence>, t: string, mark: Option<(Fence, string)>)
    requires k < |lines| && t == Trimmed(g, lines, k) && mark == FenceMark(t)
    ensures Turn(g, lines, k, open).1 <==> t != "" && match open
      case None => mark.None? && !g.structural(t) && !('|' in t && SeparatorFollows(g, lines, k + 1))
      case Some(fence) => !(mark.Some? && mark.value.0.character == fence.character && mark.value.0.length >= fence.length
                            && Trim(g.cs, mark.value.1) == "")
  {}

  lemma TurnCounts(g: Grammar, lines: seq<Segment>, k: nat, open: Option<Fence>)
    requires k < |lines| && Tells(g, lines, k, open)
    ensures Turn(g, lines, k, open).1 <==> IsCounted(g, lines, k)
  {
    var t := Trimmed(g, lines, k);
    TurnTests(g, lines, k, open, t, FenceMark(t));
    match open
    case None => OutsideCounts(g, lines, k, t);
    case Some(fence) =>
      var i: nat :| FenceOf(g, lines, i, k, fence);
      InsideCounts(g, lines, i, k, fence);
      ClosesIff(g, lines, i, k, fence);
  }

  lemma OutsideCounts(g: Grammar, lines: seq<Segment>, k: nat, t: string)
    requires k < |lines| && t == Trimmed(g, lines, k) && !Inside(g, lines, k)
    ensures IsCounted(g, lines, k) <==>
      t != "" && FenceMark(t).None? && !g.structural(t) && !('|' in t && SeparatorFollows(g, lines, k + 1))
  {
    MarkedIff(g, lines, k);
    SeparatorIff(g, lines, k, k + 1);
  }

  lemma InsideCounts(g: Grammar, lines: seq<Segment>, i: nat, k: nat, fence: Fence)
    requires k < |lines| && FenceOf(g, lines, i, k, fence)
    ensures IsCounted(g, lines, k) <==> Trimmed(g, lines, k) != "" && !Closes(g, lines, i, k)
  {
    NotBefore(MarksOf(g, lines), ClosesOf(g, lines), i, k, k);
    forall j: nat | Opener(g, lines, j, k) ensures j == i { OneOpens(MarksOf(g, lines), ClosesOf(g, lines), i, j, k); }
  }

  // ---------------------------------------------------------------------------
  // The statements

  // The bullet or number and the blanks after it take the first n characters.
  predicate Bulleted(cs: Classes, t: string, mark: nat, n: nat) {
    && mark < n <= |t| && (forall i | mark <= i < n :: cs.space(t[i])) && (n < |t| ==> !cs.space(t[n]))
    && if mark == 1 then t[0] == '-' || t[0] == '+' || t[0] == '*'
       else mark > 1 && (forall i | 0 <= i < mark - 1 :: '0' <= t[i] <= '9')
            && (t[mark - 1] == '.' || t[mark - 1] == ')' || t[mark - 1] == '\U{3001}')
  }

  lemma {:induction false} DigitRunIs(t: string, i: nat)
    requires i <= |t|
    ensures var n := DigitRun(t, i); (forall k | i <= k < n :: '0' <= t[k] <= '9') && (n < |t| ==> !('0' <= t[n] <= '9'))
    decreases |t| - i
  {
    if i < |t| && '0' <= t[i] <= '9' { DigitRunIs(t, i + 1); }
  }

  lemma LeadOfRest(cs: Classes, t: string, mark: nat)
    requires mark <= |t|
    ensures var n := mark + Lead(cs, t[mark..]);
      n <= |t| && (forall i | mark <= i < n :: cs.space(t[i])) && (n < |t| ==> !cs.space(t[n]))
  {
    LeadIsBlank(cs, t[mark..]);
    forall i | mark <= i < mark + Lead(cs, t[mark..]) ensures cs.space(t[i]) { assert t[mark..][i - mark] == t[i]; }
    var n := mark + Lead(cs, t[mark..]);
    assert n < |t| ==> t[mark..][n - mark] == t[n];
  }

  ghost predicate HasBullet(cs: Classes, t: string, n: nat) {
    exists mark: nat :: Bulleted(cs, t, mark, n)
  }

  lemma PrefixIff(cs: Classes, t: string, n: nat)
    ensures PrefixLength(cs, t) == n && n > 0 <==> HasBullet(cs, t, n)
  {
    DigitRunIs(t, 0);
    var digits := DigitRun(t, 0);
    forall mark: nat | mark <= |t| ensures
      var m := mark + Lead(cs, t[mark..]);
      m <= |t| && (forall i | mark <= i < m :: cs.space(t[i])) && (m < |t| ==> !cs.space(t[m]))
    {
      LeadOfRest(cs, t, mark);
    }
    if mark: nat :| Bulleted(cs, t, mark, n) { BulletIsPrefix(cs, t, mark, n, digits); }
    if PrefixLength(cs, t) == n && n > 0 {
      var mark := if t[0] == '-' || t[0] == '+' || t[0] == '*' then 1 else digits + 1;
      assert Bulleted(cs, t, mark, n);
    }
  }

  lemma BulletIsPrefix(cs: Classes, t: string, mark: nat, n: nat, digits: nat)
    requires Bulleted(cs, t, mark, n) && digits == DigitRun(t, 0)
    ensures PrefixLength(cs, t) == n
  {
    DigitRunIs(t, 0);
    LeadOfRest(cs, t, mark);
    var m := mark + Lead(cs, t[mark..]);
    var ends := (t[mark - 1], if digits < |t| then t[digits] else ' ', if m < |t| then t[m] else ' ', if n < |t| then t[n] else ' ');
    if mark > 1 { assert digits == mark - 1; }
    assert m == n;
  }

  // What is left of a trimmed line without its bullet, and where it starts in the line.
  ghost predicate Remainder(cs: Classes, line: string, visible: string, offset: nat) {
    Trim(cs, line) != "" && exists n: nat :: RemainderFrom(cs, Trim(cs, line), n, visible, offset, Lead(cs, line))
  }

  ghost predicate RemainderFrom(cs: Classes, t: string, n: nat, visible: string, offset: nat, lead: nat) {
    && n <= |t| && visible == t[n..] && offset == lead + n
    && if n == 0 then forall m: nat :: !HasBullet(cs, t, m) else HasBullet(cs, t, n)
  }

  lemma RemainderFromIff(cs: Classes, t: string, n: nat, visible: string, offset: nat, lead: nat)
    ensures RemainderFrom(cs, t, n, visible, offset, lead) <==>
      n == PrefixLength(cs, t) && visible == t[n..] && offset == lead + n
  {
    PrefixIff(cs, t, n);
    if n == 0 {
      PrefixIff(cs, t, PrefixLength(cs, t));
      if PrefixLength(cs, t) == 0 {
        forall m: nat ensures !HasBullet(cs, t, m) { PrefixIff(cs, t, m); }
      }
    }
  }

  lemma RemainderIff(cs: Classes, line: string, visible: string, offset: nat)
    requires Trim(cs, line) != ""
    ensures Remainder(cs, line, visible, offset) <==> VisiblePart(cs, line) == (visible, offset)
  {
    var t, lead := Trim(cs, line), Lead(cs, line);
    RemainderFromIff(cs, t, PrefixLength(cs, t), visible, offset, lead);
    if Remainder(cs, line, visible, offset) {
      var n: nat :| RemainderFrom(cs, t, n, visible, offset, lead);
      RemainderFromIff(cs, t, n, visible, offset, lead);
    }
  }

  // s is a sentence of what is visible from there on, trimmed, and no structure.
  ghost predicate PlacedSentence(g: Grammar, visible: string, at: nat, s: Segment) {
    && s.start >= at && !g.structural(s.text)
    && FromSentence(g.cs, STATEMENTS, visible, 0, Segment(s.text, s.start - at))
  }

  type PartTest = (string, nat) -> bool

  ghost predicate SomePart(parts: PartTest, holds: PartTest) {
    exists visible, offset: nat :: parts(visible, offset) && holds(visible, offset)
  }

  ghost function RemaindersOf(cs: Classes, line: string): PartTest {
    (visible: string, offset: nat) => Remainder(cs, line, visible, offset)
  }

  ghost function SentencesOf(g: Grammar, line: Segment, s: Segment): PartTest {
    (visible: string, offset: nat) => PlacedSentence(g, visible, line.start + offset, s)
  }

  // s is a sentence of what is left of the line.
  ghost predicate OfLine(g: Grammar, line: Segment, s: Segment) {
    SomePart(RemaindersOf(g.cs, line.text), SentencesOf(g, line, s))
  }

  lemma OnePart(parts: PartTest, holds: PartTest, visible: string, offset: nat)
    requires forall v, o: nat :: parts(v, o) <==> v == visible && o == offset
    ensures SomePart(parts, holds) <==> holds(visible, offset)
  {
    assert parts(visible, offset);
  }

  lemma {:induction false} PlacedIff(g: Grammar, ss: seq<Segment>, at: nat, s: Segment)
    ensures s in Placed(g, ss, at) <==>
      s.start >= at && Segment(s.text, s.start - at) in ss && !g.structural(s.text)
  {
    if ss != [] { PlacedIff(g, ss[1..], at, s); }
  }

  lemma PlacedSentenceIff(g: Grammar, visible: string, at: nat, s: Segment, ss: seq<Segment>)
    requires s.start >= at ==>
      (Segment(s.text, s.start - at) in ss <==> FromSentence(g.cs, STATEMENTS, visible, 0, Segment(s.text, s.start - at)))
    ensures s in Placed(g, ss, at) <==> PlacedSentence(g, visible, at, s)
  {
    PlacedIff(g, ss, at, s);
  }

  lemma PartStatementsIff(g: Grammar, visible: string, at: nat, s: Segment)
    ensures s in StatementsAt(g, visible, at) <==> PlacedSentence(g, visible, at, s)
  {
    var ss := Segments(g.cs, STATEMENTS, visible, 0);
    if s.start >= at { SegmentsIff(g.cs, STATEMENTS, visible, 0, Segment(s.text, s.start - at)); }
    PlacedSentenceIff(g, visible, at, s, ss);
  }

  lemma LineStatementsIff(g: Grammar, line: Segment, s: Segment)
    ensures s in LineStatements(g, line) <==> OfLine(g, line, s)
  {
    if Trim(g.cs, line.text) == "" { BlankLine(g, line, s); } else { WrittenLine(g, line, s, LineStatements(g, line)); }
  }

  lemma BlankLine(g: Grammar, line: Segment, s: Segment)
    requires Trim(g.cs, line.text) == ""
    ensures LineStatements(g, line) == [] && !OfLine(g, line, s)
  {
  }

  lemma WrittenLine(g: Grammar, line: Segment, s: Segment, found: seq<Segment>)
    requires Trim(g.cs, line.text) != "" && found == LineStatements(g, line)
    ensures s in found <==> OfLine(g, line, s)
  {
    var visible, offset := LineParts(g, line);
    PartIsLine(g, line, s, visible, offset, found);
  }

  lemma LineParts(g: Grammar, line: Segment) returns (visible: string, offset: nat)
    requires Trim(g.cs, line.text) != ""
    ensures LineStatements(g, line) == StatementsAt(g, visible, line.start + offset)
    ensures var parts := RemaindersOf(g.cs, line.text); forall v, o: nat :: parts(v, o) <==> v == visible && o == offset
  {
    var part := PartEnds(g.cs, line.text);
    visible, offset := part.0, part.1;
    LineIs(g, line, part, line.start + offset);
    OnlyRemainder(g.cs, line.text, part);
  }

  lemma PartIsLine(g: Grammar, line: Segment, s: Segment, visible: string, offset: nat, found: seq<Segment>)
    requires found == StatementsAt(g, visible, line.start + offset)
    requires var parts := RemaindersOf(g.cs, line.text); forall v, o: nat :: parts(v, o) <==> v == visible && o == offset
    ensures s in found <==> OfLine(g, line, s)
  {
    var parts, holds := RemaindersOf(g.cs, line.text), SentencesOf(g, line, s);
    OnePart(parts, holds, visible, offset);
    PartHoldsIff(g, line, s, visible, offset, found, holds);
  }

  lemma PartHoldsIff(g: Grammar, line: Segment, s: Segment, visible: string, offset: nat, found: seq<Segment>, holds: PartTest)
    requires found == StatementsAt(g, visible, line.start + offset) && holds == SentencesOf(g, line, s)
    ensures s in found <==> holds(visible, offset)
  {
    PartStatementsIff(g, visible, line.start + offset, s);
  }

  lemma OnlyRemainder(cs: Classes, line: string, part: (string, nat))
    requires Trim(cs, line) != "" && part == VisiblePart(cs, line)
    ensures var parts := RemaindersOf(cs, line); forall v, o: nat :: parts(v, o) <==> v == part.0 && o == part.1
  {
    var parts := RemaindersOf(cs, line);
    forall visible, offset: nat ensures parts(visible, offset) <==> visible == part.0 && offset == part.1 {
      RemainderIff(cs, line, visible, offset);
    }
  }

  ghost predicate Counting(count: Count, next: Next, n: nat, j: nat, fence: Option<Fence>, k: nat, s: Segment) {
    j <= k < n && s in count(k, FenceAt(next, j, fence, k))
  }

  lemma CountingStep(count: Count, next: Next, n: nat, j: nat, fence: Option<Fence>, k: nat, s: Segment)
    requires j < k
    ensures Counting(count, next, n, j, fence, k, s) <==> Counting(count, next, n, j + 1, next(j, fence), k, s)
  {}

  lemma {:induction false} FoldIff(count: Count, next: Next, n: nat, j: nat, fence: Option<Fence>, s: Segment)
    ensures s in Fold(count, next, n, j, fence) <==> exists k: nat :: Counting(count, next, n, j, fence, k, s)
    decreases n - j
  {
    if j < n {
      var i, open := j + 1, next(j, fence);
      FoldIff(count, next, n, i, open, s);
      assert s in count(j, fence) <==> Counting(count, next, n, j, fence, j, s);
      if k: nat :| Counting(count, next, n, i, open, k, s) { CountingStep(count, next, n, j, fence, k, s); }
      if k: nat :| Counting(count, next, n, j, fence, k, s) && k > j { CountingStep(count, next, n, j, fence, k, s); }
    }
  }

  // A statement of the text is a sentence of a line that counts, and the other way
  // round.
  ghost predicate IsStatement(g: Grammar, t: string, s: Segment) {
    exists k: nat :: k < |Lines(t, 0)| && IsCounted(g, Lines(t, 0), k) && OfLine(g, Lines(t, 0)[k], s)
  }

  lemma StatementsIff(g: Grammar, t: string, s: Segment)
    ensures s in StatementsOf(g, t) <==> IsStatement(g, t, s)
  {
    var lines := Lines(t, 0);
    var count, next := CountOf(g, lines), VisibleCoverage.NextOf(g, lines);
    StatementsFold(g, lines, 0, None);
    FoldIff(count, next, |lines|, 0, None, s);
    if IsStatement(g, t, s) {
      var k: nat :| k < |lines| && IsCounted(g, lines, k) && OfLine(g, lines[k], s);
      LineCountsIff(g, lines, k, s);
    }
    if k: nat :| Counting(count, next, |lines|, 0, None, k, s) { LineCountsIff(g, lines, k, s); }
  }

  lemma LineCountsIff(g: Grammar, lines: seq<Segment>, k: nat, s: Segment)
    requires k < |lines|
    ensures Counting(CountOf(g, lines), VisibleCoverage.NextOf(g, lines), |lines|, 0, None, k, s) <==>
      IsCounted(g, lines, k) && OfLine(g, lines[k], s)
  {
    CountsIff(g, lines, k);
    LineStatementsIff(g, lines[k], s);
  }

  // Each visible character is in a line; if the line counts, it is in a statement
  // or excused.
  lemma VisibleTextIsAccounted(g: Grammar, t: string, p: nat) returns (k: nat, visible: string, offset: nat)
    requires p < |t| && !g.cs.space(t[p]) && !NEWLINES.stop(t[p])
    ensures k < |Lines(t, 0)| && VisibleCoverage.Within(Lines(t, 0)[k], p) && Remainder(g.cs, Lines(t, 0)[k].text, visible, offset)
    ensures IsCounted(g, Lines(t, 0), k) ==>
      Covered(StatementsOf(g, t), p) || Excused(g, Lines(t, 0)[k], visible, offset, p)
  {
    k, visible, offset := CharacterIsAccounted(g, t, p);
    CountsIff(g, Lines(t, 0), k);
    RemainderIff(g.cs, Lines(t, 0)[k].text, visible, offset);
  }
}
