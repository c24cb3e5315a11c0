/** What merging nested connectives does to a clause: nothing. The tree the code
    compares is the flattening of the clause as written, flattening keeps the SQL
    value on every row, and so an accepted clause is the scope rule exactly. */
module CheckSemantics {
  import opened Options
  import opened CheckClause

  // ---------------------------------------------------------------------------
  // Flattening

  function Flatten(t: Node): Node
    requires Grouped(t)
  {
    match t
    case Value(_, _) => t
    case Call(f, xs) => Call(f, seq(|xs|, k requires 0 <= k < |xs| => Flatten(xs[k])))
    case Logical(c, xs) => Combine(c, seq(|xs|, k requires 0 <= k < |xs| => Flatten(xs[k])), true)
    case Equals(l, r) => Equals(Flatten(l), Flatten(r))
    case Is(x, k, negated) => Is(Flatten(x), k, negated)
  }

  function FlattenAll(xs: seq<Node>): seq<Node>
    requires AllWanted(xs, false)
  {
    seq(|xs|, k requires 0 <= k < |xs| => Flatten(xs[k]))
  }

  lemma {:induction false} FlattenIsCanonical(t: Node)
    requires Grouped(t)
    ensures Canonical(Flatten(t))
  {
    match t {
      case Value(_, _) =>
      case Call(_, xs) => forall k | 0 <= k < |xs| ensures Canonical(Flatten(xs[k])) { FlattenIsCanonical(xs[k]); }
      case Logical(c, xs) =>
        forall k | 0 <= k < |xs| ensures Canonical(Flatten(xs[k])) { FlattenIsCanonical(xs[k]); }
        CombineIsWanted(c, FlattenAll(xs), true);
      case Equals(l, r) => FlattenIsCanonical(l); FlattenIsCanonical(r);
      case Is(x, _, _) => FlattenIsCanonical(x);
    }
  }

  lemma FlattenAllIsCanonical(xs: seq<Node>)
    requires AllWanted(xs, false)
    ensures AllWanted(FlattenAll(xs), true)
  {
    forall k | 0 <= k < |xs| ensures Canonical(Flatten(xs[k])) { FlattenIsCanonical(xs[k]); }
  }

  ghost predicate Flattens(merged: Parsed, raw: Parsed) {
    && (merged.Some? <==> raw.Some?)
    && (raw.Some? ==> Grouped(raw.value.0) && merged == Some((Flatten(raw.value.0), raw.value.1)))
  }

  lemma CombineFlattens(c: Connective, xs: seq<Node>)
    requires |xs| >= 1 && AllWanted(xs, false)
    ensures Grouped(Combine(c, xs, false)) && Combine(c, FlattenAll(xs), true) == Flatten(Combine(c, xs, false))
  {
    FlattenAllIsCanonical(xs);
    if |xs| == 1 {
      assert FlattenAll(xs) == [Flatten(xs[0])];
      FlattenIsCanonical(xs[0]);
      CombineOne(c, Flatten(xs[0]));
    }
  }

  lemma FlattenAppend(xs: seq<Node>, x: Node)
    requires AllWanted(xs, false) && Grouped(x)
    ensures AllWanted(xs + [x], false) && FlattenAll(xs + [x]) == FlattenAll(xs) + [Flatten(x)]
  {}

  lemma {:induction false} OrFlattens(ts: seq<Token>, i: nat)
    ensures Flattens(ParseOr(ts, i, true), ParseOr(ts, i, false))
    decreases |ts| - i, 4
  {
    AndFlattens(ts, i);
    match ParseAnd(ts, i, false)
    case None =>
    case Some((first, j)) =>
      OrTailFlattens(ts, j, [first]);
      assert FlattenAll([first]) == [Flatten(first)];
  }

  lemma {:induction false} OrTailFlattens(ts: seq<Token>, i: nat, xs: seq<Node>)
    requires |xs| >= 1 && 0 < i <= |ts| && AllWanted(xs, false)
    ensures Flattens(OrTail(ts, i, FlattenAll(xs), true), OrTail(ts, i, xs, false))
    decreases |ts| - i, 5
  {
    if WordAt(ts, i, "or") {
      AndFlattens(ts, i + 1);
      match ParseAnd(ts, i + 1, false)
      case None =>
      case Some((x, j)) => FlattenAppend(xs, x); OrTailFlattens(ts, j, xs + [x]);
    } else {
      CombineFlattens(Disjunction, xs);
    }
  }

  lemma {:induction false} AndFlattens(ts: seq<Token>, i: nat)
    ensures Flattens(ParseAnd(ts, i, true), ParseAnd(ts, i, false))
    decreases |ts| - i, 3
  {
    PredicateFlattens(ts, i);
    match ParsePredicate(ts, i, false)
    case None =>
    case Some((first, j)) =>
      AndTailFlattens(ts, j, [first]);
      assert FlattenAll([first]) == [Flatten(first)];
  }

  lemma {:induction false} AndTailFlattens(ts: seq<Token>, i: nat, xs: seq<Node>)
    requires |xs| >= 1 && 0 < i <= |ts| && AllWanted(xs, false)
    ensures Flattens(AndTail(ts, i, FlattenAll(xs), true), AndTail(ts, i, xs, false))
    decreases |ts| - i, 4
  {
    if WordAt(ts, i, "and") {
      PredicateFlattens(ts, i + 1);
      match ParsePredicate(ts, i + 1, false)
      case None =>
      case Some((x, j)) => FlattenAppend(xs, x); AndTailFlattens(ts, j, xs + [x]);
    } else {
      CombineFlattens(Conjunction, xs);
    }
  }

  lemma {:induction false} PredicateFlattens(ts: seq<Token>, i: nat)
    ensures Flattens(ParsePredicate(ts, i, true), ParsePredicate(ts, i, false))
    decreases |ts| - i, 2
  {
    PrimaryFlattens(ts, i);
    match ParsePrimary(ts, i, false)
    case None =>
    case Some((left, j)) =>
      if !SymbolAt(ts, j, '=') {
        IsTailFlattens(ts, left, j);
      } else {
        PrimaryFlattens(ts, j + 1);
        match ParsePrimary(ts, j + 1, false)
        case None =>
        case Some((right, k)) => IsTailFlattens(ts, Equals(left, right), k);
      }
  }

  lemma IsTailFlattens(ts: seq<Token>, left: Node, j: nat)
    requires Grouped(left) && 0 < j <= |ts|
    ensures Flattens(IsTail(ts, Flatten(left), j), IsTail(ts, left, j))
  {}

  lemma {:induction false} PrimaryFlattens(ts: seq<Token>, i: nat)
    ensures Flattens(ParsePrimary(ts, i, true), ParsePrimary(ts, i, false))
    decreases |ts| - i, 1
  {
    if SymbolAt(ts, i, '(') {
      OrFlattens(ts, i + 1);
    } else if i < |ts| && ts[i].Word? && SymbolAt(ts, i + 1, '(') && !SymbolAt(ts, i + 2, ')') {
      ArgumentsFlatten(ts, i + 2, ts[i].text, []);
      assert FlattenAll([]) == [];
    } else if i < |ts| && ts[i].Word? {
      assert Flatten(Call(ts[i].text, [])).arguments == [];
    }
  }

  lemma {:induction false} ArgumentsFlatten(ts: seq<Token>, i: nat, name: string, xs: seq<Node>)
    requires i <= |ts| && AllWanted(xs, false)
    ensures Flattens(ArgumentTail(ts, i, name, FlattenAll(xs), true), ArgumentTail(ts, i, name, xs, false))
    decreases |ts| - i, 5
  {
    OrFlattens(ts, i);
    match ParseOr(ts, i, false)
    case None =>
    case Some((x, j)) =>
      FlattenAppend(xs, x);
      if SymbolAt(ts, j, ',') { ArgumentsFlatten(ts, j + 1, name, xs + [x]); }
  }

  // The code's tree is the flattening of the clause as written.
  lemma ParserFlattens(ts: seq<Token>)
    ensures Parse(ts, true).Some? <==> Parse(ts, false).Some?
    ensures Parse(ts, false).Some? ==>
      Grouped(Parse(ts, false).value) && Parse(ts, true).value == Flatten(Parse(ts, false).value)
  {
    OrFlattens(ts, 0);
  }

  // ---------------------------------------------------------------------------
  // Three-valued SQL

  datatype Truth = Yes | No | Unknown
  datatype Datum = Null | Int(n: int) | Text(s: string)

  // A row and the functions and comparisons of the database.
  datatype Env = Env(
    column: string -> Datum, call: (string, seq<Datum>) -> Datum, textTruth: string -> bool, same: (Datum, Datum) -> bool)

  function Both(c: Connective, a: Truth, b: Truth): Truth {
    var absorbing := if c.Conjunction? then No else Yes;
    if a == absorbing || b == absorbing then absorbing
    else if a.Unknown? || b.Unknown? then Unknown
    else if c.Conjunction? then Yes else No
  }

  function Fold(c: Connective, xs: seq<Truth>): Truth {
    if xs == [] then (if c.Conjunction? then Yes else No) else Both(c, xs[0], Fold(c, xs[1..]))
  }

  function TruthOf(env: Env, d: Datum): Truth {
    match d
    case Null => Unknown
    case Int(n) => if n != 0 then Yes else No
    case Text(s) => if env.textTruth(s) then Yes else No
  }

  function OfTruth(t: Truth): Datum {
    match t
    case Yes => Int(1)
    case No => Int(0)
    case Unknown => Null
  }

  function OfBool(b: bool): Datum {
    Int(if b then 1 else 0)
  }

  function Decimal(digits: string): nat {
    if digits == "" then 0
    else
      var d := digits[|digits| - 1];
      10 * Decimal(digits[..|digits| - 1]) + (if '0' <= d <= '9' then (d - '0') as nat else 0)
  }

  function Eval(env: Env, t: Node): Datum {
    match t
    case Value(Identifier, x) => env.column(x)
    case Value(NumberLiteral, x) => Int(Decimal(x))
    case Value(StringLiteral, x) => Text(x)
    case Call(f, xs) => env.call(f, seq(|xs|, k requires 0 <= k < |xs| => Eval(env, xs[k])))
    case Logical(c, xs) =>
      OfTruth(Fold(c, seq(|xs|, k requires 0 <= k < |xs| => TruthOf(env, Eval(env, xs[k])))))
    case Equals(l, r) => OfTruth(Equal(env, Eval(env, l), Eval(env, r)))
    case Is(x, IsNull, negated) => OfBool(negated != Eval(env, x).Null?)
    case Is(x, IsTrue, negated) => OfBool(negated != TruthOf(env, Eval(env, x)).Yes?)
    case Is(x, IsFalse, negated) => OfBool(negated != TruthOf(env, Eval(env, x)).No?)
  }

  function Equal(env: Env, a: Datum, b: Datum): Truth {
    if a.Null? || b.Null? then Unknown
    else if a.Int? && b.Int? then (if a.n == b.n then Yes else No)
    else if env.same(a, b) then Yes else No
  }

  function Truths(env: Env, xs: seq<Node>): seq<Truth> {
    seq(|xs|, k requires 0 <= k < |xs| => TruthOf(env, Eval(env, xs[k])))
  }

  lemma {:induction false} FoldAppends(c: Connective, a: seq<Truth>, b: seq<Truth>)
    ensures Fold(c, a + b) == Both(c, Fold(c, a), Fold(c, b))
  {
    if a == [] {
      assert a + b == b;
    } else {
      FoldAppends(c, a[1..], b);
      assert (a + b)[1..] == a[1..] + b;
    }
  }

  lemma {:induction false} SpreadKeepsTruth(env: Env, c: Connective, xs: seq<Node>)
    ensures Fold(c, Truths(env, Spread(c, xs))) == Fold(c, Truths(env, xs))
  {
    if xs == [] {
      assert Truths(env, xs) == [] == Truths(env, Spread(c, xs));
    } else {
      SpreadKeepsTruth(env, c, xs[1..]);
      var head := if IsLogical(xs[0], c) then xs[0].operands else [xs[0]];
      assert Truths(env, Spread(c, xs)) == Truths(env, head) + Truths(env, Spread(c, xs[1..]));
      FoldAppends(c, Truths(env, head), Truths(env, Spread(c, xs[1..])));
      assert Truths(env, xs)[1..] == Truths(env, xs[1..]);
      HeadKeepsTruth(env, c, xs[0]);
    }
  }

  lemma HeadKeepsTruth(env: Env, c: Connective, x: Node)
    ensures Fold(c, Truths(env, if IsLogical(x, c) then x.operands else [x])) == TruthOf(env, Eval(env, x))
  {
    if IsLogical(x, c) {
      assert Eval(env, x) == OfTruth(Fold(c, Truths(env, x.operands)));
    } else {
      assert Truths(env, [x])[1..] == [];
      assert Fold(c, []) == if c.Conjunction? then Yes else No;
    }
  }

  // Merging nested connectives keeps the SQL value, NULL included, on every row.
  lemma {:induction false} FlatteningKeepsValue(env: Env, t: Node)
    requires Grouped(t)
    ensures Eval(env, Flatten(t)) == Eval(env, t)
  {
    match t {
      case Value(_, _) =>
      case Call(f, xs) =>
        forall k | 0 <= k < |xs| ensures Eval(env, Flatten(xs[k])) == Eval(env, xs[k]) { FlatteningKeepsValue(env, xs[k]); }
        var ys := FlattenAll(xs);
        assert Flatten(t) == Call(f, ys);
        assert seq(|ys|, k requires 0 <= k < |ys| => Eval(env, ys[k]))
            == seq(|xs|, k requires 0 <= k < |xs| => Eval(env, xs[k]));
      case Logical(c, xs) =>
        forall k | 0 <= k < |xs| ensures Eval(env, Flatten(xs[k])) == Eval(env, xs[k]) { FlatteningKeepsValue(env, xs[k]); }
        FlattenAllIsCanonical(xs);
        SpreadIsCanonical(c, FlattenAll(xs));
        SpreadKeepsTruth(env, c, FlattenAll(xs));
        assert Truths(env, FlattenAll(xs)) == Truths(env, xs);
        assert Flatten(t) == Logical(c, Spread(c, FlattenAll(xs)));
      case Equals(l, r) => FlatteningKeepsValue(env, l); FlatteningKeepsValue(env, r);
      case Is(x, _, _) => FlatteningKeepsValue(env, x);
    }
  }

  // ---------------------------------------------------------------------------
  // The scope rule

  const JOB := Value(Identifier, "workflow_job_id")
  const ATTEMPT := Value(Identifier, "revision_attempt")
  const DIGEST := Value(Identifier, "request_sha256")
  const MATCHES := Call("regexp_like",
                        [DIGEST, Value(StringLiteral, "^[0-9a-f]{64}$"), Value(StringLiteral, "c")])
  const UNSCOPED := Logical(Conjunction, [Is(JOB, IsNull, false), Is(ATTEMPT, IsNull, false), Is(DIGEST, IsNull, false)])
  const SCOPED := Logical(Conjunction,
                          [Is(JOB, IsNull, true), Equals(ATTEMPT, Value(NumberLiteral, "1")), Is(DIGEST, IsNull, true), MATCHES])
  const EXPECTED := Is(Logical(Disjunction, [UNSCOPED, SCOPED]), IsTrue, false)

  // Either no scope column is set, or a job's first revision names a request
  // whose digest is well formed.
  predicate InScope(env: Env) {
    var job, attempt, digest := env.column("workflow_job_id"), env.column("revision_attempt"), env.column("request_sha256");
    || (job.Null? && attempt.Null? && digest.Null?)
    || (!job.Null? && Equal(env, attempt, Int(1)).Yes? && !digest.Null?
        && TruthOf(env, env.call("regexp_like", [digest, Text("^[0-9a-f]{64}$"), Text("c")])).Yes?)
  }

  predicate Accepts(ts: seq<Token>) {
    Parse(ts, true) == Some(EXPECTED)
  }

  lemma FoldThree(c: Connective, a: Truth, b: Truth, d: Truth)
    ensures Fold(c, [a, b, d]) == Both(c, a, Both(c, b, Both(c, d, Fold(c, []))))
  {
    assert [a, b, d][1..] == [b, d] && [b, d][1..] == [d] && [d][1..] == [];
    assert Fold(c, [d]) == Both(c, d, Fold(c, []));
    assert Fold(c, [b, d]) == Both(c, b, Fold(c, [d]));
  }

  lemma FoldFour(c: Connective, a: Truth, b: Truth, d: Truth, e: Truth)
    ensures Fold(c, [a, b, d, e]) == Both(c, a, Both(c, b, Both(c, d, Both(c, e, Fold(c, [])))))
  {
    assert [a, b, d, e][1..] == [b, d, e];
    FoldThree(c, b, d, e);
  }

  lemma UnscopedValue(env: Env)
    ensures TruthOf(env, Eval(env, UNSCOPED)).Yes? <==>
      env.column("workflow_job_id").Null? && env.column("revision_attempt").Null? && env.column("request_sha256").Null?
  {
    var xs := UNSCOPED.operands;
    assert Truths(env, xs) == [TruthOf(env, Eval(env, xs[0])), TruthOf(env, Eval(env, xs[1])), TruthOf(env, Eval(env, xs[2]))];
    FoldThree(Conjunction, TruthOf(env, Eval(env, xs[0])), TruthOf(env, Eval(env, xs[1])), TruthOf(env, Eval(env, xs[2])));
    assert Eval(env, UNSCOPED) == OfTruth(Fold(Conjunction, Truths(env, xs)));
  }

  lemma MatchesValue(env: Env)
    ensures Eval(env, MATCHES) == env.call("regexp_like", [env.column("request_sha256"), Text("^[0-9a-f]{64}$"), Text("c")])
  {
    var xs := MATCHES.arguments;
    assert seq(|xs|, k requires 0 <= k < |xs| => Eval(env, xs[k])) == [Eval(env, xs[0]), Eval(env, xs[1]), Eval(env, xs[2])];
  }

  lemma ScopedValue(env: Env)
    ensures TruthOf(env, Eval(env, SCOPED)).Yes? <==>
      && !env.column("workflow_job_id").Null? && Equal(env, env.column("revision_attempt"), Int(1)).Yes?
      && !env.column("request_sha256").Null? && TruthOf(env, Eval(env, MATCHES)).Yes?
  {
    var xs := SCOPED.operands;
    var ys := Truths(env, xs);
    assert Decimal("1") == 1 by { assert "1"[..0] == ""; }
    assert ys == [ys[0], ys[1], ys[2], ys[3]];
    assert Eval(env, Value(NumberLiteral, "1")) == Int(1);
    assert Eval(env, ATTEMPT) == env.column("revision_attempt");
    assert xs[1] == Equals(ATTEMPT, Value(NumberLiteral, "1"));
    assert ys[1] == Equal(env, env.column("revision_attempt"), Int(1));
    assert xs[0] == Is(JOB, IsNull, true) && xs[2] == Is(DIGEST, IsNull, true);
    assert Eval(env, JOB) == env.column("workflow_job_id") && Eval(env, DIGEST) == env.column("request_sha256");
    assert Eval(env, xs[0]) == OfBool(!env.column("workflow_job_id").Null?);
    assert Eval(env, xs[2]) == OfBool(!env.column("request_sha256").Null?);
    assert ys[0] == if env.column("workflow_job_id").Null? then No else Yes;
    assert ys[2] == if env.column("request_sha256").Null? then No else Yes;
    assert ys[3] == TruthOf(env, Eval(env, MATCHES));
    FoldFour(Conjunction, ys[0], ys[1], ys[2], ys[3]);
    assert Eval(env, SCOPED) == OfTruth(Fold(Conjunction, ys));
  }

  // An accepted clause, read as written, is 1 on the rows in scope and 0 on all
  // others: it is never NULL, so it never lets a row through by being unknown.
  lemma AcceptedClauseIsTheScope(env: Env, ts: seq<Token>)
    requires Accepts(ts)
    ensures Parse(ts, false).Some?
    ensures Eval(env, Parse(ts, false).value) == OfBool(InScope(env))
  {
    ParserFlattens(ts);
    FlatteningKeepsValue(env, Parse(ts, false).value);
    var xs := [UNSCOPED, SCOPED];
    UnscopedValue(env);
    ScopedValue(env);
    MatchesValue(env);
    var a, b := TruthOf(env, Eval(env, UNSCOPED)), TruthOf(env, Eval(env, SCOPED));
    assert Truths(env, xs) == [a, b] && [a, b][1..] == [b] && [b][1..] == [];
    assert Fold(Disjunction, [b]) == Both(Disjunction, b, No);
    assert Eval(env, EXPECTED.subject) == OfTruth(Fold(Disjunction, Truths(env, xs)));
  }

  // The tokens of ATOMIC_SCOPE_CHECK_EXPRESSION.
  const UNSCOPED_TOKENS := [
    Word("workflow_job_id"), Word("is"), Word("null"), Word("and"),
    Word("revision_attempt"), Word("is"), Word("null"), Word("and"),
    Word("request_sha256"), Word("is"), Word("null")]
  const MATCHES_TOKENS := [
    Word("regexp_like"), Symbol('('), Word("request_sha256"), Symbol(','),
    Quoted("^[0-9a-f]{64}$"), Symbol(','), Quoted("c"), Symbol(')')]
  const SCOPED_TOKENS := [
    Word("workflow_job_id"), Word("is"), Word("not"), Word("null"), Word("and"),
    Word("revision_attempt"), Symbol('='), Number("1"), Word("and"),
    Word("request_sha256"), Word("is"), Word("not"), Word("null"), Word("and")] + MATCHES_TOKENS
  const EXPRESSION :=
    [Symbol('(')] + Group(UNSCOPED_TOKENS) + [Word("or")] + Group(SCOPED_TOKENS)
    + [Symbol(')'), Word("is"), Word("true")]

  function Group(ts: seq<Token>): seq<Token> {
    [Symbol('(')] + (ts + [Symbol(')')])
  }

  // One operand of a connective, and the others after it.
  lemma PrintsStep(t: Node, k: nat, first: seq<Token>, rest: seq<Token>)
    requires Canonical(t) && IsLogical(t, Conjunction) && k + 1 < |t.operands|
    requires !t.operands[k].Logical? && Print(t.operands[k]) == first && PrintOperands(t, k + 1) == rest
    ensures PrintOperands(t, k) == first + ([Word("and")] + rest)
  {}

  lemma PrintsTest(x: string, negated: bool)
    ensures var t := Is(Value(Identifier, x), IsNull, negated);
      Canonical(t) && Print(t) == [Word(x)] + PrintIs(IsNull, negated)
  {
    assert PrintPrimary(Value(Identifier, x)) == [Word(x)];
  }

  lemma UnscopedIsCanonical()
    ensures Canonical(UNSCOPED)
  {}

  lemma PrintsUnscoped()
    ensures Canonical(UNSCOPED) && Print(UNSCOPED) == UNSCOPED_TOKENS
  {
    UnscopedIsCanonical();
    PrintsTest("workflow_job_id", false);
    PrintsTest("revision_attempt", false);
    PrintsTest("request_sha256", false);
    var third := [Word("request_sha256"), Word("is"), Word("null")];
    PrintsLast(UNSCOPED, 2);
    assert PrintOperands(UNSCOPED, 2) == third;
    var second := [Word("revision_attempt"), Word("is"), Word("null")] + ([Word("and")] + third);
    PrintsStep(UNSCOPED, 1, [Word("revision_attempt"), Word("is"), Word("null")], third);
    PrintsStep(UNSCOPED, 0, [Word("workflow_job_id"), Word("is"), Word("null")], second);
  }

  lemma PrintsMatches()
    ensures Canonical(MATCHES) && Print(MATCHES) == MATCHES_TOKENS
  {
    assert PrintArguments(MATCHES, 2) == [Quoted("c"), Symbol(')')];
    assert PrintArguments(MATCHES, 1) == [Quoted("^[0-9a-f]{64}$"), Symbol(',')] + PrintArguments(MATCHES, 2);
    assert PrintArguments(MATCHES, 0) == [Word("request_sha256"), Symbol(',')] + PrintArguments(MATCHES, 1);
  }

  lemma ScopedIsCanonical()
    ensures Canonical(SCOPED)
  {}

  lemma PrintsOne()
    ensures Print(Equals(ATTEMPT, Value(NumberLiteral, "1"))) == [Word("revision_attempt"), Symbol('='), Number("1")]
  {
    assert PrintPrimary(ATTEMPT) == [Word("revision_attempt")] && PrintPrimary(Value(NumberLiteral, "1")) == [Number("1")];
  }

  lemma PrintsScopedTail()
    requires Canonical(SCOPED)
    ensures PrintOperands(SCOPED, 2) ==
      [Word("request_sha256"), Word("is"), Word("not"), Word("null")] + ([Word("and")] + MATCHES_TOKENS)
  {
    PrintsMatches();
    PrintsTest("request_sha256", true);
    PrintsLast(SCOPED, 3);
    assert PrintOperands(SCOPED, 3) == MATCHES_TOKENS;
    PrintsStep(SCOPED, 2, [Word("request_sha256"), Word("is"), Word("not"), Word("null")], MATCHES_TOKENS);
  }

  lemma PrintsScoped()
    ensures Canonical(SCOPED) && Print(SCOPED) == SCOPED_TOKENS
  {
    ScopedIsCanonical();
    PrintsTest("workflow_job_id", true);
    PrintsOne();
    PrintsScopedTail();
    var third := [Word("request_sha256"), Word("is"), Word("not"), Word("null")] + ([Word("and")] + MATCHES_TOKENS);
    var second := [Word("revision_attempt"), Symbol('='), Number("1")] + ([Word("and")] + third);
    PrintsStep(SCOPED, 1, [Word("revision_attempt"), Symbol('='), Number("1")], third);
    PrintsStep(SCOPED, 0, [Word("workflow_job_id"), Word("is"), Word("not"), Word("null")], second);
    ScopedTokens(third, second);
  }

  lemma ScopedTokens(third: seq<Token>, second: seq<Token>)
    requires third == [Word("request_sha256"), Word("is"), Word("not"), Word("null")] + ([Word("and")] + MATCHES_TOKENS)
    requires second == [Word("revision_attempt"), Symbol('='), Number("1")] + ([Word("and")] + third)
    ensures [Word("workflow_job_id"), Word("is"), Word("not"), Word("null")] + ([Word("and")] + second) == SCOPED_TOKENS
  {}

  lemma PrintsEither()
    ensures Canonical(EXPECTED.subject)
    ensures Print(EXPECTED.subject) == Group(UNSCOPED_TOKENS) + ([Word("or")] + Group(SCOPED_TOKENS))
  {
    PrintsUnscoped();
    PrintsScoped();
    var either := EXPECTED.subject;
    assert either.operands == [UNSCOPED, SCOPED] && Canonical(either);
    assert PrintOperand(SCOPED) == Group(SCOPED_TOKENS) && PrintOperand(UNSCOPED) == Group(UNSCOPED_TOKENS);
    assert PrintOperands(either, 1) == Group(SCOPED_TOKENS);
    assert PrintOperands(either, 0) == Group(UNSCOPED_TOKENS) + ([Word("or")] + PrintOperands(either, 1));
  }

  // The migration's own expression is accepted.
  lemma ExpressionIsAccepted()
    ensures Accepts(EXPRESSION)
  {
    PrintsEither();
    var inner := Group(UNSCOPED_TOKENS) + ([Word("or")] + Group(SCOPED_TOKENS));
    assert Print(EXPECTED) == Group(inner) + [Word("is"), Word("true")];
    assert Print(EXPECTED) == EXPRESSION;
    PrintedClauseReadsBack(EXPECTED);
  }
}
