/** The grammar of CHECK clauses, by itself: a clause is parsed exactly if it is spelled
    by a syntax tree, and the result is what that tree means. */
module CheckGrammar {
  import opened Options
  import opened CheckClause

  // expression  = conjunction { OR conjunction }
  // conjunction = test { AND test }
  // test        = primary [ "=" primary ] [ IS [ NOT ] ( NULL | TRUE | FALSE ) ]
  // primary     = "(" expression ")" | word "(" [ expression { "," expression } ] ")" | literal
  datatype Ending = Ending(negated: bool, known: Known)
  datatype Tree =
    | Ors(parts: seq<Tree>)
    | Ands(parts: seq<Tree>)
    | Test(left: Tree, right: Option<Tree>, ending: Option<Ending>)
    | Group(inner: Tree)
    | Apply(name: string, arguments: seq<Tree>)
    | Leaf(token: Token)

  predicate Primary(t: Tree) {
    t.Group? || t.Apply? || t.Leaf?
  }

  predicate WellFormed(t: Tree) {
    match t
    case Ors(ps) => |ps| >= 1 && forall k | 0 <= k < |ps| :: ps[k].Ands? && WellFormed(ps[k])
    case Ands(ps) => |ps| >= 1 && forall k | 0 <= k < |ps| :: ps[k].Test? && WellFormed(ps[k])
    case Test(l, r, _) => Primary(l) && WellFormed(l) && (r.Some? ==> Primary(r.value) && WellFormed(r.value))
    case Group(e) => e.Ors? && WellFormed(e)
    case Apply(_, xs) => forall k | 0 <= k < |xs| :: xs[k].Ors? && WellFormed(xs[k])
    case Leaf(token) => !token.Symbol?
  }

  predicate Joins(t: Tree) {
    t.Ors? || t.Ands?
  }

  function Joint(t: Tree): string
    requires Joins(t)
  {
    if t.Ors? then "or" else "and"
  }

  function Spell(t: Tree): seq<Token>
    requires WellFormed(t)
    decreases t, 2
  {
    match t
    case Ors(_) => SpellParts(t, 0)
    case Ands(_) => SpellParts(t, 0)
    case Test(l, r, ending) => Spell(l) + (SpellRight(t) + SpellEnding(ending))
    case Group(e) => [Symbol('(')] + (Spell(e) + [Symbol(')')])
    case Apply(f, xs) => [Word(f), Symbol('(')] + if xs == [] then [Symbol(')')] else SpellArguments(t, 0)
    case Leaf(token) => [token]
  }

  function SpellRight(t: Tree): seq<Token>
    requires WellFormed(t) && t.Test?
    decreases t, 1
  {
    if t.right.None? then [] else [Symbol('=')] + Spell(t.right.value)
  }

  function SpellEnding(ending: Option<Ending>): seq<Token> {
    match ending
    case None => []
    case Some(e) => PrintIs(e.known, e.negated)
  }

  function SpellParts(t: Tree, k: nat): seq<Token>
    requires WellFormed(t) && Joins(t) && k < |t.parts|
    decreases t, 1, |t.parts| - k
  {
    Spell(t.parts[k]) + if k + 1 == |t.parts| then [] else [Word(Joint(t))] + SpellParts(t, k + 1)
  }

  function SpellArguments(t: Tree, k: nat): seq<Token>
    requires WellFormed(t) && t.Apply? && k < |t.arguments|
    decreases t, 1, |t.arguments| - k
  {
    Spell(t.arguments[k]) + if k + 1 == |t.arguments| then [Symbol(')')] else [Symbol(',')] + SpellArguments(t, k + 1)
  }

  // What a tree means: groups are their contents, and joined parts are combined.
  function Meaning(t: Tree, flat: bool): Node
    requires WellFormed(t)
    decreases t, 1
  {
    match t
    case Ors(ps) => Combine(Disjunction, Meanings(t, ps, flat), flat)
    case Ands(ps) => Combine(Conjunction, Meanings(t, ps, flat), flat)
    case Test(l, r, ending) =>
      var sides := if r.None? then Meaning(l, flat) else Equals(Meaning(l, flat), Meaning(r.value, flat));
      Ended(sides, ending)
    case Group(e) => Meaning(e, flat)
    case Apply(f, xs) => Call(f, Meanings(t, xs, flat))
    case Leaf(token) => Value(LiteralOf(token), token.text)
  }

  function Ended(sides: Node, ending: Option<Ending>): Node {
    match ending
    case None => sides
    case Some(e) => Is(sides, e.known, e.negated)
  }

  function Meanings(t: Tree, xs: seq<Tree>, flat: bool): (ns: seq<Node>)
    requires forall k | 0 <= k < |xs| :: WellFormed(xs[k]) && xs[k] < t
    ensures |ns| == |xs|
    decreases t, 0
  {
    seq(|xs|, k requires 0 <= k < |xs| => Meaning(xs[k], flat))
  }

  // ---------------------------------------------------------------------------
  // What is spelled is parsed

  // The tree is spelled here, and what follows does not go on with it.
  predicate SpelledAt(ts: seq<Token>, i: nat, t: Tree)
    requires WellFormed(t)
  {
    At(ts, i, Spell(t))
    && var j := i + |Spell(t)|;
       match t
       case Ors(_) => EndsExpression(ts, j)
       case Ands(_) => EndsOperand(ts, j) && !WordAt(ts, j, "and")
       case Test(_, _, _) => EndsOperand(ts, j)
       case _ => EndsPrimary(ts, j)
  }

  // What the parser makes of the place where a tree of its kind may stand.
  function ParseAs(ts: seq<Token>, i: nat, t: Tree, flat: bool): Parsed {
    match t
    case Ors(_) => ParseOr(ts, i, flat)
    case Ands(_) => ParseAnd(ts, i, flat)
    case Test(_, _, _) => ParsePredicate(ts, i, flat)
    case _ => ParsePrimary(ts, i, flat)
  }

  predicate Read(ts: seq<Token>, i: nat, t: Tree, flat: bool)
    requires WellFormed(t)
  {
    Reads(ParseAs(ts, i, t, flat), Meaning(t, flat), i + |Spell(t)|)
  }

  lemma {:induction false} SpelledIsRead(ts: seq<Token>, i: nat, t: Tree, flat: bool)
    requires WellFormed(t) && SpelledAt(ts, i, t)
    ensures Read(ts, i, t, flat)
    decreases t, 3
  {
    match t {
      case Ors(_) => PartsAreRead(ts, i, t, flat);
      case Ands(_) => PartsAreRead(ts, i, t, flat);
      case Test(_, _, _) => TestIsRead(ts, i, t, flat);
      case Group(_) => GroupIsRead(ts, i, t, flat);
      case Apply(_, _) => ApplyIsRead(ts, i, t, flat);
      case Leaf(token) => AtOne(ts, i, token);
    }
  }

  lemma {:induction false} GroupIsRead(ts: seq<Token>, i: nat, t: Tree, flat: bool)
    requires WellFormed(t) && t.Group? && SpelledAt(ts, i, t)
    ensures Read(ts, i, t, flat)
    decreases t, 2
  {
    AtParentheses(ts, i, Spell(t.inner));
    SpelledIsRead(ts, i + 1, t.inner, flat);
  }

  lemma {:induction false} TestIsRead(ts: seq<Token>, i: nat, t: Tree, flat: bool)
    requires WellFormed(t) && t.Test? && SpelledAt(ts, i, t)
    ensures Read(ts, i, t, flat)
    decreases t, 2
  {
    var j, k := TestParts(ts, i, t);
    SpelledIsRead(ts, i, t.left, flat);
    if t.right.Some? { SpelledIsRead(ts, j + 1, t.right.value, flat); }
    SidesAreRead(ts, i, t, flat, j, k);
    TestFinishes(ts, i, t, flat, k);
  }

  lemma TestFinishes(ts: seq<Token>, i: nat, t: Tree, flat: bool, k: nat)
    requires WellFormed(t) && t.Test? && 0 < k <= |ts| && ParsePredicate(ts, i, flat) == IsTail(ts, SidesMeaning(t, flat), k)
    requires At(ts, k, SpellEnding(t.ending)) && (t.ending.None? ==> !WordAt(ts, k, "is"))
    requires i + |Spell(t)| == k + |SpellEnding(t.ending)|
    ensures Read(ts, i, t, flat)
  {
    EndingIsRead(ts, k, SidesMeaning(t, flat), t.ending);
    TestMeans(t, flat);
  }

  lemma SidesAreRead(ts: seq<Token>, i: nat, t: Tree, flat: bool, j: nat, k: nat)
    requires WellFormed(t) && t.Test? && Read(ts, i, t.left, flat) && 0 < j <= k <= |ts|
    requires j == i + |Spell(t.left)| && k == j + |SpellRight(t)|
    requires if t.right.Some? then SymbolAt(ts, j, '=') && Read(ts, j + 1, t.right.value, flat) else !SymbolAt(ts, j, '=')
    ensures ParsePredicate(ts, i, flat) == IsTail(ts, SidesMeaning(t, flat), k)
  {
    RightIsLong(t);
    if t.right.Some? {
      BothSides(ts, i, flat, Meaning(t.left, flat), j, Meaning(t.right.value, flat), k);
    } else {
      OneSide(ts, i, flat, Meaning(t.left, flat), j);
    }
  }

  lemma RightIsLong(t: Tree)
    requires WellFormed(t) && t.Test?
    ensures |SpellRight(t)| == if t.right.None? then 0 else 1 + |Spell(t.right.value)|
  {}

  // Where the parts of a test are, and what is behind them.
  lemma TestParts(ts: seq<Token>, i: nat, t: Tree) returns (j: nat, k: nat)
    requires WellFormed(t) && t.Test? && SpelledAt(ts, i, t)
    ensures j == i + |Spell(t.left)| && k == j + |SpellRight(t)| && i + |Spell(t)| == k + |SpellEnding(t.ending)|
    ensures SpelledAt(ts, i, t.left) && At(ts, k, SpellEnding(t.ending)) && 0 < j <= k <= |ts|
    ensures t.right.Some? ==> SymbolAt(ts, j, '=') && SpelledAt(ts, j + 1, t.right.value)
    ensures t.right.None? ==> !SymbolAt(ts, j, '=')
    ensures t.ending.None? ==> !WordAt(ts, k, "is")
  {
    j, k := i + |Spell(t.left)|, i + |Spell(t.left)| + |SpellRight(t)|;
    TestSplits(t);
    SpellingIsLong(t.left);
    RightIsLong(t);
    PartsOfTest(ts, i, Spell(t.left), SpellRight(t), t.ending, k + |SpellEnding(t.ending)|);
    if t.right.Some? {
      AtSplit(ts, j, [Symbol('=')], Spell(t.right.value));
      AtOne(ts, j, Symbol('='));
    }
  }

  lemma TestSplits(t: Tree)
    requires WellFormed(t) && t.Test?
    ensures Spell(t) == Spell(t.left) + (SpellRight(t) + SpellEnding(t.ending))
    ensures t.right.Some? ==> SpellRight(t) == [Symbol('=')] + Spell(t.right.value)
  {}

  lemma PartsOfTest(ts: seq<Token>, i: nat, left: seq<Token>, right: seq<Token>, ending: Option<Ending>, end: nat)
    requires At(ts, i, left + (right + SpellEnding(ending))) && EndsOperand(ts, end)
    requires end == i + |left| + |right| + |SpellEnding(ending)|
    ensures At(ts, i, left) && At(ts, i + |left|, right) && At(ts, i + |left| + |right|, SpellEnding(ending))
    ensures EndsPrimary(ts, i + |left| + |right|) && !SymbolAt(ts, i + |left| + |right|, '=')
    ensures ending.None? ==> !WordAt(ts, i + |left| + |right|, "is")
  {
    AtSplit(ts, i, left, right + SpellEnding(ending));
    AtSplit(ts, i + |left|, right, SpellEnding(ending));
    EndingStarts(ts, i + |left| + |right|, ending);
  }

  lemma EndingStarts(ts: seq<Token>, k: nat, ending: Option<Ending>)
    requires At(ts, k, SpellEnding(ending))
    ensures ending.Some? ==> WordAt(ts, k, "is")
  {
    if ending.Some? {
      var part := SpellEnding(ending);
      assert ts[k] == ts[k..k + |part|][0];
    }
  }

  lemma SpellingIsLong(t: Tree)
    requires WellFormed(t)
    ensures |Spell(t)| >= 1
  {
    match t
    case Ors(ps) => SpellingIsLong(ps[0]);
    case Ands(ps) => SpellingIsLong(ps[0]);
    case Test(l, _, _) => SpellingIsLong(l);
    case _ =>
  }

  lemma EndingIsRead(ts: seq<Token>, k: nat, sides: Node, ending: Option<Ending>)
    requires 0 < k <= |ts| && At(ts, k, SpellEnding(ending)) && (ending.None? ==> !WordAt(ts, k, "is"))
    ensures Reads(IsTail(ts, sides, k), Ended(sides, ending), k + |SpellEnding(ending)|)
  {
    if ending.Some? { IsTailReadsBack(ts, k, sides, ending.value.known, ending.value.negated); }
  }

  function SidesMeaning(t: Tree, flat: bool): Node
    requires WellFormed(t) && t.Test?
  {
    if t.right.None? then Meaning(t.left, flat) else Equals(Meaning(t.left, flat), Meaning(t.right.value, flat))
  }

  lemma TestMeans(t: Tree, flat: bool)
    requires WellFormed(t) && t.Test?
    ensures Meaning(t, flat) == Ended(SidesMeaning(t, flat), t.ending)
  {}

  lemma OneSide(ts: seq<Token>, i: nat, flat: bool, left: Node, j: nat)
    requires Reads(ParsePrimary(ts, i, flat), left, j) && !SymbolAt(ts, j, '=') && 0 < j <= |ts|
    ensures ParsePredicate(ts, i, flat) == IsTail(ts, left, j)
  {}

  lemma BothSides(ts: seq<Token>, i: nat, flat: bool, left: Node, j: nat, right: Node, k: nat)
    requires Reads(ParsePrimary(ts, i, flat), left, j) && SymbolAt(ts, j, '=')
    requires Reads(ParsePrimary(ts, j + 1, flat), right, k) && 0 < k <= |ts|
    ensures ParsePredicate(ts, i, flat) == IsTail(ts, Equals(left, right), k)
  {}

  // ---------------------------------------------------------------------------
  // Joined parts

  function ParsePart(ts: seq<Token>, i: nat, t: Tree, flat: bool): Parsed
    requires Joins(t)
  {
    if t.Ors? then ParseAnd(ts, i, flat) else ParsePredicate(ts, i, flat)
  }

  function MoreParts(ts: seq<Token>, i: nat, t: Tree, operands: seq<Node>, flat: bool): Parsed
    requires Joins(t) && |operands| >= 1 && 0 < i <= |ts|
  {
    if t.Ors? then OrTail(ts, i, operands, flat) else AndTail(ts, i, operands, flat)
  }

  lemma MoreStep(ts: seq<Token>, i: nat, t: Tree, operands: seq<Node>, flat: bool, x: Node, j: nat)
    requires Joins(t) && |operands| >= 1 && 0 < i < j <= |ts|
    requires WordAt(ts, i, Joint(t)) && Reads(ParsePart(ts, i + 1, t, flat), x, j)
    ensures MoreParts(ts, i, t, operands, flat) == MoreParts(ts, j, t, operands + [x], flat)
  {}

  lemma MoreEnd(ts: seq<Token>, i: nat, t: Tree, operands: seq<Node>, flat: bool)
    requires Joins(t) && |operands| >= 1 && 0 < i <= |ts| && !WordAt(ts, i, Joint(t))
    ensures MoreParts(ts, i, t, operands, flat) ==
      Some((Combine(if t.Ors? then Disjunction else Conjunction, operands, flat), i))
  {}

  // Part k, and what stands behind it.
  lemma PartStands(ts: seq<Token>, i: nat, t: Tree, k: nat) returns (j: nat)
    requires WellFormed(t) && Joins(t) && k < |t.parts| && At(ts, i, SpellParts(t, k))
    requires k + 1 == |t.parts| ==> PartsEnd(ts, i + |SpellParts(t, k)|, t)
    ensures j == i + |Spell(t.parts[k])| && SpelledAt(ts, i, t.parts[k]) && i < j <= |ts|
    ensures PartsFollow(ts, j, t, k, i + |SpellParts(t, k)|)
  {
    j := i + |Spell(t.parts[k])|;
    SpellingIsLong(t.parts[k]);
    if k + 1 < |t.parts| { AtThree(ts, i, Spell(t.parts[k]), Word(Joint(t)), SpellParts(t, k + 1)); }
  }

  // Behind part k stand the others, up to end.
  predicate PartsFollow(ts: seq<Token>, j: nat, t: Tree, k: nat, end: nat)
    requires WellFormed(t) && Joins(t) && k < |t.parts|
  {
    if k + 1 == |t.parts| then j == end
    else WordAt(ts, j, Joint(t)) && At(ts, j + 1, SpellParts(t, k + 1)) && end == j + 1 + |SpellParts(t, k + 1)|
  }

  predicate PartsEnd(ts: seq<Token>, j: nat, t: Tree)
    requires Joins(t)
  {
    EndsOperand(ts, j) && !WordAt(ts, j, "and") && (t.Ors? ==> !WordAt(ts, j, "or"))
  }

  function Upto(t: Tree, n: nat, flat: bool): (ns: seq<Node>)
    requires WellFormed(t) && Joins(t) && n <= |t.parts|
    ensures |ns| == n
  {
    Meanings(t, t.parts[..n], flat)
  }

  lemma UptoMore(t: Tree, n: nat, flat: bool)
    requires WellFormed(t) && Joins(t) && n < |t.parts|
    ensures Upto(t, n + 1, flat) == Upto(t, n, flat) + [Meaning(t.parts[n], flat)]
  {}

  // Part k is read by itself.
  lemma {:induction false} PartIsRead(ts: seq<Token>, i: nat, t: Tree, k: nat, flat: bool) returns (j: nat)
    requires WellFormed(t) && Joins(t) && k < |t.parts| && At(ts, i, SpellParts(t, k))
    requires k + 1 == |t.parts| ==> PartsEnd(ts, i + |SpellParts(t, k)|, t)
    ensures j == i + |Spell(t.parts[k])| && i < j <= |ts| && Reads(ParsePart(ts, i, t, flat), Meaning(t.parts[k], flat), j)
    ensures PartsFollow(ts, j, t, k, i + |SpellParts(t, k)|)
    decreases t, 0
  {
    j := PartStands(ts, i, t, k);
    SpelledIsRead(ts, i, t.parts[k], flat);
  }

  lemma LastIsRead(ts: seq<Token>, i: nat, t: Tree, k: nat, flat: bool)
    requires WellFormed(t) && Joins(t) && k + 1 == |t.parts| && 0 < i <= |ts| && PartsEnd(ts, i, t)
    ensures Reads(MoreParts(ts, i, t, Upto(t, k + 1, flat), flat), Meaning(t, flat), i)
  {
    assert t.parts[..k + 1] == t.parts;
    MoreEnd(ts, i, t, Upto(t, k + 1, flat), flat);
  }

  lemma TurnIsRead(ts: seq<Token>, i: nat, t: Tree, n: nat, flat: bool, j: nat)
    requires WellFormed(t) && Joins(t) && 0 < n < |t.parts| && 0 < i < j <= |ts| && WordAt(ts, i, Joint(t))
    requires Reads(ParsePart(ts, i + 1, t, flat), Meaning(t.parts[n], flat), j)
    ensures MoreParts(ts, i, t, Upto(t, n, flat), flat) == MoreParts(ts, j, t, Upto(t, n + 1, flat), flat)
  {
    UptoMore(t, n, flat);
    MoreStep(ts, i, t, Upto(t, n, flat), flat, Meaning(t.parts[n], flat), j);
  }

  // Behind part k the loop reads the other parts.
  lemma {:induction false} MoreAreRead(ts: seq<Token>, i: nat, t: Tree, k: nat, flat: bool, end: nat)
    requires WellFormed(t) && Joins(t) && k < |t.parts| && 0 < i <= |ts| && PartsFollow(ts, i, t, k, end) && PartsEnd(ts, end, t)
    ensures Reads(MoreParts(ts, i, t, Upto(t, k + 1, flat), flat), Meaning(t, flat), end)
    decreases t, 1, |t.parts| - k
  {
    if k + 1 == |t.parts| {
      LastIsRead(ts, i, t, k, flat);
    } else {
      var j := PartIsRead(ts, i + 1, t, k + 1, flat);
      TurnIsRead(ts, i, t, k + 1, flat, j);
      MoreAreRead(ts, j, t, k + 1, flat, end);
    }
  }

  lemma {:induction false} PartsAreRead(ts: seq<Token>, i: nat, t: Tree, flat: bool)
    requires WellFormed(t) && Joins(t) && SpelledAt(ts, i, t)
    ensures Read(ts, i, t, flat)
    decreases t, 2
  {
    FirstStands(ts, i, t);
    var j := PartIsRead(ts, i, t, 0, flat);
    MoreAreRead(ts, j, t, 0, flat, i + |SpellParts(t, 0)|);
    PartsFinish(ts, i, t, flat, j, i + |SpellParts(t, 0)|);
  }

  lemma FirstStands(ts: seq<Token>, i: nat, t: Tree)
    requires WellFormed(t) && Joins(t) && SpelledAt(ts, i, t)
    ensures At(ts, i, SpellParts(t, 0)) && PartsEnd(ts, i + |SpellParts(t, 0)|, t)
  {}

  lemma PartsFinish(ts: seq<Token>, i: nat, t: Tree, flat: bool, j: nat, end: nat)
    requires WellFormed(t) && Joins(t) && Reads(ParsePart(ts, i, t, flat), Meaning(t.parts[0], flat), j) && 0 < j <= |ts|
    requires end == i + |SpellParts(t, 0)| && Reads(MoreParts(ts, j, t, Upto(t, 0 + 1, flat), flat), Meaning(t, flat), end)
    ensures Read(ts, i, t, flat)
  {
    FirstUpto(t, flat);
    FirstThenMore(ts, i, t, flat, Meaning(t.parts[0], flat), j);
  }

  lemma FirstUpto(t: Tree, flat: bool)
    requires WellFormed(t) && Joins(t)
    ensures Upto(t, 1, flat) == [Meaning(t.parts[0], flat)] && Spell(t) == SpellParts(t, 0)
  {}

  lemma FirstThenMore(ts: seq<Token>, i: nat, t: Tree, flat: bool, x: Node, j: nat)
    requires Joins(t) && Reads(ParsePart(ts, i, t, flat), x, j) && 0 < j <= |ts|
    ensures ParseAs(ts, i, t, flat) == MoreParts(ts, j, t, [x], flat)
  {}

  // ---------------------------------------------------------------------------
  // Calls

  lemma ArgumentsSplit(t: Tree, k: nat)
    requires WellFormed(t) && t.Apply? && k < |t.arguments|
    ensures SpellArguments(t, k) == Spell(t.arguments[k])
      + (if k + 1 == |t.arguments| then [Symbol(')')] + [] else [Symbol(',')] + SpellArguments(t, k + 1))
  {
    assert [Symbol(')')] + [] == [Symbol(')')];
  }

  lemma ArgumentStands(ts: seq<Token>, i: nat, t: Tree, k: nat) returns (j: nat)
    requires WellFormed(t) && t.Apply? && k < |t.arguments| && At(ts, i, SpellArguments(t, k))
    ensures j == i + |Spell(t.arguments[k])| && SpelledAt(ts, i, t.arguments[k]) && i < j < |ts|
    ensures SymbolAt(ts, j, if k + 1 == |t.arguments| then ')' else ',')
    ensures if k + 1 == |t.arguments| then i + |SpellArguments(t, k)| == j + 1
      else At(ts, j + 1, SpellArguments(t, k + 1)) && i + |SpellArguments(t, k)| == j + 1 + |SpellArguments(t, k + 1)|
  {
    j := i + |Spell(t.arguments[k])|;
    ArgumentsSplit(t, k);
    SpellingIsLong(t.arguments[k]);
    var last := k + 1 == |t.arguments|;
    AtThree(ts, i, Spell(t.arguments[k]), Symbol(if last then ')' else ','), if last then [] else SpellArguments(t, k + 1));
  }

  lemma {:induction false} ArgumentsAreRead(ts: seq<Token>, i: nat, t: Tree, k: nat, flat: bool, end: nat)
    requires WellFormed(t) && t.Apply? && k < |t.arguments| && i <= |ts|
    requires At(ts, i, SpellArguments(t, k)) && end == i + |SpellArguments(t, k)|
    ensures Reads(ArgumentTail(ts, i, t.name, Meanings(t, t.arguments[..k], flat), flat), Meaning(t, flat), end)
    decreases t, 1, |t.arguments| - k
  {
    var j := ArgumentStands(ts, i, t, k);
    SpelledIsRead(ts, i, t.arguments[k], flat);
    ArgumentStep(ts, i, t.name, Meanings(t, t.arguments[..k], flat), flat, Meaning(t.arguments[k], flat), j);
    assert Meanings(t, t.arguments[..k], flat) + [Meaning(t.arguments[k], flat)] == Meanings(t, t.arguments[..k + 1], flat);
    if k + 1 == |t.arguments| {
      assert t.arguments[..k + 1] == t.arguments;
    } else {
      ArgumentsAreRead(ts, j + 1, t, k + 1, flat, end);
    }
  }

  lemma {:induction false} ApplyIsRead(ts: seq<Token>, i: nat, t: Tree, flat: bool)
    requires WellFormed(t) && t.Apply? && SpelledAt(ts, i, t)
    ensures Read(ts, i, t, flat)
    decreases t, 2
  {
    ApplyStands(ts, i, t);
    if t.arguments == [] {
      EmptyCall(ts, i, t, flat);
    } else {
      assert t.arguments[..0] == [];
      ArgumentsAreRead(ts, i + 2, t, 0, flat, i + |Spell(t)|);
      StartsOpen(ts, i + 2, t.arguments[0]);
      CallFinishes(ts, i, t, flat, i + |Spell(t)|);
    }
  }

  lemma ApplyStands(ts: seq<Token>, i: nat, t: Tree)
    requires WellFormed(t) && t.Apply? && At(ts, i, Spell(t))
    ensures WordAt(ts, i, t.name) && SymbolAt(ts, i + 1, '(')
    ensures if t.arguments == [] then SymbolAt(ts, i + 2, ')') && |Spell(t)| == 3
      else At(ts, i + 2, SpellArguments(t, 0)) && |Spell(t)| == 2 + |SpellArguments(t, 0)| && At(ts, i + 2, Spell(t.arguments[0]))
  {
    var rest := if t.arguments == [] then [Symbol(')')] else SpellArguments(t, 0);
    AtSplit(ts, i, [Word(t.name), Symbol('(')], rest);
    assert ts[i] == ts[i..i + 2][0] && ts[i + 1] == ts[i..i + 2][1];
    if t.arguments == [] {
      AtOne(ts, i + 2, Symbol(')'));
    } else {
      var j := ArgumentStands(ts, i + 2, t, 0);
    }
  }

  lemma EmptyCall(ts: seq<Token>, i: nat, t: Tree, flat: bool)
    requires WellFormed(t) && t.Apply? && t.arguments == []
    requires WordAt(ts, i, t.name) && SymbolAt(ts, i + 1, '(') && SymbolAt(ts, i + 2, ')')
    ensures Reads(ParsePrimary(ts, i, flat), Meaning(t, flat), i + 3)
  {
    assert Meanings(t, [], flat) == [];
  }

  lemma CallFinishes(ts: seq<Token>, i: nat, t: Tree, flat: bool, end: nat)
    requires t.Apply? && WellFormed(t) && WordAt(ts, i, t.name) && SymbolAt(ts, i + 1, '(') && !SymbolAt(ts, i + 2, ')')
    requires i + 2 <= |ts| && Reads(ArgumentTail(ts, i + 2, t.name, [], flat), Meaning(t, flat), end)
    ensures Reads(ParsePrimary(ts, i, flat), Meaning(t, flat), end)
  {}

  // An expression does not begin with a closing parenthesis.
  lemma {:induction false} StartsOpen(ts: seq<Token>, i: nat, t: Tree)
    requires WellFormed(t) && At(ts, i, Spell(t))
    ensures !SymbolAt(ts, i, ')')
    decreases t
  {
    match t {
      case Ors(ps) => FirstPartStands(ts, i, t); StartsOpen(ts, i, ps[0]);
      case Ands(ps) => FirstPartStands(ts, i, t); StartsOpen(ts, i, ps[0]);
      case Test(l, _, ending) =>
        AtSplit(ts, i, Spell(l), SpellRight(t) + SpellEnding(ending));
        StartsOpen(ts, i, l);
      case _ =>
        SpellingIsLong(t);
        assert ts[i] == ts[i..i + |Spell(t)|][0];
    }
  }

  lemma FirstPartStands(ts: seq<Token>, i: nat, t: Tree)
    requires WellFormed(t) && Joins(t) && At(ts, i, Spell(t))
    ensures At(ts, i, Spell(t.parts[0]))
  {
    assert Spell(t) == SpellParts(t, 0);
    if |t.parts| > 1 { AtThree(ts, i, Spell(t.parts[0]), Word(Joint(t)), SpellParts(t, 1)); }
  }

  // ---------------------------------------------------------------------------
  // What is parsed is spelled

  // The tree is what was parsed from i on.
  predicate Derives(ts: seq<Token>, i: nat, t: Tree, flat: bool, r: Parsed) {
    r.Some? && WellFormed(t) && At(ts, i, Spell(t)) && r.value == (Meaning(t, flat), i + |Spell(t)|)
  }

  function JoinedBy(disjunction: bool, parts: seq<Tree>): Tree {
    if disjunction then Ors(parts) else Ands(parts)
  }

  predicate IsPart(disjunction: bool, p: Tree) {
    WellFormed(p) && if disjunction then p.Ands? else p.Test?
  }

  predicate Parts(disjunction: bool, parts: seq<Tree>) {
    |parts| >= 1 && forall k | 0 <= k < |parts| :: IsPart(disjunction, parts[k])
  }

  lemma PartsAreWellFormed(disjunction: bool, parts: seq<Tree>)
    requires Parts(disjunction, parts)
    ensures WellFormed(JoinedBy(disjunction, parts)) && Joins(JoinedBy(disjunction, parts))
  {
    forall k | 0 <= k < |parts| ensures WellFormed(parts[k]) && if disjunction then parts[k].Ands? else parts[k].Test? {
      assert IsPart(disjunction, parts[k]);
    }
  }

  function Whole(disjunction: bool, parts: seq<Tree>): (t: Tree)
    requires Parts(disjunction, parts)
    ensures WellFormed(t) && Joins(t) && t.parts == parts && (t.Ors? <==> disjunction)
  {
    PartsAreWellFormed(disjunction, parts);
    JoinedBy(disjunction, parts)
  }

  lemma {:induction false} SpellMore(t: Tree, more: Tree, p: Tree, k: nat)
    requires WellFormed(t) && WellFormed(more) && WellFormed(p) && Joins(t) && Joins(more) && (t.Ors? <==> more.Ors?)
    requires more.parts == t.parts + [p] && k < |t.parts|
    ensures SpellParts(more, k) == SpellParts(t, k) + ([Word(Joint(t))] + Spell(p))
    decreases |t.parts| - k
  {
    assert more.parts[k] == t.parts[k] && more.parts[|t.parts|] == p;
    if k + 1 < |t.parts| {
      SpellMore(t, more, p, k + 1);
      Regroup(Spell(t.parts[k]), [Word(Joint(t))], SpellParts(t, k + 1), [Word(Joint(t))] + Spell(p));
    } else {
      LastPart(more, |t.parts|);
      LastPart(t, k);
    }
  }

  lemma Regroup(a: seq<Token>, b: seq<Token>, c: seq<Token>, d: seq<Token>)
    ensures a + (b + (c + d)) == (a + (b + c)) + d
  {}

  lemma LastPart(t: Tree, k: nat)
    requires WellFormed(t) && Joins(t) && k + 1 == |t.parts|
    ensures SpellParts(t, k) == Spell(t.parts[k])
  {}

  lemma AtAppend(ts: seq<Token>, i: nat, a: seq<Token>, b: seq<Token>)
    requires At(ts, i, a) && At(ts, i + |a|, b)
    ensures At(ts, i, a + b)
  {
    assert ts[i..i + |a + b|] == ts[i..i + |a|] + ts[i + |a|..i + |a| + |b|];
  }

  lemma AtToken(ts: seq<Token>, i: nat, t: Token)
    requires i < |ts| && ts[i] == t
    ensures At(ts, i, [t])
  {}

  function PartMeanings(t: Tree, flat: bool): seq<Node>
    requires WellFormed(t) && Joins(t)
  {
    Meanings(t, t.parts, flat)
  }

  // One more part is read behind those there are.
  lemma PartAdded(ts: seq<Token>, i: nat, j: nat, t: Tree, more: Tree, p: Tree, flat: bool)
    requires WellFormed(t) && WellFormed(more) && WellFormed(p) && Joins(t) && Joins(more) && (t.Ors? <==> more.Ors?)
    requires more.parts == t.parts + [p]
    requires At(ts, i, Spell(t)) && j == i + |Spell(t)| && WordAt(ts, j, Joint(t)) && At(ts, j + 1, Spell(p))
    ensures At(ts, i, Spell(more)) && i + |Spell(more)| == j + 1 + |Spell(p)|
    ensures PartMeanings(more, flat) == PartMeanings(t, flat) + [Meaning(p, flat)]
  {
    SpellMore(t, more, p, 0);
    AtToken(ts, j, Word(Joint(t)));
    AtAppend(ts, j, [Word(Joint(t))], Spell(p));
    AtAppend(ts, i, Spell(t), [Word(Joint(t))] + Spell(p));
    MeaningsMore(t, more, p, flat);
  }

  lemma MeaningsMore(t: Tree, more: Tree, p: Tree, flat: bool)
    requires WellFormed(t) && WellFormed(more) && WellFormed(p) && Joins(t) && Joins(more) && more.parts == t.parts + [p]
    ensures PartMeanings(more, flat) == PartMeanings(t, flat) + [Meaning(p, flat)]
  {}

  lemma OnePart(t: Tree, p: Tree, flat: bool)
    requires WellFormed(t) && WellFormed(p) && Joins(t) && t.parts == [p]
    ensures Spell(t) == Spell(p) && PartMeanings(t, flat) == [Meaning(p, flat)]
  {
    LastPart(t, 0);
  }

  lemma {:induction false} OrIsSpelled(ts: seq<Token>, i: nat, flat: bool) returns (t: Tree)
    requires ParseOr(ts, i, flat).Some?
    ensures t.Ors? && Derives(ts, i, t, flat, ParseOr(ts, i, flat)) && |Spell(t)| >= 1
    decreases |ts| - i, 4
  {
    var p := AndIsSpelled(ts, i, flat);
    t := Whole(true, [p]);
    OnePart(t, p, flat);
    t := MoreAreSpelled(ts, i, i + |Spell(p)|, t, flat);
    SpellingIsLong(t);
  }

  lemma {:induction false} AndIsSpelled(ts: seq<Token>, i: nat, flat: bool) returns (t: Tree)
    requires ParseAnd(ts, i, flat).Some?
    ensures t.Ands? && Derives(ts, i, t, flat, ParseAnd(ts, i, flat)) && |Spell(t)| >= 1
    decreases |ts| - i, 3
  {
    var p := TestIsSpelled(ts, i, flat);
    t := Whole(false, [p]);
    OnePart(t, p, flat);
    t := MoreAreSpelled(ts, i, i + |Spell(p)|, t, flat);
    SpellingIsLong(t);
  }

  // Behind the parts read so far.
  lemma {:induction false} MoreAreSpelled(ts: seq<Token>, i: nat, j: nat, t: Tree, flat: bool) returns (all: Tree)
    requires WellFormed(t) && Joins(t) && At(ts, i, Spell(t)) && j == i + |Spell(t)| && i < j <= |ts|
    requires MoreParts(ts, j, t, PartMeanings(t, flat), flat).Some?
    ensures WellFormed(all) && Joins(all) && (all.Ors? <==> t.Ors?)
    ensures Derives(ts, i, all, flat, MoreParts(ts, j, t, PartMeanings(t, flat), flat))
    decreases |ts| - j, if t.Ors? then 4 else 3
  {
    if WordAt(ts, j, Joint(t)) {
      var p := PartIsSpelled(ts, j + 1, t, flat);
      var k := j + 1 + |Spell(p)|;
      var more := OneMore(t, p);
      PartAdded(ts, i, j, t, more, p, flat);
      MoreStep(ts, j, t, PartMeanings(t, flat), flat, Meaning(p, flat), k);
      SameLoop(ts, k, t, more, PartMeanings(more, flat), flat);
      all := MoreAreSpelled(ts, i, k, more, flat);
    } else {
      all := t;
      MoreEnd(ts, j, t, PartMeanings(t, flat), flat);
    }
  }

  lemma SameLoop(ts: seq<Token>, k: nat, t: Tree, more: Tree, operands: seq<Node>, flat: bool)
    requires Joins(t) && Joins(more) && (t.Ors? <==> more.Ors?) && |operands| >= 1 && 0 < k <= |ts|
    ensures MoreParts(ts, k, t, operands, flat) == MoreParts(ts, k, more, operands, flat)
  {}

  function OneMore(t: Tree, p: Tree): (more: Tree)
    requires WellFormed(t) && Joins(t) && WellFormed(p) && if t.Ors? then p.Ands? else p.Test?
    ensures WellFormed(more) && Joins(more) && (more.Ors? <==> t.Ors?) && more.parts == t.parts + [p]
  {
    if t.Ors? then Ors(t.parts + [p]) else Ands(t.parts + [p])
  }

  lemma {:induction false} PartIsSpelled(ts: seq<Token>, i: nat, t: Tree, flat: bool) returns (p: Tree)
    requires Joins(t) && 0 < i && MoreGoesOn(ts, i, t, flat)
    ensures (if t.Ors? then p.Ands? else p.Test?) && Derives(ts, i, p, flat, ParsePart(ts, i, t, flat)) && |Spell(p)| >= 1
    decreases |ts| - i, if t.Ors? then 6 else 5
  {
    if t.Ors? { p := AndIsSpelled(ts, i, flat); } else { p := TestIsSpelled(ts, i, flat); }
  }

  predicate MoreGoesOn(ts: seq<Token>, i: nat, t: Tree, flat: bool)
    requires Joins(t)
  {
    ParsePart(ts, i, t, flat).Some?
  }

  lemma {:induction false} TestIsSpelled(ts: seq<Token>, i: nat, flat: bool) returns (t: Tree)
    requires ParsePredicate(ts, i, flat).Some?
    ensures t.Test? && Derives(ts, i, t, flat, ParsePredicate(ts, i, flat)) && |Spell(t)| >= 1
    decreases |ts| - i, 2, 1
  {
    var bare, sides, k := SidesOf(ts, i, flat);
    var ending := EndingIsSpelled(ts, k, sides);
    t := bare.(ending := ending);
    TestIsAll(ts, i, bare, t);
    TestMeans(t, flat);
    TestMeans(bare, flat);
    SpellingIsLong(t);
  }

  // A test without its ending, spelled up to k.
  predicate Bare(ts: seq<Token>, i: nat, bare: Tree, flat: bool, sides: Node, k: nat) {
    && bare.Test? && bare.ending.None? && WellFormed(bare) && At(ts, i, Spell(bare)) && k == i + |Spell(bare)| && 0 < k <= |ts|
    && sides == Meaning(bare, flat)
  }

  // The test up to what it is tested for.
  lemma {:induction false} SidesOf(ts: seq<Token>, i: nat, flat: bool) returns (bare: Tree, sides: Node, k: nat)
    requires ParsePredicate(ts, i, flat).Some?
    ensures Bare(ts, i, bare, flat, sides, k) && ParsePredicate(ts, i, flat) == IsTail(ts, sides, k)
    decreases |ts| - i, 2, 0
  {
    var left, j := LeftOf(ts, i, flat);
    if SymbolAt(ts, j, '=') {
      var r := PrimaryIsSpelled(ts, j + 1, flat);
      bare, sides, k := TwoSides(ts, i, left, j, r, flat);
    } else {
      bare, sides, k := LeftOnly(ts, i, left, j, flat);
    }
  }

  lemma {:induction false} LeftOf(ts: seq<Token>, i: nat, flat: bool) returns (left: Tree, j: nat)
    requires ParsePredicate(ts, i, flat).Some?
    ensures LeftIs(ts, i, flat, left, j) && (SymbolAt(ts, j, '=') ==> ParsePrimary(ts, j + 1, flat).Some?)
    decreases |ts| - i, 2, 0, 0
  {
    left := PrimaryIsSpelled(ts, i, flat);
    j := i + |Spell(left)|;
    RightIsNeeded(ts, i, flat, Meaning(left, flat), j);
  }

  predicate LeftIs(ts: seq<Token>, i: nat, flat: bool, left: Tree, j: nat) {
    && Primary(left) && WellFormed(left) && At(ts, i, Spell(left)) && j == i + |Spell(left)| && i < j <= |ts|
    && Reads(ParsePrimary(ts, i, flat), Meaning(left, flat), j)
  }

  lemma RightIsNeeded(ts: seq<Token>, i: nat, flat: bool, left: Node, j: nat)
    requires ParsePredicate(ts, i, flat).Some? && Reads(ParsePrimary(ts, i, flat), left, j)
    ensures SymbolAt(ts, j, '=') ==> ParsePrimary(ts, j + 1, flat).Some?
  {}

  lemma LeftOnly(ts: seq<Token>, i: nat, left: Tree, j: nat, flat: bool) returns (bare: Tree, sides: Node, k: nat)
    requires LeftIs(ts, i, flat, left, j) && !SymbolAt(ts, j, '=')
    ensures Bare(ts, i, bare, flat, sides, k) && ParsePredicate(ts, i, flat) == IsTail(ts, sides, k)
  {
    bare, sides, k := Test(left, None, None), Meaning(left, flat), j;
    SidesAreSpelled(ts, i, left, None);
    SidesMean(left, None, flat);
    OneSide(ts, i, flat, sides, k);
  }

  lemma TwoSides(ts: seq<Token>, i: nat, left: Tree, j: nat, r: Tree, flat: bool) returns (bare: Tree, sides: Node, k: nat)
    requires LeftIs(ts, i, flat, left, j) && SymbolAt(ts, j, '=') && WellFormed(r) && LeftIs(ts, j + 1, flat, r, j + 1 + |Spell(r)|)
    ensures Bare(ts, i, bare, flat, sides, k) && ParsePredicate(ts, i, flat) == IsTail(ts, sides, k)
  {
    bare, sides, k := Test(left, Some(r), None), Equals(Meaning(left, flat), Meaning(r, flat)), j + 1 + |Spell(r)|;
    SidesAreSpelled(ts, i, left, Some(r));
    SidesMean(left, Some(r), flat);
    BothSides(ts, i, flat, Meaning(left, flat), j, Meaning(r, flat), k);
  }

  lemma SidesMean(left: Tree, right: Option<Tree>, flat: bool)
    requires WellFormed(Test(left, right, None))
    ensures Meaning(Test(left, right, None), flat) ==
      if right.None? then Meaning(left, flat) else Equals(Meaning(left, flat), Meaning(right.value, flat))
  {}

  lemma SidesAreSpelled(ts: seq<Token>, i: nat, left: Tree, right: Option<Tree>)
    requires WellFormed(Test(left, right, None)) && At(ts, i, Spell(left))
    requires right.Some? ==> SymbolAt(ts, i + |Spell(left)|, '=') && At(ts, i + |Spell(left)| + 1, Spell(right.value))
    ensures var bare := Test(left, right, None);
      At(ts, i, Spell(bare)) && |Spell(bare)| == |Spell(left)| + if right.None? then 0 else 1 + |Spell(right.value)|
  {
    var bare, j := Test(left, right, None), i + |Spell(left)|;
    assert SpellRight(bare) + [] == SpellRight(bare);
    if right.Some? {
      AtToken(ts, j, Symbol('='));
      AtAppend(ts, j, [Symbol('=')], Spell(right.value));
    }
    AtAppend(ts, i, Spell(left), SpellRight(bare));
  }

  lemma EndingIsSpelled(ts: seq<Token>, k: nat, sides: Node) returns (ending: Option<Ending>)
    requires 0 < k <= |ts| && IsTail(ts, sides, k).Some?
    ensures At(ts, k, SpellEnding(ending)) && IsTail(ts, sides, k) == Some((Ended(sides, ending), k + |SpellEnding(ending)|))
  {
    if WordAt(ts, k, "is") {
      var negated := WordAt(ts, k + 1, "not");
      var j := if negated then k + 2 else k + 1;
      var known := KnownOf(ts[j].text).value;
      ending := Some(Ending(negated, known));
      KnownIsText(ts[j].text);
      assert ts[k..j + 1] == SpellEnding(ending);
    } else {
      ending := None;
    }
  }

  lemma KnownIsText(w: string)
    ensures KnownOf(w).Some? ==> TextOf(KnownOf(w).value) == w
  {}

  lemma TestIsAll(ts: seq<Token>, i: nat, bare: Tree, t: Tree)
    requires WellFormed(t) && t.Test? && bare == t.(ending := None)
    requires At(ts, i, Spell(bare)) && At(ts, i + |Spell(bare)|, SpellEnding(t.ending))
    ensures At(ts, i, Spell(t)) && |Spell(t)| == |Spell(bare)| + |SpellEnding(t.ending)|
  {
    assert SpellRight(bare) == SpellRight(t);
    var left, right, ending := Spell(t.left), SpellRight(t), SpellEnding(t.ending);
    assert right + [] == right && (left + right) + ending == left + (right + ending);
    AtAppend(ts, i, Spell(bare), ending);
  }

  lemma {:induction false} PrimaryIsSpelled(ts: seq<Token>, i: nat, flat: bool) returns (t: Tree)
    requires ParsePrimary(ts, i, flat).Some?
    ensures Primary(t) && Derives(ts, i, t, flat, ParsePrimary(ts, i, flat)) && |Spell(t)| >= 1
    decreases |ts| - i, 1
  {
    if SymbolAt(ts, i, '(') {
      var e := OrIsSpelled(ts, i + 1, flat);
      t := Group(e);
      AtToken(ts, i, Symbol('('));
      AtToken(ts, i + 1 + |Spell(e)|, Symbol(')'));
      AtAppend(ts, i + 1, Spell(e), [Symbol(')')]);
      AtAppend(ts, i, [Symbol('(')], Spell(e) + [Symbol(')')]);
    } else if ts[i].Word? && SymbolAt(ts, i + 1, '(') {
      t := CallIsSpelled(ts, i, flat);
    } else {
      t := Leaf(ts[i]);
      AtToken(ts, i, ts[i]);
    }
  }

  lemma {:induction false} CallIsSpelled(ts: seq<Token>, i: nat, flat: bool) returns (t: Tree)
    requires i < |ts| && ts[i].Word? && SymbolAt(ts, i + 1, '(') && ParsePrimary(ts, i, flat).Some?
    ensures t.Apply? && Derives(ts, i, t, flat, ParsePrimary(ts, i, flat)) && |Spell(t)| >= 1
    decreases |ts| - i, 0
  {
    var f := ts[i].text;
    assert ts[i..i + 2] == [Word(f), Symbol('(')];
    if SymbolAt(ts, i + 2, ')') {
      t := Apply(f, []);
      AtToken(ts, i + 2, Symbol(')'));
      AtAppend(ts, i, [Word(f), Symbol('(')], [Symbol(')')]);
      assert Meanings(t, [], flat) == [];
    } else {
      var xs := ArgumentsAreSpelled(ts, i + 2, i + 2, f, [], flat);
      t := Apply(f, xs);
      AtAppend(ts, i, [Word(f), Symbol('(')], SpellArguments(t, 0));
    }
  }

  // The arguments so far, each with the comma behind it.
  function WithCommas(xs: seq<Tree>): seq<Token>
    requires forall k | 0 <= k < |xs| :: WellFormed(xs[k])
  {
    if xs == [] then [] else WithCommas(xs[..|xs| - 1]) + (Spell(xs[|xs| - 1]) + [Symbol(',')])
  }

  predicate Arguments(xs: seq<Tree>) {
    forall k | 0 <= k < |xs| :: xs[k].Ors? && WellFormed(xs[k])
  }

  lemma {:induction false} CommasThenRest(t: Tree, k: nat)
    requires WellFormed(t) && t.Apply? && k < |t.arguments|
    ensures WithCommas(t.arguments[..k]) + SpellArguments(t, k) == SpellArguments(t, 0)
  {
    if k == 0 {
      assert t.arguments[..0] == [];
      assert [] + SpellArguments(t, 0) == SpellArguments(t, 0);
    } else {
      CommasThenRest(t, k - 1);
      assert t.arguments[..k][..k - 1] == t.arguments[..k - 1];
      Regroup3(WithCommas(t.arguments[..k - 1]), Spell(t.arguments[k - 1]), Symbol(','), SpellArguments(t, k));
    }
  }

  lemma Regroup3(a: seq<Token>, b: seq<Token>, c: Token, d: seq<Token>)
    ensures (a + (b + [c])) + d == a + (b + ([c] + d))
  {}

  // One turn of the loop over the arguments.
  lemma ArgumentStep(ts: seq<Token>, j: nat, f: string, nodes: seq<Node>, flat: bool, x: Node, k: nat)
    requires j < k <= |ts| && Reads(ParseOr(ts, j, flat), x, k)
    ensures ArgumentTail(ts, j, f, nodes, flat) ==
      if SymbolAt(ts, k, ',') then ArgumentTail(ts, k + 1, f, nodes + [x], flat)
      else if SymbolAt(ts, k, ')') then Some((Call(f, nodes + [x]), k + 1)) else None
  {}

  function ArgumentMeanings(f: string, xs: seq<Tree>, flat: bool): seq<Node>
    requires Arguments(xs)
  {
    Meanings(Apply(f, xs), xs, flat)
  }

  lemma OneMoreArgument(f: string, before: seq<Tree>, x: Tree, flat: bool)
    requires Arguments(before) && x.Ors? && WellFormed(x)
    ensures Arguments(before + [x])
    ensures ArgumentMeanings(f, before + [x], flat) == ArgumentMeanings(f, before, flat) + [Meaning(x, flat)]
    ensures WithCommas(before + [x]) == WithCommas(before) + (Spell(x) + [Symbol(',')])
  {
    assert (before + [x])[..|before|] == before;
  }

  lemma ArgumentTurn(ts: seq<Token>, j: nat, f: string, before: seq<Tree>, x: Tree, k: nat, flat: bool)
    requires Arguments(before) && x.Ors? && WellFormed(x) && j < k <= |ts| && Reads(ParseOr(ts, j, flat), Meaning(x, flat), k)
    ensures Arguments(before + [x])
    ensures ArgumentTail(ts, j, f, ArgumentMeanings(f, before, flat), flat) ==
      if SymbolAt(ts, k, ',') then ArgumentTail(ts, k + 1, f, ArgumentMeanings(f, before + [x], flat), flat)
      else if SymbolAt(ts, k, ')') then Some((Call(f, ArgumentMeanings(f, before + [x], flat)), k + 1)) else None
  {
    OneMoreArgument(f, before, x, flat);
    ArgumentStep(ts, j, f, ArgumentMeanings(f, before, flat), flat, Meaning(x, flat), k);
  }

  lemma CommaBehind(ts: seq<Token>, i: nat, j: nat, before: seq<Tree>, x: Tree, k: nat)
    requires Arguments(before) && x.Ors? && WellFormed(x) && At(ts, i, WithCommas(before)) && j == i + |WithCommas(before)|
    requires At(ts, j, Spell(x)) && k == j + |Spell(x)| && SymbolAt(ts, k, ',')
    ensures Arguments(before + [x]) && At(ts, i, WithCommas(before + [x])) && k + 1 == i + |WithCommas(before + [x])|
  {
    OneMoreArgument("", before, x, true);
    AtToken(ts, k, Symbol(','));
    AtAppend(ts, j, Spell(x), [Symbol(',')]);
    AtAppend(ts, i, WithCommas(before), Spell(x) + [Symbol(',')]);
  }

  lemma ClosedBehind(ts: seq<Token>, i: nat, j: nat, f: string, before: seq<Tree>, x: Tree, k: nat)
    requires Arguments(before) && x.Ors? && WellFormed(x) && At(ts, i, WithCommas(before)) && j == i + |WithCommas(before)|
    requires At(ts, j, Spell(x)) && k == j + |Spell(x)| && SymbolAt(ts, k, ')')
    ensures var t := Apply(f, before + [x]);
      WellFormed(t) && At(ts, i, SpellArguments(t, 0)) && k + 1 == i + |SpellArguments(t, 0)|
  {
    var t := Apply(f, before + [x]);
    assert t.arguments[..|before|] == before;
    AtToken(ts, k, Symbol(')'));
    AtAppend(ts, j, Spell(x), [Symbol(')')]);
    CommasThenRest(t, |before|);
    AtAppend(ts, i, WithCommas(before), SpellArguments(t, |before|));
  }

  lemma {:induction false} ArgumentsAreSpelled(ts: seq<Token>, i: nat, j: nat, f: string, before: seq<Tree>, flat: bool)
    returns (xs: seq<Tree>)
    requires Arguments(before) && i <= j <= |ts| && At(ts, i, WithCommas(before)) && j == i + |WithCommas(before)|
    requires ArgumentTail(ts, j, f, ArgumentMeanings(f, before, flat), flat).Some?
    ensures Arguments(xs) && xs != [] && At(ts, i, SpellArguments(Apply(f, xs), 0))
    ensures ArgumentTail(ts, j, f, ArgumentMeanings(f, before, flat), flat)
      == Some((Call(f, ArgumentMeanings(f, xs, flat)), i + |SpellArguments(Apply(f, xs), 0)|))
    decreases |ts| - j, 5
  {
    var x := OrIsSpelled(ts, j, flat);
    var k := j + |Spell(x)|;
    if SymbolAt(ts, k, ',') {
      var more := CommaTurn(ts, i, j, f, before, x, k, flat);
      xs := ArgumentsAreSpelled(ts, i, k + 1, f, more, flat);
    } else {
      xs := ClosingTurn(ts, i, j, f, before, x, k, flat);
    }
  }

  lemma CommaTurn(ts: seq<Token>, i: nat, j: nat, f: string, before: seq<Tree>, x: Tree, k: nat, flat: bool) returns (more: seq<Tree>)
    requires Arguments(before) && x.Ors? && WellFormed(x) && At(ts, i, WithCommas(before)) && j == i + |WithCommas(before)|
    requires At(ts, j, Spell(x)) && j < k == j + |Spell(x)| && SymbolAt(ts, k, ',')
    requires Reads(ParseOr(ts, j, flat), Meaning(x, flat), k)
    ensures Arguments(more) && At(ts, i, WithCommas(more)) && k + 1 == i + |WithCommas(more)| <= |ts|
    ensures ArgumentTail(ts, j, f, ArgumentMeanings(f, before, flat), flat) == ArgumentTail(ts, k + 1, f, ArgumentMeanings(f, more, flat), flat)
  {
    more := before + [x];
    ArgumentTurn(ts, j, f, before, x, k, flat);
    CommaBehind(ts, i, j, before, x, k);
  }

  lemma ClosingTurn(ts: seq<Token>, i: nat, j: nat, f: string, before: seq<Tree>, x: Tree, k: nat, flat: bool) returns (xs: seq<Tree>)
    requires Arguments(before) && x.Ors? && WellFormed(x) && At(ts, i, WithCommas(before)) && j == i + |WithCommas(before)|
    requires At(ts, j, Spell(x)) && j < k == j + |Spell(x)| <= |ts| && !SymbolAt(ts, k, ',')
    requires Reads(ParseOr(ts, j, flat), Meaning(x, flat), k)
    requires ArgumentTail(ts, j, f, ArgumentMeanings(f, before, flat), flat).Some?
    ensures Arguments(xs) && xs != [] && At(ts, i, SpellArguments(Apply(f, xs), 0))
    ensures ArgumentTail(ts, j, f, ArgumentMeanings(f, before, flat), flat)
      == Some((Call(f, ArgumentMeanings(f, xs, flat)), i + |SpellArguments(Apply(f, xs), 0)|))
  {
    xs := before + [x];
    ArgumentTurn(ts, j, f, before, x, k, flat);
    ClosedBehind(ts, i, j, f, before, x, k);
  }

  // ---------------------------------------------------------------------------
  // Whole clauses

  // Tokens parse to a tree exactly if they are its spelling, every one of them.
  ghost predicate Spells(ts: seq<Token>, t: Tree, flat: bool, node: Node) {
    t.Ors? && WellFormed(t) && Spell(t) == ts && Meaning(t, flat) == node
  }

  lemma ParsesIff(ts: seq<Token>, flat: bool, node: Node)
    ensures Parse(ts, flat) == Some(node) <==> exists t :: Spells(ts, t, flat, node)
  {
    if Parse(ts, flat) == Some(node) {
      var t := OrIsSpelled(ts, 0, flat);
      assert ts[0..|ts|] == ts;
      assert Spells(ts, t, flat, node);
    }
    if t :| Spells(ts, t, flat, node) {
      assert ts[0..|ts|] == ts;
      SpelledIsRead(ts, 0, t, flat);
    }
  }

  // And by one tree only up to meaning.
  lemma OneMeaning(s: Tree, t: Tree, flat: bool)
    requires s.Ors? && t.Ors? && WellFormed(s) && WellFormed(t) && Spell(s) == Spell(t)
    ensures Meaning(s, flat) == Meaning(t, flat)
  {
    assert Spells(Spell(s), s, flat, Meaning(s, flat)) && Spells(Spell(s), t, flat, Meaning(t, flat));
    ParsesIff(Spell(s), flat, Meaning(s, flat));
    ParsesIff(Spell(s), flat, Meaning(t, flat));
  }
}
