/** The grammar of CHECK clauses: tokens, trees, the recursive-descent parser as
    functions of the token position, and the class whose methods advance an index.
    With flat false the parser keeps the grouping of the clause as written; the
    code merges nested ANDs and ORs, which is flat true. */
module CheckClause {
  import opened Options

  datatype Token = Word(text: string) | Number(text: string) | Quoted(text: string) | Symbol(symbol: char)

  datatype Literal = Identifier | NumberLiteral | StringLiteral
  datatype Connective = Conjunction | Disjunction
  datatype Known = IsNull | IsTrue | IsFalse
  datatype Node =
    | Value(literal: Literal, text: string)
    | Call(name: string, arguments: seq<Node>)
    | Logical(connective: Connective, operands: seq<Node>)
    | Equals(left: Node, right: Node)
    | Is(subject: Node, known: Known, negated: bool)

  type Parsed = Option<(Node, nat)>

  // ---------------------------------------------------------------------------
  // Canonical trees

  // Every connective joins at least two operands, none of them of its own kind.
  predicate Canonical(t: Node) {
    match t
    case Value(_, _) => true
    case Call(_, xs) => forall k | 0 <= k < |xs| :: Canonical(xs[k])
    case Logical(c, xs) =>
      |xs| >= 2 && forall k | 0 <= k < |xs| :: Canonical(xs[k]) && !IsLogical(xs[k], c)
    case Equals(l, r) => Canonical(l) && Canonical(r)
    case Is(x, _, _) => Canonical(x)
  }

  // Every connective joins at least two operands.
  predicate Grouped(t: Node) {
    match t
    case Value(_, _) => true
    case Call(_, xs) => forall k | 0 <= k < |xs| :: Grouped(xs[k])
    case Logical(_, xs) => |xs| >= 2 && forall k | 0 <= k < |xs| :: Grouped(xs[k])
    case Equals(l, r) => Grouped(l) && Grouped(r)
    case Is(x, _, _) => Grouped(x)
  }

  predicate IsLogical(t: Node, c: Connective) {
    t.Logical? && t.connective == c
  }

  predicate Wanted(t: Node, flat: bool) {
    if flat then Canonical(t) else Grouped(t)
  }

  // combineLogical's flatMap.
  function Spread(c: Connective, operands: seq<Node>): (all: seq<Node>) {
    if operands == [] then []
    else (if IsLogical(operands[0], c) then operands[0].operands else [operands[0]]) + Spread(c, operands[1..])
  }

  function Combine(c: Connective, operands: seq<Node>, flat: bool): Node
    requires |operands| >= 1
  {
    var all := if flat then Spread(c, operands) else operands;
    if |all| == 1 then all[0] else Logical(c, all)
  }

  lemma {:induction false} SpreadIsCanonical(c: Connective, operands: seq<Node>)
    requires forall k | 0 <= k < |operands| :: Canonical(operands[k])
    ensures |Spread(c, operands)| >= |operands|
    ensures forall k | 0 <= k < |Spread(c, operands)| ::
      Canonical(Spread(c, operands)[k]) && !IsLogical(Spread(c, operands)[k], c)
  {
    if operands != [] {
      SpreadIsCanonical(c, operands[1..]);
      var head := if IsLogical(operands[0], c) then operands[0].operands else [operands[0]];
      assert Canonical(operands[0]);
      assert Spread(c, operands) == head + Spread(c, operands[1..]);
    }
  }

  lemma {:induction false} SpreadIsIdentity(c: Connective, operands: seq<Node>)
    requires forall k | 0 <= k < |operands| :: !IsLogical(operands[k], c)
    ensures Spread(c, operands) == operands
  {
    if operands != [] {
      SpreadIsIdentity(c, operands[1..]);
      assert operands == [operands[0]] + operands[1..];
    }
  }

  lemma CombineIsWanted(c: Connective, operands: seq<Node>, flat: bool)
    requires |operands| >= 1 && forall k | 0 <= k < |operands| :: Wanted(operands[k], flat)
    ensures Wanted(Combine(c, operands, flat), flat)
  {
    if flat { SpreadIsCanonical(c, operands); }
  }

  // ---------------------------------------------------------------------------
  // The parser

  predicate WordAt(ts: seq<Token>, i: nat, w: string) {
    i < |ts| && ts[i] == Word(w)
  }

  predicate SymbolAt(ts: seq<Token>, i: nat, c: char) {
    i < |ts| && ts[i] == Symbol(c)
  }

  function KnownOf(w: string): Option<Known> {
    if w == "null" then Some(IsNull) else if w == "true" then Some(IsTrue)
    else if w == "false" then Some(IsFalse) else None
  }

  function LiteralOf(t: Token): Literal
    requires !t.Symbol?
  {
    match t
    case Word(_) => Identifier
    case Number(_) => NumberLiteral
    case Quoted(_) => StringLiteral
  }

  predicate Advances(r: Parsed, ts: seq<Token>, i: nat) {
    r.Some? ==> i < r.value.1 <= |ts|
  }

  function ParseOr(ts: seq<Token>, i: nat, flat: bool): (r: Parsed)
    ensures Advances(r, ts, i)
    decreases |ts| - i, 4
  {
    match ParseAnd(ts, i, flat)
    case None => None
    case Some((first, j)) => OrTail(ts, j, [first], flat)
  }

  function OrTail(ts: seq<Token>, i: nat, operands: seq<Node>, flat: bool): (r: Parsed)
    requires |operands| >= 1 && 0 < i <= |ts|
    ensures Advances(r, ts, i - 1)
    decreases |ts| - i, 5
  {
    if !WordAt(ts, i, "or") then Some((Combine(Disjunction, operands, flat), i))
    else
      match ParseAnd(ts, i + 1, flat)
      case None => None
      case Some((operand, j)) => OrTail(ts, j, operands + [operand], flat)
  }

  function ParseAnd(ts: seq<Token>, i: nat, flat: bool): (r: Parsed)
    ensures Advances(r, ts, i)
    decreases |ts| - i, 3
  {
    match ParsePredicate(ts, i, flat)
    case None => None
    case Some((first, j)) => AndTail(ts, j, [first], flat)
  }

  function AndTail(ts: seq<Token>, i: nat, operands: seq<Node>, flat: bool): (r: Parsed)
    requires |operands| >= 1 && 0 < i <= |ts|
    ensures Advances(r, ts, i - 1)
    decreases |ts| - i, 4
  {
    if !WordAt(ts, i, "and") then Some((Combine(Conjunction, operands, flat), i))
    else
      match ParsePredicate(ts, i + 1, flat)
      case None => None
      case Some((operand, j)) => AndTail(ts, j, operands + [operand], flat)
  }

  function ParsePredicate(ts: seq<Token>, i: nat, flat: bool): (r: Parsed)
    ensures Advances(r, ts, i)
    decreases |ts| - i, 2
  {
    match ParsePrimary(ts, i, flat)
    case None => None
    case Some((left, j)) =>
      if !SymbolAt(ts, j, '=') then IsTail(ts, left, j)
      else
        match ParsePrimary(ts, j + 1, flat)
        case None => None
        case Some((right, k)) => IsTail(ts, Equals(left, right), k)
  }

  function IsTail(ts: seq<Token>, left: Node, i: nat): (r: Parsed)
    requires 0 < i <= |ts|
    ensures Advances(r, ts, i - 1)
  {
    if !WordAt(ts, i, "is") then Some((left, i))
    else
      var negated := WordAt(ts, i + 1, "not");
      var j := if negated then i + 2 else i + 1;
      if j < |ts| && ts[j].Word? && KnownOf(ts[j].text).Some?
      then Some((Is(left, KnownOf(ts[j].text).value, negated), j + 1))
      else None
  }

  function ParsePrimary(ts: seq<Token>, i: nat, flat: bool): (r: Parsed)
    ensures Advances(r, ts, i)
    decreases |ts| - i, 1
  {
    if SymbolAt(ts, i, '(') then
      match ParseOr(ts, i + 1, flat)
      case None => None
      case Some((node, j)) => if SymbolAt(ts, j, ')') then Some((node, j + 1)) else None
    else if i >= |ts| || ts[i].Symbol? then None
    else if ts[i].Word? && SymbolAt(ts, i + 1, '(') then
      if SymbolAt(ts, i + 2, ')') then Some((Call(ts[i].text, []), i + 3))
      else ArgumentTail(ts, i + 2, ts[i].text, [], flat)
    else Some((Value(LiteralOf(ts[i]), ts[i].text), i + 1))
  }

  // The rest of an argument list, up to and including its closing parenthesis.
  function ArgumentTail(ts: seq<Token>, i: nat, name: string, arguments: seq<Node>, flat: bool): (r: Parsed)
    requires i <= |ts|
    ensures Advances(r, ts, i)
    decreases |ts| - i, 5
  {
    match ParseOr(ts, i, flat)
    case None => None
    case Some((argument, j)) =>
      if SymbolAt(ts, j, ',') then ArgumentTail(ts, j + 1, name, arguments + [argument], flat)
      else if SymbolAt(ts, j, ')') then Some((Call(name, arguments + [argument]), j + 1))
      else None
  }

  function Parse(ts: seq<Token>, flat: bool): Option<Node> {
    match ParseOr(ts, 0, flat)
    case None => None
    case Some((node, j)) => if j == |ts| then Some(node) else None
  }

  // ---------------------------------------------------------------------------
  // Every tree the parser returns is canonical

  predicate AllWanted(xs: seq<Node>, flat: bool) {
    forall k | 0 <= k < |xs| :: Wanted(xs[k], flat)
  }

  predicate WantedIfParsed(r: Parsed, flat: bool) {
    r.Some? ==> Wanted(r.value.0, flat)
  }

  lemma {:induction false} OrIsWanted(ts: seq<Token>, i: nat, flat: bool)
    ensures WantedIfParsed(ParseOr(ts, i, flat), flat)
    decreases |ts| - i, 4
  {
    AndIsWanted(ts, i, flat);
    match ParseAnd(ts, i, flat)
    case None =>
    case Some((first, j)) => OrTailIsWanted(ts, j, [first], flat);
  }

  lemma {:induction false} OrTailIsWanted(ts: seq<Token>, i: nat, operands: seq<Node>, flat: bool)
    requires |operands| >= 1 && 0 < i <= |ts| && AllWanted(operands, flat)
    ensures WantedIfParsed(OrTail(ts, i, operands, flat), flat)
    decreases |ts| - i, 5
  {
    CombineIsWanted(Disjunction, operands, flat);
    if WordAt(ts, i, "or") {
      AndIsWanted(ts, i + 1, flat);
      match ParseAnd(ts, i + 1, flat)
      case None =>
      case Some((operand, j)) => OrTailIsWanted(ts, j, operands + [operand], flat);
    }
  }

  lemma {:induction false} AndIsWanted(ts: seq<Token>, i: nat, flat: bool)
    ensures WantedIfParsed(ParseAnd(ts, i, flat), flat)
    decreases |ts| - i, 3
  {
    PredicateIsWanted(ts, i, flat);
    match ParsePredicate(ts, i, flat)
    case None =>
    case Some((first, j)) => AndTailIsWanted(ts, j, [first], flat);
  }

  lemma {:induction false} AndTailIsWanted(ts: seq<Token>, i: nat, operands: seq<Node>, flat: bool)
    requires |operands| >= 1 && 0 < i <= |ts| && AllWanted(operands, flat)
    ensures WantedIfParsed(AndTail(ts, i, operands, flat), flat)
    decreases |ts| - i, 4
  {
    CombineIsWanted(Conjunction, operands, flat);
    if WordAt(ts, i, "and") {
      PredicateIsWanted(ts, i + 1, flat);
      match ParsePredicate(ts, i + 1, flat)
      case None =>
      case Some((operand, j)) => AndTailIsWanted(ts, j, operands + [operand], flat);
    }
  }

  lemma {:induction false} PredicateIsWanted(ts: seq<Token>, i: nat, flat: bool)
    ensures WantedIfParsed(ParsePredicate(ts, i, flat), flat)
    decreases |ts| - i, 2
  {
    PrimaryIsWanted(ts, i, flat);
    match ParsePrimary(ts, i, flat)
    case None =>
    case Some((left, j)) => if SymbolAt(ts, j, '=') { PrimaryIsWanted(ts, j + 1, flat); }
  }

  lemma {:induction false} PrimaryIsWanted(ts: seq<Token>, i: nat, flat: bool)
    ensures WantedIfParsed(ParsePrimary(ts, i, flat), flat)
    decreases |ts| - i, 1
  {
    if SymbolAt(ts, i, '(') {
      OrIsWanted(ts, i + 1, flat);
    } else if i < |ts| && ts[i].Word? && SymbolAt(ts, i + 1, '(') && !SymbolAt(ts, i + 2, ')') {
      ArgumentsAreWanted(ts, i + 2, ts[i].text, [], flat);
    }
  }

  lemma {:induction false} ArgumentsAreWanted(ts: seq<Token>, i: nat, name: string, arguments: seq<Node>, flat: bool)
    requires i <= |ts| && AllWanted(arguments, flat)
    ensures WantedIfParsed(ArgumentTail(ts, i, name, arguments, flat), flat)
    decreases |ts| - i, 5
  {
    OrIsWanted(ts, i, flat);
    match ParseOr(ts, i, flat)
    case None =>
    case Some((argument, j)) =>
      if SymbolAt(ts, j, ',') { ArgumentsAreWanted(ts, j + 1, name, arguments + [argument], flat); }
  }

  lemma ParsedIsCanonical(ts: seq<Token>)
    ensures Parse(ts, true).Some? ==> Canonical(Parse(ts, true).value)
    ensures Parse(ts, false).Some? ==> Grouped(Parse(ts, false).value)
  {
    OrIsWanted(ts, 0, true);
    OrIsWanted(ts, 0, false);
  }

  // ---------------------------------------------------------------------------
  // Printing and the round trip

  function WordOf(c: Connective): string {
    match c
    case Conjunction => "and"
    case Disjunction => "or"
  }

  function TextOf(k: Known): string {
    match k
    case IsNull => "null"
    case IsTrue => "true"
    case IsFalse => "false"
  }

  function TokenOf(l: Literal, text: string): Token {
    match l
    case Identifier => Word(text)
    case NumberLiteral => Number(text)
    case StringLiteral => Quoted(text)
  }

  // A whole expression: operands of a connective are themselves parenthesised
  // when they are connectives, and so are composite operands of = and IS.
  function Print(t: Node): seq<Token>
    requires Canonical(t)
    decreases t, 4
  {
    match t
    case Value(l, x) => [TokenOf(l, x)]
    case Call(f, xs) =>
      if xs == [] then [Word(f), Symbol('('), Symbol(')')] else [Word(f), Symbol('(')] + PrintArguments(t, 0)
    case Logical(_, _) => PrintOperands(t, 0)
    case Equals(l, r) => PrintPrimary(l) + ([Symbol('=')] + PrintPrimary(r))
    case Is(x, k, negated) => PrintPrimary(x) + PrintIs(k, negated)
  }

  function PrintIs(k: Known, negated: bool): seq<Token> {
    if negated then [Word("is"), Word("not"), Word(TextOf(k))] else [Word("is"), Word(TextOf(k))]
  }

  function PrintPrimary(t: Node): seq<Token>
    requires Canonical(t)
    decreases t, 5
  {
    if t.Value? || t.Call? then Print(t) else [Symbol('(')] + (Print(t) + [Symbol(')')])
  }

  function PrintOperand(t: Node): seq<Token>
    requires Canonical(t)
    decreases t, 6
  {
    if t.Logical? then PrintPrimary(t) else Print(t)
  }

  function PrintOperands(t: Node, k: nat): seq<Token>
    requires Canonical(t) && t.Logical? && k < |t.operands|
    decreases t, 3, |t.operands| - k
  {
    PrintOperand(t.operands[k])
    + if k + 1 == |t.operands| then [] else [Word(WordOf(t.connective))] + PrintOperands(t, k + 1)
  }

  function PrintArguments(t: Node, k: nat): seq<Token>
    requires Canonical(t) && t.Call? && k < |t.arguments|
    decreases t, 3, |t.arguments| - k
  {
    Print(t.arguments[k])
    + if k + 1 == |t.arguments| then [Symbol(')')] else [Symbol(',')] + PrintArguments(t, k + 1)
  }

  predicate At(ts: seq<Token>, i: nat, part: seq<Token>) {
    i + |part| <= |ts| && ts[i..i + |part|] == part
  }

  // What may follow a primary, an operand and a whole expression.
  predicate EndsPrimary(ts: seq<Token>, i: nat) {
    !SymbolAt(ts, i, '(')
  }

  predicate EndsOperand(ts: seq<Token>, i: nat) {
    EndsPrimary(ts, i) && !SymbolAt(ts, i, '=') && !WordAt(ts, i, "is")
  }

  predicate EndsExpression(ts: seq<Token>, i: nat) {
    EndsOperand(ts, i) && !WordAt(ts, i, "and") && !WordAt(ts, i, "or")
  }

  lemma AtSplit(ts: seq<Token>, i: nat, first: seq<Token>, second: seq<Token>)
    requires At(ts, i, first + second)
    ensures At(ts, i, first) && At(ts, i + |first|, second)
  {
    var all := first + second;
    assert all[..|first|] == first && all[|first|..] == second;
    assert ts[i..i + |first|] == ts[i..i + |all|][..|first|];
    assert ts[i + |first|..i + |all|] == ts[i..i + |all|][|first|..];
  }

  lemma AtOne(ts: seq<Token>, i: nat, t: Token)
    requires At(ts, i, [t])
    ensures i < |ts| && ts[i] == t
  {
    assert ts[i..i + 1][0] == t;
  }

  lemma KnownReadsBack(k: Known)
    ensures KnownOf(TextOf(k)) == Some(k) && TextOf(k) != "not"
  {
    assert "null"[0] != "true"[0];
  }

  lemma NoExpressionAt(ts: seq<Token>, i: nat)
    requires SymbolAt(ts, i, ')')
    ensures ParseOr(ts, i, true).None?
  {
    assert ParsePrimary(ts, i, true).None?;
    assert ParsePredicate(ts, i, true).None?;
    assert ParseAnd(ts, i, true).None?;
  }

  predicate Reads(r: Parsed, t: Node, i: nat) {
    r == Some((t, i))
  }

  lemma {:induction false} PrimaryReadsBack(ts: seq<Token>, i: nat, t: Node)
    requires Canonical(t) && At(ts, i, PrintPrimary(t)) && EndsPrimary(ts, i + |PrintPrimary(t)|)
    ensures Reads(ParsePrimary(ts, i, true), t, i + |PrintPrimary(t)|)
    decreases t, 6
  {
    if t.Value? || t.Call? {
      AtomReadsBack(ts, i, t);
    } else {
      AtParentheses(ts, i, Print(t));
      ExpressionReadsBack(ts, i + 1, t);
      ParenthesesRead(ts, i, t, i + 1 + |Print(t)|);
    }
  }

  lemma AtParentheses(ts: seq<Token>, i: nat, inner: seq<Token>)
    requires At(ts, i, [Symbol('(')] + (inner + [Symbol(')')]))
    ensures SymbolAt(ts, i, '(') && At(ts, i + 1, inner) && SymbolAt(ts, i + 1 + |inner|, ')')
  {
    AtSplit(ts, i, [Symbol('(')], inner + [Symbol(')')]);
    AtSplit(ts, i + 1, inner, [Symbol(')')]);
    AtOne(ts, i, Symbol('('));
    AtOne(ts, i + 1 + |inner|, Symbol(')'));
  }

  lemma ParenthesesRead(ts: seq<Token>, i: nat, t: Node, j: nat)
    requires SymbolAt(ts, i, '(') && Reads(ParseOr(ts, i + 1, true), t, j) && SymbolAt(ts, j, ')')
    ensures Reads(ParsePrimary(ts, i, true), t, j + 1)
  {}

  lemma {:induction false} AtomReadsBack(ts: seq<Token>, i: nat, t: Node)
    requires Canonical(t) && (t.Value? || t.Call?) && At(ts, i, Print(t)) && EndsPrimary(ts, i + |Print(t)|)
    ensures Reads(ParsePrimary(ts, i, true), t, i + |Print(t)|)
    decreases t, 2
  {
    if t.Value? {
      AtOne(ts, i, TokenOf(t.literal, t.text));
    } else if t.arguments == [] {
      assert ts[i..i + 3] == [Word(t.name), Symbol('('), Symbol(')')];
      assert ts[i] == ts[i..i + 3][0] && ts[i + 1] == ts[i..i + 3][1] && ts[i + 2] == ts[i..i + 3][2];
    } else {
      AtSplit(ts, i, [Word(t.name), Symbol('(')], PrintArguments(t, 0));
      assert ts[i] == ts[i..i + 2][0] && ts[i + 1] == ts[i..i + 2][1];
      ArgumentsReadBack(ts, i + 2, t, 0, i + |Print(t)|);
      if SymbolAt(ts, i + 2, ')') { NoExpressionAt(ts, i + 2); }
      assert t.arguments[..0] == [];
    }
  }

  lemma AtThree(ts: seq<Token>, i: nat, first: seq<Token>, w: Token, rest: seq<Token>)
    requires At(ts, i, first + ([w] + rest))
    ensures At(ts, i, first) && i + |first| < |ts| && ts[i + |first|] == w && At(ts, i + |first| + 1, rest)
  {
    AtSplit(ts, i, first, [w] + rest);
    AtSplit(ts, i + |first|, [w], rest);
    AtOne(ts, i + |first|, w);
  }

  lemma AtArguments(ts: seq<Token>, i: nat, t: Node, k: nat)
    requires Canonical(t) && t.Call? && k < |t.arguments| && At(ts, i, PrintArguments(t, k))
    ensures At(ts, i, Print(t.arguments[k]))
    ensures SymbolAt(ts, i + |Print(t.arguments[k])|, if k + 1 == |t.arguments| then ')' else ',')
    ensures k + 1 < |t.arguments| ==> At(ts, i + |Print(t.arguments[k])| + 1, PrintArguments(t, k + 1))
    ensures |PrintArguments(t, k)| == |Print(t.arguments[k])| + 1 + if k + 1 == |t.arguments| then 0 else |PrintArguments(t, k + 1)|
  {
    if k + 1 == |t.arguments| {
      assert [Symbol(')')] + [] == [Symbol(')')];
      AtThree(ts, i, Print(t.arguments[k]), Symbol(')'), []);
    } else {
      AtThree(ts, i, Print(t.arguments[k]), Symbol(','), PrintArguments(t, k + 1));
    }
  }

  lemma {:induction false} ArgumentsReadBack(ts: seq<Token>, i: nat, t: Node, k: nat, end: nat)
    requires Canonical(t) && t.Call? && k < |t.arguments|
    requires At(ts, i, PrintArguments(t, k)) && end == i + |PrintArguments(t, k)|
    ensures Reads(ArgumentTail(ts, i, t.name, t.arguments[..k], true), t, end)
    decreases t, 1, |t.arguments| - k
  {
    var j := i + |Print(t.arguments[k])|;
    AtArguments(ts, i, t, k);
    ExpressionReadsBack(ts, i, t.arguments[k]);
    ArgumentRead(ts, i, t, k, j);
    if k + 1 < |t.arguments| { ArgumentsReadBack(ts, j + 1, t, k + 1, end); }
  }

  // One argument read, up to the comma or parenthesis after it.
  lemma ArgumentRead(ts: seq<Token>, i: nat, t: Node, k: nat, j: nat)
    requires t.Call? && k < |t.arguments| && i <= |ts| && Reads(ParseOr(ts, i, true), t.arguments[k], j)
    requires SymbolAt(ts, j, if k + 1 == |t.arguments| then ')' else ',')
    ensures ArgumentTail(ts, i, t.name, t.arguments[..k], true) ==
      if k + 1 == |t.arguments| then Some((t, j + 1)) else ArgumentTail(ts, j + 1, t.name, t.arguments[..k + 1], true)
  {
    assert t.arguments[..k] + [t.arguments[k]] == t.arguments[..k + 1];
    if k + 1 == |t.arguments| { assert t.arguments[..k + 1] == t.arguments; }
  }

  lemma {:induction false} PredicateReadsBack(ts: seq<Token>, i: nat, t: Node)
    requires Canonical(t) && !t.Logical? && At(ts, i, Print(t)) && EndsOperand(ts, i + |Print(t)|)
    ensures Reads(ParsePredicate(ts, i, true), t, i + |Print(t)|)
    decreases t, 3
  {
    match t {
      case Value(_, _) => AtomReadsBack(ts, i, t);
      case Call(_, _) => AtomReadsBack(ts, i, t);
      case Equals(_, _) => EqualsReadsBack(ts, i, t);
      case Is(_, _, _) => IsReadsBack(ts, i, t);
    }
  }

  lemma {:induction false} EqualsReadsBack(ts: seq<Token>, i: nat, t: Node)
    requires Canonical(t) && t.Equals? && At(ts, i, Print(t)) && EndsOperand(ts, i + |Print(t)|)
    ensures Reads(ParsePredicate(ts, i, true), t, i + |Print(t)|)
    decreases t, 2
  {
    var j, end := AtEquals(ts, i, t);
    PrimaryReadsBack(ts, i, t.left);
    PrimaryReadsBack(ts, j + 1, t.right);
    EqualsRead(ts, i, t, j, end);
  }

  lemma AtEquals(ts: seq<Token>, i: nat, t: Node) returns (j: nat, end: nat)
    requires Canonical(t) && t.Equals? && At(ts, i, Print(t))
    ensures j == i + |PrintPrimary(t.left)| && end == j + 1 + |PrintPrimary(t.right)| == i + |Print(t)|
    ensures At(ts, i, PrintPrimary(t.left)) && At(ts, j + 1, PrintPrimary(t.right)) && SymbolAt(ts, j, '=')
  {
    j, end := i + |PrintPrimary(t.left)|, i + |Print(t)|;
    AtThree(ts, i, PrintPrimary(t.left), Symbol('='), PrintPrimary(t.right));
  }

  lemma EqualsRead(ts: seq<Token>, i: nat, t: Node, j: nat, end: nat)
    requires t.Equals? && Reads(ParsePrimary(ts, i, true), t.left, j) && SymbolAt(ts, j, '=')
    requires Reads(ParsePrimary(ts, j + 1, true), t.right, end) && EndsOperand(ts, end)
    ensures Reads(ParsePredicate(ts, i, true), t, end)
  {}

  lemma {:induction false} IsReadsBack(ts: seq<Token>, i: nat, t: Node)
    requires Canonical(t) && t.Is? && At(ts, i, Print(t)) && EndsOperand(ts, i + |Print(t)|)
    ensures Reads(ParsePredicate(ts, i, true), t, i + |Print(t)|)
    decreases t, 2
  {
    var j := i + |PrintPrimary(t.subject)|;
    AtSplit(ts, i, PrintPrimary(t.subject), PrintIs(t.known, t.negated));
    PrimaryReadsBack(ts, i, t.subject);
    IsTailReadsBack(ts, j, t.subject, t.known, t.negated);
  }

  lemma IsTailReadsBack(ts: seq<Token>, j: nat, x: Node, k: Known, negated: bool)
    requires At(ts, j, PrintIs(k, negated)) && j > 0
    ensures WordAt(ts, j, "is") && Reads(IsTail(ts, x, j), Is(x, k, negated), j + |PrintIs(k, negated)|)
  {
    var rest := PrintIs(k, negated);
    assert ts[j] == ts[j..j + |rest|][0] && ts[j + 1] == ts[j..j + |rest|][1];
    assert negated ==> ts[j + 2] == ts[j..j + |rest|][2];
    KnownReadsBack(k);
  }

  lemma {:induction false} OperandReadsBack(ts: seq<Token>, i: nat, t: Node)
    requires Canonical(t) && At(ts, i, PrintOperand(t)) && EndsOperand(ts, i + |PrintOperand(t)|)
    ensures Reads(ParsePredicate(ts, i, true), t, i + |PrintOperand(t)|)
    decreases t, 7
  {
    if t.Logical? { PrimaryReadsBack(ts, i, t); } else { PredicateReadsBack(ts, i, t); }
  }

  // One operand of an AND, and one of an OR, which parses as an AND of one.
  lemma CombineOne(c: Connective, t: Node)
    requires Canonical(t)
    ensures Combine(c, [t], true) == t
  {
    assert Spread(c, [t][1..]) == [];
    assert Spread(c, [t]) == if IsLogical(t, c) then t.operands else [t];
  }

  lemma {:induction false} JoinedReadsBack(ts: seq<Token>, i: nat, c: Connective, x: Node)
    requires Canonical(x) && At(ts, i, PrintOperand(x))
    requires EndsOperand(ts, i + |PrintOperand(x)|)
    requires c.Disjunction? ==> !WordAt(ts, i + |PrintOperand(x)|, "and")
    ensures Reads(ParseJoined(ts, i, c), x, i + |PrintOperand(x)|)
    decreases x, 8
  {
    OperandReadsBack(ts, i, x);
    CombineOne(Conjunction, x);
    assert ParsePredicate(ts, i, true) == Some((x, i + |PrintOperand(x)|));
    assert c.Disjunction? ==> ParseAnd(ts, i, true) == Some((x, i + |PrintOperand(x)|));
  }

  // What the loop over the operands of a connective reads.
  function ParseJoined(ts: seq<Token>, i: nat, c: Connective): Parsed {
    match c
    case Conjunction => ParsePredicate(ts, i, true)
    case Disjunction => ParseAnd(ts, i, true)
  }

  function Tail(ts: seq<Token>, i: nat, c: Connective, operands: seq<Node>): Parsed
    requires |operands| >= 1 && 0 < i <= |ts|
  {
    match c
    case Conjunction => AndTail(ts, i, operands, true)
    case Disjunction => OrTail(ts, i, operands, true)
  }

  lemma TailStep(ts: seq<Token>, i: nat, c: Connective, operands: seq<Node>, x: Node, j: nat)
    requires |operands| >= 1 && 0 < i < j <= |ts|
    requires WordAt(ts, i, WordOf(c)) && Reads(ParseJoined(ts, i + 1, c), x, j)
    ensures Tail(ts, i, c, operands) == Tail(ts, j, c, operands + [x])
  {}

  lemma TailEnd(ts: seq<Token>, i: nat, t: Node)
    requires Canonical(t) && t.Logical? && 0 < i <= |ts| && !WordAt(ts, i, WordOf(t.connective))
    ensures Reads(Tail(ts, i, t.connective, t.operands), t, i)
  {
    SpreadIsIdentity(t.connective, t.operands);
  }

  lemma AtOperands(ts: seq<Token>, i: nat, t: Node, k: nat, j: nat)
    requires Canonical(t) && t.Logical? && k + 1 < |t.operands| && At(ts, i, PrintOperands(t, k))
    requires j == i + |PrintOperand(t.operands[k])|
    ensures At(ts, i, PrintOperand(t.operands[k])) && WordAt(ts, j, WordOf(t.connective)) && EndsOperand(ts, j)
    ensures t.connective.Disjunction? ==> !WordAt(ts, j, "and")
    ensures At(ts, j + 1, PrintOperands(t, k + 1)) && i + |PrintOperands(t, k)| == j + 1 + |PrintOperands(t, k + 1)|
  {
    AtThree(ts, i, PrintOperand(t.operands[k]), Word(WordOf(t.connective)), PrintOperands(t, k + 1));
  }

  // Operand k is read up to j, and the loop then reads the others up to end.
  predicate OperandsRead(ts: seq<Token>, i: nat, t: Node, k: nat, j: nat, end: nat)
    requires t.Logical? && k < |t.operands|
  {
    && Reads(ParseJoined(ts, i, t.connective), t.operands[k], j) && 0 < j <= |ts|
    && Reads(Tail(ts, j, t.connective, t.operands[..k + 1]), t, end)
  }

  lemma OperandsStep(ts: seq<Token>, i: nat, t: Node, k: nat, j: nat, next: nat, end: nat)
    requires t.Logical? && k + 1 < |t.operands| && 0 < j
    requires Reads(ParseJoined(ts, i, t.connective), t.operands[k], j)
    requires WordAt(ts, j, WordOf(t.connective)) && j < next && OperandsRead(ts, j + 1, t, k + 1, next, end)
    ensures OperandsRead(ts, i, t, k, j, end)
  {
    assert t.operands[..k + 1] + [t.operands[k + 1]] == t.operands[..k + 2];
    TailStep(ts, j, t.connective, t.operands[..k + 1], t.operands[k + 1], next);
  }

  lemma OperandsEnd(ts: seq<Token>, i: nat, t: Node, k: nat, j: nat)
    requires Canonical(t) && t.Logical? && k + 1 == |t.operands| && 0 < j <= |ts|
    requires Reads(ParseJoined(ts, i, t.connective), t.operands[k], j) && !WordAt(ts, j, WordOf(t.connective))
    ensures OperandsRead(ts, i, t, k, j, j)
  {
    assert t.operands[..k + 1] == t.operands;
    TailEnd(ts, j, t);
  }

  lemma PrintsLast(t: Node, k: nat)
    requires Canonical(t) && t.Logical? && k + 1 == |t.operands|
    ensures PrintOperands(t, k) == PrintOperand(t.operands[k])
  {}

  lemma {:induction false} LastOperandReadsBack(ts: seq<Token>, i: nat, t: Node, k: nat, j: nat)
    requires Canonical(t) && t.Logical? && k + 1 == |t.operands| && j == i + |PrintOperands(t, k)|
    requires At(ts, i, PrintOperands(t, k)) && EndsExpression(ts, j)
    ensures OperandsRead(ts, i, t, k, j, j) && j == i + |PrintOperand(t.operands[k])|
    decreases t, 0
  {
    PrintsLast(t, k);
    JoinedReadsBack(ts, i, t.connective, t.operands[k]);
    OperandsEnd(ts, i, t, k, j);
  }

  lemma {:induction false} FirstOperandReadsBack(ts: seq<Token>, i: nat, t: Node, k: nat, j: nat)
    requires Canonical(t) && t.Logical? && k + 1 < |t.operands| && At(ts, i, PrintOperands(t, k))
    requires j == i + |PrintOperand(t.operands[k])|
    ensures Reads(ParseJoined(ts, i, t.connective), t.operands[k], j) && WordAt(ts, j, WordOf(t.connective))
    ensures At(ts, j + 1, PrintOperands(t, k + 1)) && i + |PrintOperands(t, k)| == j + 1 + |PrintOperands(t, k + 1)|
    decreases t, 0
  {
    AtOperands(ts, i, t, k, j);
    JoinedReadsBack(ts, i, t.connective, t.operands[k]);
  }

  lemma {:induction false} OperandsReadBack(ts: seq<Token>, i: nat, t: Node, k: nat, j: nat, end: nat)
    requires Canonical(t) && t.Logical? && k < |t.operands|
    requires j == i + |PrintOperand(t.operands[k])| && end == i + |PrintOperands(t, k)|
    requires At(ts, i, PrintOperands(t, k)) && EndsExpression(ts, end)
    ensures OperandsRead(ts, i, t, k, j, end)
    decreases t, 1, |t.operands| - k
  {
    if k + 1 == |t.operands| {
      LastOperandReadsBack(ts, i, t, k, end);
    } else {
      FirstOperandReadsBack(ts, i, t, k, j);
      var next := j + 1 + |PrintOperand(t.operands[k + 1])|;
      OperandsReadBack(ts, j + 1, t, k + 1, next, end);
      OperandsStep(ts, i, t, k, j, next, end);
    }
  }

  lemma {:induction false} LogicalReadsBack(ts: seq<Token>, i: nat, t: Node)
    requires Canonical(t) && t.Logical? && At(ts, i, Print(t)) && EndsExpression(ts, i + |Print(t)|)
    ensures Reads(ParseOr(ts, i, true), t, i + |Print(t)|)
    decreases t, 2
  {
    OperandsReadBack(ts, i, t, 0, i + |PrintOperand(t.operands[0])|, i + |Print(t)|);
    assert t.operands[..1] == [t.operands[0]];
    CombineOne(Disjunction, t);
    if t.connective.Conjunction? {
      assert ParseAnd(ts, i, true) == Some((t, i + |Print(t)|));
    }
  }

  lemma {:induction false} ExpressionReadsBack(ts: seq<Token>, i: nat, t: Node)
    requires Canonical(t) && At(ts, i, Print(t)) && EndsExpression(ts, i + |Print(t)|)
    ensures Reads(ParseOr(ts, i, true), t, i + |Print(t)|)
    decreases t, 5
  {
    if t.Logical? {
      LogicalReadsBack(ts, i, t);
    } else {
      PredicateReadsBack(ts, i, t);
      CombineOne(Conjunction, t);
      CombineOne(Disjunction, t);
      assert ParsePredicate(ts, i, true) == Some((t, i + |Print(t)|));
      assert ParseAnd(ts, i, true) == Some((t, i + |Print(t)|));
    }
  }

  // Printing a canonical tree and parsing the tokens gives the tree back; with
  // ParsedIsCanonical, printing what was parsed is a normal form of the clause.
  lemma PrintedClauseReadsBack(t: Node)
    requires Canonical(t)
    ensures Parse(Print(t), true) == Some(t)
  {
    var ts := Print(t);
    assert ts[0..|ts|] == ts;
    ExpressionReadsBack(ts, 0, t);
  }
}
