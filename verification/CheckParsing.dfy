/** The parser object: methods that advance an index over the tokens and return a
    tree, or nothing. Each agrees with the grammar function of the same name. */
module CheckParsing {
  import opened Options
  import opened CheckClause

  // flatMap, then unwrap a single operand.
  lemma SpreadStep(c: Connective, before: seq<Node>, operands: seq<Node>, k: nat)
    requires k < |operands|
    ensures var head := if IsLogical(operands[k], c) then operands[k].operands else [operands[k]];
      before + Spread(c, operands[k..]) == (before + head) + Spread(c, operands[k + 1..])
  {
    assert operands[k..][1..] == operands[k + 1..];
  }

  method CombineLogical(c: Connective, operands: seq<Node>) returns (node: Node)
    requires |operands| >= 1
    ensures node == Combine(c, operands, true)
  {
    var flattened: seq<Node> := [];
    for k := 0 to |operands|
      invariant flattened + Spread(c, operands[k..]) == Spread(c, operands)
    {
      SpreadStep(c, flattened, operands, k);
      flattened := flattened + if IsLogical(operands[k], c) then operands[k].operands else [operands[k]];
    }
    assert operands[|operands|..] == [];
    return if |flattened| == 1 then flattened[0] else Logical(c, flattened);
  }

  class CheckParser {
    const tokens: seq<Token>
    var index: nat

    constructor (tokens: seq<Token>)
      ensures this.tokens == tokens && index == 0
    {
      this.tokens := tokens;
      index := 0;
    }

    // The tree found and the place reached are those of the grammar function.
    ghost predicate Agrees(node: Option<Node>, spec: Parsed, start: nat)
      reads this
    {
      && start <= index <= |tokens|
      && (spec.None? <==> node.None?)
      && (spec.Some? ==> spec == Some((node.value, index)))
    }

    method MatchWord(w: string) returns (matched: bool)
      requires index <= |tokens|
      modifies this
      ensures matched <==> WordAt(tokens, old(index), w)
      ensures index == (if matched then old(index) + 1 else old(index)) <= |tokens|
    {
      if index >= |tokens| || tokens[index] != Word(w) { return false; }
      index := index + 1;
      return true;
    }

    method MatchSymbol(c: char) returns (matched: bool)
      requires index <= |tokens|
      modifies this
      ensures matched <==> SymbolAt(tokens, old(index), c)
      ensures index == (if matched then old(index) + 1 else old(index)) <= |tokens|
    {
      if index >= |tokens| || tokens[index] != Symbol(c) { return false; }
      index := index + 1;
      return true;
    }

    method TakeWord() returns (word: Option<string>)
      requires index <= |tokens|
      modifies this
      ensures word.Some? <==> old(index) < |tokens| && tokens[old(index)].Word?
      ensures word.Some? ==> word.value == tokens[old(index)].text && index == old(index) + 1
      ensures word.None? ==> index == old(index)
    {
      if index >= |tokens| || !tokens[index].Word? { return None; }
      word := Some(tokens[index].text);
      index := index + 1;
    }

    method Parse() returns (node: Option<Node>)
      requires index == 0
      modifies this
      ensures node == CheckClause.Parse(tokens, true)
    {
      node := ParseOr();
      if node.Some? && index != |tokens| { return None; }
    }

    method ParseOr() returns (node: Option<Node>)
      requires index <= |tokens|
      modifies this
      ensures Agrees(node, CheckClause.ParseOr(tokens, old(index), true), old(index))
      decreases |tokens| - index, 4
    {
      ghost var spec := CheckClause.ParseOr(tokens, index, true);
      var first := ParseAnd();
      if first.None? { return None; }
      var operands := [first.value];
      var more := MatchWord("or");
      while more
        invariant |operands| >= 1 && old(index) < index <= |tokens|
        invariant more ==> WordAt(tokens, index - 1, "or") && old(index) < index - 1
        invariant spec == OrTail(tokens, if more then index - 1 else index, operands, true)
        invariant !more ==> !WordAt(tokens, index, "or")
        decreases |tokens| - index
      {
        var operand := ParseAnd();
        if operand.None? { return None; }
        operands := operands + [operand.value];
        more := MatchWord("or");
      }
      var combined := CombineLogical(Disjunction, operands);
      return Some(combined);
    }

    method ParseAnd() returns (node: Option<Node>)
      requires index <= |tokens|
      modifies this
      ensures Agrees(node, CheckClause.ParseAnd(tokens, old(index), true), old(index))
      decreases |tokens| - index, 3
    {
      ghost var spec := CheckClause.ParseAnd(tokens, index, true);
      var first := ParsePredicate();
      if first.None? { return None; }
      var operands := [first.value];
      var more := MatchWord("and");
      while more
        invariant |operands| >= 1 && old(index) < index <= |tokens|
        invariant more ==> WordAt(tokens, index - 1, "and") && old(index) < index - 1
        invariant spec == AndTail(tokens, if more then index - 1 else index, operands, true)
        invariant !more ==> !WordAt(tokens, index, "and")
        decreases |tokens| - index
      {
        var operand := ParsePredicate();
        if operand.None? { return None; }
        operands := operands + [operand.value];
        more := MatchWord("and");
      }
      var combined := CombineLogical(Conjunction, operands);
      return Some(combined);
    }

    method ParsePredicate() returns (node: Option<Node>)
      requires index <= |tokens|
      modifies this
      ensures Agrees(node, CheckClause.ParsePredicate(tokens, old(index), true), old(index))
      decreases |tokens| - index, 2
    {
      var first := ParsePrimary();
      if first.None? { return None; }
      var left := first.value;
      var equals := MatchSymbol('=');
      if equals {
        var right := ParsePrimary();
        if right.None? { return None; }
        left := Equals(left, right.value);
      }
      var tested := MatchWord("is");
      if tested {
        var negated := MatchWord("not");
        var known := TakeWord();
        if known.None? || known.value !in {"null", "true", "false"} { return None; }
        left := Is(left, KnownOf(known.value).value, negated);
      }
      return Some(left);
    }

    method ParsePrimary() returns (node: Option<Node>)
      requires index <= |tokens|
      modifies this
      ensures Agrees(node, CheckClause.ParsePrimary(tokens, old(index), true), old(index))
      decreases |tokens| - index, 1
    {
      var open := MatchSymbol('(');
      if open {
        node := ParseOr();
        if node.None? { return None; }
        var close := MatchSymbol(')');
        if !close { return None; }
        return node;
      }
      if index >= |tokens| || tokens[index].Symbol? { return None; }
      var token := tokens[index];
      index := index + 1;
      if token.Word? {
        var call := MatchSymbol('(');
        if call {
          node := ParseArguments(token.text);
          return node;
        }
      }
      return Some(Value(LiteralOf(token), token.text));
    }

    // What follows the opening parenthesis of a call.
    method ParseArguments(name: string) returns (node: Option<Node>)
      requires 2 <= index <= |tokens|
      modifies this
      ensures Agrees(node, if SymbolAt(tokens, old(index), ')') then Some((Call(name, []), old(index) + 1))
                           else ArgumentTail(tokens, old(index), name, [], true), old(index))
      decreases |tokens| - index, 6
    {
      var empty := MatchSymbol(')');
      if empty { return Some(Call(name, [])); }
      ghost var spec := ArgumentTail(tokens, index, name, [], true);
      var arguments: seq<Node> := [];
      var more := true;
      while more
        invariant old(index) <= index <= |tokens|
        invariant more ==> spec == ArgumentTail(tokens, index, name, arguments, true)
        invariant !more ==> spec == if SymbolAt(tokens, index, ')') then Some((Call(name, arguments), index + 1)) else None
        decreases more, |tokens| - index
      {
        var argument := ParseOr();
        if argument.None? { return None; }
        arguments := arguments + [argument.value];
        more := MatchSymbol(',');
      }
      var close := MatchSymbol(')');
      if !close { return None; }
      return Some(Call(name, arguments));
    }
  }
}
