/**
 Round trip: every tree of the grammar, printed in front of tokens that
 cannot extend it, is parsed back to itself, leaving exactly those tokens.
 */
module ParserComplete {
  import opened Tokens
  import opened Ast
  import opened ParserSpec
  import opened Grammar

  /** The first token of a call-level tree is no unary operator. */
  lemma {:induction false} NoUnaryFirst(t: Node, rest: Stream, inTernary: bool)
    requires L8(t, Current(rest), inTernary)
    requires t.EmptyNode? ==> Peek(rest) != KwNot && Peek(rest) != Dash
    ensures Peek(Print(t, rest)) != KwNot && Peek(Print(t, rest)) != Dash
    decreases t
  {
    hide GArgs, G1;
    if t.MethodNode? {
      NoUnaryFirst(t.source, More(t.dot, More(t.name, More(t.lpar, PrintArgs(t.args, More(t.rpar, rest))))), inTernary);
    } else if t.IndexNode? {
      NoUnaryFirst(t.source, More(t.open, Print(t.index, More(t.close, rest))), inTernary);
    }
  }

  /** A leaf, or nothing, in front of a token that extends no level from 8 to 2. */
  lemma AtomAlone(t: Node, rest: Stream, inTernary: bool)
    requires G9(t, Current(rest), inTernary) && (t.LeafNode? || t.EmptyNode?)
    requires Peek(rest) == PlusAssign || Peek(rest) == Assign || Stops(Peek(rest))
    ensures E2(Print(t, rest), inTernary) == Ok(t, rest, 0)
  {
    hide G9, E8, E2, Stops;
    AtomRead(t, rest, inTernary);
    EndKinds(Peek(rest));
    AtomCalled(Print(t, rest), t, rest, inTernary);
    Climb(Print(t, rest), t, rest, inTernary);
  }

  /** Kinds that extend no expression of level 2 do not extend any of its parts. */
  lemma EndKinds(t: Tid)
    requires t == PlusAssign || t == Assign || Stops(t)
    ensures t != LParen && t != Dot && t != LBracket && t != KwOr && t != KwAnd && t != KwNot && t != Dash
    ensures !IsComparison(t) && !IsAddSub(t) && !IsMulDiv(t)
  {
  }

  lemma AtomRead(t: Node, rest: Stream, inTernary: bool)
    requires G9(t, Current(rest), inTernary) && (t.LeafNode? || t.EmptyNode?)
    requires t.EmptyNode? ==> Peek(rest) == PlusAssign || Peek(rest) == Assign || Stops(Peek(rest))
    ensures E9(Print(t, rest), inTernary) == Ok(t, rest, 0)
    ensures Peek(Print(t, rest)) != KwNot && Peek(Print(t, rest)) != Dash
  {
    hide G1, GArgs, Parentheses, Collection;
  }

  lemma AtomCalled(toks: Stream, t: Node, rest: Stream, inTernary: bool)
    requires E9(toks, inTernary) == Ok(t, rest, 0)
    requires Peek(rest) != LParen && Peek(rest) != Dot && Peek(rest) != LBracket
    ensures E8(toks, inTernary) == Ok(t, rest, 0)
  {
    hide E9, MethodCall, IndexCall, Call;
    assert E8Index(t, rest, 0, false, inTernary) == Ok(t, rest, 0);
  }

  /** An operand in front of no operator is a whole expression of level 2. */
  lemma Climb(toks: Stream, t: Node, rest: Stream, inTernary: bool)
    requires E8(toks, inTernary) == Ok(t, rest, 0) && Peek(toks) != KwNot && Peek(toks) != Dash
    requires Peek(rest) == PlusAssign || Peek(rest) == Assign || Stops(Peek(rest))
    ensures E2(toks, inTernary) == Ok(t, rest, 0)
  {
    hide Stops, IsComparison, IsAddSub, IsMulDiv, E8, E4;
    EndKinds(Peek(rest));
    Climb4(toks, t, rest, inTernary);
    assert E3(toks, inTernary) == Ok(t, rest, 0);
  }

  lemma Climb4(toks: Stream, t: Node, rest: Stream, inTernary: bool)
    requires E8(toks, inTernary) == Ok(t, rest, 0) && Peek(toks) != KwNot && Peek(toks) != Dash
    requires !IsComparison(Peek(rest)) && !IsAddSub(Peek(rest)) && !IsMulDiv(Peek(rest)) && Peek(rest) != KwNot
    ensures E4(toks, inTernary) == Ok(t, rest, 0)
  {
    hide E8, IsComparison, IsAddSub, IsMulDiv;
    assert E7(toks, inTernary) == Ok(t, rest, 0);
    assert E6(toks, inTernary) == Ok(t, rest, 0);
    assert E5(toks, inTernary) == Ok(t, rest, 0);
    assert E4Rest(t, rest, 0, inTernary) == Ok(t, rest, 0);
  }

  lemma {:induction false} Complete1(t: Node, rest: Stream, inTernary: bool)
    requires G1(t, Current(rest), inTernary)
    ensures E1(Print(t, rest), inTernary) == Ok(t, rest, 0)
    decreases t, 11
  {
    if t.AssignmentNode? {
      Complete1(t.value, rest, inTernary);
      AssignmentStep(t, Print(t.value, rest), rest, inTernary);
    } else if t.TernaryNode? {
      CompleteTernary(t, rest);
    } else {
      Complete2(t, rest, inTernary);
      assert E1Rest(t, rest, 0, inTernary) == Ok(t, rest, 0);
    }
  }

  lemma {:induction false} CompleteTernary(t: Node, rest: Stream)
    requires t.TernaryNode? && t.questionmark.tid == Question && t.colon.tid == Colon
    requires G2(t.condition, t.questionmark, false) && G1(t.trueblock, t.colon, true)
    requires G1(t.falseblock, Current(rest), true)
    ensures E1(Print(t, rest), false) == Ok(t, rest, 0)
    decreases t, 10
  {
    var r2 := Print(t.falseblock, rest);
    var r1 := Print(t.trueblock, More(t.colon, r2));
    Complete1(t.falseblock, rest, true);
    Complete1(t.trueblock, More(t.colon, r2), true);
    Complete2(t.condition, More(t.questionmark, r1), false);
    TernaryStep(t, Print(t.condition, More(t.questionmark, r1)), r1, r2, rest);
  }

  lemma AssignmentStep(t: Node, toks: Stream, rest: Stream, inTernary: bool)
    requires t.AssignmentNode? && t.target.tid == Id && t.op.tid == (if t.plus then PlusAssign else Assign)
    requires E1(toks, inTernary) == Ok(t.value, rest, 0)
    ensures E1(More(t.target, More(t.op, toks)), inTernary) == Ok(t, rest, 0)
  {
    var id := LeafNode(IdLeaf, t.target);
    AtomAlone(id, More(t.op, toks), inTernary);
    assert Assigned(t.plus, id, t.op, toks, 0, inTernary) == Ok(t, rest, 0);
    assert E1Rest(id, More(t.op, toks), 0, inTernary) == Ok(t, rest, 0);
  }

  lemma TernaryStep(t: Node, toks: Stream, r1: Stream, r2: Stream, rest: Stream)
    requires t.TernaryNode? && t.questionmark.tid == Question && t.colon.tid == Colon
    requires E2(toks, false) == Ok(t.condition, More(t.questionmark, r1), 0)
    requires E1(r1, true) == Ok(t.trueblock, More(t.colon, r2), 0)
    requires E1(r2, true) == Ok(t.falseblock, rest, 0)
    ensures E1(toks, false) == Ok(t, rest, 0)
  {
    assert FalseBlock(t.condition, t.questionmark, t.trueblock, t.colon, r2, 0) == Ok(t, rest, 0);
    assert TrueBlock(t.condition, t.questionmark, r1, 0) == Ok(t, rest, 0);
    assert E1Rest(t.condition, More(t.questionmark, r1), 0, false) == Ok(t, rest, 0);
  }

  lemma {:induction false} Complete2(t: Node, rest: Stream, inTernary: bool)
    requires G2(t, Current(rest), inTernary)
    ensures E2(Print(t, rest), inTernary) == Ok(t, rest, 0)
    decreases t, 9
  {
    CompleteLoop2(t, rest, inTernary);
  }

  lemma {:induction false} CompleteLoop2(t: Node, rest: Stream, inTernary: bool)
    requires L2(t, Current(rest), inTernary)
    ensures E2(Print(t, rest), inTernary) == E2Loop(t, rest, 0, inTernary)
    decreases t, 8
  {
    if t.BinaryNode? && t.binary == OrOp {
      CompleteLoop2(t.left, More(t.operator.tok, Print(t.right, rest)), inTernary);
      Complete3(t.right, rest, inTernary);
      LoopStep2(t, Print(t.right, rest), rest, inTernary);
    } else {
      Complete3(t, rest, inTernary);
    }
  }

  lemma LoopStep2(t: Node, toks: Stream, rest: Stream, inTernary: bool)
    requires t.BinaryNode? && t.operator.Single?
    requires t.binary == OrOp && t.operator.tok.tid == KwOr && !t.left.EmptyNode?
    requires E3(toks, inTernary) == Ok(t.right, rest, 0)
    ensures E2Loop(t.left, More(t.operator.tok, toks), 0, inTernary) == E2Loop(t, rest, 0, inTernary)
  {}

  lemma {:induction false} Complete3(t: Node, rest: Stream, inTernary: bool)
    requires G3(t, Current(rest), inTernary)
    ensures E3(Print(t, rest), inTernary) == Ok(t, rest, 0)
    decreases t, 7
  {
    CompleteLoop3(t, rest, inTernary);
  }

  lemma {:induction false} CompleteLoop3(t: Node, rest: Stream, inTernary: bool)
    requires L3(t, Current(rest), inTernary)
    ensures E3(Print(t, rest), inTernary) == E3Loop(t, rest, 0, inTernary)
    decreases t, 6
  {
    if t.BinaryNode? && t.binary == AndOp {
      CompleteLoop3(t.left, More(t.operator.tok, Print(t.right, rest)), inTernary);
      Complete4(t.right, rest, inTernary);
      LoopStep3(t, Print(t.right, rest), rest, inTernary);
    } else {
      Complete4(t, rest, inTernary);
    }
  }

  lemma LoopStep3(t: Node, toks: Stream, rest: Stream, inTernary: bool)
    requires t.BinaryNode? && t.operator.Single?
    requires t.binary == AndOp && t.operator.tok.tid == KwAnd && !t.left.EmptyNode?
    requires E4(toks, inTernary) == Ok(t.right, rest, 0)
    ensures E3Loop(t.left, More(t.operator.tok, toks), 0, inTernary) == E3Loop(t, rest, 0, inTernary)
  {}

  lemma {:induction false} Complete4(t: Node, rest: Stream, inTernary: bool)
    requires G4(t, Current(rest), inTernary)
    ensures E4(Print(t, rest), inTernary) == Ok(t, rest, 0)
    decreases t, 5
  {
    if t.BinaryNode? && t.binary.CompareOp? {
      var r1 := Print(t.right, rest);
      Complete5(t.left, PrintOperator(t.operator, r1), inTernary);
      Complete5(t.right, rest, inTernary);
      ComparisonStep(t, Print(t.left, PrintOperator(t.operator, r1)), r1, rest, inTernary);
    } else {
      Complete5(t, rest, inTernary);
    }
  }

  lemma ComparisonStep(t: Node, toks: Stream, r1: Stream, rest: Stream, inTernary: bool)
    requires t.BinaryNode? && t.binary.CompareOp? && ComparisonTokens(t.binary.ctype, t.operator)
    requires E5(toks, inTernary) == Ok(t.left, PrintOperator(t.operator, r1), 0)
    requires E5(r1, inTernary) == Ok(t.right, rest, 0)
    ensures E4(toks, inTernary) == Ok(t, rest, 0)
  {
    assert E4Right(t.binary, t.left, t.operator, r1, 0, inTernary) == Ok(t, rest, 0);
    assert E4Rest(t.left, PrintOperator(t.operator, r1), 0, inTernary) == Ok(t, rest, 0);
  }

  lemma {:induction false} Complete5(t: Node, rest: Stream, inTernary: bool)
    requires G5(t, Current(rest), inTernary)
    ensures E5(Print(t, rest), inTernary) == Ok(t, rest, 0)
    decreases t, 4
  {
    CompleteLoop5(t, rest, inTernary);
  }

  lemma {:induction false} CompleteLoop5(t: Node, rest: Stream, inTernary: bool)
    requires L5(t, Current(rest), inTernary)
    ensures E5(Print(t, rest), inTernary) == E5Loop(t, rest, 0, inTernary)
    decreases t, 3
  {
    if IsSum(t) {
      CompleteLoop5(t.left, More(t.operator.tok, Print(t.right, rest)), inTernary);
      Complete6(t.right, rest, inTernary);
      LoopStep5(t, Print(t.right, rest), rest, inTernary);
    } else {
      Complete6(t, rest, inTernary);
    }
  }

  lemma LoopStep5(t: Node, toks: Stream, rest: Stream, inTernary: bool)
    requires t.BinaryNode? && t.operator.Single?
    requires IsAddSub(t.operator.tok.tid) && t.binary == ArithmeticOp(ArithOf(t.operator.tok.tid))
    requires E6(toks, inTernary) == Ok(t.right, rest, 0)
    ensures E5Loop(t.left, More(t.operator.tok, toks), 0, inTernary) == E5Loop(t, rest, 0, inTernary)
  {}

  lemma {:induction false} Complete6(t: Node, rest: Stream, inTernary: bool)
    requires G6(t, Current(rest), inTernary)
    ensures E6(Print(t, rest), inTernary) == Ok(t, rest, 0)
    decreases t, 2
  {
    CompleteLoop6(t, rest, inTernary);
  }

  lemma {:induction false} CompleteLoop6(t: Node, rest: Stream, inTernary: bool)
    requires L6(t, Current(rest), inTernary)
    ensures E6(Print(t, rest), inTernary) == E6Loop(t, rest, 0, inTernary)
    decreases t, 1
  {
    if t.BinaryNode? {
      CompleteLoop6(t.left, More(t.operator.tok, Print(t.right, rest)), inTernary);
      Complete7(t.right, rest, inTernary);
      LoopStep6(t, Print(t.right, rest), rest, inTernary);
    } else {
      Complete7(t, rest, inTernary);
    }
  }

  lemma LoopStep6(t: Node, toks: Stream, rest: Stream, inTernary: bool)
    requires t.BinaryNode? && t.operator.Single?
    requires IsMulDiv(t.operator.tok.tid) && t.binary == ArithmeticOp(ArithOf(t.operator.tok.tid))
    requires E7(toks, inTernary) == Ok(t.right, rest, 0)
    ensures E6Loop(t.left, More(t.operator.tok, toks), 0, inTernary) == E6Loop(t, rest, 0, inTernary)
  {}

  lemma {:induction false} Complete7(t: Node, rest: Stream, inTernary: bool)
    requires G7(t, Current(rest), inTernary)
    ensures E7(Print(t, rest), inTernary) == Ok(t, rest, 0)
    decreases t, 0, 3
  {
    if t.UnaryNode? {
      Complete8(t.value, rest, inTernary);
    } else {
      NoUnaryFirst(t, rest, inTernary);
      Complete8(t, rest, inTernary);
    }
  }

  lemma {:induction false} Complete8(t: Node, rest: Stream, inTernary: bool)
    requires G8(t, Current(rest), inTernary)
    ensures E8(Print(t, rest), inTernary) == Ok(t, rest, 0)
    decreases t, 0, 2
  {
    CompleteLoop8(t, rest, inTernary);
    assert E8Index(t, rest, 0, false, inTernary) == Ok(t, rest, 0);
  }

  lemma {:induction false} CompleteLoop8(t: Node, rest: Stream, inTernary: bool)
    requires L8(t, Current(rest), inTernary)
    ensures E8(Print(t, rest), inTernary) == E8Loop(t, rest, 0, inTernary)
    decreases t, 0, 1
  {
    hide E1, ParseItems, E8, E8Loop, E9, G1, GArgs, G9;
    if t.FunctionNode? {
      CompleteArgs(t.args, t.lpar, More(t.rpar, rest), inTernary, false);
      CallStep(t, PrintArgs(t.args, More(t.rpar, rest)), rest, inTernary);
    } else if t.MethodNode? {
      CompleteArgs(t.args, t.lpar, More(t.rpar, rest), inTernary, false);
      var toks := PrintArgs(t.args, More(t.rpar, rest));
      CompleteLoop8(t.source, More(t.dot, More(t.name, More(t.lpar, toks))), inTernary);
      MethodStep(t, toks, rest, inTernary);
    } else if t.IndexNode? {
      Complete1(t.index, More(t.close, rest), inTernary);
      var toks := Print(t.index, More(t.close, rest));
      CompleteLoop8(t.source, More(t.open, toks), inTernary);
      IndexStep(t, toks, rest, inTernary);
    } else {
      Complete9(t, rest, inTernary);
      OperandStep(Print(t, rest), t, rest, inTernary);
    }
  }

  lemma OperandStep(toks: Stream, t: Node, rest: Stream, inTernary: bool)
    requires E9(toks, inTernary) == Ok(t, rest, 0) && Peek(rest) != LParen
    ensures E8(toks, inTernary) == E8Loop(t, rest, 0, inTernary)
  {
    hide E9, E8Loop;
  }

  lemma CallStep(t: Node, toks: Stream, rest: Stream, inTernary: bool)
    requires t.FunctionNode? && t.name.tid == Id && t.lpar.tid == LParen && t.rpar.tid == RParen
    requires ParseItems(t.lpar, toks, inTernary, false) == OkArgs(t.args, More(t.rpar, rest), 0)
    ensures E8(More(t.name, More(t.lpar, toks)), inTernary) == E8Loop(t, rest, 0, inTernary)
  {
    var id := LeafNode(IdLeaf, t.name);
    assert E9(More(t.name, More(t.lpar, toks)), inTernary) == Ok(id, More(t.lpar, toks), 0);
    assert Call(id, t.lpar, toks, 0, inTernary) == E8Loop(t, rest, 0, inTernary);
  }

  lemma IndexStep(t: Node, toks: Stream, rest: Stream, inTernary: bool)
    requires t.IndexNode? && t.open.tid == LBracket && t.close.tid == RBracket
    requires E1(toks, inTernary) == Ok(t.index, More(t.close, rest), 0)
    ensures E8Loop(t.source, More(t.open, toks), 0, inTernary) == E8Loop(t, rest, 0, inTernary)
  {
    assert IndexCall(t.source, t.open, toks, 0, inTernary) == Ok(t, rest, 0);
  }

  /** One method call, wherever the chain goes on, is one step of the call loop. */
  lemma MethodStep(t: Node, toks: Stream, rest: Stream, inTernary: bool)
    requires t.MethodNode?
    requires t.dot.tid == Dot && t.name.tid == Id && t.lpar.tid == LParen && t.rpar.tid == RParen
    requires ParseItems(t.lpar, toks, inTernary, false) == OkArgs(t.args, More(t.rpar, rest), 0)
    ensures E8Loop(t.source, More(t.dot, More(t.name, More(t.lpar, toks))), 0, inTernary)
         == E8Loop(t, rest, 0, inTernary)
  {
    var here := MethodCall(t.source, t.dot, More(t.name, More(t.lpar, toks)), 0, inTernary);
    assert here == MethodArgs(t.source, t.dot, t.name, t.lpar, toks, 0, inTernary);
    if Peek(rest) == Dot {
      assert here == MethodCall(t, rest.head, rest.tail, 0, inTernary);
    } else {
      assert here == Ok(t, rest, 0);
    }
  }

  lemma {:induction false} Complete9(t: Node, rest: Stream, inTernary: bool)
    requires G9(t, Current(rest), inTernary)
    ensures E9(Print(t, rest), inTernary) == Ok(t, rest, 0)
    decreases t, 0, 0
  {
    hide E1, G1, GArgs, ParseItems, E9;
    if t.ParenthesizedNode? {
      Complete1(t.inner, More(t.rpar, rest), inTernary);
      ParenthesesStep(t, Print(t.inner, More(t.rpar, rest)), rest, inTernary);
    } else if t.CollectionNode? {
      CompleteArgs(t.args, t.open, More(t.close, rest), inTernary, t.dict);
      CollectionStep(t, PrintArgs(t.args, More(t.close, rest)), rest, inTernary);
    } else {
      AtomStep(t, rest, inTernary);
    }
  }

  lemma AtomStep(t: Node, rest: Stream, inTernary: bool)
    requires G9(t, Current(rest), inTernary) && !t.ParenthesizedNode? && !t.CollectionNode?
    ensures E9(Print(t, rest), inTernary) == Ok(t, rest, 0)
  {
    hide G1, GArgs, Parentheses, Collection;
  }

  lemma ParenthesesStep(t: Node, toks: Stream, rest: Stream, inTernary: bool)
    requires t.ParenthesizedNode? && t.lpar.tid == LParen && t.rpar.tid == RParen
    requires E1(toks, inTernary) == Ok(t.inner, More(t.rpar, rest), 0)
    ensures E9(More(t.lpar, toks), inTernary) == Ok(t, rest, 0)
  {
    assert Parentheses(t.lpar, toks, inTernary) == Ok(t, rest, 0);
  }

  lemma CollectionStep(t: Node, toks: Stream, rest: Stream, inTernary: bool)
    requires t.CollectionNode?
    requires t.open.tid == (if t.dict then LCurl else LBracket)
    requires t.close.tid == (if t.dict then RCurl else RBracket)
    requires ParseItems(t.open, toks, inTernary, t.dict) == OkArgs(t.args, More(t.close, rest), 0)
    ensures E9(More(t.open, toks), inTernary) == Ok(t, rest, 0)
  {
    assert Collection(t.dict, t.open, toks, inTernary) == Ok(t, rest, 0);
  }

  /** Nothing is an expression in front of a stopping token. */
  lemma StopsEmpty(rest: Stream, inTernary: bool)
    requires Stops(Peek(rest))
    ensures E1(rest, inTernary) == Ok(EmptyNode(Current(rest)), rest, 0)
  {
    var empty := EmptyNode(Current(rest));
    AtomAlone(empty, rest, inTernary);
    assert E1Rest(empty, rest, 0, inTernary) == Ok(empty, rest, 0);
  }

  lemma {:induction false} CompleteArgs(a: ArgumentNode, open: Token, rest: Stream, inTernary: bool, dict: bool)
    requires GArgs(a, open, Current(rest), inTernary, dict)
    ensures ParseItems(open, PrintArgs(a, rest), inTernary, dict) == OkArgs(a, rest, 0)
    decreases a
  {
    if a.Complete() {
      StopsEmpty(rest, inTernary);
      CompleteItems(a.items, a.commas, open, rest, inTernary, dict);
      assert ItemsNext(a, rest, 0, inTernary, dict) == OkArgs(a, rest, 0);
    } else {
      var b := ArgumentNode(a.items.init, a.commas, false);
      CompleteLast(a.items, b, rest, inTernary, dict);
      CompleteItems(a.items.init, a.commas, open, PrintLast(a.items, rest), inTernary, dict);
      LastStep(a, b, rest, inTernary, dict);
    }
  }

  /** The loop reads items with their commas back and goes on with the tokens behind them. */
  lemma {:induction false} CompleteItems(items: Items, commas: TokenList, open: Token, toks: Stream, inTernary: bool,
                                         dict: bool)
    requires GItems(items, commas, open, inTernary, dict)
    ensures ParseItems(open, PrintItems(items, commas, toks), inTernary, dict)
         == ItemsNext(ArgumentNode(items, commas, false), toks, 0, inTernary, dict)
    decreases items, 1
  {
    if !items.NoItems? {
      var b := ArgumentNode(items.init, commas.init, false);
      var r1 := More(commas.last, toks);
      CompleteLast(items, b, r1, inTernary, dict);
      CompleteItems(items.init, commas.init, open, PrintLast(items, r1), inTernary, dict);
      CommaStep(items, commas.last, b, toks, inTernary, dict);
    }
  }

  /** What the loop does with the last item: it has read a positional one, or goes on with the value of a keyword. */
  predicate Reads(items: Items, b: ArgumentNode, toks: Stream, rest: Stream, inTernary: bool, dict: bool)
    requires !items.NoItems?
  {
    if items.Positional? then
      ItemsNext(b, toks, 0, inTernary, dict) == ItemsLoop(b, items.node, rest, 0, inTernary, dict)
    else
      && E1(Print(items.value, rest), inTernary) == Ok(items.value, rest, 0)
      && ItemsNext(b, toks, 0, inTernary, dict)
      == KeywordItem(b, items.key, items.colon, Print(items.value, rest), 0, inTernary, dict)
  }

  lemma {:induction false} CompleteLast(items: Items, b: ArgumentNode, rest: Stream, inTernary: bool, dict: bool)
    requires !items.NoItems? && GLast(items, Current(rest), inTernary, dict)
    ensures Reads(items, b, PrintLast(items, rest), rest, inTernary, dict)
    decreases items, 0
  {
    if items.Positional? {
      Complete1(items.node, rest, inTernary);
    } else {
      var r1 := More(items.colon, Print(items.value, rest));
      Complete1(items.value, rest, inTernary);
      Complete1(items.key, r1, inTernary);
    }
  }

  lemma CommaStep(items: Items, comma: Token, b: ArgumentNode, toks: Stream, inTernary: bool, dict: bool)
    requires !items.NoItems? && items.init == b.items && comma.tid == Comma && !b.orderError
    requires GLast(items, comma, inTernary, dict)
    requires Reads(items, b, PrintLast(items, More(comma, toks)), More(comma, toks), inTernary, dict)
    ensures ItemsNext(b, PrintLast(items, More(comma, toks)), 0, inTernary, dict)
         == ItemsNext(ArgumentNode(items, AddToken(b.commas, comma), false), toks, 0, inTernary, dict)
  {
    var a := ArgumentNode(items, AddToken(b.commas, comma), false);
    if items.Positional? {
      assert a == b.AddComma(comma).Append(items.node);
    } else {
      assert a == b.SetKwarg(items.key, items.colon, items.value).AddComma(comma);
    }
  }

  lemma LastStep(a: ArgumentNode, b: ArgumentNode, rest: Stream, inTernary: bool, dict: bool)
    requires !a.items.NoItems? && b == ArgumentNode(a.items.init, a.commas, false) && !a.orderError
    requires GLast(a.items, Current(rest), inTernary, dict)
    requires Peek(rest) != Comma && (a.items.Positional? ==> Peek(rest) != Colon)
    requires Reads(a.items, b, PrintLast(a.items, rest), rest, inTernary, dict)
    ensures ItemsNext(b, PrintLast(a.items, rest), 0, inTernary, dict) == OkArgs(a, rest, 0)
  {
    if a.items.Positional? {
      assert a == b.Append(a.items.node);
    } else {
      assert a == b.SetKwarg(a.items.key, a.items.colon, a.items.value);
    }
  }
}
