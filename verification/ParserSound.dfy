/**
 What every successful parse means: the tokens consumed are those of the tree,
 the tree belongs to the grammar, and ternaries never nest. The two exceptions
 of the parser are visible in the result: dropped `not` tokens are counted in
 `lost`, and a positional argument after a keyword one raises the order flag.
 */
module ParserSound {
  import opened Tokens
  import opened Ast
  import opened ParserSpec
  import opened Grammar

  // ----- sizes of printed trees

  /** A tree takes the same room in front of whatever follows it. */
  lemma {:induction false} PrintShift(t: Node, x: Stream, y: Stream)
    ensures Size(Print(t, x)) + Size(y) == Size(Print(t, y)) + Size(x)
    decreases t
  {
    match t
    case EmptyNode(_) =>
    case LeafNode(_, _) =>
    case ParenthesizedNode(_, inner, rpar) => PrintShift(inner, More(rpar, x), More(rpar, y));
    case CollectionNode(_, _, args, close) => PrintArgsShift(args, More(close, x), More(close, y));
    case FunctionNode(_, _, args, rpar) => PrintArgsShift(args, More(rpar, x), More(rpar, y));
    case MethodNode(source, dot, name, lpar, args, rpar) =>
      var x1, y1 := More(lpar, PrintArgs(args, More(rpar, x))), More(lpar, PrintArgs(args, More(rpar, y)));
      PrintArgsShift(args, More(rpar, x), More(rpar, y));
      PrintShift(source, More(dot, More(name, x1)), More(dot, More(name, y1)));
      assert Size(More(name, x1)) == 1 + Size(x1) && Size(More(name, y1)) == 1 + Size(y1);
    case IndexNode(source, open, index, close) =>
      PrintShift(index, More(close, x), More(close, y));
      PrintShift(source, More(open, Print(index, More(close, x))), More(open, Print(index, More(close, y))));
    case UnaryNode(_, _, value) => PrintShift(value, x, y);
    case BinaryNode(_, left, operator, right) =>
      PrintShift(right, x, y);
      PrintShift(left, PrintOperator(operator, Print(right, x)), PrintOperator(operator, Print(right, y)));
    case AssignmentNode(_, _, _, value) => PrintShift(value, x, y);
    case TernaryNode(condition, questionmark, trueblock, colon, falseblock) =>
      var x2, y2 := More(colon, Print(falseblock, x)), More(colon, Print(falseblock, y));
      PrintShift(falseblock, x, y);
      PrintShift(trueblock, x2, y2);
      PrintShift(condition, More(questionmark, Print(trueblock, x2)), More(questionmark, Print(trueblock, y2)));
  }

  lemma {:induction false} PrintArgsShift(a: ArgumentNode, x: Stream, y: Stream)
    ensures Size(PrintArgs(a, x)) + Size(y) == Size(PrintArgs(a, y)) + Size(x)
    decreases a
  {
    if a.Complete() || a.items.NoItems? {
      PrintItemsShift(a.items, a.commas, x, y);
    } else {
      PrintLastShift(a.items, x, y);
      PrintItemsShift(a.items.init, a.commas, PrintLast(a.items, x), PrintLast(a.items, y));
    }
  }

  lemma {:induction false} PrintLastShift(items: Items, x: Stream, y: Stream)
    requires !items.NoItems?
    ensures Size(PrintLast(items, x)) + Size(y) == Size(PrintLast(items, y)) + Size(x)
    decreases items, 0
  {
    if items.Positional? {
      PrintShift(items.node, x, y);
    } else {
      PrintShift(items.value, x, y);
      PrintShift(items.key, More(items.colon, Print(items.value, x)), More(items.colon, Print(items.value, y)));
    }
  }

  lemma {:induction false} PrintItemsShift(items: Items, commas: TokenList, x: Stream, y: Stream)
    ensures Size(PrintItems(items, commas, x)) + Size(y) == Size(PrintItems(items, commas, y)) + Size(x)
    decreases items, 1
  {
    if !items.NoItems? {
      if commas.NoTokens? {
        PrintLastShift(items, x, y);
        PrintItemsShift(items.init, commas, PrintLast(items, x), PrintLast(items, y));
      } else {
        var x1, y1 := More(commas.last, x), More(commas.last, y);
        PrintLastShift(items, x1, y1);
        PrintItemsShift(items.init, commas.init, PrintLast(items, x1), PrintLast(items, y1));
      }
    }
  }

  /** The room of the last item; `z` only stands for some tokens behind it. */
  function LastWidth(items: Items, z: Stream): int
    requires !items.NoItems?
  {
    Size(PrintLast(items, z)) - Size(z)
  }

  function ItemsWidth(items: Items, z: Stream): int {
    if items.NoItems? then 0 else ItemsWidth(items.init, z) + LastWidth(items, z)
  }

  lemma {:induction false} PrintItemsSize(items: Items, commas: TokenList, rest: Stream, z: Stream)
    requires CountTokens(commas) <= CountItems(items)
    ensures Size(PrintItems(items, commas, rest)) == ItemsWidth(items, z) + CountTokens(commas) + Size(rest)
    decreases items
  {
    if !items.NoItems? {
      if commas.NoTokens? {
        PrintLastShift(items, rest, z);
        PrintItemsSize(items.init, commas, PrintLast(items, rest), z);
      } else {
        PrintLastShift(items, More(commas.last, rest), z);
        PrintItemsSize(items.init, commas.init, PrintLast(items, More(commas.last, rest)), z);
      }
    }
  }

  /** Wherever a positional item is inserted, the list grows by its room. */
  lemma {:induction false} AddPositionalWidth(items: Items, s: Node, z: Stream)
    ensures ItemsWidth(AddPositional(items, s), z) == ItemsWidth(items, z) + Size(Print(s, z)) - Size(z)
    ensures CountItems(AddPositional(items, s)) == CountItems(items) + 1
    decreases items
  {
    if items.Keyword? {
      AddPositionalWidth(items.init, s, z);
      assert LastWidth(AddPositional(items, s), z) == LastWidth(items, z);
    }
  }

  // ----- faithful pieces

  /** `toks` is `t` followed by `rest`, but for `lost` dropped tokens and misordered arguments. */
  predicate Faithful(toks: Stream, t: Node, rest: Stream, lost: nat) {
    && Size(toks) == Size(Print(t, rest)) + lost
    && (lost == 0 && Ordered(t) ==> toks == Print(t, rest))
  }

  predicate FaithfulArgs(toks: Stream, a: ArgumentNode, rest: Stream, lost: nat) {
    && Size(toks) == Size(PrintArgs(a, rest)) + lost
    && (lost == 0 && OrderedArgs(a) ==> toks == PrintArgs(a, rest))
  }

  lemma FaithfulUnary(unary: UnaryOp, op: Token, toks: Stream, value: Node, rest: Stream, lost: nat)
    requires Faithful(toks, value, rest, lost)
    ensures Faithful(More(op, toks), UnaryNode(unary, op, value), rest, lost)
  {}

  lemma FaithfulBinary(toks: Stream, binary: BinaryOp, left: Node, operator: Operator, r1: Stream, l1: nat,
                       right: Node, rest: Stream, l2: nat)
    requires Faithful(toks, left, PrintOperator(operator, r1), l1)
    requires Faithful(r1, right, rest, l2)
    ensures Faithful(toks, BinaryNode(binary, left, operator, right), rest, l1 + l2)
  {
    PrintShift(left, PrintOperator(operator, r1), PrintOperator(operator, Print(right, rest)));
  }

  lemma FaithfulAssignment(toks: Stream, plus: bool, target: Token, op: Token, r1: Stream, l1: nat,
                           value: Node, rest: Stream, l2: nat)
    requires Faithful(toks, LeafNode(IdLeaf, target), More(op, r1), l1)
    requires Faithful(r1, value, rest, l2)
    ensures Faithful(toks, AssignmentNode(plus, target, op, value), rest, l1 + l2)
  {
    assert Size(More(op, r1)) == 1 + Size(r1) && Size(More(op, Print(value, rest))) == 1 + Size(Print(value, rest));
  }

  lemma FaithfulTernary(toks: Stream, condition: Node, q: Token, r1: Stream, l1: nat, trueblock: Node, colon: Token,
                        r2: Stream, l2: nat, falseblock: Node, rest: Stream, l3: nat)
    requires Faithful(toks, condition, More(q, r1), l1)
    requires Faithful(r1, trueblock, More(colon, r2), l2)
    requires Faithful(r2, falseblock, rest, l3)
    ensures Faithful(toks, TernaryNode(condition, q, trueblock, colon, falseblock), rest, l1 + l2 + l3)
  {
    var r2' := More(colon, Print(falseblock, rest));
    PrintShift(trueblock, More(colon, r2), r2');
    PrintShift(condition, More(q, r1), More(q, Print(trueblock, r2')));
  }

  lemma FaithfulParentheses(lpar: Token, toks: Stream, inner: Node, rpar: Token, rest: Stream, lost: nat)
    requires Faithful(toks, inner, More(rpar, rest), lost)
    ensures Faithful(More(lpar, toks), ParenthesizedNode(lpar, inner, rpar), rest, lost)
  {}

  lemma FaithfulCollection(dict: bool, open: Token, toks: Stream, args: ArgumentNode, close: Token, rest: Stream,
                           lost: nat)
    requires FaithfulArgs(toks, args, More(close, rest), lost)
    ensures Faithful(More(open, toks), CollectionNode(dict, open, args, close), rest, lost)
  {}

  lemma FaithfulCall(toks: Stream, name: Token, lpar: Token, r1: Stream, l1: nat,
                     args: ArgumentNode, rpar: Token, rest: Stream, l2: nat)
    requires Faithful(toks, LeafNode(IdLeaf, name), More(lpar, r1), l1)
    requires FaithfulArgs(r1, args, More(rpar, rest), l2)
    ensures Faithful(toks, FunctionNode(name, lpar, args, rpar), rest, l1 + l2)
  {
    var y1 := PrintArgs(args, More(rpar, rest));
    assert Size(More(lpar, r1)) == 1 + Size(r1) && Size(More(lpar, y1)) == 1 + Size(y1);
  }

  lemma FaithfulMethod(toks: Stream, source: Node, dot: Token, name: Token, lpar: Token, r1: Stream, l1: nat,
                       args: ArgumentNode, rpar: Token, rest: Stream, l2: nat)
    requires Faithful(toks, source, More(dot, More(name, More(lpar, r1))), l1)
    requires FaithfulArgs(r1, args, More(rpar, rest), l2)
    ensures Faithful(toks, MethodNode(source, dot, name, lpar, args, rpar), rest, l1 + l2)
  {
    var x1, y1 := More(lpar, r1), More(lpar, PrintArgs(args, More(rpar, rest)));
    PrintShift(source, More(dot, More(name, x1)), More(dot, More(name, y1)));
    assert Size(More(name, x1)) == 1 + Size(x1) && Size(More(name, y1)) == 1 + Size(y1);
  }

  lemma FaithfulIndex(toks: Stream, source: Node, open: Token, r1: Stream, l1: nat,
                      index: Node, close: Token, rest: Stream, l2: nat)
    requires Faithful(toks, source, More(open, r1), l1)
    requires Faithful(r1, index, More(close, rest), l2)
    ensures Faithful(toks, IndexNode(source, open, index, close), rest, l1 + l2)
  {
    PrintShift(source, More(open, r1), More(open, Print(index, More(close, rest))));
  }

  // ----- shapes

  /** A tree of one level is no operator node of a looser level. */
  lemma Shape8(t: Node, next: Token, inTernary: bool)
    requires L8(t, next, inTernary)
    ensures !t.BinaryNode? && !t.UnaryNode? && !t.AssignmentNode? && !t.TernaryNode?
  {}

  lemma Shape7(t: Node, next: Token, inTernary: bool)
    requires G7(t, next, inTernary)
    ensures !t.BinaryNode? && !t.AssignmentNode? && !t.TernaryNode?
  {
    if !t.UnaryNode? {
      Shape8(t, next, inTernary);
    }
  }

  lemma Shape6(t: Node, next: Token, inTernary: bool)
    requires L6(t, next, inTernary)
    ensures !IsSum(t) && (t.BinaryNode? ==> t.binary.ArithmeticOp?) && !t.AssignmentNode? && !t.TernaryNode?
  {
    if !t.BinaryNode? {
      Shape7(t, next, inTernary);
    }
  }

  lemma Shape5(t: Node, next: Token, inTernary: bool)
    requires L5(t, next, inTernary)
    ensures (t.BinaryNode? ==> t.binary.ArithmeticOp?) && !t.AssignmentNode? && !t.TernaryNode?
  {
    if !IsSum(t) {
      Shape6(t, next, inTernary);
    }
  }

  lemma Shape4(t: Node, next: Token, inTernary: bool)
    requires G4(t, next, inTernary)
    ensures (t.BinaryNode? ==> t.binary.ArithmeticOp? || t.binary.CompareOp?) && !t.AssignmentNode? && !t.TernaryNode?
  {
    if !(t.BinaryNode? && t.binary.CompareOp?) {
      Shape5(t, next, inTernary);
    }
  }

  lemma Shape3(t: Node, next: Token, inTernary: bool)
    requires L3(t, next, inTernary)
    ensures (t.BinaryNode? ==> t.binary != OrOp) && !t.AssignmentNode? && !t.TernaryNode?
  {
    if !(t.BinaryNode? && t.binary == AndOp) {
      Shape4(t, next, inTernary);
    }
  }

  lemma Shape2(t: Node, next: Token, inTernary: bool)
    requires L2(t, next, inTernary)
    ensures !t.AssignmentNode? && !t.TernaryNode?
  {
    if !(t.BinaryNode? && t.binary == OrOp) {
      Shape3(t, next, inTernary);
    }
  }

  // ----- every level of the parser

  predicate Sound(toks: Stream, r: Parsed, inTernary: bool) {
    r.Ok? ==> Faithful(toks, r.node, r.rest, r.lost) && Disciplined(r.node, inTernary)
  }

  /** Nothing was dropped and no argument was misordered. */
  predicate Clean(r: Parsed) {
    r.Ok? && r.lost == 0 && Ordered(r.node)
  }

  lemma {:induction false} Sound1(toks: Stream, inTernary: bool)
    ensures var r := E1(toks, inTernary);
            Sound(toks, r, inTernary) && (Clean(r) ==> G1(r.node, Current(r.rest), inTernary))
    decreases Size(toks), 12
  {
    Sound2(toks, inTernary);
    var r := E2(toks, inTernary);
    if r.Ok? {
      if Clean(r) {
        Shape2(r.node, Current(r.rest), inTernary);
      }
      SoundRest1(toks, r.node, r.rest, r.lost, inTernary);
    }
  }

  lemma {:induction false} SoundRest1(orig: Stream, left: Node, toks: Stream, lost: nat, inTernary: bool)
    requires Faithful(orig, left, toks, lost) && Disciplined(left, inTernary)
    requires lost == 0 && Ordered(left) ==>
               G2(left, Current(toks), inTernary) && !left.AssignmentNode? && !left.TernaryNode?
    ensures var r := E1Rest(left, toks, lost, inTernary);
            Sound(orig, r, inTernary) && (Clean(r) ==> G1(r.node, Current(r.rest), inTernary))
    decreases Size(toks), 0
  {
    if Peek(toks) == PlusAssign || Peek(toks) == Assign {
      SoundAssigned(orig, Peek(toks) == PlusAssign, left, toks.head, toks.tail, lost, inTernary);
    } else if Peek(toks) == Question && !inTernary {
      SoundTernary(orig, left, toks.head, toks.tail, lost);
    }
  }

  lemma {:induction false} SoundAssigned(orig: Stream, plus: bool, left: Node, op: Token, toks: Stream, lost: nat,
                                         inTernary: bool)
    requires Faithful(orig, left, More(op, toks), lost) && op.tid == (if plus then PlusAssign else Assign)
    requires lost == 0 && Ordered(left) ==> G2(left, op, inTernary)
    ensures var r := Assigned(plus, left, op, toks, lost, inTernary);
            Sound(orig, r, inTernary) && (Clean(r) ==> G1(r.node, Current(r.rest), inTernary))
    decreases Size(toks), 13
  {
    Sound1(toks, inTernary);
    var value := E1(toks, inTernary);
    if value.Ok? && left.IsId() {
      FaithfulAssignment(orig, plus, left.tok, op, toks, lost, value.node, value.rest, value.lost);
      if lost == 0 {
        IdToken(left, op, inTernary);
      }
    }
  }

  /** An id of the grammar holds an id token. */
  lemma IdToken(t: Node, next: Token, inTernary: bool)
    requires t.IsId() && G2(t, next, inTernary)
    ensures t.tok.tid == Id
  {
    assert L2(t, next, inTernary);
    assert G3(t, next, inTernary);
    assert L3(t, next, inTernary);
    assert G4(t, next, inTernary);
    assert G5(t, next, inTernary);
    assert L5(t, next, inTernary);
    assert G6(t, next, inTernary);
    assert L6(t, next, inTernary);
    assert G7(t, next, inTernary);
    assert G8(t, next, inTernary);
    assert L8(t, next, inTernary);
    assert G9(t, next, inTernary);
  }

  lemma {:induction false} SoundTernary(orig: Stream, condition: Node, q: Token, toks: Stream, lost: nat)
    requires Faithful(orig, condition, More(q, toks), lost) && Disciplined(condition, false) && q.tid == Question
    requires lost == 0 && Ordered(condition) ==> G2(condition, q, false)
    ensures var r := TrueBlock(condition, q, toks, lost);
            Sound(orig, r, false) && (Clean(r) ==> G1(r.node, Current(r.rest), false))
    decreases Size(toks), 13
  {
    hide E1, G1, G2, Faithful, Ordered, Disciplined;
    Sound1(toks, true);
    var yes := E1(toks, true);
    if yes.Ok? && Peek(yes.rest) == Colon {
      var colon, more := yes.rest.head, yes.rest.tail;
      Sound1(more, true);
      var no := E1(more, true);
      assert TrueBlock(condition, q, toks, lost) == FalseBlock(condition, q, yes.node, colon, more, lost + yes.lost);
      if no.Ok? {
        FaithfulTernary(orig, condition, q, toks, lost, yes.node, colon, more, yes.lost, no.node, no.rest, no.lost);
        TernaryKeeps(condition, q, yes.node, colon, no.node, Current(no.rest));
      }
    }
  }

  /** Order, discipline and grammar of a ternary are those of its parts. */
  lemma TernaryKeeps(condition: Node, q: Token, yes: Node, colon: Token, no: Node, next: Token)
    ensures var t := TernaryNode(condition, q, yes, colon, no);
            && (Ordered(t) <==> Ordered(condition) && Ordered(yes) && Ordered(no))
            && (Disciplined(t, false) <==>
                  Disciplined(condition, false) && Disciplined(yes, true) && Disciplined(no, true))
            && (q.tid == Question && colon.tid == Colon && G2(condition, q, false) && G1(yes, colon, true) ==>
                  G1(no, next, true) ==> G1(t, next, false))
  {
    hide G2;
  }

  /** Order and discipline of a binary node are those of its operands. */
  lemma BinaryKeeps(binary: BinaryOp, left: Node, operator: Operator, right: Node, inTernary: bool)
    ensures Ordered(BinaryNode(binary, left, operator, right)) <==> Ordered(left) && Ordered(right)
    ensures Disciplined(BinaryNode(binary, left, operator, right), inTernary)
       <==> Disciplined(left, inTernary) && Disciplined(right, inTernary)
  {
  }

  lemma {:induction false} Sound2(toks: Stream, inTernary: bool)
    ensures var r := E2(toks, inTernary);
            Sound(toks, r, inTernary) && (Clean(r) ==> G2(r.node, Current(r.rest), inTernary))
    decreases Size(toks), 10
  {
    Sound3(toks, inTernary);
    var r := E3(toks, inTernary);
    if r.Ok? {
      if Clean(r) {
        Shape3(r.node, Current(r.rest), inTernary);
      }
      SoundLoop2(toks, r.node, r.rest, r.lost, inTernary);
    }
  }

  lemma {:induction false} SoundLoop2(orig: Stream, left: Node, toks: Stream, lost: nat, inTernary: bool)
    requires Faithful(orig, left, toks, lost) && Disciplined(left, inTernary)
    requires lost == 0 && Ordered(left) ==> L2(left, Current(toks), inTernary)
    ensures var r := E2Loop(left, toks, lost, inTernary);
            Sound(orig, r, inTernary) && (Clean(r) ==> G2(r.node, Current(r.rest), inTernary))
    decreases Size(toks), 0
  {
    hide E3, Faithful, G3, Ordered, Disciplined;
    if Peek(toks) == KwOr && !left.EmptyNode? {
      Sound3(toks.tail, inTernary);
      var r := E3(toks.tail, inTernary);
      if r.Ok? {
        var op := OrOp;
        FaithfulBinary(orig, op, left, Single(toks.head), toks.tail, lost, r.node, r.rest, r.lost);
        BinaryKeeps(op, left, Single(toks.head), r.node, inTernary);
        SoundLoop2(orig, BinaryNode(op, left, Single(toks.head), r.node), r.rest, lost + r.lost, inTernary);
      }
    }
  }

  lemma {:induction false} Sound3(toks: Stream, inTernary: bool)
    ensures var r := E3(toks, inTernary);
            Sound(toks, r, inTernary) && (Clean(r) ==> G3(r.node, Current(r.rest), inTernary))
    decreases Size(toks), 9
  {
    Sound4(toks, inTernary);
    var r := E4(toks, inTernary);
    if r.Ok? {
      if Clean(r) {
        Shape4(r.node, Current(r.rest), inTernary);
      }
      SoundLoop3(toks, r.node, r.rest, r.lost, inTernary);
    }
  }

  lemma {:induction false} SoundLoop3(orig: Stream, left: Node, toks: Stream, lost: nat, inTernary: bool)
    requires Faithful(orig, left, toks, lost) && Disciplined(left, inTernary)
    requires lost == 0 && Ordered(left) ==> L3(left, Current(toks), inTernary)
    ensures var r := E3Loop(left, toks, lost, inTernary);
            Sound(orig, r, inTernary) && (Clean(r) ==> G3(r.node, Current(r.rest), inTernary))
    decreases Size(toks), 0
  {
    hide E4, Faithful, G4, Ordered, Disciplined;
    if Peek(toks) == KwAnd && !left.EmptyNode? {
      Sound4(toks.tail, inTernary);
      var r := E4(toks.tail, inTernary);
      if r.Ok? {
        var op := AndOp;
        FaithfulBinary(orig, op, left, Single(toks.head), toks.tail, lost, r.node, r.rest, r.lost);
        BinaryKeeps(op, left, Single(toks.head), r.node, inTernary);
        SoundLoop3(orig, BinaryNode(op, left, Single(toks.head), r.node), r.rest, lost + r.lost, inTernary);
      }
    }
  }

  lemma {:induction false} Sound4(toks: Stream, inTernary: bool)
    ensures var r := E4(toks, inTernary);
            Sound(toks, r, inTernary) && (Clean(r) ==> G4(r.node, Current(r.rest), inTernary))
    decreases Size(toks), 8
  {
    Sound5(toks, inTernary);
    var r := E5(toks, inTernary);
    if r.Ok? {
      if Clean(r) {
        Shape5(r.node, Current(r.rest), inTernary);
      }
      SoundRest4(toks, r.node, r.rest, r.lost, inTernary);
    }
  }

  lemma {:induction false} SoundRest4(orig: Stream, left: Node, toks: Stream, lost: nat, inTernary: bool)
    requires Faithful(orig, left, toks, lost) && Disciplined(left, inTernary)
    requires lost == 0 && Ordered(left) ==>
               G5(left, Current(toks), inTernary) && (left.BinaryNode? ==> left.binary.ArithmeticOp?)
    ensures var r := E4Rest(left, toks, lost, inTernary);
            Sound(orig, r, inTernary) && (Clean(r) ==> G4(r.node, Current(r.rest), inTernary))
    decreases Size(toks), 0
  {
    hide E4Right, ComparisonOf, IsComparison, ComparisonTokens, G4, G5, Ordered, Disciplined, Faithful;
    if IsComparison(Peek(toks)) {
      OperatorThere(toks);
      TokensAgree(toks.head, toks.head);
      SoundRight4(orig, ComparisonOf(Peek(toks)), left, Single(toks.head), toks.tail, lost, inTernary);
    } else if Peek(toks) == KwNot {
      assert Size(toks) == 1 + Size(toks.tail);
      if Peek(toks.tail) == KwIn {
        TokensAgree(toks.head, toks.tail.head);
        SoundRight4(orig, CmpNotIn, left, NotIn(toks.head, toks.tail.head), toks.tail.tail, lost, inTernary);
      } else {
        NotDropped(orig, left, toks, lost);
      }
    } else if lost == 0 && Ordered(left) {
      NoComparison(left, Current(toks), inTernary);
    }
  }

  lemma NoComparison(t: Node, next: Token, inTernary: bool)
    requires G5(t, next, inTernary) && (t.BinaryNode? ==> t.binary.ArithmeticOp?)
    requires !IsComparison(next.tid) && next.tid != KwNot
    ensures G4(t, next, inTernary)
  {
    hide G5, IsComparison;
  }

  lemma TokensAgree(a: Token, b: Token)
    ensures IsComparison(a.tid) ==> ComparisonTokens(ComparisonOf(a.tid), Single(a))
    ensures a.tid == KwNot && b.tid == KwIn ==> ComparisonTokens(CmpNotIn, NotIn(a, b))
  {
    hide IsComparison, ComparisonOf;
  }

  lemma NotDropped(orig: Stream, left: Node, toks: Stream, lost: nat)
    requires Faithful(orig, left, toks, lost) && toks.More?
    ensures Faithful(orig, left, toks.tail, lost + 1)
  {
    PrintShift(left, toks, toks.tail);
  }

  lemma {:induction false} SoundRight4(orig: Stream, c: Comparison, left: Node, operator: Operator, toks: Stream,
                                       lost: nat, inTernary: bool)
    requires Faithful(orig, left, PrintOperator(operator, toks), lost) && Disciplined(left, inTernary)
    requires ComparisonTokens(c, operator)
    requires lost == 0 && Ordered(left) ==> G5(left, operator.First(), inTernary)
    ensures var r := E4Right(CompareOp(c), left, operator, toks, lost, inTernary);
            Sound(orig, r, inTernary) && (Clean(r) ==> G4(r.node, Current(r.rest), inTernary))
    decreases Size(toks), 8
  {
    Sound5(toks, inTernary);
    var right := E5(toks, inTernary);
    if right.Ok? {
      FaithfulBinary(orig, CompareOp(c), left, operator, toks, lost, right.node, right.rest, right.lost);
    }
  }

  lemma {:induction false} Sound5(toks: Stream, inTernary: bool)
    ensures var r := E5(toks, inTernary);
            Sound(toks, r, inTernary) && (Clean(r) ==> G5(r.node, Current(r.rest), inTernary))
    decreases Size(toks), 7
  {
    Sound6(toks, inTernary);
    var r := E6(toks, inTernary);
    if r.Ok? {
      if Clean(r) {
        Shape6(r.node, Current(r.rest), inTernary);
      }
      SoundLoop5(toks, r.node, r.rest, r.lost, inTernary);
    }
  }

  lemma SumOf(t: Tid)
    requires IsAddSub(t)
    ensures ArithOf(t) == OpAdd || ArithOf(t) == OpSub
  {
  }

  lemma {:induction false} SoundLoop5(orig: Stream, left: Node, toks: Stream, lost: nat, inTernary: bool)
    requires Faithful(orig, left, toks, lost) && Disciplined(left, inTernary)
    requires lost == 0 && Ordered(left) ==> L5(left, Current(toks), inTernary)
    ensures var r := E5Loop(left, toks, lost, inTernary);
            Sound(orig, r, inTernary) && (Clean(r) ==> G5(r.node, Current(r.rest), inTernary))
    decreases Size(toks), 0
  {
    hide E6, ArithOf, Faithful, G6, Ordered, Disciplined;
    if IsAddSub(Peek(toks)) {
      SumOf(Peek(toks));
      Sound6(toks.tail, inTernary);
      var r := E6(toks.tail, inTernary);
      if r.Ok? {
        var op := ArithmeticOp(ArithOf(Peek(toks)));
        FaithfulBinary(orig, op, left, Single(toks.head), toks.tail, lost, r.node, r.rest, r.lost);
        BinaryKeeps(op, left, Single(toks.head), r.node, inTernary);
        SoundLoop5(orig, BinaryNode(op, left, Single(toks.head), r.node), r.rest, lost + r.lost, inTernary);
      }
    }
  }

  lemma {:induction false} Sound6(toks: Stream, inTernary: bool)
    ensures var r := E6(toks, inTernary);
            Sound(toks, r, inTernary) && (Clean(r) ==> G6(r.node, Current(r.rest), inTernary))
    decreases Size(toks), 6
  {
    Sound7(toks, inTernary);
    var r := E7(toks, inTernary);
    if r.Ok? {
      if Clean(r) {
        Shape7(r.node, Current(r.rest), inTernary);
      }
      SoundLoop6(toks, r.node, r.rest, r.lost, inTernary);
    }
  }

  lemma {:induction false} SoundLoop6(orig: Stream, left: Node, toks: Stream, lost: nat, inTernary: bool)
    requires Faithful(orig, left, toks, lost) && Disciplined(left, inTernary)
    requires lost == 0 && Ordered(left) ==> L6(left, Current(toks), inTernary)
    ensures var r := E6Loop(left, toks, lost, inTernary);
            Sound(orig, r, inTernary) && (Clean(r) ==> G6(r.node, Current(r.rest), inTernary))
    decreases Size(toks), 0
  {
    hide E7, ArithOf, IsMulDiv, Faithful, G7, Ordered, Disciplined;
    if IsMulDiv(Peek(toks)) {
      OperatorThere(toks);
      Sound7(toks.tail, inTernary);
      var r := E7(toks.tail, inTernary);
      if r.Ok? {
        var op := ArithmeticOp(ArithOf(Peek(toks)));
        FaithfulBinary(orig, op, left, Single(toks.head), toks.tail, lost, r.node, r.rest, r.lost);
        BinaryKeeps(op, left, Single(toks.head), r.node, inTernary);
        SoundLoop6(orig, BinaryNode(op, left, Single(toks.head), r.node), r.rest, lost + r.lost, inTernary);
      }
    }
  }

  lemma {:induction false} Sound7(toks: Stream, inTernary: bool)
    ensures var r := E7(toks, inTernary);
            Sound(toks, r, inTernary) && (Clean(r) ==> G7(r.node, Current(r.rest), inTernary))
    decreases Size(toks), 5
  {
    if Peek(toks) == KwNot || Peek(toks) == Dash {
      Sound8(toks.tail, inTernary);
      var r := E8(toks.tail, inTernary);
      if r.Ok? {
        FaithfulUnary(if Peek(toks) == KwNot then NotOp else MinusOp, toks.head, toks.tail, r.node, r.rest, r.lost);
      }
    } else {
      Sound8(toks, inTernary);
      var r := E8(toks, inTernary);
      if Clean(r) {
        Shape8(r.node, Current(r.rest), inTernary);
      }
    }
  }

  /** What levels 8 and 9 promise; an empty operand consumes nothing. */
  predicate SoundOperand(orig: Stream, toks: Stream, r: Parsed, inTernary: bool) {
    Sound(orig, r, inTernary) && (r.Ok? && r.node.EmptyNode? ==> r.rest == toks)
  }

  lemma {:induction false} Sound8(toks: Stream, inTernary: bool)
    ensures var r := E8(toks, inTernary);
            SoundOperand(toks, toks, r, inTernary) && (Clean(r) ==> G8(r.node, Current(r.rest), inTernary))
    decreases Size(toks), 4
  {
    hide E9, Call, E8Loop, Faithful;
    Sound9(toks, inTernary);
    var left := E9(toks, inTernary);
    if left.Ok? {
      if Peek(left.rest) == LParen {
        SoundCall(toks, left.node, left.rest.head, left.rest.tail, left.lost, inTernary);
      } else {
        SoundLoop8(toks, left.node, left.rest, left.lost, inTernary);
      }
    }
  }

  lemma {:induction false} SoundCall(orig: Stream, left: Node, lpar: Token, toks: Stream, lost: nat, inTernary: bool)
    requires Faithful(orig, left, More(lpar, toks), lost) && lpar.tid == LParen
    requires lost == 0 && Ordered(left) ==> G9(left, lpar, inTernary)
    ensures var r := Call(left, lpar, toks, lost, inTernary);
            && Sound(orig, r, inTernary)
            && (Clean(r) ==> G8(r.node, Current(r.rest), inTernary))
            && (r.Ok? ==> !r.node.EmptyNode?)
    decreases Size(toks), 15
  {
    hide ParseItems, E8Loop, Faithful, FaithfulArgs, GArgs, OrderedArgs, DisciplinedArgs;
    SoundItems(lpar, toks, inTernary, false);
    var args := ParseItems(lpar, toks, inTernary, false);
    if args.OkArgs? && Peek(args.rest) == RParen && left.IsId() {
      var rpar, more := args.rest.head, args.rest.tail;
      FaithfulCall(orig, left.tok, lpar, toks, lost, args.args, rpar, more, args.lost);
      SoundLoop8(orig, FunctionNode(left.tok, lpar, args.args, rpar), more, lost + args.lost, inTernary);
    }
  }

  lemma {:induction false} SoundLoop8(orig: Stream, left: Node, toks: Stream, lost: nat, inTernary: bool)
    requires Faithful(orig, left, toks, lost) && Disciplined(left, inTernary)
    requires lost == 0 && Ordered(left) ==> L8(left, Current(toks), inTernary)
    ensures var r := E8Loop(left, toks, lost, inTernary);
            && Sound(orig, r, inTernary)
            && (Clean(r) ==> G8(r.node, Current(r.rest), inTernary))
            && (r.Ok? && r.node.EmptyNode? ==> left.EmptyNode? && r.rest == toks)
    decreases Size(toks), 1
  {
    hide MethodCall, E8Index, Faithful, G8, L8, Ordered, Disciplined;
    if Peek(toks) == Dot {
      SoundMethod(orig, left, toks.head, toks.tail, lost, inTernary);
      var call := MethodCall(left, toks.head, toks.tail, lost, inTernary);
      if call.Ok? {
        SoundIndex8(orig, call.node, call.rest, call.lost, true, inTernary);
      }
    } else {
      SoundIndex8(orig, left, toks, lost, false, inTernary);
    }
  }

  lemma {:induction false} SoundIndex8(orig: Stream, left: Node, toks: Stream, lost: nat, goAgain: bool,
                                       inTernary: bool)
    requires Faithful(orig, left, toks, lost) && Disciplined(left, inTernary)
    requires lost == 0 && Ordered(left) ==> L8(left, Current(toks), inTernary)
    requires !goAgain ==> Peek(toks) != Dot
    ensures var r := E8Index(left, toks, lost, goAgain, inTernary);
            && Sound(orig, r, inTernary)
            && (Clean(r) ==> G8(r.node, Current(r.rest), inTernary))
            && (r.Ok? && r.node.EmptyNode? ==> left.EmptyNode? && r.rest == toks)
    decreases Size(toks), if goAgain then 2 else 0
  {
    hide IndexCall, E8Loop, Faithful, L8, Ordered, Disciplined;
    if Peek(toks) == LBracket {
      SoundIndex(orig, left, toks.head, toks.tail, lost, inTernary);
      var index := IndexCall(left, toks.head, toks.tail, lost, inTernary);
      if index.Ok? {
        SoundLoop8(orig, index.node, index.rest, index.lost, inTernary);
      }
    } else if goAgain {
      SoundLoop8(orig, left, toks, lost, inTernary);
    }
  }

  lemma {:induction false} SoundIndex(orig: Stream, source: Node, open: Token, toks: Stream, lost: nat, inTernary: bool)
    requires Faithful(orig, source, More(open, toks), lost) && Disciplined(source, inTernary) && open.tid == LBracket
    requires lost == 0 && Ordered(source) ==> L8(source, open, inTernary)
    ensures var r := IndexCall(source, open, toks, lost, inTernary);
            && Sound(orig, r, inTernary)
            && (Clean(r) ==> L8(r.node, Current(r.rest), inTernary))
            && (r.Ok? ==> r.node.IndexNode?)
    decreases Size(toks), 13
  {
    Sound1(toks, inTernary);
    var index := E1(toks, inTernary);
    if index.Ok? && Peek(index.rest) == RBracket {
      FaithfulIndex(orig, source, open, toks, lost, index.node, index.rest.head, index.rest.tail, index.lost);
    }
  }

  lemma {:induction false} SoundMethod(orig: Stream, source: Node, dot: Token, toks: Stream, lost: nat, inTernary: bool)
    requires Faithful(orig, source, More(dot, toks), lost) && Disciplined(source, inTernary) && dot.tid == Dot
    requires lost == 0 && Ordered(source) ==> L8(source, dot, inTernary)
    ensures var r := MethodCall(source, dot, toks, lost, inTernary);
            && Sound(orig, r, inTernary)
            && (Clean(r) ==> L8(r.node, Current(r.rest), inTernary))
            && (r.Ok? ==> r.node.MethodNode?)
    decreases Size(toks), 1
  {
    hide MethodArgs, Faithful, L8, Disciplined, Ordered;
    if Peek(toks) == Id && Peek(toks.tail) == LParen {
      assert Size(toks) == 1 + Size(toks.tail);
      SoundMethodArgs(orig, source, dot, toks.head, toks.tail.head, toks.tail.tail, lost, inTernary);
    }
  }

  /** Order, discipline and grammar of a method call are those of its parts. */
  lemma MethodKeeps(source: Node, dot: Token, name: Token, lpar: Token, args: ArgumentNode, rpar: Token, next: Token,
                    inTernary: bool)
    ensures var t := MethodNode(source, dot, name, lpar, args, rpar);
            && (Ordered(t) <==> Ordered(source) && OrderedArgs(args))
            && (Disciplined(t, inTernary) <==> Disciplined(source, inTernary) && DisciplinedArgs(args, inTernary))
            && (name.tid == Id && lpar.tid == LParen && rpar.tid == RParen && dot.tid == Dot ==>
                  L8(source, dot, inTernary) && GArgs(args, lpar, rpar, inTernary, false) ==> L8(t, next, inTernary))
  {
    hide GArgs, OrderedArgs, DisciplinedArgs;
  }

  lemma MethodRead(orig: Stream, source: Node, dot: Token, name: Token, lpar: Token, toks: Stream, lost: nat,
                   args: ParsedArgs, inTernary: bool)
    requires Faithful(orig, source, More(dot, More(name, More(lpar, toks))), lost) && Disciplined(source, inTernary)
    requires dot.tid == Dot && name.tid == Id && lpar.tid == LParen
    requires lost == 0 && Ordered(source) ==> L8(source, dot, inTernary)
    requires args.OkArgs? && SoundArgs(lpar, toks, args, inTernary, false) && Peek(args.rest) == RParen
    ensures var t := MethodNode(source, dot, name, lpar, args.args, args.rest.head);
            && Faithful(orig, t, args.rest.tail, lost + args.lost) && Disciplined(t, inTernary)
            && (lost + args.lost == 0 && Ordered(t) ==> L8(t, Current(args.rest.tail), inTernary))
  {
    hide Faithful, FaithfulArgs, GArgs, OrderedArgs, DisciplinedArgs, L8, Ordered, Disciplined;
    var rpar, more := args.rest.head, args.rest.tail;
    FaithfulMethod(orig, source, dot, name, lpar, toks, lost, args.args, rpar, more, args.lost);
    MethodKeeps(source, dot, name, lpar, args.args, rpar, Current(more), inTernary);
  }

  lemma {:induction false} SoundMethodArgs(orig: Stream, source: Node, dot: Token, name: Token, lpar: Token,
                                           toks: Stream, lost: nat, inTernary: bool)
    requires Faithful(orig, source, More(dot, More(name, More(lpar, toks))), lost) && Disciplined(source, inTernary)
    requires dot.tid == Dot && name.tid == Id && lpar.tid == LParen
    requires lost == 0 && Ordered(source) ==> L8(source, dot, inTernary)
    ensures var r := MethodArgs(source, dot, name, lpar, toks, lost, inTernary);
            && Sound(orig, r, inTernary)
            && (Clean(r) ==> L8(r.node, Current(r.rest), inTernary))
            && (r.Ok? ==> r.node.MethodNode?)
    decreases Size(toks), 15
  {
    hide ParseItems, MethodCall, Faithful, SoundArgs, L8, Ordered, Disciplined;
    SoundItems(lpar, toks, inTernary, false);
    var args := ParseItems(lpar, toks, inTernary, false);
    if args.OkArgs? && Peek(args.rest) == RParen {
      var rpar, more := args.rest.head, args.rest.tail;
      assert Size(args.rest) == 1 + Size(more);
      MethodRead(orig, source, dot, name, lpar, toks, lost, args, inTernary);
      if Peek(more) == Dot {
        SoundMethod(orig, MethodNode(source, dot, name, lpar, args.args, rpar), more.head, more.tail,
                    lost + args.lost, inTernary);
      }
    }
  }

  lemma {:induction false} Sound9(toks: Stream, inTernary: bool)
    ensures var r := E9(toks, inTernary);
            SoundOperand(toks, toks, r, inTernary) && (Clean(r) ==> G9(r.node, Current(r.rest), inTernary))
    decreases Size(toks), 3
  {
    hide Parentheses, Collection, E10, Faithful, G9;
    if Peek(toks) == LParen {
      SoundParentheses(toks, inTernary);
    } else if Peek(toks) == LBracket || Peek(toks) == LCurl {
      SoundCollection(toks, inTernary);
    } else {
      SoundLeaf(toks, inTernary);
    }
  }

  lemma SoundLeaf(toks: Stream, inTernary: bool)
    requires Peek(toks) != LParen && Peek(toks) != LBracket && Peek(toks) != LCurl
    ensures var r := E10(toks);
            SoundOperand(toks, toks, r, inTernary) && (Clean(r) ==> G9(r.node, Current(r.rest), inTernary))
  {
  }

  lemma {:induction false} SoundParentheses(toks: Stream, inTernary: bool)
    requires Peek(toks) == LParen
    ensures var r := Parentheses(toks.head, toks.tail, inTernary);
            && Sound(toks, r, inTernary)
            && (Clean(r) ==> G9(r.node, Current(r.rest), inTernary))
            && (r.Ok? ==> !r.node.EmptyNode?)
    decreases Size(toks), 2
  {
    hide E1, Faithful;
    Sound1(toks.tail, inTernary);
    var r := E1(toks.tail, inTernary);
    if r.Ok? && Peek(r.rest) == RParen {
      FaithfulParentheses(toks.head, toks.tail, r.node, r.rest.head, r.rest.tail, r.lost);
    }
  }

  lemma {:induction false} SoundCollection(toks: Stream, inTernary: bool)
    requires Peek(toks) == LBracket || Peek(toks) == LCurl
    ensures var r := Collection(Peek(toks) == LCurl, toks.head, toks.tail, inTernary);
            && Sound(toks, r, inTernary)
            && (Clean(r) ==> G9(r.node, Current(r.rest), inTernary))
            && (r.Ok? ==> !r.node.EmptyNode?)
    decreases Size(toks), 2
  {
    hide ParseItems, Faithful, FaithfulArgs, GArgs, OrderedArgs, DisciplinedArgs;
    var dict := Peek(toks) == LCurl;
    SoundItems(toks.head, toks.tail, inTernary, dict);
    var args := ParseItems(toks.head, toks.tail, inTernary, dict);
    if args.OkArgs? && Peek(args.rest) == (if dict then RCurl else RBracket) {
      FaithfulCollection(dict, toks.head, toks.tail, args.args, args.rest.head, args.rest.tail, args.lost);
    }
  }

  // ----- argument lists

  predicate SoundArgs(open: Token, toks: Stream, r: ParsedArgs, inTernary: bool, dict: bool) {
    r.OkArgs? ==>
      && FaithfulArgs(toks, r.args, r.rest, r.lost)
      && DisciplinedArgs(r.args, inTernary)
      && (r.lost == 0 && OrderedArgs(r.args) ==> GArgs(r.args, open, Current(r.rest), inTernary, dict))
  }

  /** What holds when the loop has read complete items `a` and is about to read `toks`. */
  predicate ItemsInvariant(open: Token, orig: Stream, a: ArgumentNode, toks: Stream, lost: nat, inTernary: bool,
                           dict: bool) {
    && a.Complete()
    && Size(orig) == Size(PrintItems(a.items, a.commas, toks)) + lost
    && DisciplinedItems(a.items, inTernary)
    && (lost == 0 && OrderedArgs(a) ==>
          && orig == PrintItems(a.items, a.commas, toks)
          && GItems(a.items, a.commas, open, inTernary, dict))
  }

  lemma {:induction false} SoundItems(open: Token, toks: Stream, inTernary: bool, dict: bool)
    ensures SoundArgs(open, toks, ParseItems(open, toks, inTernary, dict), inTernary, dict)
    decreases Size(toks), 14
  {
    SoundNext(open, toks, ArgumentNode(NoItems(open), NoTokens, false), toks, 0, inTernary, dict);
  }

  lemma {:induction false} SoundNext(open: Token, orig: Stream, a: ArgumentNode, toks: Stream, lost: nat,
                                     inTernary: bool, dict: bool)
    requires ItemsInvariant(open, orig, a, toks, lost, inTernary, dict)
    ensures SoundArgs(open, orig, ItemsNext(a, toks, lost, inTernary, dict), inTernary, dict)
    decreases Size(toks), 13
  {
    hide E1, ItemsLoop, ItemsInvariant, LeadInvariant, Faithful, FaithfulArgs, GArgs, OrderedArgs, DisciplinedArgs, G1;
    Sound1(toks, inTernary);
    var s := E1(toks, inTernary);
    if s.Ok? {
      StatementRead(open, orig, a, toks, lost, s, inTernary, dict);
      SoundItemsLoop(open, orig, a, s.node, s.rest, lost + s.lost, inTernary, dict);
    }
  }

  /** The invariant once the next statement `s` has been read. */
  predicate LeadInvariant(open: Token, orig: Stream, a: ArgumentNode, s: Node, toks: Stream, lost: nat,
                          inTernary: bool, dict: bool) {
    && a.Complete()
    && Size(orig) == Size(PrintItems(a.items, a.commas, Print(s, toks))) + lost
    && DisciplinedItems(a.items, inTernary) && Disciplined(s, inTernary)
    && (lost == 0 && OrderedArgs(a) && Ordered(s) ==>
          && orig == PrintItems(a.items, a.commas, Print(s, toks))
          && GItems(a.items, a.commas, open, inTernary, dict)
          && G1(s, Current(toks), inTernary))
  }

  lemma StatementRead(open: Token, orig: Stream, a: ArgumentNode, toks: Stream, lost: nat, s: Parsed, inTernary: bool,
                      dict: bool)
    requires ItemsInvariant(open, orig, a, toks, lost, inTernary, dict)
    requires s.Ok? && Sound(toks, s, inTernary)
    requires Clean(s) ==> G1(s.node, Current(s.rest), inTernary)
    ensures LeadInvariant(open, orig, a, s.node, s.rest, lost + s.lost, inTernary, dict)
  {
    PrintItemsShift(a.items, a.commas, toks, Print(s.node, s.rest));
  }

  lemma {:induction false} SoundItemsLoop(open: Token, orig: Stream, a: ArgumentNode, s: Node, toks: Stream, lost: nat,
                                          inTernary: bool, dict: bool)
    requires LeadInvariant(open, orig, a, s, toks, lost, inTernary, dict)
    ensures SoundArgs(open, orig, ItemsLoop(a, s, toks, lost, inTernary, dict), inTernary, dict)
    decreases Size(toks), 0
  {
    hide KeywordItem, ItemsNext, ItemsInvariant, LeadInvariant, FaithfulArgs, GArgs, OrderedArgs, DisciplinedArgs;
    if s.EmptyNode? {
      ItemsDone(open, orig, a, s, toks, lost, inTernary, dict);
    } else if Peek(toks) == Colon {
      if dict || s.IsId() {
        SoundKeyword(open, orig, a, s, toks.head, toks.tail, lost, inTernary, dict);
      }
    } else if !dict {
      if Peek(toks) == Comma {
        PositionalAdded(open, orig, a, s, toks.head, toks.tail, lost, inTernary);
        SoundNext(open, orig, a.AddComma(toks.head).Append(s), toks.tail, lost, inTernary, dict);
      } else {
        PositionalLast(open, orig, a, s, toks, lost, inTernary);
      }
    }
  }

  /** An empty expression stands only in front of a stopping token. */
  lemma EmptyStops(s: Node, next: Token, inTernary: bool)
    requires s.EmptyNode? && G1(s, next, inTernary)
    ensures Stops(next.tid)
  {
    assert G2(s, next, inTernary);
    assert L2(s, next, inTernary);
    assert G3(s, next, inTernary);
    assert L3(s, next, inTernary);
    assert G4(s, next, inTernary);
    assert G5(s, next, inTernary);
    assert L5(s, next, inTernary);
    assert G6(s, next, inTernary);
    assert L6(s, next, inTernary);
    assert G7(s, next, inTernary);
    assert G8(s, next, inTernary);
    assert L8(s, next, inTernary);
    assert G9(s, next, inTernary);
  }

  lemma ItemsDone(open: Token, orig: Stream, a: ArgumentNode, s: Node, toks: Stream, lost: nat, inTernary: bool,
                  dict: bool)
    requires LeadInvariant(open, orig, a, s, toks, lost, inTernary, dict) && s.EmptyNode?
    ensures SoundArgs(open, orig, OkArgs(a, toks, lost), inTernary, dict)
  {
    if lost == 0 && OrderedArgs(a) {
      EmptyStops(s, Current(toks), inTernary);
    }
  }

  /** Inserting a positional item keeps the items disciplined, and its own order tells that of the others. */
  lemma {:induction false} AddPositionalKeeps(items: Items, s: Node, inTernary: bool)
    ensures DisciplinedItems(AddPositional(items, s), inTernary)
       <==> DisciplinedItems(items, inTernary) && Disciplined(s, inTernary)
    decreases items
  {
    if items.Keyword? {
      AddPositionalKeeps(items.init, s, inTernary);
    }
  }

  /** A positional item without its comma: the room it takes, and where it is printed. */
  lemma PositionalSize(a: ArgumentNode, s: Node, commas: TokenList, toks: Stream, rest: Stream)
    requires a.Complete() && CountTokens(a.commas) <= CountTokens(commas) <= CountTokens(a.commas) + 1
    ensures Size(PrintItems(a.items, a.commas, Print(s, toks))) + Size(rest) + CountTokens(commas)
         == Size(PrintItems(AddPositional(a.items, s), commas, rest)) + Size(toks) + CountTokens(a.commas)
  {
    AddPositionalWidth(a.items, s, toks);
    PrintItemsSize(a.items, a.commas, Print(s, toks), toks);
    PrintItemsSize(AddPositional(a.items, s), commas, rest, toks);
  }

  lemma PositionalAdded(open: Token, orig: Stream, a: ArgumentNode, s: Node, comma: Token, toks: Stream, lost: nat,
                        inTernary: bool)
    requires LeadInvariant(open, orig, a, s, More(comma, toks), lost, inTernary, false)
    requires !s.EmptyNode? && comma.tid == Comma
    ensures ItemsInvariant(open, orig, a.AddComma(comma).Append(s), toks, lost, inTernary, false)
  {
    hide G1, Disciplined;
    var commas := AddToken(a.commas, comma);
    AddPositionalWidth(a.items, s, toks);
    AddPositionalKeeps(a.items, s, inTernary);
    PositionalSize(a, s, commas, More(comma, toks), toks);
    if !a.items.Keyword? {
      var items := Positional(a.items, s);
      assert AddPositional(a.items, s) == items;
      assert OrderedItems(items) ==> OrderedItems(a.items) && Ordered(s);
      assert PrintItems(items, commas, toks) == PrintItems(a.items, a.commas, Print(s, More(comma, toks)));
      assert G1(s, comma, inTernary) ==> GLast(items, comma, inTernary, false);
    }
  }

  lemma PositionalLast(open: Token, orig: Stream, a: ArgumentNode, s: Node, toks: Stream, lost: nat, inTernary: bool)
    requires LeadInvariant(open, orig, a, s, toks, lost, inTernary, false)
    requires !s.EmptyNode? && Peek(toks) != Comma && Peek(toks) != Colon
    ensures SoundArgs(open, orig, OkArgs(a.Append(s), toks, lost), inTernary, false)
  {
    hide G1, Disciplined;
    var b := a.Append(s);
    AddPositionalWidth(a.items, s, toks);
    AddPositionalKeeps(a.items, s, inTernary);
    PositionalSize(a, s, a.commas, toks, toks);
    if a.items.Keyword? {
      PrintItemsSize(b.items, b.commas, toks, toks);
      PrintLastShift(b.items, toks, toks);
      PrintItemsSize(b.items.init, b.commas, PrintLast(b.items, toks), toks);
    } else {
      var items := Positional(a.items, s);
      assert b.items == items && CountItems(items) == CountItems(a.items) + 1 && !b.Complete();
      assert OrderedItems(items) ==> OrderedItems(a.items) && Ordered(s);
      assert PrintArgs(b, toks) == PrintItems(a.items, a.commas, Print(s, toks));
      assert G1(s, Current(toks), inTernary) ==> GLast(items, Current(toks), inTernary, false);
    }
  }

  /** The invariant once the keyword item `kw` has been read behind complete items `a`. */
  predicate KeywordInvariant(open: Token, orig: Stream, a: ArgumentNode, kw: Items, rest: Stream, lost: nat,
                             inTernary: bool, dict: bool) {
    && a.Complete() && kw.Keyword? && kw.init == a.items
    && Size(orig) == Size(PrintItems(a.items, a.commas, PrintLast(kw, rest))) + lost
    && DisciplinedItems(kw, inTernary)
    && (lost == 0 && !a.orderError && OrderedItems(kw) ==>
          && orig == PrintItems(a.items, a.commas, PrintLast(kw, rest))
          && GItems(a.items, a.commas, open, inTernary, dict)
          && GLast(kw, Current(rest), inTernary, dict))
  }

  lemma {:induction false} SoundKeyword(open: Token, orig: Stream, a: ArgumentNode, key: Node, colon: Token,
                                        toks: Stream, lost: nat, inTernary: bool, dict: bool)
    requires LeadInvariant(open, orig, a, key, More(colon, toks), lost, inTernary, dict)
    requires colon.tid == Colon && if dict then !key.EmptyNode? else key.IsId()
    ensures SoundArgs(open, orig, KeywordItem(a, key, colon, toks, lost, inTernary, dict), inTernary, dict)
    decreases Size(toks), 13
  {
    hide E1, ItemsNext, ItemsInvariant, LeadInvariant, KeywordInvariant, FaithfulArgs, GArgs, OrderedArgs;
    hide DisciplinedArgs;
    hide Sound, Clean, G1;
    Sound1(toks, inTernary);
    var v := E1(toks, inTernary);
    if v.Ok? {
      var kw := Keyword(a.items, key, colon, v.node);
      KeywordRead(open, orig, a, key, colon, toks, lost, v, inTernary, dict);
      if Peek(v.rest) != Comma {
        KeywordLast(open, orig, a, kw, v.rest, lost + v.lost, inTernary, dict);
      } else {
        KeywordAdded(open, orig, a, kw, v.rest.head, v.rest.tail, lost + v.lost, inTernary, dict);
        SoundNext(open, orig, a.SetKwarg(key, colon, v.node).AddComma(v.rest.head), v.rest.tail, lost + v.lost,
                  inTernary, dict);
      }
    }
  }

  lemma KeywordRead(open: Token, orig: Stream, a: ArgumentNode, key: Node, colon: Token, toks: Stream, lost: nat,
                    v: Parsed, inTernary: bool, dict: bool)
    requires LeadInvariant(open, orig, a, key, More(colon, toks), lost, inTernary, dict)
    requires colon.tid == Colon && if dict then !key.EmptyNode? else key.IsId()
    requires v.Ok? && Sound(toks, v, inTernary) && (Clean(v) ==> G1(v.node, Current(v.rest), inTernary))
    ensures KeywordInvariant(open, orig, a, Keyword(a.items, key, colon, v.node),
                             v.rest, lost + v.lost, inTernary, dict)
  {
    var x, y := More(colon, toks), More(colon, Print(v.node, v.rest));
    PrintShift(key, x, y);
    PrintItemsShift(a.items, a.commas, Print(key, x), Print(key, y));
  }

  lemma KeywordLast(open: Token, orig: Stream, a: ArgumentNode, kw: Items, rest: Stream, lost: nat, inTernary: bool,
                    dict: bool)
    requires KeywordInvariant(open, orig, a, kw, rest, lost, inTernary, dict) && Peek(rest) != Comma
    ensures SoundArgs(open, orig, OkArgs(a.(items := kw), rest, lost), inTernary, dict)
  {}

  lemma KeywordAdded(open: Token, orig: Stream, a: ArgumentNode, kw: Items, comma: Token, toks: Stream, lost: nat,
                     inTernary: bool, dict: bool)
    requires KeywordInvariant(open, orig, a, kw, More(comma, toks), lost, inTernary, dict) && comma.tid == Comma
    ensures ItemsInvariant(open, orig, a.(items := kw).AddComma(comma), toks, lost, inTernary, dict)
  {}
}
