/**
 The argument lists in which a positional argument follows a keyword argument,
 counted on the token stream alone and on trees. A tree does not record where
 such an argument was, so it prints back differently.
 */
module Misplaced {
  import opened Tokens
  import opened Ast
  import opened ParserSpec
  import opened Grammar
  import opened ParserComplete
  import opened ParserSound

  // ----- on tokens

  /** The brackets around a place: whether they are braces, whether a keyword argument has been read in them, and
      whether a positional one after that. */
  datatype Lists = NoList(flagged: bool) | List(dict: bool, keyword: bool, flagged: bool, outer: Lists)

  /** A keyword argument begins here. */
  predicate StartsKeyword(toks: Stream) { Peek(toks) == Id && Peek(toks.tail) == Colon }

  /** Where an item of the innermost brackets begins, unless they close. */
  function Item(n: Lists, toks: Stream): Lists {
    if n.NoList? || n.dict || Closes(Peek(toks)) then n
    else if StartsKeyword(toks) then n.(keyword := true)
    else n.(flagged := n.flagged || n.keyword)
  }

  /** The number of argument lists with a misplaced argument that are closed in `toks`. */
  function Flagged(n: Lists, toks: Stream): nat
    decreases toks
  {
    var t := Peek(toks);
    if t == Eof then 0
    else if Opens(t) then Flagged(Item(List(t == LCurl, false, false, n), toks.tail), toks.tail)
    else if t == Comma then Flagged(Item(n, toks.tail), toks.tail)
    else if Closes(t) && n.List? then (if n.flagged then 1 else 0) + Flagged(n.outer, toks.tail)
    else Flagged(n, toks.tail)
  }

  /** The argument lists of a file with a misplaced argument. */
  function Misplacements(toks: Stream): nat { Flagged(NoList(false), toks) }

  predicate Plain(t: Tid) { t != Eof && t != Comma && !Opens(t) && !Closes(t) }

  lemma PlainSkips(n: Lists, toks: Stream)
    requires Plain(Peek(toks))
    ensures toks.More? && Flagged(n, toks) == Flagged(n, toks.tail)
  {
  }

  /** Kinds of single tokens inside expressions. */
  predicate Word(t: Tid) {
    || t == Id || t == PlusAssign || t == Assign || t == Question || t == Colon || t == Dot
    || t == KwNot || t == KwIn || t == Dash
  }

  lemma WordPlain(t: Tid)
    requires Word(t)
    ensures Plain(t)
  {
  }

  lemma WordSkips(n: Lists, toks: Stream)
    requires Word(Peek(toks))
    ensures toks.More? && Flagged(n, toks) == Flagged(n, toks.tail)
  {
    hide Plain, Word;
    WordPlain(Peek(toks));
    PlainSkips(n, toks);
  }

  lemma OpenEnters(n: Lists, toks: Stream)
    requires Opens(Peek(toks))
    ensures toks.More?
    ensures Flagged(n, toks) == Flagged(Item(List(Peek(toks) == LCurl, false, false, n), toks.tail), toks.tail)
  {
  }

  lemma CommaGoesOn(n: Lists, toks: Stream)
    requires Peek(toks) == Comma
    ensures toks.More? && Flagged(n, toks) == Flagged(Item(n, toks.tail), toks.tail)
  {
  }

  lemma CloseLeaves(n: Lists, toks: Stream)
    requires Closes(Peek(toks)) && n.List?
    ensures toks.More? && Flagged(n, toks) == (if n.flagged then 1 else 0) + Flagged(n.outer, toks.tail)
  {
  }

  // ----- on trees

  /** The number of argument lists of a tree whose order flag is raised. */
  function Flags(t: Node): nat
    decreases t
  {
    match t
    case EmptyNode(_) => 0
    case LeafNode(_, _) => 0
    case ParenthesizedNode(_, inner, _) => Flags(inner)
    case CollectionNode(_, _, args, _) => FlagsArgs(args)
    case FunctionNode(_, _, args, _) => FlagsArgs(args)
    case MethodNode(source, _, _, _, args, _) => Flags(source) + FlagsArgs(args)
    case IndexNode(source, _, index, _) => Flags(source) + Flags(index)
    case UnaryNode(_, _, value) => Flags(value)
    case BinaryNode(_, left, _, right) => Flags(left) + Flags(right)
    case AssignmentNode(_, _, _, value) => Flags(value)
    case TernaryNode(condition, _, trueblock, _, falseblock) => Flags(condition) + Flags(trueblock) + Flags(falseblock)
  }

  function FlagsArgs(a: ArgumentNode): nat
    decreases a
  {
    (if a.orderError then 1 else 0) + FlagsItems(a.items)
  }

  function FlagsItems(items: Items): nat
    decreases items
  {
    if items.NoItems? then 0
    else if items.Positional? then Flags(items.node) + FlagsItems(items.init)
    else Flags(items.key) + Flags(items.value) + FlagsItems(items.init)
  }

  lemma {:induction false} FlagsOrdered(t: Node)
    ensures Flags(t) == 0 <==> Ordered(t)
    decreases t
  {
    match t
    case EmptyNode(_) =>
    case LeafNode(_, _) =>
    case ParenthesizedNode(_, inner, _) => FlagsOrdered(inner);
    case CollectionNode(_, _, args, _) => FlagsOrderedItems(args.items);
    case FunctionNode(_, _, args, _) => FlagsOrderedItems(args.items);
    case MethodNode(source, _, _, _, args, _) => FlagsOrdered(source); FlagsOrderedItems(args.items);
    case IndexNode(source, _, index, _) => FlagsOrdered(source); FlagsOrdered(index);
    case UnaryNode(_, _, value) => FlagsOrdered(value);
    case BinaryNode(_, left, _, right) => FlagsOrdered(left); FlagsOrdered(right);
    case AssignmentNode(_, _, _, value) => FlagsOrdered(value);
    case TernaryNode(condition, _, trueblock, _, falseblock) =>
      FlagsOrdered(condition); FlagsOrdered(trueblock); FlagsOrdered(falseblock);
  }

  lemma {:induction false} FlagsOrderedItems(items: Items)
    ensures FlagsItems(items) == 0 <==> OrderedItems(items)
    decreases items
  {
    if items.Positional? {
      FlagsOrdered(items.node);
      FlagsOrderedItems(items.init);
    } else if items.Keyword? {
      FlagsOrdered(items.key);
      FlagsOrdered(items.value);
      FlagsOrderedItems(items.init);
    }
  }

  /** Kinds of operator tokens. */
  predicate OperatorKind(t: Tid) { t == KwOr || t == KwAnd || IsComparison(t) || IsAddSub(t) || IsMulDiv(t) }

  predicate KindsOperator(operator: Operator) {
    if operator.Single? then OperatorKind(operator.tok.tid)
    else operator.notTok.tid == KwNot && operator.inTok.tid == KwIn
  }

  /** The tokens of a tree are of the kinds that belong in their places. */
  predicate Kinds(t: Node)
    decreases t
  {
    match t
    case EmptyNode(_) => true
    case LeafNode(kind, tok) => LeafToken(kind, tok.tid)
    case ParenthesizedNode(lpar, inner, rpar) => lpar.tid == LParen && rpar.tid == RParen && Kinds(inner)
    case CollectionNode(dict, open, args, close) =>
      && open.tid == (if dict then LCurl else LBracket) && close.tid == (if dict then RCurl else RBracket)
      && KindsArgs(args, dict)
    case FunctionNode(name, lpar, args, rpar) =>
      name.tid == Id && lpar.tid == LParen && rpar.tid == RParen && KindsArgs(args, false)
    case MethodNode(source, dot, name, lpar, args, rpar) =>
      && Kinds(source) && dot.tid == Dot && name.tid == Id && lpar.tid == LParen && rpar.tid == RParen
      && KindsArgs(args, false)
    case IndexNode(source, open, index, close) =>
      Kinds(source) && open.tid == LBracket && close.tid == RBracket && Kinds(index)
    case UnaryNode(_, op, value) => (op.tid == KwNot || op.tid == Dash) && Kinds(value)
    case BinaryNode(_, left, operator, right) => Kinds(left) && KindsOperator(operator) && Kinds(right)
    case AssignmentNode(_, target, op, value) =>
      target.tid == Id && (op.tid == Assign || op.tid == PlusAssign) && Kinds(value)
    case TernaryNode(condition, questionmark, trueblock, colon, falseblock) =>
      && Kinds(condition) && questionmark.tid == Question && Kinds(trueblock) && colon.tid == Colon && Kinds(falseblock)
  }

  predicate KindsArgs(a: ArgumentNode, dict: bool)
    decreases a
  {
    && CountTokens(a.commas) <= CountItems(a.items) <= CountTokens(a.commas) + 1
    && KindsCommas(a.commas) && KindsItems(a.items, dict)
  }

  predicate KindsCommas(commas: TokenList) {
    commas.NoTokens? || (commas.last.tid == Comma && KindsCommas(commas.init))
  }

  predicate KindsItems(items: Items, dict: bool)
    decreases items
  {
    if items.NoItems? then true
    else if items.Positional? then
      !dict && !items.init.Keyword? && !items.node.EmptyNode? && Kinds(items.node) && KindsItems(items.init, dict)
    else
      && (dict || items.key.IsId()) && Kinds(items.key) && items.colon.tid == Colon && Kinds(items.value)
      && KindsItems(items.init, dict)
  }

  /** Inserting a positional item. */
  lemma {:induction false} AddPositionalFlags(items: Items, s: Node)
    requires KindsItems(items, false) && Kinds(s) && !s.EmptyNode?
    ensures var more := AddPositional(items, s);
            && FlagsItems(more) == FlagsItems(items) + Flags(s) && CountItems(more) == CountItems(items) + 1
            && KindsItems(more, false) && (more.Keyword? <==> items.Keyword?)
    decreases items
  {
    hide Kinds, Flags;
    if items.Keyword? {
      AddPositionalFlags(items.init, s);
    }
  }

  // ----- every level of the parser

  /** Unless the parse that ended in `r` dropped a `not`, of the `count` flagged lists ahead the tree has some, and the
      others are still ahead. */
  predicate Tallied(count: nat, n: Lists, lost: nat, r: Parsed) {
    r.Ok? ==> Kinds(r.node) && lost <= r.lost && (r.lost == lost ==> count == Flags(r.node) + Flagged(n, r.rest))
  }

  lemma {:induction false} Tallied1(n: Lists, toks: Stream, inTernary: bool)
    ensures Tallied(Flagged(n, toks), n, 0, E1(toks, inTernary))
    decreases Size(toks), 12
  {
    hide E2, E1Rest, Flagged, Kinds, Flags;
    Tallied2(n, toks, inTernary);
    var left := E2(toks, inTernary);
    if left.Ok? {
      TalliedRest1(n, left.node, left.rest, left.lost, inTernary);
    }
  }

  lemma {:induction false} TalliedRest1(n: Lists, left: Node, toks: Stream, lost: nat, inTernary: bool)
    requires Kinds(left)
    ensures Tallied(Flags(left) + Flagged(n, toks), n, lost, E1Rest(left, toks, lost, inTernary))
    decreases Size(toks), 0
  {
    hide Assigned, TrueBlock, Flagged, Kinds, Flags;
    if Peek(toks) == PlusAssign || Peek(toks) == Assign {
      WordSkips(n, toks);
      TalliedAssigned(n, Peek(toks) == PlusAssign, left, toks.head, toks.tail, lost, inTernary);
    } else if Peek(toks) == Question && !inTernary {
      WordSkips(n, toks);
      TalliedTernary(n, left, toks.head, toks.tail, lost);
    }
  }

  lemma {:induction false} TalliedAssigned(n: Lists, plus: bool, left: Node, op: Token, toks: Stream, lost: nat,
                                           inTernary: bool)
    requires Kinds(left) && (op.tid == PlusAssign || op.tid == Assign)
    ensures Tallied(Flags(left) + Flagged(n, toks), n, lost, Assigned(plus, left, op, toks, lost, inTernary))
    decreases Size(toks), 13
  {
    hide E1, Flagged;
    Tallied1(n, toks, inTernary);
  }

  lemma {:induction false} TalliedTernary(n: Lists, condition: Node, q: Token, toks: Stream, lost: nat)
    requires Kinds(condition) && q.tid == Question
    ensures Tallied(Flags(condition) + Flagged(n, toks), n, lost, TrueBlock(condition, q, toks, lost))
    decreases Size(toks), 13
  {
    hide E1, Flagged, Kinds, Flags;
    Tallied1(n, toks, true);
    var yes := E1(toks, true);
    if yes.Ok? && Peek(yes.rest) == Colon {
      WordSkips(n, yes.rest);
      Tallied1(n, yes.rest.tail, true);
      var no := E1(yes.rest.tail, true);
      if no.Ok? {
        TernaryKinds(condition, q, yes.node, yes.rest.head, no.node);
      }
    }
  }

  lemma TernaryKinds(condition: Node, q: Token, yes: Node, colon: Token, no: Node)
    requires Kinds(condition) && q.tid == Question && Kinds(yes) && colon.tid == Colon && Kinds(no)
    ensures var t := TernaryNode(condition, q, yes, colon, no);
            Kinds(t) && Flags(t) == Flags(condition) + Flags(yes) + Flags(no)
  {
  }

  lemma {:induction false} Tallied2(n: Lists, toks: Stream, inTernary: bool)
    ensures Tallied(Flagged(n, toks), n, 0, E2(toks, inTernary))
    decreases Size(toks), 10
  {
    hide E3, E2Loop, Flagged, Kinds, Flags;
    Tallied3(n, toks, inTernary);
    var left := E3(toks, inTernary);
    if left.Ok? {
      TalliedLoop2(n, left.node, left.rest, left.lost, inTernary);
    }
  }

  /** A binary node whose operands are tallied. */
  lemma BinaryKinds(binary: BinaryOp, left: Node, operator: Operator, right: Node)
    requires Kinds(left) && KindsOperator(operator) && Kinds(right)
    ensures var t := BinaryNode(binary, left, operator, right); Kinds(t) && Flags(t) == Flags(left) + Flags(right)
  {
  }

  lemma OperatorPlain(t: Tid)
    requires OperatorKind(t)
    ensures Plain(t)
  {
  }

  lemma AndOrSkips(n: Lists, toks: Stream)
    requires Peek(toks) == KwOr || Peek(toks) == KwAnd
    ensures toks.More? && Flagged(n, toks) == Flagged(n, toks.tail) && KindsOperator(Single(toks.head))
  {
    hide Plain, IsComparison, IsAddSub, IsMulDiv;
    OperatorPlain(Peek(toks));
    PlainSkips(n, toks);
  }

  lemma {:induction false} TalliedLoop2(n: Lists, left: Node, toks: Stream, lost: nat, inTernary: bool)
    requires Kinds(left)
    ensures Tallied(Flags(left) + Flagged(n, toks), n, lost, E2Loop(left, toks, lost, inTernary))
    decreases Size(toks), 0
  {
    hide E3, Flagged, Kinds, Flags, KindsOperator;
    if Peek(toks) == KwOr {
      AndOrSkips(n, toks);
      Tallied3(n, toks.tail, inTernary);
      var right := E3(toks.tail, inTernary);
      if right.Ok? {
        BinaryKinds(OrOp, left, Single(toks.head), right.node);
        TalliedLoop2(n, BinaryNode(OrOp, left, Single(toks.head), right.node), right.rest, lost + right.lost,
                     inTernary);
      }
    }
  }

  lemma {:induction false} Tallied3(n: Lists, toks: Stream, inTernary: bool)
    ensures Tallied(Flagged(n, toks), n, 0, E3(toks, inTernary))
    decreases Size(toks), 9
  {
    hide E4, E3Loop, Flagged, Kinds, Flags;
    Tallied4(n, toks, inTernary);
    var left := E4(toks, inTernary);
    if left.Ok? {
      TalliedLoop3(n, left.node, left.rest, left.lost, inTernary);
    }
  }

  lemma {:induction false} TalliedLoop3(n: Lists, left: Node, toks: Stream, lost: nat, inTernary: bool)
    requires Kinds(left)
    ensures Tallied(Flags(left) + Flagged(n, toks), n, lost, E3Loop(left, toks, lost, inTernary))
    decreases Size(toks), 0
  {
    hide E4, Flagged, Kinds, Flags, KindsOperator;
    if Peek(toks) == KwAnd {
      AndOrSkips(n, toks);
      Tallied4(n, toks.tail, inTernary);
      var right := E4(toks.tail, inTernary);
      if right.Ok? {
        BinaryKinds(AndOp, left, Single(toks.head), right.node);
        TalliedLoop3(n, BinaryNode(AndOp, left, Single(toks.head), right.node), right.rest, lost + right.lost,
                     inTernary);
      }
    }
  }

  lemma {:induction false} Tallied4(n: Lists, toks: Stream, inTernary: bool)
    ensures Tallied(Flagged(n, toks), n, 0, E4(toks, inTernary))
    decreases Size(toks), 8
  {
    hide E5, E4Rest, Flagged, Kinds, Flags;
    Tallied5(n, toks, inTernary);
    var left := E5(toks, inTernary);
    if left.Ok? {
      TalliedRest4(n, left.node, left.rest, left.lost, inTernary);
    }
  }

  lemma {:induction false} TalliedRest4(n: Lists, left: Node, toks: Stream, lost: nat, inTernary: bool)
    requires Kinds(left)
    ensures Tallied(Flags(left) + Flagged(n, toks), n, lost, E4Rest(left, toks, lost, inTernary))
    decreases Size(toks), 0
  {
    hide E4Right, ComparisonOf, IsComparison, Flagged, Kinds, Flags, Plain;
    if IsComparison(Peek(toks)) {
      OperatorPlain(Peek(toks));
      PlainSkips(n, toks);
      TalliedRight4(n, CompareOp(ComparisonOf(Peek(toks))), left, Single(toks.head), toks.tail, lost, inTernary);
    } else if Peek(toks) == KwNot && Peek(toks.tail) == KwIn {
      NotInSkips(n, toks);
      assert Size(toks) == 1 + Size(toks.tail);
      TalliedRight4(n, CompareOp(CmpNotIn), left, NotIn(toks.head, toks.tail.head), toks.tail.tail, lost, inTernary);
    }
  }

  lemma NotInSkips(n: Lists, toks: Stream)
    requires Peek(toks) == KwNot && Peek(toks.tail) == KwIn
    ensures toks.More? && toks.tail.More? && Flagged(n, toks) == Flagged(n, toks.tail.tail)
  {
    WordSkips(n, toks);
    WordSkips(n, toks.tail);
  }

  lemma {:induction false} TalliedRight4(n: Lists, op: BinaryOp, left: Node, operator: Operator, toks: Stream,
                                         lost: nat, inTernary: bool)
    requires Kinds(left) && KindsOperator(operator)
    ensures Tallied(Flags(left) + Flagged(n, toks), n, lost, E4Right(op, left, operator, toks, lost, inTernary))
    decreases Size(toks), 8
  {
    hide E5, Flagged, Kinds, Flags;
    Tallied5(n, toks, inTernary);
    var right := E5(toks, inTernary);
    if right.Ok? {
      BinaryKinds(op, left, operator, right.node);
    }
  }

  lemma {:induction false} Tallied5(n: Lists, toks: Stream, inTernary: bool)
    ensures Tallied(Flagged(n, toks), n, 0, E5(toks, inTernary))
    decreases Size(toks), 7
  {
    hide E6, E5Loop, Flagged, Kinds, Flags;
    Tallied6(n, toks, inTernary);
    var left := E6(toks, inTernary);
    if left.Ok? {
      TalliedLoop5(n, left.node, left.rest, left.lost, inTernary);
    }
  }

  lemma {:induction false} TalliedLoop5(n: Lists, left: Node, toks: Stream, lost: nat, inTernary: bool)
    requires Kinds(left)
    ensures Tallied(Flags(left) + Flagged(n, toks), n, lost, E5Loop(left, toks, lost, inTernary))
    decreases Size(toks), 0
  {
    hide E6, ArithOf, IsAddSub, Flagged, Kinds, Flags, Plain;
    if IsAddSub(Peek(toks)) {
      OperatorPlain(Peek(toks));
      PlainSkips(n, toks);
      Tallied6(n, toks.tail, inTernary);
      var right := E6(toks.tail, inTernary);
      if right.Ok? {
        var op := ArithmeticOp(ArithOf(Peek(toks)));
        BinaryKinds(op, left, Single(toks.head), right.node);
        TalliedLoop5(n, BinaryNode(op, left, Single(toks.head), right.node), right.rest, lost + right.lost, inTernary);
      }
    }
  }

  lemma {:induction false} Tallied6(n: Lists, toks: Stream, inTernary: bool)
    ensures Tallied(Flagged(n, toks), n, 0, E6(toks, inTernary))
    decreases Size(toks), 6
  {
    hide E7, E6Loop, Flagged, Kinds, Flags;
    Tallied7(n, toks, inTernary);
    var left := E7(toks, inTernary);
    if left.Ok? {
      TalliedLoop6(n, left.node, left.rest, left.lost, inTernary);
    }
  }

  lemma {:induction false} TalliedLoop6(n: Lists, left: Node, toks: Stream, lost: nat, inTernary: bool)
    requires Kinds(left)
    ensures Tallied(Flags(left) + Flagged(n, toks), n, lost, E6Loop(left, toks, lost, inTernary))
    decreases Size(toks), 0
  {
    hide E7, ArithOf, IsMulDiv, Flagged, Kinds, Flags, Plain;
    if IsMulDiv(Peek(toks)) {
      OperatorPlain(Peek(toks));
      PlainSkips(n, toks);
      Tallied7(n, toks.tail, inTernary);
      var right := E7(toks.tail, inTernary);
      if right.Ok? {
        var op := ArithmeticOp(ArithOf(Peek(toks)));
        BinaryKinds(op, left, Single(toks.head), right.node);
        TalliedLoop6(n, BinaryNode(op, left, Single(toks.head), right.node), right.rest, lost + right.lost, inTernary);
      }
    }
  }

  lemma {:induction false} Tallied7(n: Lists, toks: Stream, inTernary: bool)
    ensures Tallied(Flagged(n, toks), n, 0, E7(toks, inTernary))
    decreases Size(toks), 5
  {
    hide E8, Flagged;
    if Peek(toks) == KwNot || Peek(toks) == Dash {
      WordSkips(n, toks);
      Tallied8(n, toks.tail, inTernary);
    } else {
      Tallied8(n, toks, inTernary);
    }
  }

  lemma {:induction false} Tallied8(n: Lists, toks: Stream, inTernary: bool)
    ensures Tallied(Flagged(n, toks), n, 0, E8(toks, inTernary))
    decreases Size(toks), 4
  {
    hide E9, Call, E8Loop, Flagged, Kinds, Flags, Entered;
    Tallied9(n, toks, inTernary);
    var left := E9(toks, inTernary);
    if left.Ok? {
      if Peek(left.rest) == LParen {
        BracketEnters(n, left.rest);
        TalliedCall(n, left.node, left.rest.head, left.rest.tail, left.lost, inTernary);
      } else {
        TalliedLoop8(n, left.node, left.rest, left.lost, inTernary);
      }
    }
  }

  /** The flagged lists ahead behind an opening bracket. */
  function Entered(n: Lists, dict: bool, toks: Stream): nat { Flagged(Item(List(dict, false, false, n), toks), toks) }

  lemma CallKinds(name: Node, lpar: Token, args: ArgumentNode, rpar: Token)
    requires Kinds(name) && name.IsId() && lpar.tid == LParen && KindsArgs(args, false) && rpar.tid == RParen
    ensures var t := FunctionNode(name.tok, lpar, args, rpar); Kinds(t) && Flags(t) == Flags(name) + FlagsArgs(args)
  {
    hide KindsArgs, FlagsArgs;
  }

  lemma {:induction false} TalliedCall(n: Lists, left: Node, lpar: Token, toks: Stream, lost: nat, inTernary: bool)
    requires Kinds(left) && lpar.tid == LParen
    ensures Tallied(Flags(left) + Entered(n, false, toks), n, lost, Call(left, lpar, toks, lost, inTernary))
    decreases Size(toks), 15
  {
    hide ParseItems, E8Loop, Flagged, Kinds, Flags, KindsArgs, FlagsArgs, Entered;
    TalliedItems(n, lpar, toks, inTernary, false);
    var args := ParseItems(lpar, toks, inTernary, false);
    if args.OkArgs? && Peek(args.rest) == RParen && left.IsId() {
      CallKinds(left, lpar, args.args, args.rest.head);
      TalliedLoop8(n, FunctionNode(left.tok, lpar, args.args, args.rest.head), args.rest.tail, lost + args.lost,
                   inTernary);
    }
  }

  lemma {:induction false} TalliedLoop8(n: Lists, left: Node, toks: Stream, lost: nat, inTernary: bool)
    requires Kinds(left)
    ensures Tallied(Flags(left) + Flagged(n, toks), n, lost, E8Loop(left, toks, lost, inTernary))
    decreases Size(toks), 1
  {
    hide MethodCall, E8Index, Flagged, Kinds, Flags;
    if Peek(toks) == Dot {
      WordSkips(n, toks);
      TalliedMethod(n, left, toks.head, toks.tail, lost, inTernary);
      var call := MethodCall(left, toks.head, toks.tail, lost, inTernary);
      if call.Ok? {
        TalliedIndex8(n, call.node, call.rest, call.lost, true, inTernary);
      }
    } else {
      TalliedIndex8(n, left, toks, lost, false, inTernary);
    }
  }

  lemma {:induction false} TalliedIndex8(n: Lists, left: Node, toks: Stream, lost: nat, goAgain: bool, inTernary: bool)
    requires Kinds(left)
    ensures Tallied(Flags(left) + Flagged(n, toks), n, lost, E8Index(left, toks, lost, goAgain, inTernary))
    decreases Size(toks), if goAgain then 2 else 0
  {
    hide IndexCall, E8Loop, Flagged, Kinds, Flags, Entered;
    if Peek(toks) == LBracket {
      BracketEnters(n, toks);
      TalliedIndex(n, left, toks.head, toks.tail, lost, inTernary);
      var index := IndexCall(left, toks.head, toks.tail, lost, inTernary);
      if index.Ok? {
        TalliedLoop8(n, index.node, index.rest, index.lost, inTernary);
      }
    } else if goAgain {
      TalliedLoop8(n, left, toks, lost, inTernary);
    }
  }

  lemma {:induction false} TalliedMethod(n: Lists, source: Node, dot: Token, toks: Stream, lost: nat, inTernary: bool)
    requires Kinds(source) && dot.tid == Dot
    ensures Tallied(Flags(source) + Flagged(n, toks), n, lost, MethodCall(source, dot, toks, lost, inTernary))
    decreases Size(toks), 1
  {
    hide E10, MethodArgs, Flagged, Kinds, Flags, Entered;
    NameRead(toks);
    if Peek(toks) == Id && Peek(toks.tail) == LParen {
      assert Size(toks) == 1 + Size(toks.tail);
      NameEnters(n, toks);
      TalliedMethodArgs(n, source, dot, toks.head, toks.tail.head, toks.tail.tail, lost, inTernary);
    }
  }

  lemma NameEnters(n: Lists, toks: Stream)
    requires Peek(toks) == Id && Peek(toks.tail) == LParen
    ensures toks.More? && toks.tail.More? && Flagged(n, toks) == Entered(n, false, toks.tail.tail)
  {
    hide Flagged;
    WordSkips(n, toks);
    OpenEnters(n, toks.tail);
  }

  lemma BracketEnters(n: Lists, toks: Stream)
    requires Opens(Peek(toks))
    ensures toks.More? && Flagged(n, toks) == Entered(n, Peek(toks) == LCurl, toks.tail)
  {
    hide Flagged;
    OpenEnters(n, toks);
  }

  lemma MethodKinds(source: Node, dot: Token, name: Token, lpar: Token, args: ArgumentNode, rpar: Token)
    requires Kinds(source) && dot.tid == Dot && name.tid == Id && lpar.tid == LParen && KindsArgs(args, false)
    requires rpar.tid == RParen
    ensures var t := MethodNode(source, dot, name, lpar, args, rpar);
            Kinds(t) && Flags(t) == Flags(source) + FlagsArgs(args)
  {
    hide KindsArgs, FlagsArgs;
  }

  lemma {:induction false} TalliedMethodArgs(n: Lists, source: Node, dot: Token, name: Token, lpar: Token, toks: Stream,
                                             lost: nat, inTernary: bool)
    requires Kinds(source) && dot.tid == Dot && name.tid == Id && lpar.tid == LParen
    ensures Tallied(Flags(source) + Entered(n, false, toks), n, lost,
                    MethodArgs(source, dot, name, lpar, toks, lost, inTernary))
    decreases Size(toks), 15
  {
    hide ParseItems, MethodCall, Flagged, Kinds, Flags, KindsArgs, FlagsArgs, Entered;
    TalliedItems(n, lpar, toks, inTernary, false);
    var args := ParseItems(lpar, toks, inTernary, false);
    if args.OkArgs? && Peek(args.rest) == RParen {
      var rpar, more := args.rest.head, args.rest.tail;
      assert Size(args.rest) == 1 + Size(more);
      MethodKinds(source, dot, name, lpar, args.args, rpar);
      if Peek(more) == Dot {
        WordSkips(n, more);
        TalliedMethod(n, MethodNode(source, dot, name, lpar, args.args, rpar), more.head, more.tail, lost + args.lost,
                      inTernary);
      }
    }
  }

  /** One expression in brackets. */
  lemma {:induction false} TalliedInner(n: Lists, toks: Stream, inTernary: bool)
    ensures var r := E1(toks, inTernary);
            r.Ok? ==>
              && Kinds(r.node)
              && (r.lost == 0 && Closes(Peek(r.rest)) ==>
                    Entered(n, false, toks) == Flags(r.node) + Flagged(n, r.rest.tail))
    decreases Size(toks), 13
  {
    hide E1, Flagged, Kinds, Flags;
    var inside := Item(List(false, false, false, n), toks);
    Tallied1(inside, toks, inTernary);
    var r := E1(toks, inTernary);
    if r.Ok? && Closes(Peek(r.rest)) {
      CloseLeaves(inside, r.rest);
    }
  }

  lemma {:induction false} TalliedIndex(n: Lists, source: Node, open: Token, toks: Stream, lost: nat, inTernary: bool)
    requires Kinds(source) && open.tid == LBracket
    ensures Tallied(Flags(source) + Entered(n, false, toks), n, lost, IndexCall(source, open, toks, lost, inTernary))
    decreases Size(toks), 14
  {
    hide E1, Flagged, Entered;
    TalliedInner(n, toks, inTernary);
  }

  lemma {:induction false} Tallied9(n: Lists, toks: Stream, inTernary: bool)
    ensures Tallied(Flagged(n, toks), n, 0, E9(toks, inTernary))
    decreases Size(toks), 3
  {
    hide Parentheses, Collection, E10, Flagged, Kinds, Flags, Entered;
    if Peek(toks) == LParen {
      BracketEnters(n, toks);
      TalliedParentheses(n, toks.head, toks.tail, inTernary);
    } else if Peek(toks) == LBracket || Peek(toks) == LCurl {
      BracketEnters(n, toks);
      TalliedCollection(n, Peek(toks) == LCurl, toks.head, toks.tail, inTernary);
    } else {
      TalliedLeaf(n, toks);
    }
  }

  lemma TalliedLeaf(n: Lists, toks: Stream)
    ensures Tallied(Flagged(n, toks), n, 0, E10(toks))
  {
    hide Flagged, Plain;
    LeafKinds(toks);
    if !E10(toks).node.EmptyNode? {
      PlainSkips(n, toks);
    }
  }

  lemma LeafKinds(toks: Stream)
    ensures var r := E10(toks);
            && Kinds(r.node) && Flags(r.node) == 0
            && (if r.node.EmptyNode? then r.rest == toks else Plain(Peek(toks)) && r.rest == toks.tail)
  {
  }

  lemma {:induction false} TalliedParentheses(n: Lists, lpar: Token, toks: Stream, inTernary: bool)
    requires lpar.tid == LParen
    ensures Tallied(Entered(n, false, toks), n, 0, Parentheses(lpar, toks, inTernary))
    decreases Size(toks), 14
  {
    hide E1, Flagged, Entered;
    TalliedInner(n, toks, inTernary);
  }

  lemma {:induction false} TalliedCollection(n: Lists, dict: bool, open: Token, toks: Stream, inTernary: bool)
    requires open.tid == if dict then LCurl else LBracket
    ensures Tallied(Entered(n, dict, toks), n, 0, Collection(dict, open, toks, inTernary))
    decreases Size(toks), 15
  {
    hide ParseItems, Flagged, Entered, KindsArgs, FlagsArgs;
    TalliedItems(n, open, toks, inTernary, dict);
  }

  // ----- argument lists

  /** The brackets around the items `a` that have been read. */
  function ListOf(a: ArgumentNode, dict: bool, n: Lists): Lists {
    List(dict, !dict && a.items.Keyword?, a.orderError, n)
  }

  /** The brackets once the item that begins with `s` in front of `toks` has been entered. */
  function ItemOf(a: ArgumentNode, s: Node, toks: Stream, dict: bool, n: Lists): Lists {
    var list := ListOf(a, dict, n);
    if dict || s.EmptyNode? then list
    else if s.IsId() && Peek(toks) == Colon then list.(keyword := true)
    else list.(flagged := list.flagged || list.keyword)
  }

  predicate TalliedArgs(count: nat, n: Lists, lost: nat, r: ParsedArgs, dict: bool) {
    r.OkArgs? ==>
      && KindsArgs(r.args, dict) && lost <= r.lost
      && (r.lost == lost && Closes(Peek(r.rest)) ==> count == FlagsArgs(r.args) + Flagged(n, r.rest.tail))
  }

  /** What holds of items that have been read with their commas. */
  predicate KindsRead(a: ArgumentNode, dict: bool) {
    a.Complete() && KindsCommas(a.commas) && KindsItems(a.items, dict) && (dict ==> !a.orderError)
  }

  lemma {:induction false} TalliedItems(n: Lists, open: Token, toks: Stream, inTernary: bool, dict: bool)
    ensures TalliedArgs(Entered(n, dict, toks), n, 0, ParseItems(open, toks, inTernary, dict), dict)
    decreases Size(toks), 14
  {
    hide ItemsNext, Flagged;
    TalliedNext(n, ArgumentNode(NoItems(open), NoTokens, false), toks, 0, inTernary, dict);
  }

  lemma {:induction false} TalliedNext(n: Lists, a: ArgumentNode, toks: Stream, lost: nat, inTernary: bool, dict: bool)
    requires KindsRead(a, dict)
    ensures TalliedArgs(FlagsItems(a.items) + Flagged(Item(ListOf(a, dict, n), toks), toks), n, lost,
                        ItemsNext(a, toks, lost, inTernary, dict), dict)
    decreases Size(toks), 13
  {
    hide E1, ItemsLoop, Flagged, Kinds, Flags, KindsArgs, FlagsArgs, FlagsItems, KindsRead, Item, ListOf, ItemOf;
    var inside := Item(ListOf(a, dict, n), toks);
    Tallied1(inside, toks, inTernary);
    var s := E1(toks, inTernary);
    if s.Ok? {
      ItemStarts(a, toks, inTernary, dict, n);
      TalliedItemsLoop(n, a, s.node, s.rest, lost + s.lost, inTernary, dict);
      if s.node.EmptyNode? {
        ItemsEnd(a, s.node, s.rest, lost + s.lost, inTernary, dict);
      }
    }
  }

  /** The tokens tell how the parser will take the item that begins here. */
  lemma ItemStarts(a: ArgumentNode, toks: Stream, inTernary: bool, dict: bool, n: Lists)
    requires var s := E1(toks, inTernary); s.Ok? ==> Kinds(s.node)
    ensures var s := E1(toks, inTernary);
            s.Ok? && s.lost == 0 && (s.node.EmptyNode? ==> Closes(Peek(s.rest))) ==>
              Item(ListOf(a, dict, n), toks) == ItemOf(a, s.node, s.rest, dict, n)
  {
    hide E1, Faithful, G1;
    var s := E1(toks, inTernary);
    if s.Ok? && s.lost == 0 && !dict {
      Sound1(toks, inTernary);
      if Closes(Peek(toks)) {
        ClosesStops(Peek(toks));
        StopsEmpty(toks, inTernary);
      } else if StartsKeyword(toks) {
        KeyAlone(toks, inTernary);
      } else {
        LeadRead(toks, s);
      }
    }
  }

  lemma ClosesStops(t: Tid)
    requires Closes(t)
    ensures Stops(t)
  {
  }

  /** A name in front of a colon is read alone. */
  lemma KeyAlone(toks: Stream, inTernary: bool)
    requires StartsKeyword(toks)
    ensures E1(toks, inTernary) == Ok(LeafNode(IdLeaf, toks.head), toks.tail, 0)
  {
    var leaf := LeafNode(IdLeaf, toks.head);
    AtomAlone(leaf, toks.tail, inTernary);
    assert E1Rest(leaf, toks.tail, 0, inTernary) == Ok(leaf, toks.tail, 0);
  }

  /** An empty expression and a name were read as they stand. */
  lemma LeadRead(toks: Stream, s: Parsed)
    requires s.Ok? && s.lost == 0 && Faithful(toks, s.node, s.rest, 0)
    ensures s.node.EmptyNode? ==> toks == s.rest
    ensures s.node.IsId() ==> toks == More(s.node.tok, s.rest)
  {
  }

  lemma {:induction false} TalliedItemsLoop(n: Lists, a: ArgumentNode, s: Node, toks: Stream, lost: nat,
                                            inTernary: bool, dict: bool)
    requires KindsRead(a, dict) && Kinds(s)
    ensures TalliedArgs(FlagsItems(a.items) + Flags(s) + Flagged(ItemOf(a, s, toks, dict, n), toks), n, lost,
                        ItemsLoop(a, s, toks, lost, inTernary, dict), dict)
    decreases Size(toks), 0, 1
  {
    hide KeywordItem, ItemsNext, Flagged, Kinds, Flags, KindsArgs, FlagsArgs, FlagsItems, KindsRead, ItemOf;
    hide TalliedArgs;
    if s.EmptyNode? {
      ListDone(n, a, s, toks, lost, dict);
    } else if Peek(toks) == Colon {
      if dict || s.IsId() {
        KeywordEntered(n, a, s, toks, dict);
        TalliedKeyword(n, a, s, toks.head, toks.tail, lost, inTernary, dict);
      } else {
        assert ItemsLoop(a, s, toks, lost, inTernary, dict).ErrArgs?;
        FailureTallied(n, lost, dict);
      }
    } else if dict {
      FailureTallied(n, lost, dict);
    } else {
      TalliedPositional(n, a, s, toks, lost, inTernary);
    }
  }

  lemma {:induction false} TalliedPositional(n: Lists, a: ArgumentNode, s: Node, toks: Stream, lost: nat,
                                             inTernary: bool)
    requires KindsRead(a, false) && Kinds(s) && !s.EmptyNode? && Peek(toks) != Colon
    ensures TalliedArgs(FlagsItems(a.items) + Flags(s) + Flagged(ItemOf(a, s, toks, false, n), toks), n, lost,
                        ItemsLoop(a, s, toks, lost, inTernary, false), false)
    decreases Size(toks), 0, 0
  {
    hide KeywordItem, ItemsNext, Flagged, Kinds, Flags, KindsArgs, FlagsArgs, FlagsItems, KindsRead, ItemOf;
    hide TalliedArgs;
    if Peek(toks) == Comma {
      PositionalEntered(n, a, s, toks);
      TalliedNext(n, a.AddComma(toks.head).Append(s), toks.tail, lost, inTernary, false);
    } else {
      PositionalDone(n, a, s, toks, lost);
    }
  }

  lemma FailureTallied(n: Lists, lost: nat, dict: bool)
    ensures forall count, e :: TalliedArgs(count, n, lost, ErrArgs(e), dict)
  {
  }

  lemma KeywordEntered(n: Lists, a: ArgumentNode, s: Node, toks: Stream, dict: bool)
    requires !s.EmptyNode? && Peek(toks) == Colon && (dict || s.IsId())
    ensures toks.More? && Flagged(ItemOf(a, s, toks, dict, n), toks) == Flagged(KeyOf(a, dict, n), toks.tail)
  {
    hide Flagged;
    WordSkips(ItemOf(a, s, toks, dict, n), toks);
  }

  lemma PositionalEntered(n: Lists, a: ArgumentNode, s: Node, toks: Stream)
    requires KindsRead(a, false) && Kinds(s) && !s.EmptyNode? && Peek(toks) == Comma
    ensures var b := a.AddComma(toks.head).Append(s);
            && KindsRead(b, false)
            && FlagsItems(a.items) + Flags(s) + Flagged(ItemOf(a, s, toks, false, n), toks)
            == FlagsItems(b.items) + Flagged(Item(ListOf(b, false, n), toks.tail), toks.tail)
  {
    hide Flagged, Kinds, Flags, FlagsItems, KindsRead;
    PositionalRead(n, a, s, toks.head);
    CommaGoesOn(ItemOf(a, s, toks, false, n), toks);
  }

  lemma ListDone(n: Lists, a: ArgumentNode, s: Node, toks: Stream, lost: nat, dict: bool)
    requires KindsRead(a, dict) && s.EmptyNode?
    ensures TalliedArgs(FlagsItems(a.items) + Flags(s) + Flagged(ItemOf(a, s, toks, dict, n), toks), n, lost,
                        OkArgs(a, toks, lost), dict)
  {
    hide Flagged;
    if Closes(Peek(toks)) {
      CloseLeaves(ListOf(a, dict, n), toks);
    }
  }

  lemma PositionalRead(n: Lists, a: ArgumentNode, s: Node, comma: Token)
    requires KindsRead(a, false) && Kinds(s) && !s.EmptyNode? && comma.tid == Comma
    ensures var b := a.AddComma(comma).Append(s);
            && KindsRead(b, false) && FlagsItems(b.items) == FlagsItems(a.items) + Flags(s)
            && ListOf(b, false, n) == List(false, a.items.Keyword?, a.orderError || a.items.Keyword?, n)
  {
    hide Kinds, Flags;
    AddPositionalFlags(a.items, s);
  }

  lemma PositionalDone(n: Lists, a: ArgumentNode, s: Node, toks: Stream, lost: nat)
    requires KindsRead(a, false) && Kinds(s) && !s.EmptyNode? && Peek(toks) != Colon
    ensures TalliedArgs(FlagsItems(a.items) + Flags(s) + Flagged(ItemOf(a, s, toks, false, n), toks), n, lost,
                        OkArgs(a.Append(s), toks, lost), false)
  {
    hide Flagged, Kinds, Flags;
    AddPositionalFlags(a.items, s);
    if Closes(Peek(toks)) {
      CloseLeaves(ItemOf(a, s, toks, false, n), toks);
    }
  }

  /** The brackets behind the colon of a keyword argument. */
  function KeyList(a: ArgumentNode, dict: bool, n: Lists): Lists { List(dict, !dict, a.orderError, n) }

  /** The same when the argument has not been added. */
  function KeyOf(a: ArgumentNode, dict: bool, n: Lists): Lists {
    if dict then ListOf(a, dict, n) else KeyList(a, dict, n)
  }

  lemma {:induction false} TalliedKeyword(n: Lists, a: ArgumentNode, key: Node, colon: Token, toks: Stream, lost: nat,
                                          inTernary: bool, dict: bool)
    requires KindsRead(a, dict) && Kinds(key) && (dict || key.IsId()) && colon.tid == Colon
    ensures TalliedArgs(FlagsItems(a.items) + Flags(key) + Flagged(KeyOf(a, dict, n), toks), n, lost,
                        KeywordItem(a, key, colon, toks, lost, inTernary, dict), dict)
    decreases Size(toks), 13
  {
    hide E1, ItemsNext, Flagged, Kinds, Flags, KindsArgs, FlagsArgs, KindsRead, FlagsItems, Item, ListOf;
    var list := KeyList(a, dict, n);
    assert KeyOf(a, dict, n) == list by {
      KeyLists(a, dict, n);
    }
    Tallied1(list, toks, inTernary);
    var v := E1(toks, inTernary);
    if v.Ok? {
      if Peek(v.rest) != Comma {
        KeywordDone(n, a, key, colon, v.node, v.rest, lost + v.lost, dict);
      } else {
        CommaGoesOn(list, v.rest);
        CommaKinds(n, a, key, colon, v.node, v.rest.head, dict);
        TalliedNext(n, a.SetKwarg(key, colon, v.node).AddComma(v.rest.head), v.rest.tail, lost + v.lost, inTernary,
                    dict);
      }
    }
  }

  lemma KeyLists(a: ArgumentNode, dict: bool, n: Lists)
    ensures KeyOf(a, dict, n) == KeyList(a, dict, n)
  {
  }

  lemma KeywordKinds(n: Lists, a: ArgumentNode, key: Node, colon: Token, value: Node, dict: bool)
    requires KindsRead(a, dict) && Kinds(key) && (dict || key.IsId()) && colon.tid == Colon && Kinds(value)
    ensures var b := a.SetKwarg(key, colon, value);
            && KindsArgs(b, dict) && FlagsItems(b.items) == FlagsItems(a.items) + Flags(key) + Flags(value)
  {
    hide Kinds, Flags;
  }

  lemma KeywordDone(n: Lists, a: ArgumentNode, key: Node, colon: Token, value: Node, toks: Stream, lost: nat,
                    dict: bool)
    requires KindsRead(a, dict) && Kinds(key) && (dict || key.IsId()) && colon.tid == Colon && Kinds(value)
    ensures TalliedArgs(FlagsItems(a.items) + Flags(key) + Flags(value) + Flagged(KeyList(a, dict, n), toks), n, lost,
                        OkArgs(a.SetKwarg(key, colon, value), toks, lost), dict)
  {
    hide Flagged, Kinds, Flags;
    KeywordKinds(n, a, key, colon, value, dict);
    if Closes(Peek(toks)) {
      CloseLeaves(KeyList(a, dict, n), toks);
    }
  }

  lemma CommaKinds(n: Lists, a: ArgumentNode, key: Node, colon: Token, value: Node, comma: Token, dict: bool)
    requires KindsRead(a, dict) && Kinds(key) && (dict || key.IsId()) && colon.tid == Colon && Kinds(value)
    requires comma.tid == Comma
    ensures var b := a.SetKwarg(key, colon, value).AddComma(comma);
            && KindsRead(b, dict) && ListOf(b, dict, n) == KeyList(a, dict, n)
            && FlagsItems(b.items) == FlagsItems(a.items) + Flags(key) + Flags(value)
  {
    hide Kinds, Flags;
  }
}
