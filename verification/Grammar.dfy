/**
 The grammar of Meson expressions, stated on trees and independently of the parser.
 `G<k>(t, next, inTernary)` says that `t` is an expression of precedence level `k`
 when it is followed by a token of kind `next`; `L<k>` leaves open that the
 level's own operator may follow.
 */
module Grammar {
  import opened Tokens
  import opened Ast
  import opened ParserSpec

  /** Kinds that begin an operand of level 9 or 10. */
  predicate StartsOperand(t: Tid) {
    || t == LParen || t == LBracket || t == LCurl
    || t == KwTrue || t == KwFalse || t == Id || t == Number || IsString(t)
  }

  /** Kinds in front of which an expression is empty. */
  predicate Stops(t: Tid) {
    && !StartsOperand(t)
    && t != PlusAssign && t != Assign && t != Question && t != KwOr && t != KwAnd && t != KwNot && t != Dot
    && !IsComparison(t) && !IsAddSub(t) && !IsMulDiv(t)
  }

  predicate G1(t: Node, next: Token, inTernary: bool)
    decreases t, 10
  {
    if t.AssignmentNode? then
      t.target.tid == Id && t.op.tid == (if t.plus then PlusAssign else Assign) && G1(t.value, next, inTernary)
    else if t.TernaryNode? then
      && !inTernary
      && t.questionmark.tid == Question && t.colon.tid == Colon
      && G2(t.condition, t.questionmark, false)
      && G1(t.trueblock, t.colon, true)
      && G1(t.falseblock, next, true)
    else G2(t, next, inTernary) && next.tid != PlusAssign && next.tid != Assign && next.tid != Question
  }

  predicate G2(t: Node, next: Token, inTernary: bool)
    decreases t, 9
  {
    L2(t, next, inTernary) && next.tid != KwOr
  }

  predicate L2(t: Node, next: Token, inTernary: bool)
    decreases t, 8
  {
    if t.BinaryNode? && t.binary == OrOp then
      && t.operator.Single? && t.operator.tok.tid == KwOr
      && !t.left.EmptyNode? && L2(t.left, t.operator.tok, inTernary)
      && G3(t.right, next, inTernary)
    else G3(t, next, inTernary)
  }

  predicate G3(t: Node, next: Token, inTernary: bool)
    decreases t, 7
  {
    L3(t, next, inTernary) && next.tid != KwAnd
  }

  predicate L3(t: Node, next: Token, inTernary: bool)
    decreases t, 6
  {
    if t.BinaryNode? && t.binary == AndOp then
      && t.operator.Single? && t.operator.tok.tid == KwAnd
      && !t.left.EmptyNode? && L3(t.left, t.operator.tok, inTernary)
      && G4(t.right, next, inTernary)
    else G4(t, next, inTernary)
  }

  /** The operator tokens of a comparison agree with its type. */
  predicate ComparisonTokens(ctype: Comparison, operator: Operator) {
    match operator
    case Single(tok) => IsComparison(tok.tid) && ctype == ComparisonOf(tok.tid)
    case NotIn(notTok, inTok) => notTok.tid == KwNot && inTok.tid == KwIn && ctype == CmpNotIn
  }

  predicate G4(t: Node, next: Token, inTernary: bool)
    decreases t, 5
  {
    if t.BinaryNode? && t.binary.CompareOp? then
      && ComparisonTokens(t.binary.ctype, t.operator)
      && G5(t.left, t.operator.First(), inTernary)
      && G5(t.right, next, inTernary)
    else G5(t, next, inTernary) && !IsComparison(next.tid) && next.tid != KwNot
  }

  predicate G5(t: Node, next: Token, inTernary: bool)
    decreases t, 4
  {
    L5(t, next, inTernary) && !IsAddSub(next.tid)
  }

  predicate IsSum(t: Node) { t.BinaryNode? && (t.binary == ArithmeticOp(OpAdd) || t.binary == ArithmeticOp(OpSub)) }

  predicate L5(t: Node, next: Token, inTernary: bool)
    decreases t, 3
  {
    if IsSum(t) then
      && t.operator.Single? && IsAddSub(t.operator.tok.tid) && t.binary == ArithmeticOp(ArithOf(t.operator.tok.tid))
      && L5(t.left, t.operator.tok, inTernary)
      && G6(t.right, next, inTernary)
    else G6(t, next, inTernary)
  }

  predicate G6(t: Node, next: Token, inTernary: bool)
    decreases t, 2
  {
    L6(t, next, inTernary) && !IsMulDiv(next.tid)
  }

  predicate L6(t: Node, next: Token, inTernary: bool)
    decreases t, 1
  {
    if t.BinaryNode? then
      && t.operator.Single? && IsMulDiv(t.operator.tok.tid) && t.binary == ArithmeticOp(ArithOf(t.operator.tok.tid))
      && L6(t.left, t.operator.tok, inTernary)
      && G7(t.right, next, inTernary)
    else G7(t, next, inTernary)
  }

  predicate G7(t: Node, next: Token, inTernary: bool)
    decreases t, 0, 3
  {
    if t.UnaryNode? then
      t.op.tid == (if t.unary == NotOp then KwNot else Dash) && G8(t.value, next, inTernary)
    else G8(t, next, inTernary) && (t.EmptyNode? ==> next.tid != KwNot && next.tid != Dash)
  }

  predicate G8(t: Node, next: Token, inTernary: bool)
    decreases t, 0, 2
  {
    L8(t, next, inTernary) && next.tid != Dot && next.tid != LBracket
  }

  predicate L8(t: Node, next: Token, inTernary: bool)
    decreases t, 0, 1
  {
    if t.FunctionNode? || t.MethodNode? then
      && t.name.tid == Id && t.lpar.tid == LParen && t.rpar.tid == RParen
      && GArgs(t.args, t.lpar, t.rpar, inTernary, false)
      && (t.MethodNode? ==> t.dot.tid == Dot && L8(t.source, t.dot, inTernary))
    else if t.IndexNode? then
      && t.open.tid == LBracket && t.close.tid == RBracket
      && L8(t.source, t.open, inTernary)
      && G1(t.index, t.close, inTernary)
    else G9(t, next, inTernary) && next.tid != LParen
  }

  /** A leaf holds a token of its own kind. */
  predicate LeafToken(kind: Leaf, t: Tid) {
    match kind
    case BooleanLeaf => t == KwTrue || t == KwFalse
    case IdLeaf => t == Id
    case NumberLeaf => t == Number
    case StringLeaf => IsString(t)
  }

  predicate G9(t: Node, next: Token, inTernary: bool)
    decreases t, 0, 0
  {
    if t.ParenthesizedNode? then
      t.lpar.tid == LParen && t.rpar.tid == RParen && G1(t.inner, t.rpar, inTernary)
    else if t.CollectionNode? then
      && t.open.tid == (if t.dict then LCurl else LBracket)
      && t.close.tid == (if t.dict then RCurl else RBracket)
      && GArgs(t.args, t.open, t.close, inTernary, t.dict)
    else if t.LeafNode? then LeafToken(t.kind, t.tok.tid)
    else t.EmptyNode? && t.at == next && !StartsOperand(next.tid)
  }

  /** The last item, followed by `next`. Keys are plain ids, or any expression in a dictionary. */
  predicate GLast(items: Items, next: Token, inTernary: bool, dict: bool)
    requires !items.NoItems?
    decreases items, 0
  {
    if items.Positional? then
      !dict && !items.init.Keyword? && !items.node.EmptyNode? && G1(items.node, next, inTernary)
    else
      && (if dict then !items.key.EmptyNode? else items.key.IsId())
      && G1(items.key, items.colon, inTernary) && items.colon.tid == Colon
      && G1(items.value, next, inTernary)
  }

  /** Items that are each followed by their comma, positional ones first. */
  predicate GItems(items: Items, commas: TokenList, open: Token, inTernary: bool, dict: bool)
    decreases items, 1
  {
    if items.NoItems? then items.open == open && commas.NoTokens?
    else
      && commas.AddToken? && commas.last.tid == Comma
      && GLast(items, commas.last, inTernary, dict)
      && GItems(items.init, commas.init, open, inTernary, dict)
  }

  /** Argument lists and, with `dict`, the entries of a dictionary: a comma follows
      every item but perhaps the last, and no positional item follows a keyword one. */
  predicate GArgs(a: ArgumentNode, open: Token, next: Token, inTernary: bool, dict: bool)
    decreases a
  {
    && !a.orderError
    && (if a.Complete() then GItems(a.items, a.commas, open, inTernary, dict) && Stops(next.tid)
        else
          && !a.items.NoItems?
          && GItems(a.items.init, a.commas, open, inTernary, dict)
          && GLast(a.items, next, inTernary, dict)
          && next.tid != Comma && (a.items.Positional? ==> next.tid != Colon))
  }

  /** No argument list of the tree has a positional argument after a keyword one. */
  predicate Ordered(t: Node)
    decreases t
  {
    match t
    case EmptyNode(_) => true
    case LeafNode(_, _) => true
    case ParenthesizedNode(_, inner, _) => Ordered(inner)
    case CollectionNode(_, _, args, _) => OrderedArgs(args)
    case FunctionNode(_, _, args, _) => OrderedArgs(args)
    case MethodNode(source, _, _, _, args, _) => Ordered(source) && OrderedArgs(args)
    case IndexNode(source, _, index, _) => Ordered(source) && Ordered(index)
    case UnaryNode(_, _, value) => Ordered(value)
    case BinaryNode(_, left, _, right) => Ordered(left) && Ordered(right)
    case AssignmentNode(_, _, _, value) => Ordered(value)
    case TernaryNode(condition, _, trueblock, _, falseblock) =>
      Ordered(condition) && Ordered(trueblock) && Ordered(falseblock)
  }

  predicate OrderedArgs(a: ArgumentNode)
    decreases a
  {
    !a.orderError && OrderedItems(a.items)
  }

  predicate OrderedItems(items: Items)
    decreases items
  {
    if items.NoItems? then true
    else if items.Positional? then Ordered(items.node) && OrderedItems(items.init)
    else Ordered(items.key) && Ordered(items.value) && OrderedItems(items.init)
  }

  /** No ternary, at any depth and however parenthesised, lies inside a branch of another;
      `inTernary` says that the tree itself is inside a branch. */
  predicate Disciplined(t: Node, inTernary: bool)
    decreases t
  {
    match t
    case EmptyNode(_) => true
    case LeafNode(_, _) => true
    case ParenthesizedNode(_, inner, _) => Disciplined(inner, inTernary)
    case CollectionNode(_, _, args, _) => DisciplinedArgs(args, inTernary)
    case FunctionNode(_, _, args, _) => DisciplinedArgs(args, inTernary)
    case MethodNode(source, _, _, _, args, _) => Disciplined(source, inTernary) && DisciplinedArgs(args, inTernary)
    case IndexNode(source, _, index, _) => Disciplined(source, inTernary) && Disciplined(index, inTernary)
    case UnaryNode(_, _, value) => Disciplined(value, inTernary)
    case BinaryNode(_, left, _, right) => Disciplined(left, inTernary) && Disciplined(right, inTernary)
    case AssignmentNode(_, _, _, value) => Disciplined(value, inTernary)
    case TernaryNode(condition, _, trueblock, _, falseblock) =>
      !inTernary && Disciplined(condition, false) && Disciplined(trueblock, true) && Disciplined(falseblock, true)
  }

  predicate DisciplinedArgs(a: ArgumentNode, inTernary: bool)
    decreases a
  {
    DisciplinedItems(a.items, inTernary)
  }

  predicate DisciplinedItems(items: Items, inTernary: bool)
    decreases items
  {
    if items.NoItems? then true
    else if items.Positional? then Disciplined(items.node, inTernary) && DisciplinedItems(items.init, inTernary)
    else
      && Disciplined(items.key, inTernary) && Disciplined(items.value, inTernary)
      && DisciplinedItems(items.init, inTernary)
  }
}
