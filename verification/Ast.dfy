/**
 Syntax trees of the Meson language. As in the original, trees keep every
 parenthesis, comma, colon and operator, so a tree can be printed back.
 Classes that differ only in a kind share a constructor here: the elementary
 nodes, the unary and binary operators, the two assignments, arrays and dicts.
 */
module Ast {
  import opened Tokens

  datatype Leaf = BooleanLeaf | IdLeaf | NumberLeaf | StringLeaf
  datatype Comparison = CmpEq | CmpNe | CmpLt | CmpLe | CmpGt | CmpGe | CmpIn | CmpNotIn
  datatype ArithOp = OpAdd | OpSub | OpMod | OpMul | OpDiv
  datatype BinaryOp = OrOp | AndOp | CompareOp(ctype: Comparison) | ArithmeticOp(operation: ArithOp)
  datatype UnaryOp = NotOp | MinusOp

  /** The operator of a binary node: one token, or the two tokens of `not in`. */
  datatype Operator = Single(tok: Token) | NotIn(notTok: Token, inTok: Token) {
    function First(): Token { if Single? then tok else notTok }
  }

  datatype Node =
    | EmptyNode(at: Token)
    | LeafNode(kind: Leaf, tok: Token)
    | ParenthesizedNode(lpar: Token, inner: Node, rpar: Token)
    | CollectionNode(dict: bool, open: Token, args: ArgumentNode, close: Token)
    | FunctionNode(name: Token, lpar: Token, args: ArgumentNode, rpar: Token)
    | MethodNode(source: Node, dot: Token, name: Token, lpar: Token, args: ArgumentNode, rpar: Token)
    | IndexNode(source: Node, open: Token, index: Node, close: Token)
    | UnaryNode(unary: UnaryOp, op: Token, value: Node)
    | BinaryNode(binary: BinaryOp, left: Node, operator: Operator, right: Node)
    | AssignmentNode(plus: bool, target: Token, op: Token, value: Node)
    | TernaryNode(condition: Node, questionmark: Token, trueblock: Node, colon: Token, falseblock: Node)
  {
    predicate IsId() { LeafNode? && kind == IdLeaf }
    predicate IsNumber() { LeafNode? && kind == NumberLeaf }
  }

  /** The items of an argument list, the last one outermost: positional arguments, then keyword
      arguments. The original keeps the two kinds in a list and a dictionary of their own, so
      their relative order is not recorded. Its dictionary compares keys with their positions:
      two entries are never merged, and insertion order is kept. `open` is the opening token. */
  datatype Items =
    | NoItems(open: Token)
    | Positional(init: Items, node: Node)
    | Keyword(init: Items, key: Node, colon: Token, value: Node)

  datatype TokenList = NoTokens | AddToken(init: TokenList, last: Token)

  function CountItems(items: Items): nat { if items.NoItems? then 0 else CountItems(items.init) + 1 }
  function CountTokens(ts: TokenList): nat { if ts.NoTokens? then 0 else CountTokens(ts.init) + 1 }

  /** Adds a positional argument behind the positional ones, so before all keyword ones. */
  function AddPositional(items: Items, s: Node): Items {
    if items.Keyword? then items.(init := AddPositional(items.init, s)) else Positional(items, s)
  }

  datatype ArgumentNode = ArgumentNode(items: Items, commas: TokenList, orderError: bool) {
    /** Every item so far is followed by a comma. */
    predicate Complete() { CountTokens(commas) == CountItems(items) }

    /** A positional argument after a keyword argument raises the order flag. */
    function Append(s: Node): ArgumentNode {
      this.(items := AddPositional(items, s), orderError := orderError || items.Keyword?)
    }

    function SetKwarg(key: Node, colon: Token, value: Node): ArgumentNode {
      this.(items := Keyword(items, key, colon, value))
    }

    function AddComma(c: Token): ArgumentNode {
      this.(commas := AddToken(commas, c))
    }
  }

  /** The tokens of `t`, in order, in front of `rest`. */
  function Print(t: Node, rest: Stream): Stream
    decreases t
  {
    match t
    case EmptyNode(_) => rest
    case LeafNode(_, tok) => More(tok, rest)
    case ParenthesizedNode(lpar, inner, rpar) => More(lpar, Print(inner, More(rpar, rest)))
    case CollectionNode(_, open, args, close) => More(open, PrintArgs(args, More(close, rest)))
    case FunctionNode(name, lpar, args, rpar) => More(name, More(lpar, PrintArgs(args, More(rpar, rest))))
    case MethodNode(source, dot, name, lpar, args, rpar) =>
      Print(source, More(dot, More(name, More(lpar, PrintArgs(args, More(rpar, rest))))))
    case IndexNode(source, open, index, close) => Print(source, More(open, Print(index, More(close, rest))))
    case UnaryNode(_, op, value) => More(op, Print(value, rest))
    case BinaryNode(_, left, operator, right) => Print(left, PrintOperator(operator, Print(right, rest)))
    case AssignmentNode(_, target, op, value) => More(target, More(op, Print(value, rest)))
    case TernaryNode(condition, questionmark, trueblock, colon, falseblock) =>
      Print(condition, More(questionmark, Print(trueblock, More(colon, Print(falseblock, rest)))))
  }

  function PrintOperator(operator: Operator, rest: Stream): Stream {
    match operator
    case Single(tok) => More(tok, rest)
    case NotIn(notTok, inTok) => More(notTok, More(inTok, rest))
  }

  /** An argument list: a comma after each item but perhaps the last. */
  function PrintArgs(a: ArgumentNode, rest: Stream): Stream
    decreases a
  {
    if a.Complete() || a.items.NoItems? then PrintItems(a.items, a.commas, rest)
    else PrintItems(a.items.init, a.commas, PrintLast(a.items, rest))
  }

  /** The last item alone. */
  function PrintLast(items: Items, rest: Stream): Stream
    requires !items.NoItems?
    decreases items, 0
  {
    if items.Positional? then Print(items.node, rest)
    else Print(items.key, More(items.colon, Print(items.value, rest)))
  }

  /** Items that are each followed by their comma. */
  function PrintItems(items: Items, commas: TokenList, rest: Stream): Stream
    decreases items, 1
  {
    if items.NoItems? then rest
    else if commas.NoTokens? then PrintItems(items.init, commas, PrintLast(items, rest))
    else PrintItems(items.init, commas.init, PrintLast(items, More(commas.last, rest)))
  }
}
