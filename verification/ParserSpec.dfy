/**
 The recursive-descent parser as functions on the significant tokens (all but
 whitespace and comments). Each function mirrors one parser method; a `while`
 loop of the original becomes a `...Loop` function. The methods of class `Parser`
 are proved to compute exactly these functions.
 */
module ParserSpec {
  import opened Tokens
  import opened Ast

  datatype ParseError =
    | Expecting(wanted: Tid, got: Tid)
    | PlusAssignmentTarget | AssignmentTarget | NestedTernary | InvalidOr | InvalidAnd
    | CallOnNonId | FloatNumber | MethodNameNotId | DictNeedsPairs | KeywordNotId

  /** A parsed node, the tokens left, and the number of operator-position `not` tokens
      that were accepted and thrown away on the way. */
  datatype Parsed = Ok(node: Node, rest: Stream, lost: nat) | Err(error: ParseError)

  datatype ParsedArgs = OkArgs(args: ArgumentNode, rest: Stream, lost: nat) | ErrArgs(error: ParseError)

  predicate IsString(t: Tid) { t == Str || t == FStr || t == MultilineStr || t == MultilineFStr }

  /** Kinds accepted by the comparison table; `not in` is handled apart. */
  predicate IsComparison(t: Tid) {
    t == Equal || t == NEqual || t == Lt || t == Le || t == Gt || t == Ge || t == KwIn
  }

  function ComparisonOf(t: Tid): Comparison
    requires IsComparison(t)
  {
    match t
    case Equal => CmpEq
    case NEqual => CmpNe
    case Lt => CmpLt
    case Le => CmpLe
    case Gt => CmpGt
    case Ge => CmpGe
    case KwIn => CmpIn
  }

  predicate IsAddSub(t: Tid) { t == Plus || t == Dash }

  predicate IsMulDiv(t: Tid) { t == Percent || t == Star || t == FSlash }

  function ArithOf(t: Tid): ArithOp
    requires IsAddSub(t) || IsMulDiv(t)
  {
    match t
    case Plus => OpAdd
    case Dash => OpSub
    case Percent => OpMod
    case Star => OpMul
    case FSlash => OpDiv
  }

  /** No operator stands at the end of a stream. */
  lemma OperatorThere(toks: Stream)
    requires IsComparison(Peek(toks)) || IsAddSub(Peek(toks)) || IsMulDiv(Peek(toks))
    ensures toks.More?
  {
  }

  /** Assignment, plus-assignment and the ternary operator. */
  function E1(toks: Stream, inTernary: bool): (r: Parsed)
    ensures r.Ok? ==> Size(r.rest) <= Size(toks)
    decreases Size(toks), 12
  {
    var left := E2(toks, inTernary);
    if left.Err? then left else E1Rest(left.node, left.rest, left.lost, inTernary)
  }

  function E1Rest(left: Node, toks: Stream, lost: nat, inTernary: bool): (r: Parsed)
    ensures r.Ok? ==> Size(r.rest) <= Size(toks)
    decreases Size(toks), 0
  {
    if Peek(toks) == PlusAssign then Assigned(true, left, toks.head, toks.tail, lost, inTernary)
    else if Peek(toks) == Assign then Assigned(false, left, toks.head, toks.tail, lost, inTernary)
    else if Peek(toks) == Question then
      if inTernary then Err(NestedTernary) else TrueBlock(left, toks.head, toks.tail, lost)
    else Ok(left, toks, lost)
  }

  /** The value of an assignment; its target is checked afterwards. */
  function Assigned(plus: bool, left: Node, op: Token, toks: Stream, lost: nat, inTernary: bool): (r: Parsed)
    ensures r.Ok? ==> Size(r.rest) <= Size(toks)
    decreases Size(toks), 13
  {
    var value := E1(toks, inTernary);
    if value.Err? then value
    else if !left.IsId() then Err(if plus then PlusAssignmentTarget else AssignmentTarget)
    else Ok(AssignmentNode(plus, left.tok, op, value.node), value.rest, lost + value.lost)
  }

  function TrueBlock(condition: Node, q: Token, toks: Stream, lost: nat): (r: Parsed)
    ensures r.Ok? ==> Size(r.rest) <= Size(toks)
    decreases Size(toks), 13
  {
    var yes := E1(toks, true);
    if yes.Err? then yes
    else if Peek(yes.rest) != Colon then Err(Expecting(Colon, Peek(yes.rest)))
    else FalseBlock(condition, q, yes.node, yes.rest.head, yes.rest.tail, lost + yes.lost)
  }

  function FalseBlock(condition: Node, q: Token, trueblock: Node, colon: Token, toks: Stream, lost: nat): (r: Parsed)
    ensures r.Ok? ==> Size(r.rest) <= Size(toks)
    decreases Size(toks), 13
  {
    var no := E1(toks, true);
    if no.Err? then no
    else Ok(TernaryNode(condition, q, trueblock, colon, no.node), no.rest, lost + no.lost)
  }

  /** `or`, left-associative. */
  function E2(toks: Stream, inTernary: bool): (r: Parsed)
    ensures r.Ok? ==> Size(r.rest) <= Size(toks)
    decreases Size(toks), 10
  {
    var left := E3(toks, inTernary);
    if left.Err? then left else E2Loop(left.node, left.rest, left.lost, inTernary)
  }

  function E2Loop(left: Node, toks: Stream, lost: nat, inTernary: bool): (r: Parsed)
    ensures r.Ok? ==> Size(r.rest) <= Size(toks)
    decreases Size(toks), 0
  {
    if Peek(toks) != KwOr then Ok(left, toks, lost)
    else if left.EmptyNode? then Err(InvalidOr)
    else
      var right := E3(toks.tail, inTernary);
      if right.Err? then right
      else E2Loop(BinaryNode(OrOp, left, Single(toks.head), right.node), right.rest, lost + right.lost, inTernary)
  }

  /** `and`, left-associative. */
  function E3(toks: Stream, inTernary: bool): (r: Parsed)
    ensures r.Ok? ==> Size(r.rest) <= Size(toks)
    decreases Size(toks), 9
  {
    var left := E4(toks, inTernary);
    if left.Err? then left else E3Loop(left.node, left.rest, left.lost, inTernary)
  }

  function E3Loop(left: Node, toks: Stream, lost: nat, inTernary: bool): (r: Parsed)
    ensures r.Ok? ==> Size(r.rest) <= Size(toks)
    decreases Size(toks), 0
  {
    if Peek(toks) != KwAnd then Ok(left, toks, lost)
    else if left.EmptyNode? then Err(InvalidAnd)
    else
      var right := E4(toks.tail, inTernary);
      if right.Err? then right
      else E3Loop(BinaryNode(AndOp, left, Single(toks.head), right.node), right.rest, lost + right.lost, inTernary)
  }

  /** Comparisons, not associative. A `not` that is not followed by `in` is accepted and dropped. */
  function E4(toks: Stream, inTernary: bool): (r: Parsed)
    ensures r.Ok? ==> Size(r.rest) <= Size(toks)
    decreases Size(toks), 8
  {
    var left := E5(toks, inTernary);
    if left.Err? then left else E4Rest(left.node, left.rest, left.lost, inTernary)
  }

  function E4Rest(left: Node, toks: Stream, lost: nat, inTernary: bool): (r: Parsed)
    ensures r.Ok? ==> Size(r.rest) <= Size(toks)
    decreases Size(toks), 0
  {
    if IsComparison(Peek(toks)) then
      E4Right(CompareOp(ComparisonOf(Peek(toks))), left, Single(toks.head), toks.tail, lost, inTernary)
    else if Peek(toks) == KwNot then
      assert Size(toks) == 1 + Size(toks.tail);
      if Peek(toks.tail) == KwIn then
        E4Right(CompareOp(CmpNotIn), left, NotIn(toks.head, toks.tail.head), toks.tail.tail, lost, inTernary)
      else Ok(left, toks.tail, lost + 1)
    else Ok(left, toks, lost)
  }

  /** The right operand of a comparison. */
  function E4Right(op: BinaryOp, left: Node, operator: Operator, toks: Stream, lost: nat, inTernary: bool): (r: Parsed)
    ensures r.Ok? ==> Size(r.rest) <= Size(toks)
    decreases Size(toks), 8
  {
    var right := E5(toks, inTernary);
    if right.Err? then right
    else Ok(BinaryNode(op, left, operator, right.node), right.rest, lost + right.lost)
  }

  /** `+` and `-`, left-associative. */
  function E5(toks: Stream, inTernary: bool): (r: Parsed)
    ensures r.Ok? ==> Size(r.rest) <= Size(toks)
    decreases Size(toks), 7
  {
    var left := E6(toks, inTernary);
    if left.Err? then left else E5Loop(left.node, left.rest, left.lost, inTernary)
  }

  function E5Loop(left: Node, toks: Stream, lost: nat, inTernary: bool): (r: Parsed)
    ensures r.Ok? ==> Size(r.rest) <= Size(toks)
    decreases Size(toks), 0
  {
    if !IsAddSub(Peek(toks)) then Ok(left, toks, lost)
    else
      var right := E6(toks.tail, inTernary);
      if right.Err? then right
      else E5Loop(BinaryNode(ArithmeticOp(ArithOf(Peek(toks))), left, Single(toks.head), right.node), right.rest,
                  lost + right.lost, inTernary)
  }

  /** `%`, `*` and `/`, left-associative. */
  function E6(toks: Stream, inTernary: bool): (r: Parsed)
    ensures r.Ok? ==> Size(r.rest) <= Size(toks)
    decreases Size(toks), 6
  {
    var left := E7(toks, inTernary);
    if left.Err? then left else E6Loop(left.node, left.rest, left.lost, inTernary)
  }

  function E6Loop(left: Node, toks: Stream, lost: nat, inTernary: bool): (r: Parsed)
    ensures r.Ok? ==> Size(r.rest) <= Size(toks)
    decreases Size(toks), 0
  {
    if !IsMulDiv(Peek(toks)) then Ok(left, toks, lost)
    else
      var right := E7(toks.tail, inTernary);
      if right.Err? then right
      else E6Loop(BinaryNode(ArithmeticOp(ArithOf(Peek(toks))), left, Single(toks.head), right.node), right.rest,
                  lost + right.lost, inTernary)
  }

  /** Unary `not` and `-`, over a call-level operand only. */
  function E7(toks: Stream, inTernary: bool): (r: Parsed)
    ensures r.Ok? ==> Size(r.rest) <= Size(toks)
    decreases Size(toks), 5
  {
    if Peek(toks) == KwNot || Peek(toks) == Dash then
      var value := E8(toks.tail, inTernary);
      if value.Err? then value
      else Ok(UnaryNode(if Peek(toks) == KwNot then NotOp else MinusOp, toks.head, value.node), value.rest, value.lost)
    else E8(toks, inTernary)
  }

  /** A call on a plain id, then any chain of method calls and indexings. */
  function E8(toks: Stream, inTernary: bool): (r: Parsed)
    ensures r.Ok? ==> Size(r.rest) <= Size(toks)
    decreases Size(toks), 4
  {
    var left := E9(toks, inTernary);
    if left.Err? then left
    else if Peek(left.rest) == LParen then Call(left.node, left.rest.head, left.rest.tail, left.lost, inTernary)
    else E8Loop(left.node, left.rest, left.lost, inTernary)
  }

  /** The arguments of a call; that it is applied to a plain id is checked afterwards. */
  function Call(left: Node, lpar: Token, toks: Stream, lost: nat, inTernary: bool): (r: Parsed)
    ensures r.Ok? ==> Size(r.rest) <= Size(toks)
    decreases Size(toks), 15
  {
    var args := ParseItems(lpar, toks, inTernary, false);
    if args.ErrArgs? then Err(args.error)
    else if Peek(args.rest) != RParen then Err(Expecting(RParen, Peek(args.rest)))
    else if !left.IsId() then Err(CallOnNonId)
    else E8Loop(FunctionNode(left.tok, lpar, args.args, args.rest.head), args.rest.tail, lost + args.lost, inTernary)
  }

  function E8Loop(left: Node, toks: Stream, lost: nat, inTernary: bool): (r: Parsed)
    ensures r.Ok? ==> Size(r.rest) <= Size(toks)
    decreases Size(toks), 1
  {
    if Peek(toks) == Dot then
      var call := MethodCall(left, toks.head, toks.tail, lost, inTernary);
      if call.Err? then call else E8Index(call.node, call.rest, call.lost, true, inTernary)
    else E8Index(left, toks, lost, false, inTernary)
  }

  /** The second half of the loop body: an indexing, and the decision to go again. */
  function E8Index(left: Node, toks: Stream, lost: nat, goAgain: bool, inTernary: bool): (r: Parsed)
    ensures r.Ok? ==> Size(r.rest) <= Size(toks)
    decreases Size(toks), if goAgain then 2 else 0
  {
    if Peek(toks) == LBracket then
      var index := IndexCall(left, toks.head, toks.tail, lost, inTernary);
      if index.Err? then index else E8Loop(index.node, index.rest, index.lost, inTernary)
    else if goAgain then E8Loop(left, toks, lost, inTernary)
    else Ok(left, toks, lost)
  }

  /** The rest of a method call after its dot. */
  function MethodCall(source: Node, dot: Token, toks: Stream, lost: nat, inTernary: bool): (r: Parsed)
    ensures r.Ok? ==> Size(r.rest) <= Size(toks)
    decreases Size(toks), 1
  {
    var name := E10(toks);
    if !name.node.IsId() then
      Err(if source.IsNumber() && name.node.IsNumber() then FloatNumber else MethodNameNotId)
    else if Peek(name.rest) != LParen then Err(Expecting(LParen, Peek(name.rest)))
    else MethodArgs(source, dot, name.node.tok, name.rest.head, name.rest.tail, lost, inTernary)
  }

  /** The arguments of a method call, and any further calls chained to it by dots. */
  function MethodArgs(source: Node, dot: Token, name: Token, lpar: Token, toks: Stream, lost: nat, inTernary: bool)
    : (r: Parsed)
    ensures r.Ok? ==> Size(r.rest) <= Size(toks)
    decreases Size(toks), 15
  {
    var args := ParseItems(lpar, toks, inTernary, false);
    if args.ErrArgs? then Err(args.error)
    else if Peek(args.rest) != RParen then Err(Expecting(RParen, Peek(args.rest)))
    else
      var call := MethodNode(source, dot, name, lpar, args.args, args.rest.head);
      var more := args.rest.tail;
      assert Size(args.rest) == 1 + Size(more);
      if Peek(more) == Dot then MethodCall(call, more.head, more.tail, lost + args.lost, inTernary)
      else Ok(call, more, lost + args.lost)
  }

  /** The rest of an indexing after its left bracket. */
  function IndexCall(source: Node, open: Token, toks: Stream, lost: nat, inTernary: bool): (r: Parsed)
    ensures r.Ok? ==> Size(r.rest) < Size(toks)
    decreases Size(toks), 13
  {
    var index := E1(toks, inTernary);
    if index.Err? then index
    else if Peek(index.rest) != RBracket then Err(Expecting(RBracket, Peek(index.rest)))
    else Ok(IndexNode(source, open, index.node, index.rest.head), index.rest.tail, lost + index.lost)
  }

  /** Parentheses, arrays and dictionaries. */
  function E9(toks: Stream, inTernary: bool): (r: Parsed)
    ensures r.Ok? ==> Size(r.rest) <= Size(toks)
    decreases Size(toks), 3
  {
    if Peek(toks) == LParen then Parentheses(toks.head, toks.tail, inTernary)
    else if Peek(toks) == LBracket then Collection(false, toks.head, toks.tail, inTernary)
    else if Peek(toks) == LCurl then Collection(true, toks.head, toks.tail, inTernary)
    else E10(toks)
  }

  function Parentheses(lpar: Token, toks: Stream, inTernary: bool): (r: Parsed)
    ensures r.Ok? ==> Size(r.rest) <= Size(toks)
    decreases Size(toks), 13
  {
    var inner := E1(toks, inTernary);
    if inner.Err? then inner
    else if Peek(inner.rest) != RParen then Err(Expecting(RParen, Peek(inner.rest)))
    else Ok(ParenthesizedNode(lpar, inner.node, inner.rest.head), inner.rest.tail, inner.lost)
  }

  function Collection(dict: bool, open: Token, toks: Stream, inTernary: bool): (r: Parsed)
    ensures r.Ok? ==> Size(r.rest) <= Size(toks)
    decreases Size(toks), 15
  {
    var args := ParseItems(open, toks, inTernary, dict);
    var close := if dict then RCurl else RBracket;
    if args.ErrArgs? then Err(args.error)
    else if Peek(args.rest) != close then Err(Expecting(close, Peek(args.rest)))
    else Ok(CollectionNode(dict, open, args.args, args.rest.head), args.rest.tail, args.lost)
  }

  /** A plain token, or the empty node when no operand starts here. */
  function E10(toks: Stream): (r: Parsed)
    ensures r.Ok? && r.lost == 0 && Size(r.rest) <= Size(toks)
  {
    var t := Peek(toks);
    if t == KwTrue || t == KwFalse then Ok(LeafNode(BooleanLeaf, toks.head), toks.tail, 0)
    else if t == Id then Ok(LeafNode(IdLeaf, toks.head), toks.tail, 0)
    else if t == Number then Ok(LeafNode(NumberLeaf, toks.head), toks.tail, 0)
    else if IsString(t) then Ok(LeafNode(StringLeaf, toks.head), toks.tail, 0)
    else Ok(EmptyNode(Current(toks)), toks, 0)
  }

  /** A name is read exactly where there is one. */
  lemma NameRead(toks: Stream)
    ensures var r := E10(toks);
            && (r.node.IsId() <==> Peek(toks) == Id)
            && (r.node.IsId() ==> toks == More(r.node.tok, r.rest))
  {
  }

  /** Positional and keyword arguments of a call, the elements of an array or,
      with `dict`, the entries of a dictionary. */
  function ParseItems(open: Token, toks: Stream, inTernary: bool, dict: bool): (r: ParsedArgs)
    ensures r.OkArgs? ==> Size(r.rest) <= Size(toks)
    decreases Size(toks), 14
  {
    ItemsNext(ArgumentNode(NoItems(open), NoTokens, false), toks, 0, inTernary, dict)
  }

  /** Reads the next statement and goes on with the loop. */
  function ItemsNext(a: ArgumentNode, toks: Stream, lost: nat, inTernary: bool, dict: bool): (r: ParsedArgs)
    ensures r.OkArgs? ==> Size(r.rest) <= Size(toks)
    decreases Size(toks), 13
  {
    var s := E1(toks, inTernary);
    if s.Err? then ErrArgs(s.error) else ItemsLoop(a, s.node, s.rest, lost + s.lost, inTernary, dict)
  }

  function ItemsLoop(a: ArgumentNode, s: Node, toks: Stream, lost: nat, inTernary: bool, dict: bool): (r: ParsedArgs)
    ensures r.OkArgs? ==> Size(r.rest) <= Size(toks)
    decreases Size(toks), 0
  {
    if s.EmptyNode? then OkArgs(a, toks, lost)
    else if Peek(toks) == Colon then
      if !dict && !s.IsId() then ErrArgs(KeywordNotId)
      else KeywordItem(a, s, toks.head, toks.tail, lost, inTernary, dict)
    else if dict then ErrArgs(DictNeedsPairs)
    else if Peek(toks) == Comma then ItemsNext(a.AddComma(toks.head).Append(s), toks.tail, lost, inTernary, dict)
    else OkArgs(a.Append(s), toks, lost)
  }

  /** An empty statement ends the loop. */
  lemma ItemsEnd(a: ArgumentNode, s: Node, toks: Stream, lost: nat, inTernary: bool, dict: bool)
    requires s.EmptyNode?
    ensures ItemsLoop(a, s, toks, lost, inTernary, dict) == OkArgs(a, toks, lost)
  {
  }

  /** The value of a keyword item, and the comma after it. */
  function KeywordItem(a: ArgumentNode, key: Node, colon: Token, toks: Stream, lost: nat, inTernary: bool, dict: bool)
    : (r: ParsedArgs)
    ensures r.OkArgs? ==> Size(r.rest) <= Size(toks)
    decreases Size(toks), 13
  {
    var value := E1(toks, inTernary);
    if value.Err? then ErrArgs(value.error)
    else
      var a' := a.SetKwarg(key, colon, value.node);
      if Peek(value.rest) != Comma then OkArgs(a', value.rest, lost + value.lost)
      else ItemsNext(a'.AddComma(value.rest.head), value.rest.tail, lost + value.lost, inTernary, dict)
  }
}
