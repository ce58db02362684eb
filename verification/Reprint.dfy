/**
 A printed tree has no misplaced argument, because positional arguments are
 printed first.
 */
module Reprint {
  import opened Tokens
  import opened Ast
  import opened ParserSpec
  import opened Grammar
  import opened Misplaced

  lemma {:induction false} PrintFlagged(n: Lists, t: Node, rest: Stream)
    requires Kinds(t)
    ensures Flagged(n, Print(t, rest)) == Flagged(n, rest)
    decreases t, 0
  {
    hide Flagged;
    match t
    case EmptyNode(_) =>
    case LeafNode(kind, tok) => LeafSkips(n, kind, tok, rest);
    case ParenthesizedNode(lpar, inner, rpar) =>
      var toks := Print(inner, More(rpar, rest));
      OpenEnters(n, More(lpar, toks));
      InnerFlagged(n, inner, rpar, rest);
    case CollectionNode(dict, open, args, close) =>
      OpenEnters(n, More(open, PrintArgs(args, More(close, rest))));
      ArgsFlagged(n, args, dict, close, rest);
    case FunctionNode(name, lpar, args, rpar) => CallFlagged(n, name, lpar, args, rpar, rest);
    case MethodNode(source, dot, name, lpar, args, rpar) =>
      var toks := More(name, More(lpar, PrintArgs(args, More(rpar, rest))));
      PrintFlagged(n, source, More(dot, toks));
      WordSkips(n, More(dot, toks));
      CallFlagged(n, name, lpar, args, rpar, rest);
    case IndexNode(source, open, index, close) =>
      var toks := Print(index, More(close, rest));
      PrintFlagged(n, source, More(open, toks));
      OpenEnters(n, More(open, toks));
      InnerFlagged(n, index, close, rest);
    case UnaryNode(_, op, value) =>
      WordSkips(n, More(op, Print(value, rest)));
      PrintFlagged(n, value, rest);
    case BinaryNode(_, left, operator, right) =>
      PrintFlagged(n, left, PrintOperator(operator, Print(right, rest)));
      OperatorSkips(n, operator, Print(right, rest));
      PrintFlagged(n, right, rest);
    case AssignmentNode(_, target, op, value) =>
      WordSkips(n, More(target, More(op, Print(value, rest))));
      WordSkips(n, More(op, Print(value, rest)));
      PrintFlagged(n, value, rest);
    case TernaryNode(condition, q, trueblock, colon, falseblock) =>
      var no := More(colon, Print(falseblock, rest));
      PrintFlagged(n, condition, More(q, Print(trueblock, no)));
      WordSkips(n, More(q, Print(trueblock, no)));
      PrintFlagged(n, trueblock, no);
      WordSkips(n, no);
      PrintFlagged(n, falseblock, rest);
  }

  lemma LeafSkips(n: Lists, kind: Leaf, tok: Token, rest: Stream)
    requires LeafToken(kind, tok.tid)
    ensures Flagged(n, More(tok, rest)) == Flagged(n, rest)
  {
    hide Flagged;
    PlainSkips(n, More(tok, rest));
  }

  lemma OperatorSkips(n: Lists, operator: Operator, rest: Stream)
    requires KindsOperator(operator)
    ensures Flagged(n, PrintOperator(operator, rest)) == Flagged(n, rest)
  {
    hide Flagged, OperatorKind, Plain;
    if operator.Single? {
      OperatorPlain(operator.tok.tid);
      PlainSkips(n, More(operator.tok, rest));
    } else {
      NotInSkips(n, More(operator.notTok, More(operator.inTok, rest)));
    }
  }

  lemma {:induction false} InnerFlagged(n: Lists, inner: Node, close: Token, rest: Stream)
    requires Kinds(inner) && Closes(close.tid)
    ensures Entered(n, false, Print(inner, More(close, rest))) == Flagged(n, rest)
    decreases inner, 1
  {
    hide Flagged;
    var toks := Print(inner, More(close, rest));
    var inside := Item(List(false, false, false, n), toks);
    PrintFlagged(inside, inner, More(close, rest));
    CloseLeaves(inside, More(close, rest));
  }

  lemma {:induction false} CallFlagged(n: Lists, name: Token, lpar: Token, args: ArgumentNode, rpar: Token,
                                       rest: Stream)
    requires name.tid == Id && lpar.tid == LParen && KindsArgs(args, false) && rpar.tid == RParen
    ensures Flagged(n, More(name, More(lpar, PrintArgs(args, More(rpar, rest))))) == Flagged(n, rest)
    decreases args, 1
  {
    hide Flagged;
    var toks := More(lpar, PrintArgs(args, More(rpar, rest)));
    WordSkips(n, More(name, toks));
    OpenEnters(n, toks);
    ArgsFlagged(n, args, false, rpar, rest);
  }

  /** The brackets behind items that are printed in front of it. */
  function Behind(n: Lists, items: Items, dict: bool): Lists { List(dict, !dict && items.Keyword?, false, n) }

  lemma {:induction false} ArgsFlagged(n: Lists, a: ArgumentNode, dict: bool, close: Token, rest: Stream)
    requires KindsArgs(a, dict) && Closes(close.tid)
    ensures Entered(n, dict, PrintArgs(a, More(close, rest))) == Flagged(n, rest)
    decreases a, 0
  {
    hide Flagged;
    var end := More(close, rest);
    if a.Complete() || a.items.NoItems? {
      ItemsFlagged(n, a.items, a.commas, dict, end);
    } else {
      ItemsFlagged(n, a.items.init, a.commas, dict, PrintLast(a.items, end));
      LastFlagged(n, a.items, dict, end);
    }
    CloseLeaves(Behind(n, a.items, dict), end);
  }

  lemma {:induction false} ItemsFlagged(n: Lists, items: Items, commas: TokenList, dict: bool, rest: Stream)
    requires KindsItems(items, dict) && KindsCommas(commas) && CountTokens(commas) == CountItems(items)
    ensures Entered(n, dict, PrintItems(items, commas, rest)) == Flagged(Item(Behind(n, items, dict), rest), rest)
    decreases items, 2
  {
    hide Flagged;
    if !items.NoItems? {
      var next := More(commas.last, rest);
      ItemsFlagged(n, items.init, commas.init, dict, PrintLast(items, next));
      LastFlagged(n, items, dict, next);
      CommaGoesOn(Behind(n, items, dict), next);
    }
  }

  lemma {:induction false} LastFlagged(n: Lists, items: Items, dict: bool, next: Stream)
    requires !items.NoItems? && KindsItems(items, dict) && Peek(next) != Colon
    ensures var toks := PrintLast(items, next);
            Flagged(Item(Behind(n, items.init, dict), toks), toks) == Flagged(Behind(n, items, dict), next)
    decreases items, 1
  {
    hide Flagged;
    if items.Positional? {
      NoKeyword(items.node, next);
      PrintFlagged(Behind(n, items, dict), items.node, next);
    } else {
      var value := Print(items.value, next);
      PrintFlagged(Behind(n, items, dict), items.key, More(items.colon, value));
      WordSkips(Behind(n, items, dict), More(items.colon, value));
      PrintFlagged(Behind(n, items, dict), items.value, next);
    }
  }

  /** An expression in front of no colon never looks like the beginning of a keyword argument. */
  lemma {:induction false} NoKeyword(t: Node, rest: Stream)
    requires Kinds(t) && Peek(rest) != Colon && (t.EmptyNode? ==> Peek(rest) != Id)
    ensures !StartsKeyword(Print(t, rest))
    decreases t
  {
    hide Kinds, Print, StartsKeyword;
    if t.MethodNode? || t.IndexNode? || t.BinaryNode? || t.TernaryNode? {
      var left, more := Leading(t, rest);
      NoKeyword(left, more);
    } else {
      NoKeywordPlain(t, rest);
    }
  }

  /** The operand in front, and what is printed behind it. */
  lemma Leading(t: Node, rest: Stream) returns (left: Node, more: Stream)
    requires Kinds(t) && (t.MethodNode? || t.IndexNode? || t.BinaryNode? || t.TernaryNode?)
    ensures left < t && Kinds(left) && Print(t, rest) == Print(left, more) && Peek(more) != Colon && Peek(more) != Id
  {
    hide KindsArgs, PrintArgs;
    match t
    case MethodNode(source, dot, name, lpar, args, rpar) =>
      left, more := source, More(dot, More(name, More(lpar, PrintArgs(args, More(rpar, rest)))));
    case IndexNode(source, open, index, close) => left, more := source, More(open, Print(index, More(close, rest)));
    case BinaryNode(_, l, operator, right) =>
      OperatorFirst(operator, Print(right, rest));
      left, more := l, PrintOperator(operator, Print(right, rest));
    case TernaryNode(condition, q, trueblock, colon, falseblock) =>
      left, more := condition, More(q, Print(trueblock, More(colon, Print(falseblock, rest))));
  }

  lemma NoKeywordPlain(t: Node, rest: Stream)
    requires Kinds(t) && Peek(rest) != Colon && (t.EmptyNode? ==> Peek(rest) != Id)
    requires !t.MethodNode? && !t.IndexNode? && !t.BinaryNode? && !t.TernaryNode?
    ensures !StartsKeyword(Print(t, rest))
  {
    hide KindsArgs, PrintArgs;
  }

  lemma OperatorFirst(operator: Operator, rest: Stream)
    requires KindsOperator(operator)
    ensures Peek(PrintOperator(operator, rest)) != Colon && Peek(PrintOperator(operator, rest)) != Id
  {
  }
}
