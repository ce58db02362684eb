/**
 The parser itself: an object over a token stream with a cursor, the current and the previous
 token, and the flag that forbids nested ternaries. Every method computes the function of
 the same name in `ParserSpec` or `Blocks`, leaves the cursor where that function says,
 and hands back the ternary flag as it found it.
 */
module ParserObject {
  import opened Tokens
  import opened Ast
  import opened Blocks
  import opened Wrappers
  import Spec = ParserSpec

  /** A value, or the exception that the original raises. */
  datatype Outcome<T> = Success(value: T) | Failure(error: Spec.ParseError) {
    predicate IsFailure() { Failure? }
    function PropagateFailure<U>(): Outcome<U>
      requires IsFailure()
    {
      Failure(error)
    }
    function Extract(): T
      requires !IsFailure()
    {
      value
    }
  }

  predicate Skipped(t: Tid) { t == Whitespace || t == Comment }

  /** The token that stands for the end of the stream behind `last`. */
  function EofAfter(last: Token): Token {
    var width := if last.start <= last.end then last.end - last.start else 0;
    Token(Eof, last.lineStart, last.lineno, last.colno + width, 0, 0, "")
  }

  /** The significant tokens of `stream` from `pos` on, where `last` was read before. */
  ghost function Significant(stream: seq<Token>, pos: nat, last: Token): Stream
    requires pos <= |stream|
    decreases |stream| - pos
  {
    if pos == |stream| then End(EofAfter(last))
    else if Skipped(stream[pos].tid) then Significant(stream, pos + 1, stream[pos])
    else More(stream[pos], Significant(stream, pos + 1, stream[pos]))
  }

  lemma SignificantStep(stream: seq<Token>, pos: nat, last: Token)
    requires pos <= |stream|
    ensures Significant(stream, pos, last) ==
            (if pos == |stream| then End(EofAfter(last))
             else if Skipped(stream[pos].tid) then Significant(stream, pos + 1, stream[pos])
             else More(stream[pos], Significant(stream, pos + 1, stream[pos])))
    ensures EofAfter(last).tid == Eof && !Skipped(Eof)
  {
  }

  /** The token read last matters only at the end. */
  lemma SignificantLast(stream: seq<Token>, pos: nat, last: Token, other: Token)
    requires pos < |stream|
    ensures Significant(stream, pos, last) == Significant(stream, pos, other)
  {
  }

  class Parser {
    const stream: seq<Token>
    var pos: nat
    var current: Token
    var previous: Token
    var inTernary: bool

    ghost predicate Valid()
      reads this
    {
      pos <= |stream| && !Skipped(current.tid) && forall i :: 0 <= i < |stream| ==> stream[i].tid != Eof
    }

    /** The tokens still to be parsed, the current one first. */
    ghost function Rest(): Stream
      requires Valid()
      reads this
    {
      if current.tid == Eof then End(current) else More(current, Significant(stream, pos, current))
    }

    /** The object did what the specification `p` says of an expression. */
    ghost predicate Did(p: Spec.Parsed, r: Outcome<Node>)
      reads this
    {
      && Valid()
      && (if p.Ok? then r == Success(p.node) && Rest() == p.rest else r == Failure(p.error))
    }

    /** The same for one turn of a loop over operators that goes no further, or fails. */
    ghost predicate DidTurn(p: Spec.Parsed, r: Outcome<Node>, more: bool, lost: nat)
      reads this
    {
      && Valid()
      && (r.Failure? ==> p == Spec.Err(r.error))
      && (r.Success? && !more ==> p == Spec.Ok(r.value, Rest(), lost))
    }

    ghost predicate DidArgs(p: Spec.ParsedArgs, r: Outcome<ArgumentNode>)
      reads this
    {
      && Valid()
      && (if p.OkArgs? then r == Success(p.args) && Rest() == p.rest else r == Failure(p.error))
    }

    /** The same for one turn of an item loop: it ends the loop, or reads on behind a comma. */
    ghost predicate DidItem(p: Spec.ParsedArgs, r: Outcome<ArgumentNode>, more: bool, lost: nat, dict: bool)
      reads this
    {
      && Valid()
      && (if r.Failure? then p == Spec.ErrArgs(r.error)
          else if more then p == Spec.ItemsNext(r.value, Rest(), lost, inTernary, dict)
          else p == Spec.OkArgs(r.value, Rest(), lost))
    }

    constructor (tokens: seq<Token>)
      requires forall i :: 0 <= i < |tokens| ==> tokens[i].tid != Eof
      ensures Valid() && !inTernary
      ensures Rest() == Significant(tokens, 0, Token(Eof, 0, 0, 0, 0, 0, ""))
    {
      stream := tokens;
      pos := 0;
      current := Token(Eof, 0, 0, 0, 0, 0, "");
      previous := Token(Eof, 0, 0, 0, 0, 0, "");
      inTernary := false;
      new;
      GetSym();
    }

    /** Advances to the next significant token. */
    method GetSym()
      requires Valid()
      modifies this`current, this`previous, this`pos
      ensures Valid() && previous == old(current)
      ensures Rest() == Significant(stream, old(pos), old(current))
    {
      hide Significant, EofAfter, Skipped;
      previous := current;
      SignificantStep(stream, pos, current);
      if pos == |stream| {
        current := EofAfter(current);
        return;
      }
      current, pos := stream[pos], pos + 1;
      while Skipped(current.tid)
        invariant 0 < pos <= |stream| && current == stream[pos - 1] && previous == old(current)
        invariant Significant(stream, old(pos), old(current)) == Significant(stream, pos - 1, old(current))
        decreases |stream| - pos
      {
        SignificantStep(stream, pos - 1, old(current));
        SignificantStep(stream, pos, current);
        if pos == |stream| {
          current := EofAfter(current);
          return;
        }
        SignificantLast(stream, pos, current, old(current));
        current, pos := stream[pos], pos + 1;
      }
      SignificantStep(stream, pos - 1, old(current));
    }

    method Accept(t: Tid) returns (ok: bool)
      requires Valid() && t != Eof
      modifies this`current, this`previous, this`pos
      ensures Valid() && ok == (Peek(old(Rest())) == t)
      ensures if ok then More(previous, Rest()) == old(Rest()) else Rest() == old(Rest())
    {
      ok := current.tid == t;
      if ok {
        GetSym();
      }
    }

    method AcceptAny(wanted: Tid -> bool) returns (ok: bool)
      requires Valid() && !wanted(Eof)
      modifies this`current, this`previous, this`pos
      ensures Valid() && ok == wanted(Peek(old(Rest())))
      ensures if ok then More(previous, Rest()) == old(Rest()) else Rest() == old(Rest())
    {
      ok := wanted(current.tid);
      if ok {
        GetSym();
      }
    }

    method AcceptComparison() returns (ok: bool)
      requires Valid()
      modifies this`current, this`previous, this`pos
      ensures Valid() && ok == Spec.IsComparison(Peek(old(Rest())))
      ensures if ok then More(previous, Rest()) == old(Rest()) && Spec.IsComparison(previous.tid)
              else Rest() == old(Rest())
    {
      ok := AcceptAny(Spec.IsComparison);
    }

    method AcceptAddSub() returns (ok: bool)
      requires Valid()
      modifies this`current, this`previous, this`pos
      ensures Valid() && ok == Spec.IsAddSub(Peek(old(Rest())))
      ensures if ok then More(previous, Rest()) == old(Rest()) && Spec.IsAddSub(previous.tid) else Rest() == old(Rest())
    {
      ok := AcceptAny(Spec.IsAddSub);
    }

    method AcceptMulDiv() returns (ok: bool)
      requires Valid()
      modifies this`current, this`previous, this`pos
      ensures Valid() && ok == Spec.IsMulDiv(Peek(old(Rest())))
      ensures if ok then More(previous, Rest()) == old(Rest()) && Spec.IsMulDiv(previous.tid) else Rest() == old(Rest())
    {
      ok := AcceptAny(Spec.IsMulDiv);
    }

    method Expect(t: Tid) returns (r: Outcome<Token>)
      requires Valid() && t != Eof
      modifies this`current, this`previous, this`pos
      ensures Valid()
      ensures if Peek(old(Rest())) == t then r == Success(old(Rest()).head) && Rest() == old(Rest()).tail
              else r == Failure(Spec.Expecting(t, Peek(old(Rest()))))
    {
      var got := current.tid;
      var ok := Accept(t);
      r := if ok then Success(previous) else Failure(Spec.Expecting(t, got));
    }

    method E1() returns (r: Outcome<Node>)
      requires Valid()
      modifies this
      ensures Did(Spec.E1(old(Rest()), old(inTernary)), r)
      ensures r.Success? ==> inTernary == old(inTernary)
      decreases Size(Rest()), 12
    {
      hide Valid, Rest, Significant, Spec.E2;
      ghost var first := Spec.E2(Rest(), inTernary);
      var left :- E2();
      var plus := Accept(PlusAssign);
      if plus {
        r := Assigned(true, left, first.lost);
        return;
      }
      var assign := Accept(Assign);
      if assign {
        r := Assigned(false, left, first.lost);
        return;
      }
      var ternary := Accept(Question);
      if ternary {
        if inTernary {
          return Failure(Spec.NestedTernary);
        }
        r := Ternary(left, first.lost);
        return;
      }
      return Success(left);
    }

    /** The value of an assignment whose operator is the previous token. */
    method Assigned(plus: bool, left: Node, ghost lost: nat) returns (r: Outcome<Node>)
      requires Valid()
      modifies this
      ensures Did(Spec.Assigned(plus, left, old(previous), old(Rest()), lost, old(inTernary)), r)
      ensures r.Success? ==> inTernary == old(inTernary)
      decreases Size(Rest()), 13
    {
      var operator := previous;
      var value :- E1();
      if !left.IsId() {
        return Failure(if plus then Spec.PlusAssignmentTarget else Spec.AssignmentTarget);
      }
      return Success(AssignmentNode(plus, left.tok, operator, value));
    }

    /** The branches of a ternary whose question mark is the previous token. */
    method Ternary(condition: Node, ghost lost: nat) returns (r: Outcome<Node>)
      requires Valid() && !inTernary
      modifies this
      ensures Did(Spec.TrueBlock(condition, old(previous), old(Rest()), lost), r)
      ensures r.Success? ==> !inTernary
      decreases Size(Rest()), 13
    {
      hide Valid, Rest, Significant, Spec.E1, Spec.FalseBlock;
      var q := previous;
      SetTernary(true);
      ghost var yes := Spec.E1(Rest(), true);
      var trueblock :- E1();
      var colon :- Expect(Colon);
      r := OtherBranch(condition, q, trueblock, colon, lost + yes.lost);
    }

    method SetTernary(inside: bool)
      requires Valid()
      modifies this`inTernary
      ensures Valid() && Rest() == old(Rest()) && inTernary == inside
    {
      inTernary := inside;
    }

    /** The second branch of a ternary. */
    method OtherBranch(condition: Node, q: Token, trueblock: Node, colon: Token,
                       ghost lost: nat) returns (r: Outcome<Node>)
      requires Valid() && inTernary
      modifies this
      ensures Did(Spec.FalseBlock(condition, q, trueblock, colon, old(Rest()), lost), r)
      ensures r.Success? ==> !inTernary
      decreases Size(Rest()), 13
    {
      hide Valid, Rest, Significant, Spec.E1;
      var falseblock :- E1();
      SetTernary(false);
      return Success(TernaryNode(condition, q, trueblock, colon, falseblock));
    }

    method E2() returns (r: Outcome<Node>)
      requires Valid()
      modifies this
      ensures Did(Spec.E2(old(Rest()), old(inTernary)), r)
      ensures r.Success? ==> inTernary == old(inTernary)
      decreases Size(Rest()), 10
    {
      hide Valid, Rest, Significant, Spec.E3, Spec.E2Loop;
      ghost var spec := Spec.E2(Rest(), inTernary);
      ghost var first := Spec.E3(Rest(), inTernary);
      var left :- E3();
      ghost var lost: nat := first.lost;
      var more := true;
      while more
        invariant Valid() && inTernary == old(inTernary) && Size(Rest()) <= old(Size(Rest()))
        invariant spec == if more then Spec.E2Loop(left, Rest(), lost, inTernary) else Spec.Ok(left, Rest(), lost)
        decreases Size(Rest()), more
      {
        left, more, lost :- OrOperand(left, lost);
      }
      return Success(left);
    }

    /** One turn of the loop over `or`; `more` says that an operand was read. */
    method OrOperand(left: Node, ghost lost: nat) returns (r: Outcome<Node>, more: bool, ghost total: nat)
      requires Valid()
      modifies this
      ensures DidTurn(Spec.E2Loop(left, old(Rest()), lost, old(inTernary)), r, more, total)
      ensures more && r.Success? ==>
                Spec.E2Loop(left, old(Rest()), lost, old(inTernary)) == Spec.E2Loop(r.value, Rest(), total, inTernary)
      ensures r.Success? ==> inTernary == old(inTernary) && Size(Rest()) <= old(Size(Rest()))
      ensures r.Success? && more ==> Size(Rest()) < old(Size(Rest()))
      decreases Size(Rest()), 0
    {
      hide Valid, Rest, Significant, Spec.E3;
      total := lost;
      more := Accept(KwOr);
      if !more {
        return Success(left), false, lost;
      }
      var operator := previous;
      if left.EmptyNode? {
        return Failure(Spec.InvalidOr), true, lost;
      }
      ghost var next := Spec.E3(Rest(), inTernary);
      var right :- E3();
      return Success(BinaryNode(OrOp, left, Single(operator), right)), true, lost + next.lost;
    }

    method E3() returns (r: Outcome<Node>)
      requires Valid()
      modifies this
      ensures Did(Spec.E3(old(Rest()), old(inTernary)), r)
      ensures r.Success? ==> inTernary == old(inTernary)
      decreases Size(Rest()), 9
    {
      hide Valid, Rest, Significant, Spec.E4, Spec.E3Loop;
      ghost var spec := Spec.E3(Rest(), inTernary);
      ghost var first := Spec.E4(Rest(), inTernary);
      var left :- E4();
      ghost var lost: nat := first.lost;
      var more := true;
      while more
        invariant Valid() && inTernary == old(inTernary) && Size(Rest()) <= old(Size(Rest()))
        invariant spec == if more then Spec.E3Loop(left, Rest(), lost, inTernary) else Spec.Ok(left, Rest(), lost)
        decreases Size(Rest()), more
      {
        left, more, lost :- AndOperand(left, lost);
      }
      return Success(left);
    }

    /** One turn of the loop over `and`; `more` says that an operand was read. */
    method AndOperand(left: Node, ghost lost: nat) returns (r: Outcome<Node>, more: bool, ghost total: nat)
      requires Valid()
      modifies this
      ensures DidTurn(Spec.E3Loop(left, old(Rest()), lost, old(inTernary)), r, more, total)
      ensures more && r.Success? ==>
                Spec.E3Loop(left, old(Rest()), lost, old(inTernary)) == Spec.E3Loop(r.value, Rest(), total, inTernary)
      ensures r.Success? ==> inTernary == old(inTernary) && Size(Rest()) <= old(Size(Rest()))
      ensures r.Success? && more ==> Size(Rest()) < old(Size(Rest()))
      decreases Size(Rest()), 0
    {
      hide Valid, Rest, Significant, Spec.E4;
      total := lost;
      more := Accept(KwAnd);
      if !more {
        return Success(left), false, lost;
      }
      var operator := previous;
      if left.EmptyNode? {
        return Failure(Spec.InvalidAnd), true, lost;
      }
      ghost var next := Spec.E4(Rest(), inTernary);
      var right :- E4();
      return Success(BinaryNode(AndOp, left, Single(operator), right)), true, lost + next.lost;
    }

    method E4() returns (r: Outcome<Node>)
      requires Valid()
      modifies this
      ensures Did(Spec.E4(old(Rest()), old(inTernary)), r)
      ensures r.Success? ==> inTernary == old(inTernary)
      decreases Size(Rest()), 8
    {
      hide Valid, Rest, Significant, Spec.E5, Spec.ComparisonOf, Spec.IsComparison;
      ghost var first := Spec.E5(Rest(), inTernary);
      var left :- E5();
      var comparison := AcceptComparison();
      if comparison {
        r := Compared(Spec.ComparisonOf(previous.tid), left, Single(previous), first.lost);
        return;
      }
      var isNot := Accept(KwNot);
      if isNot {
        var notToken := previous;
        assert Size(first.rest) == 1 + Size(Rest());
        var isIn := Accept(KwIn);
        if isIn {
          r := Compared(CmpNotIn, left, NotIn(notToken, previous), first.lost);
          return;
        }
      }
      return Success(left);
    }

    /** The right operand of a comparison. */
    method Compared(c: Comparison, left: Node, operator: Operator, ghost lost: nat) returns (r: Outcome<Node>)
      requires Valid()
      modifies this
      ensures Did(Spec.E4Right(CompareOp(c), left, operator, old(Rest()), lost, old(inTernary)), r)
      ensures r.Success? ==> inTernary == old(inTernary)
      decreases Size(Rest()), 8
    {
      var right :- E5();
      return Success(BinaryNode(CompareOp(c), left, operator, right));
    }

    method E5() returns (r: Outcome<Node>)
      requires Valid()
      modifies this
      ensures Did(Spec.E5(old(Rest()), old(inTernary)), r)
      ensures r.Success? ==> inTernary == old(inTernary)
      decreases Size(Rest()), 7
    {
      hide Valid, Rest, Significant, Spec.E6, Spec.ArithOf, Spec.IsAddSub;
      ghost var spec := Spec.E5(Rest(), inTernary);
      ghost var first := Spec.E6(Rest(), inTernary);
      var left :- E6();
      ghost var lost: nat := first.lost;
      while true
        invariant Valid() && inTernary == old(inTernary) && Size(Rest()) <= old(Size(Rest()))
        invariant spec == Spec.E5Loop(left, Rest(), lost, inTernary)
        decreases Size(Rest())
      {
        var more := AcceptAddSub();
        if !more {
          return Success(left);
        }
        var operator := previous;
        ghost var next := Spec.E6(Rest(), inTernary);
        var right :- E6();
        left := BinaryNode(ArithmeticOp(Spec.ArithOf(operator.tid)), left, Single(operator), right);
        lost := lost + next.lost;
      }
    }

    method E6() returns (r: Outcome<Node>)
      requires Valid()
      modifies this
      ensures Did(Spec.E6(old(Rest()), old(inTernary)), r)
      ensures r.Success? ==> inTernary == old(inTernary)
      decreases Size(Rest()), 6
    {
      hide Valid, Rest, Significant, Spec.E7, Spec.ArithOf, Spec.IsMulDiv;
      ghost var spec := Spec.E6(Rest(), inTernary);
      ghost var first := Spec.E7(Rest(), inTernary);
      var left :- E7();
      ghost var lost: nat := first.lost;
      while true
        invariant Valid() && inTernary == old(inTernary) && Size(Rest()) <= old(Size(Rest()))
        invariant spec == Spec.E6Loop(left, Rest(), lost, inTernary)
        decreases Size(Rest())
      {
        var more := AcceptMulDiv();
        if !more {
          return Success(left);
        }
        var operator := previous;
        ghost var next := Spec.E7(Rest(), inTernary);
        var right :- E7();
        left := BinaryNode(ArithmeticOp(Spec.ArithOf(operator.tid)), left, Single(operator), right);
        lost := lost + next.lost;
      }
    }

    method E7() returns (r: Outcome<Node>)
      requires Valid()
      modifies this
      ensures Did(Spec.E7(old(Rest()), old(inTernary)), r)
      ensures r.Success? ==> inTernary == old(inTernary)
      decreases Size(Rest()), 5
    {
      hide Valid, Rest, Significant, Spec.E8;
      var isNot := Accept(KwNot);
      if isNot {
        var operator := previous;
        var value :- E8();
        return Success(UnaryNode(NotOp, operator, value));
      }
      var minus := Accept(Dash);
      if minus {
        var operator := previous;
        var value :- E8();
        return Success(UnaryNode(MinusOp, operator, value));
      }
      r := E8();
    }

    method E8() returns (r: Outcome<Node>)
      requires Valid()
      modifies this
      ensures Did(Spec.E8(old(Rest()), old(inTernary)), r)
      ensures r.Success? ==> inTernary == old(inTernary)
      decreases Size(Rest()), 4
    {
      hide Valid, Rest, Significant, Spec.E9, Spec.Call, Spec.E8Loop;
      ghost var first := Spec.E9(Rest(), inTernary);
      var left :- E9();
      var call := Accept(LParen);
      if call {
        r := Call(left, first.lost);
      } else {
        r := Chain(left, first.lost);
      }
    }

    /** A function call whose left parenthesis is the previous token. */
    method Call(left: Node, ghost lost: nat) returns (r: Outcome<Node>)
      requires Valid()
      modifies this
      ensures Did(Spec.Call(left, old(previous), old(Rest()), lost, old(inTernary)), r)
      ensures r.Success? ==> inTernary == old(inTernary)
      decreases Size(Rest()), 15
    {
      hide Valid, Rest, Significant, Spec.ParseItems, Spec.E8Loop;
      var lpar := previous;
      ghost var items := Spec.ParseItems(lpar, Rest(), inTernary, false);
      var args :- Args(lpar);
      var rpar :- Expect(RParen);
      if !left.IsId() {
        return Failure(Spec.CallOnNonId);
      }
      r := Chain(FunctionNode(left.tok, lpar, args, rpar), lost + items.lost);
    }

    /** Method calls and indexings, as long as there are any. */
    method Chain(operand: Node, ghost dropped: nat) returns (r: Outcome<Node>)
      requires Valid()
      modifies this
      ensures Did(Spec.E8Loop(operand, old(Rest()), dropped, old(inTernary)), r)
      ensures r.Success? ==> inTernary == old(inTernary)
      decreases Size(Rest()), 3
    {
      hide Valid, Rest, Significant, Spec.MethodCall, Spec.IndexCall;
      ghost var spec := Spec.E8Loop(operand, Rest(), dropped, inTernary);
      var left := operand;
      ghost var lost: nat := dropped;
      var goAgain := true;
      while goAgain
        invariant Valid() && inTernary == old(inTernary) && Size(Rest()) <= old(Size(Rest()))
        invariant spec == if goAgain then Spec.E8Loop(left, Rest(), lost, inTernary) else Spec.Ok(left, Rest(), lost)
        decreases Size(Rest()) + if goAgain then 1 else 0
      {
        goAgain := false;
        var dot := Accept(Dot);
        if dot {
          goAgain := true;
          ghost var next := Spec.MethodCall(left, previous, Rest(), lost, inTernary);
          left :- MethodCall(left, lost);
          lost := next.lost;
        }
        assert spec == Spec.E8Index(left, Rest(), lost, goAgain, inTernary);
        var bracket := Accept(LBracket);
        if bracket {
          goAgain := true;
          ghost var next := Spec.IndexCall(left, previous, Rest(), lost, inTernary);
          left :- IndexCall(left, lost);
          lost := next.lost;
        }
      }
      return Success(left);
    }

    method E9() returns (r: Outcome<Node>)
      requires Valid()
      modifies this
      ensures Did(Spec.E9(old(Rest()), old(inTernary)), r)
      ensures r.Success? ==> inTernary == old(inTernary)
      decreases Size(Rest()), 3
    {
      hide Valid, Rest, Significant, Spec.Parentheses, Spec.Collection, Spec.E10;
      var paren := Accept(LParen);
      if paren {
        r := Parentheses();
        return;
      }
      var bracket := Accept(LBracket);
      if bracket {
        r := Array();
        return;
      }
      var curl := Accept(LCurl);
      if curl {
        r := Dict();
        return;
      }
      var leaf := E10();
      return Success(leaf);
    }

    /** A parenthesised expression whose left parenthesis is the previous token. */
    method Parentheses() returns (r: Outcome<Node>)
      requires Valid()
      modifies this
      ensures Did(Spec.Parentheses(old(previous), old(Rest()), old(inTernary)), r)
      ensures r.Success? ==> inTernary == old(inTernary)
      decreases Size(Rest()), 13
    {
      hide Valid, Rest, Significant, Spec.E1;
      var lpar := previous;
      var e :- E1();
      var rpar :- Expect(RParen);
      return Success(ParenthesizedNode(lpar, e, rpar));
    }

    method Array() returns (r: Outcome<Node>)
      requires Valid()
      modifies this
      ensures Did(Spec.Collection(false, old(previous), old(Rest()), old(inTernary)), r)
      ensures r.Success? ==> inTernary == old(inTernary)
      decreases Size(Rest()), 15
    {
      hide Valid, Rest, Significant, Spec.ParseItems;
      var open := previous;
      var args :- Args(open);
      var close :- Expect(RBracket);
      return Success(CollectionNode(false, open, args, close));
    }

    method Dict() returns (r: Outcome<Node>)
      requires Valid()
      modifies this
      ensures Did(Spec.Collection(true, old(previous), old(Rest()), old(inTernary)), r)
      ensures r.Success? ==> inTernary == old(inTernary)
      decreases Size(Rest()), 15
    {
      hide Valid, Rest, Significant, Spec.ParseItems;
      var open := previous;
      var args :- KeyValues(open);
      var close :- Expect(RCurl);
      return Success(CollectionNode(true, open, args, close));
    }

    method E10() returns (node: Node)
      requires Valid()
      modifies this`current, this`previous, this`pos
      ensures Did(Spec.E10(old(Rest())), Success(node))
    {
      var t := current;
      if t.tid == KwTrue || t.tid == KwFalse {
        GetSym();
        return LeafNode(BooleanLeaf, t);
      } else if t.tid == Id {
        GetSym();
        return LeafNode(IdLeaf, t);
      } else if t.tid == Number {
        GetSym();
        return LeafNode(NumberLeaf, t);
      } else if Spec.IsString(t.tid) {
        GetSym();
        return LeafNode(StringLeaf, t);
      }
      return EmptyNode(current);
    }

    method KeyValues(open: Token) returns (r: Outcome<ArgumentNode>)
      requires Valid()
      modifies this
      ensures DidArgs(Spec.ParseItems(open, old(Rest()), old(inTernary), true), r)
      ensures r.Success? ==> inTernary == old(inTernary)
      decreases Size(Rest()), 13
    {
      hide Valid, Rest, Significant, Spec.E1, Spec.ItemsLoop;
      ghost var spec := Spec.ParseItems(open, Rest(), inTernary, true);
      var a := ArgumentNode(NoItems(open), NoTokens, false);
      assert spec == Spec.ItemsNext(a, Rest(), 0, inTernary, true);
      ghost var next := Spec.E1(Rest(), inTernary);
      var s :- E1();
      ghost var lost: nat := next.lost;
      while !s.EmptyNode?
        invariant Valid() && inTernary == old(inTernary) && Size(Rest()) <= old(Size(Rest()))
        invariant spec == Spec.ItemsLoop(a, s, Rest(), lost, inTernary, true)
        decreases Size(Rest())
      {
        var more;
        a, more, lost :- KeyValue(a, s, lost);
        if !more {
          return Success(a);
        }
        assert spec == Spec.ItemsNext(a, Rest(), lost, inTernary, true);
        next := Spec.E1(Rest(), inTernary);
        s :- E1();
        lost := lost + next.lost;
      }
      Spec.ItemsEnd(a, s, Rest(), lost, inTernary, true);
      return Success(a);
    }

    /** The item of `KeyValues` that starts with `s`; `more` says that a comma follows. */
    method KeyValue(a: ArgumentNode, s: Node, ghost lost: nat) returns (r: Outcome<ArgumentNode>, more: bool,
                                                                        ghost total: nat)
      requires Valid() && !s.EmptyNode?
      modifies this
      ensures DidItem(Spec.ItemsLoop(a, s, old(Rest()), lost, old(inTernary), true), r, more, total, true)
      ensures r.Success? ==> inTernary == old(inTernary)
      ensures r.Success? && more ==> Size(Rest()) < old(Size(Rest()))
      decreases Size(Rest()), 0
    {
      hide Valid, Rest, Significant, Spec.KeywordItem, Spec.ItemsNext;
      var pair := Accept(Colon);
      if !pair {
        return Failure(Spec.DictNeedsPairs), false, lost;
      }
      r, more, total := KeywordItem(a, s, lost, true);
    }

    method Args(open: Token) returns (r: Outcome<ArgumentNode>)
      requires Valid()
      modifies this
      ensures DidArgs(Spec.ParseItems(open, old(Rest()), old(inTernary), false), r)
      ensures r.Success? ==> inTernary == old(inTernary)
      decreases Size(Rest()), 13
    {
      hide Valid, Rest, Significant, Spec.E1, Spec.ItemsLoop;
      ghost var spec := Spec.ParseItems(open, Rest(), inTernary, false);
      var a := ArgumentNode(NoItems(open), NoTokens, false);
      assert spec == Spec.ItemsNext(a, Rest(), 0, inTernary, false);
      ghost var next := Spec.E1(Rest(), inTernary);
      var s :- E1();
      ghost var lost: nat := next.lost;
      while !s.EmptyNode?
        invariant Valid() && inTernary == old(inTernary) && Size(Rest()) <= old(Size(Rest()))
        invariant spec == Spec.ItemsLoop(a, s, Rest(), lost, inTernary, false)
        decreases Size(Rest())
      {
        var more;
        a, more, lost :- Argument(a, s, lost);
        if !more {
          return Success(a);
        }
        assert spec == Spec.ItemsNext(a, Rest(), lost, inTernary, false);
        next := Spec.E1(Rest(), inTernary);
        s :- E1();
        lost := lost + next.lost;
      }
      Spec.ItemsEnd(a, s, Rest(), lost, inTernary, false);
      return Success(a);
    }

    /** The item of `Args` that starts with `s`; `more` says that a comma follows. */
    method Argument(a: ArgumentNode, s: Node, ghost lost: nat) returns (r: Outcome<ArgumentNode>, more: bool,
                                                                        ghost total: nat)
      requires Valid() && !s.EmptyNode?
      modifies this
      ensures DidItem(Spec.ItemsLoop(a, s, old(Rest()), lost, old(inTernary), false), r, more, total, false)
      ensures r.Success? ==> inTernary == old(inTernary)
      ensures r.Success? && more ==> Size(Rest()) < old(Size(Rest()))
      decreases Size(Rest()), 0
    {
      hide Valid, Rest, Significant, Spec.KeywordItem, Spec.ItemsNext;
      more := Accept(Comma);
      if more {
        return Success(a.AddComma(previous).Append(s)), true, lost;
      }
      var keyword := Accept(Colon);
      if !keyword {
        return Success(a.Append(s)), false, lost;
      }
      if !s.IsId() {
        return Failure(Spec.KeywordNotId), false, lost;
      }
      r, more, total := KeywordItem(a, s, lost, false);
    }

    /** A keyword item whose colon is the previous token: its value, and perhaps a comma. */
    method KeywordItem(a: ArgumentNode, key: Node, ghost lost: nat, ghost dict: bool)
      returns (r: Outcome<ArgumentNode>, more: bool, ghost total: nat)
      requires Valid()
      modifies this
      ensures DidItem(Spec.KeywordItem(a, key, old(previous), old(Rest()), lost, old(inTernary), dict),
                      r, more, total, dict)
      ensures r.Success? ==> inTernary == old(inTernary)
      ensures r.Success? && more ==> Size(Rest()) < old(Size(Rest()))
      decreases Size(Rest()), 14
    {
      hide Valid, Rest, Significant, Spec.E1, Spec.ItemsNext;
      total, more := lost, false;
      ghost var value := Spec.E1(Rest(), inTernary);
      var filled :- KeywordValue(a, key);
      total := lost + value.lost;
      more := Accept(Comma);
      return Success(if more then filled.AddComma(previous) else filled), more, total;
    }

    /** The value of a keyword whose colon is the previous token. */
    method KeywordValue(a: ArgumentNode, key: Node) returns (r: Outcome<ArgumentNode>)
      requires Valid()
      modifies this
      ensures var p := Spec.E1(old(Rest()), old(inTernary));
              DidArgs(if p.Ok? then Spec.OkArgs(a.SetKwarg(key, old(previous), p.node), p.rest, p.lost)
                      else Spec.ErrArgs(p.error), r)
      ensures r.Success? ==> inTernary == old(inTernary)
      decreases Size(Rest()), 13
    {
      var colon := previous;
      var value :- E1();
      return Success(a.SetKwarg(key, colon, value));
    }

    /** A method call whose dot is the previous token. */
    method MethodCall(source: Node, ghost lost: nat) returns (r: Outcome<Node>)
      requires Valid()
      modifies this
      ensures Did(Spec.MethodCall(source, old(previous), old(Rest()), lost, old(inTernary)), r)
      ensures r.Success? ==> inTernary == old(inTernary)
      decreases Size(Rest()), 1
    {
      hide Valid, Rest, Significant, Spec.MethodArgs;
      var dot := previous;
      var name := E10();
      if !name.IsId() {
        return Failure(if source.IsNumber() && name.IsNumber() then Spec.FloatNumber else Spec.MethodNameNotId);
      }
      var lpar :- Expect(LParen);
      r := MethodArgs(source, dot, name.tok, lpar, lost);
    }

    /** The arguments of a method call, and any further calls chained to it by dots. */
    method MethodArgs(source: Node, dot: Token, name: Token, lpar: Token, ghost lost: nat) returns (r: Outcome<Node>)
      requires Valid()
      modifies this
      ensures Did(Spec.MethodArgs(source, dot, name, lpar, old(Rest()), lost, old(inTernary)), r)
      ensures r.Success? ==> inTernary == old(inTernary)
      decreases Size(Rest()), 15
    {
      hide Valid, Rest, Significant, Spec.ParseItems, Spec.MethodCall;
      ghost var items := Spec.ParseItems(lpar, Rest(), inTernary, false);
      var args :- Args(lpar);
      var rpar :- Expect(RParen);
      assert Size(items.rest) == 1 + Size(Rest());
      var call := MethodNode(source, dot, name, lpar, args, rpar);
      var more := Accept(Dot);
      if more {
        r := MethodCall(call, lost + items.lost);
        return;
      }
      return Success(call);
    }

    /** An indexing whose left bracket is the previous token. */
    method IndexCall(source: Node, ghost lost: nat) returns (r: Outcome<Node>)
      requires Valid()
      modifies this
      ensures Did(Spec.IndexCall(source, old(previous), old(Rest()), lost, old(inTernary)), r)
      ensures r.Success? ==> inTernary == old(inTernary)
      decreases Size(Rest()), 13
    {
      hide Valid, Rest, Significant, Spec.E1;
      var open := previous;
      var index :- E1();
      var close :- Expect(RBracket);
      return Success(IndexNode(source, open, index, close));
    }

    // ----- statements and blocks

    ghost predicate DidLine(p: ParsedLine, r: Outcome<Option<Stmt>>)
      reads this
    {
      && Valid()
      && match p
         case OkLine(line, rest, _) => r == Success(Some(line)) && Rest() == rest
         case Blank(rest, _) => r == Success(None) && Rest() == rest
         case ErrLine(e) => r == Failure(e)
    }

    ghost predicate DidBlock(p: ParsedBlock, r: Outcome<Block>)
      reads this
    {
      && Valid()
      && (if p.OkBlock? then r == Success(p.block) && Rest() == p.rest else r == Failure(p.error))
    }

    /** A whole file. */
    method Parse(opener: Token) returns (r: Outcome<Block>)
      requires Valid() && !inTernary
      modifies this
      ensures DidBlock(Blocks.Parse(opener, old(Rest())), r)
    {
      var block :- CodeBlock(opener);
      if current.tid != Eof {
        return Failure(Spec.Expecting(Eof, current.tid));
      }
      return Success(block);
    }

    method CodeBlock(opener: Token) returns (r: Outcome<Block>)
      requires Valid() && !inTernary
      modifies this
      ensures DidBlock(Blocks.CodeBlock(opener, old(Rest())), r)
      ensures r.Success? ==> !inTernary
      decreases Size(Rest()), 4
    {
      hide Valid, Rest, Significant, Blocks.Line;
      ghost var spec := Blocks.CodeBlock(opener, Rest());
      var block := NoLines(opener);
      var cond := true;
      ghost var lost: nat := 0;
      while cond
        invariant Valid() && !inTernary && Size(Rest()) <= old(Size(Rest()))
        invariant spec == if cond then CodeBlockLoop(block, Rest(), lost) else OkBlock(block, Rest(), lost)
        decreases Size(Rest()) + if cond then 1 else 0
      {
        ghost var line := Blocks.Line(Rest());
        var current :- Line();
        lost := lost + line.lost;
        if current.Some? {
          block := AddLine(block, current.value);
        }
        assert spec == CodeBlockEnd(block, Rest(), lost);
        cond := Accept(Eol);
        if cond {
          block := AddEol(block, previous);
        }
      }
      return Success(block);
    }

    /** One line; nothing for an empty one. */
    method Line() returns (r: Outcome<Option<Stmt>>)
      requires Valid() && !inTernary
      modifies this
      ensures DidLine(Blocks.Line(old(Rest())), r)
      ensures r.Success? ==> !inTernary
      decreases Size(Rest()), 1
    {
      hide Valid, Rest, Significant, Spec.E1, Blocks.IfBlock, Blocks.ForeachBlock, Blocks.TestcaseBlock;
      var blank := AtEol();
      if blank {
        return Success(None);
      }
      var branch := Accept(KwIf);
      if branch {
        r := IfBlock();
        return;
      }
      var loop := Accept(KwForeach);
      if loop {
        r := ForeachBlock();
        return;
      }
      r := OtherLine();
    }

    method AtEol() returns (b: bool)
      requires Valid()
      ensures b == (Peek(Rest()) == Eol)
    {
      b := current.tid == Eol;
    }

    /** A line that is neither empty nor a conditional or a loop. */
    method OtherLine() returns (r: Outcome<Option<Stmt>>)
      requires Valid() && !inTernary && Peek(Rest()) != Eol && Peek(Rest()) != KwIf && Peek(Rest()) != KwForeach
      modifies this
      ensures DidLine(Blocks.Line(old(Rest())), r)
      ensures r.Success? ==> !inTernary
      decreases Size(Rest()), 0, 1
    {
      hide Valid, Rest, Significant, Spec.E1, Blocks.IfBlock, Blocks.ForeachBlock, Blocks.TestcaseBlock;
      var skip := Accept(KwContinue);
      if skip {
        r := Jump();
        return;
      }
      var leave := Accept(KwBreak);
      if leave {
        r := Jump();
        return;
      }
      var test := Accept(KwTestcase);
      if test {
        r := TestcaseBlock();
        return;
      }
      r := Statement();
    }

    /** The node of a jump whose keyword is the previous token; it is made from the current token. */
    method Jump() returns (r: Outcome<Option<Stmt>>)
      requires Valid()
      ensures r == Success(Some(JumpStmt(previous, Current(Rest()))))
    {
      return Success(Some(JumpStmt(previous, current)));
    }

    method Statement() returns (r: Outcome<Option<Stmt>>)
      requires Valid() && !inTernary
      requires Peek(Rest()) != Eol && Peek(Rest()) != KwIf && Peek(Rest()) != KwForeach && Peek(Rest()) != KwTestcase
      requires Peek(Rest()) != KwContinue && Peek(Rest()) != KwBreak
      modifies this
      ensures DidLine(Blocks.Line(old(Rest())), r)
      ensures r.Success? ==> !inTernary
      decreases Size(Rest()), 0, 0
    {
      hide Valid, Rest, Significant, Spec.E1;
      var node :- E1();
      return Success(if node.EmptyNode? then None else Some(ExprStmt(node)));
    }

    /** A condition, the end of its line, and the block after it. */
    method ConditionBlock() returns (r: Outcome<(Node, Token, Block)>)
      requires Valid() && !inTernary
      modifies this
      ensures Valid()
      ensures var (c, b) := Blocks.ConditionBlock(old(Rest()));
              if b.OkBlock? && c.Ok? then r == Success((c.node, c.rest.head, b.block)) && Rest() == b.rest
              else r == Failure(if b.ErrBlock? then b.error else c.error)
      ensures r.Success? ==> !inTernary
      decreases Size(Rest()), 5
    {
      hide Valid, Rest, Significant, Spec.E1, Blocks.CodeBlock;
      var condition :- E1();
      var eol :- Expect(Eol);
      var block :- CodeBlock(eol);
      return Success((condition, eol, block));
    }

    /** An `if` statement whose keyword is the previous token. */
    method IfBlock() returns (r: Outcome<Option<Stmt>>)
      requires Valid() && !inTernary
      modifies this
      ensures DidLine(Blocks.IfBlock(old(previous), old(Rest())), r)
      ensures r.Success? ==> !inTernary
      decreases Size(Rest()), 6
    {
      hide Valid, Rest, Significant, Blocks.ConditionBlock, IfRest;
      var keyword := previous;
      ghost var (c, b) := Blocks.ConditionBlock(Rest());
      var first :- ConditionBlock();
      ghost var lost;
      var ifs;
      ifs, lost :- ElseIfBlock(FirstIf(keyword, first.0, first.1, first.2), c.lost + b.lost);
      r := EndIf(ifs, lost);
    }

    /** The end of an `if` statement behind its `elif` branches. */
    method EndIf(ifs: IfList, ghost lost: nat) returns (r: Outcome<Option<Stmt>>)
      requires Valid() && !inTernary && Peek(Rest()) != KwElif
      modifies this
      ensures DidLine(IfRest(ifs, old(Rest()), lost), r)
      ensures r.Success? ==> !inTernary
      decreases Size(Rest()), 1
    {
      hide Valid, Rest, Significant, Blocks.ConditionBlock, ElsePart;
      var elseblock :- ElseBlock();
      var endif :- Expect(KwEndif);
      return Success(Some(IfStmt(ifs, elseblock, endif)));
    }

    /** The `elif` branches, added to those in `first`. */
    method ElseIfBlock(first: IfList, ghost dropped: nat) returns (r: Outcome<IfList>, ghost lost: nat)
      requires Valid() && !inTernary
      modifies this
      ensures Valid()
      ensures IfRest(first, old(Rest()), dropped)
           == if r.Success? then IfRest(r.value, Rest(), lost) else ErrLine(r.error)
      ensures r.Success? ==> !inTernary && Peek(Rest()) != KwElif && Size(Rest()) <= old(Size(Rest()))
      decreases Size(Rest()), 1
    {
      hide Valid, Rest, Significant, Blocks.ConditionBlock, ElsePart;
      ghost var spec := IfRest(first, Rest(), dropped);
      var ifs := first;
      lost := dropped;
      while true
        invariant Valid() && !inTernary && Size(Rest()) <= old(Size(Rest()))
        invariant spec == IfRest(ifs, Rest(), lost)
        decreases Size(Rest())
      {
        var elif := Accept(KwElif);
        if !elif {
          return Success(ifs), lost;
        }
        var keyword := previous;
        ghost var (c, b) := Blocks.ConditionBlock(Rest());
        var next :- ConditionBlock();
        ifs := AddElif(ifs, keyword, next.0, next.1, next.2);
        lost := lost + c.lost + b.lost;
      }
    }

    method ElseBlock() returns (r: Outcome<ElseBlock>)
      requires Valid() && !inTernary
      modifies this
      ensures var e := ElsePart(old(Rest()));
              Valid() && if e.OkElse? then r == Success(e.block) && Rest() == e.rest else r == Failure(e.error)
      ensures r.Success? ==> !inTernary
      decreases Size(Rest()), 0
    {
      hide Significant, Blocks.CodeBlock;
      var other := Accept(KwElse);
      if !other {
        return Success(NoElse(current));
      }
      var keyword := previous;
      assert old(Size(Rest())) == 1 + Size(Rest());
      var eol :- Expect(Eol);
      var block :- CodeBlock(eol);
      return Success(Else(keyword, eol, block));
    }

    /** A loop whose keyword is the previous token. */
    method ForeachBlock() returns (r: Outcome<Option<Stmt>>)
      requires Valid() && !inTernary
      modifies this
      ensures DidLine(Blocks.ForeachBlock(old(previous), old(Rest())), r)
      ensures r.Success? ==> !inTernary
      decreases Size(Rest()), 6
    {
      hide Valid, Rest, Significant, Blocks.ForeachRest;
      var keyword := previous;
      var name :- Expect(Id);
      assert old(Size(Rest())) == 1 + Size(Rest());
      ghost var more := Rest();
      var comma := Accept(Comma);
      if comma {
        var separator := previous;
        assert Size(more) == 1 + Size(Rest());
        var second :- Expect(Id);
        r := ForeachRest(keyword, TwoNames(name, separator, second));
      } else {
        r := ForeachRest(keyword, OneName(name));
      }
    }

    method ForeachRest(keyword: Token, names: Names) returns (r: Outcome<Option<Stmt>>)
      requires Valid() && !inTernary
      modifies this
      ensures DidLine(Blocks.ForeachRest(keyword, names, old(Rest())), r)
      ensures r.Success? ==> !inTernary
      decreases Size(Rest()), 6
    {
      hide Valid, Rest, Significant, Spec.E1, Blocks.CodeBlock;
      var colon :- Expect(Colon);
      var items :- E1();
      var block :- CodeBlock(colon);
      var endforeach :- Expect(KwEndforeach);
      return Success(Some(ForeachStmt(keyword, names, colon, items, block, endforeach)));
    }

    /** A test case whose keyword is the previous token. */
    method TestcaseBlock() returns (r: Outcome<Option<Stmt>>)
      requires Valid() && !inTernary
      modifies this
      ensures DidLine(Blocks.TestcaseBlock(old(previous), old(Rest())), r)
      ensures r.Success? ==> !inTernary
      decreases Size(Rest()), 6
    {
      hide Valid, Rest, Significant, Blocks.ConditionBlock;
      var keyword := previous;
      var body :- ConditionBlock();
      var endtestcase :- Expect(KwEndtestcase);
      return Success(Some(TestcaseStmt(keyword, body.0, body.1, body.2, endtestcase)));
    }
  }
}
