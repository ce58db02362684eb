/**
 Inputs that show what the parser drops, moves and keeps.
 */
module ParserExamples {
  import opened Tokens
  import opened Ast
  import opened ParserSpec
  import opened Grammar
  import opened ParserComplete
  import opened Blocks
  import opened BlockComplete
  import opened DroppedNots
  import opened Misplaced
  import opened ParserTheorems

  /** A ternary, which may not lie in a branch of another, may lie in its condition when it is parenthesised. */
  lemma ConditionMayNest(lpar: Token, inner: Node, rpar: Token, q: Token, yes: Node, colon: Token, no: Node,
                         rest: Stream)
    requires lpar.tid == LParen && rpar.tid == RParen && q.tid == Question && colon.tid == Colon
    requires inner.TernaryNode? && G1(inner, rpar, false)
    requires G1(yes, colon, true) && G1(no, Current(rest), true)
    ensures var t := TernaryNode(ParenthesizedNode(lpar, inner, rpar), q, yes, colon, no);
            E1(Print(t, rest), false) == Ok(t, rest, 0)
  {
    hide G2, G9;
    var c := ParenthesizedNode(lpar, inner, rpar);
    ParenthesesAlone(c, q);
    var t := TernaryNode(c, q, yes, colon, no);
    assert G1(t, Current(rest), false);
    Complete1(t, rest, false);
  }

  lemma ParenthesesAlone(c: Node, q: Token)
    requires c.ParenthesizedNode? && c.lpar.tid == LParen && c.rpar.tid == RParen && G1(c.inner, c.rpar, false)
    requires q.tid == Question
    ensures G2(c, q, false)
  {
    hide G1;
    assert L8(c, q, false);
    assert G8(c, q, false);
    assert G7(c, q, false);
    assert L6(c, q, false);
    assert G6(c, q, false);
    assert L5(c, q, false);
    assert G5(c, q, false);
    assert G4(c, q, false);
    assert L3(c, q, false);
    assert G3(c, q, false);
    assert L2(c, q, false);
  }

  /** A dangling `not` vanishes: `a not` is read as `a`. */
  lemma DanglingNotVanishes(a: Token, n: Token, eof: Token)
    requires a.tid == Id && n.tid == KwNot && eof.tid == Eof
    ensures E1(More(a, More(n, End(eof))), false) == Ok(LeafNode(IdLeaf, a), End(eof), 1)
    ensures Print(LeafNode(IdLeaf, a), End(eof)) != More(a, More(n, End(eof)))
  {
    var toks := More(a, More(n, End(eof)));
    var leaf := LeafNode(IdLeaf, a);
    var rest := toks.tail;
    assert E9(toks, false) == Ok(leaf, rest, 0);
    assert E8Loop(leaf, rest, 0, false) == Ok(leaf, rest, 0);
    assert E8(toks, false) == Ok(leaf, rest, 0);
    assert E6(toks, false) == Ok(leaf, rest, 0);
    assert E5(toks, false) == Ok(leaf, rest, 0);
    assert E4(toks, false) == Ok(leaf, End(eof), 1);
    assert E3(toks, false) == Ok(leaf, End(eof), 1);
    assert E2(toks, false) == Ok(leaf, End(eof), 1);
  }

  /** Positional arguments behind keyword arguments lose their place: `k: v, b)` is read as the
      arguments of `b, k: v)`, with the order flag raised. */
  lemma MisplacedArgument(open: Token, k: Token, colon: Token, v: Token, comma: Token, b: Token, end: Stream)
    requires k.tid == Id && v.tid == Id && b.tid == Id && colon.tid == Colon && comma.tid == Comma
    requires Peek(end) == RParen
    ensures var toks := More(k, More(colon, More(v, More(comma, More(b, end)))));
            var r := ParseItems(open, toks, false, false);
            && r.OkArgs? && r.lost == 0 && r.args.orderError && PrintArgs(r.args, r.rest) != toks
            && PrintArgs(r.args, r.rest) == More(b, More(comma, More(k, More(colon, More(v, end)))))
  {
    var kn, vn, bn := LeafNode(IdLeaf, k), LeafNode(IdLeaf, v), LeafNode(IdLeaf, b);
    LeafRead(kn, More(colon, More(v, More(comma, More(b, end)))));
    LeafRead(vn, More(comma, More(b, end)));
    LeafRead(bn, end);
    var none := ArgumentNode(NoItems(open), NoTokens, false);
    var one := none.SetKwarg(kn, colon, vn).AddComma(comma);
    assert ItemsNext(one, More(b, end), 0, false, false) == OkArgs(one.Append(bn), end, 0);
    assert KeywordItem(none, kn, colon, More(v, More(comma, More(b, end))), 0, false, false)
        == OkArgs(one.Append(bn), end, 0);
    var toks := More(k, More(colon, More(v, More(comma, More(b, end)))));
    assert ItemsLoop(none, kn, toks.tail, 0, false, false) == OkArgs(one.Append(bn), end, 0);
    assert ItemsNext(none, toks, 0, false, false) == OkArgs(one.Append(bn), end, 0);
    var items := Keyword(Positional(NoItems(open), bn), kn, colon, vn);
    assert AddPositional(NoItems(open), bn) == items.init;
    assert AddPositional(one.items, bn) == items;
    assert one.Append(bn) == ArgumentNode(items, AddToken(NoTokens, comma), true);
    PrintPair(bn, comma, items, end);
  }

  lemma PrintPair(first: Node, comma: Token, items: Items, rest: Stream)
    requires items.Keyword? && items.init.Positional? && items.init.init.NoItems? && items.init.node == first
    ensures PrintArgs(ArgumentNode(items, AddToken(NoTokens, comma), true), rest)
         == Print(first, More(comma, PrintLast(items, rest)))
  {
    var commas := AddToken(NoTokens, comma);
    assert CountItems(items.init) == 1 && CountTokens(commas) == 1;
    assert PrintLast(items.init, More(commas.last, PrintLast(items, rest)))
        == Print(first, More(comma, PrintLast(items, rest)));
    assert PrintItems(items.init, commas, PrintLast(items, rest))
        == PrintItems(items.init.init, commas.init, PrintLast(items.init, More(commas.last, PrintLast(items, rest))));
  }

  lemma LeafRead(leaf: Node, rest: Stream)
    requires leaf.IsId() && leaf.tok.tid == Id
    requires Peek(rest) == Colon || Peek(rest) == Comma || Peek(rest) == RParen
    ensures E1(More(leaf.tok, rest), false) == Ok(leaf, rest, 0)
  {
    var next := Current(rest);
    assert L8(leaf, next, false);
    assert G8(leaf, next, false);
    assert G7(leaf, next, false);
    assert L6(leaf, next, false);
    assert G6(leaf, next, false);
    assert L5(leaf, next, false);
    assert G5(leaf, next, false);
    assert G4(leaf, next, false);
    assert L3(leaf, next, false);
    assert G3(leaf, next, false);
    assert L2(leaf, next, false);
    assert G1(leaf, next, false);
    Complete1(leaf, rest, false);
  }

  /** A name, or a name behind a sign, in front of a token that does not extend it. */
  lemma SmallOperand(t: Node, next: Token)
    requires t.LeafNode? || (t.UnaryNode? && t.value.LeafNode? && t.op.tid == if t.unary == NotOp then KwNot else Dash)
    requires var leaf := if t.LeafNode? then t else t.value; LeafToken(leaf.kind, leaf.tok.tid)
    requires next.tid == Equal || next.tid == KwNot || next.tid == Eol
    ensures G5(t, next, false)
  {
    var leaf := if t.LeafNode? then t else t.value;
    assert G9(leaf, next, false);
    assert L8(leaf, next, false);
    assert G8(leaf, next, false);
    assert G7(t, next, false);
    assert L6(t, next, false);
    assert G6(t, next, false);
    assert L5(t, next, false);
  }

  lemma SmallExpression(t: Node, next: Token)
    requires G4(t, next, false) && (next.tid == KwNot || next.tid == Eol) && !t.AssignmentNode? && !t.TernaryNode?
    requires t.BinaryNode? ==> t.binary.CompareOp?
    ensures G1(t, next, false)
  {
    hide G4;
    assert L3(t, next, false);
    assert G3(t, next, false);
    assert L2(t, next, false);
  }

  /** The tokens of `foreach x : a == b not c`, a line end, `endforeach`. */
  function HeaderLine(ts: seq<Token>, eof: Token): Stream
    requires |ts| == 10
  {
    More(ts[0], More(ts[1], More(ts[2], More(ts[3], More(ts[4], More(ts[5], LineBody(ts, eof)))))))
  }

  function LineBody(ts: seq<Token>, eof: Token): Stream
    requires |ts| == 10
  {
    More(ts[6], More(ts[7], More(ts[8], More(ts[9], End(eof)))))
  }

  /** A loop whose body begins on the line of its header: this `not` is no operator, because the header has had its
      comparison. It is kept. */
  lemma HeaderLineBody(opener: Token, ts: seq<Token>, eof: Token)
    requires |ts| == 10 && eof.tid == Eof
    requires ts[0].tid == KwForeach && ts[1].tid == Id && ts[2].tid == Colon && ts[3].tid == Id && ts[4].tid == Equal
    requires ts[5].tid == Id && ts[6].tid == KwNot && ts[7].tid == Id && ts[8].tid == Eol && ts[9].tid == KwEndforeach
    ensures var r := Parse(opener, HeaderLine(ts, eof));
            && r.OkBlock? && r.lost == 0 && Dropped(HeaderLine(ts, eof)) == 0
            && PrintBlock(r.block, r.rest) == HeaderLine(ts, eof)
  {
    var left, right := LeafNode(IdLeaf, ts[3]), LeafNode(IdLeaf, ts[5]);
    var items := BinaryNode(CompareOp(CmpEq), left, Single(ts[4]), right);
    SmallOperand(left, ts[4]);
    SmallOperand(right, ts[6]);
    assert G4(items, ts[6], false);
    SmallExpression(items, ts[6]);
    var line := UnaryNode(NotOp, ts[6], LeafNode(IdLeaf, ts[7]));
    SmallOperand(line, ts[8]);
    assert G4(line, ts[8], false);
    SmallExpression(line, ts[8]);
    var body := AddEol(AddLine(NoLines(ts[2]), ExprStmt(line)), ts[8]);
    BodyOfLine(ts, line, eof);
    var loop := ForeachStmt(ts[0], OneName(ts[1]), ts[2], items, body, ts[9]);
    assert Print(items, LineBody(ts, eof)) == More(ts[3], More(ts[4], More(ts[5], LineBody(ts, eof))));
    assert PrintStmt(loop, End(eof)) == HeaderLine(ts, eof);
    var file := AddLine(NoLines(opener), loop);
    assert GStmt(loop, eof);
    CompleteBlock(file, opener, End(eof));
    FileKept(opener, HeaderLine(ts, eof));
  }

  lemma BodyOfLine(ts: seq<Token>, line: Node, eof: Token)
    requires |ts| == 10 && ts[8].tid == Eol && ts[9].tid == KwEndforeach && eof.tid == Eof
    requires line == UnaryNode(NotOp, ts[6], LeafNode(IdLeaf, ts[7])) && G1(line, ts[8], false)
    ensures var body := AddEol(AddLine(NoLines(ts[2]), ExprStmt(line)), ts[8]);
            && GBlock(body, ts[2], ts[9]) && FirstToken(body, ts[9]) == ts[6]
            && PrintBlock(body, More(ts[9], End(eof))) == LineBody(ts, eof)
  {
    hide G1;
    var entry := AddLine(NoLines(ts[2]), ExprStmt(line));
    var body := AddEol(entry, ts[8]);
    var rest, alone := More(ts[9], End(eof)), More(ts[9], End(ts[9]));
    assert GStmt(ExprStmt(line), ts[8]);
    assert GStart(NoLines(ts[2]), ts[2]);
    assert GEntries(entry, ts[2], ts[8]);
    assert GStart(body, ts[2]);
    assert BlankBefore(KwEndforeach);
    assert GEntries(body, ts[2], ts[9]);
    assert Print(line, More(ts[8], rest)) == LineBody(ts, eof);
    assert PrintBlock(body, rest) == PrintBlock(entry, More(ts[8], rest));
    assert PrintBlock(entry, More(ts[8], rest))
        == PrintBlock(NoLines(ts[2]), PrintStmt(ExprStmt(line), More(ts[8], rest)));
    assert PrintBlock(body, alone) == PrintBlock(entry, More(ts[8], alone));
    assert PrintBlock(entry, More(ts[8], alone))
        == PrintBlock(NoLines(ts[2]), PrintStmt(ExprStmt(line), More(ts[8], alone)));
  }
}
