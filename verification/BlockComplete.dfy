/**
 Round trip for statements, code blocks and whole files.
 */
module BlockComplete {
  import opened Tokens
  import opened Ast
  import opened ParserSpec
  import opened Grammar
  import opened ParserComplete
  import opened Blocks

  lemma {:induction false} CompleteBlock(b: Block, opener: Token, rest: Stream)
    requires GBlock(b, opener, Current(rest))
    ensures CodeBlock(opener, PrintBlock(b, rest)) == OkBlock(b, rest, 0)
    decreases b, 2
  {
    CompleteEntries(b, opener, rest);
  }

  /** The block loop reads the entries back and stands behind the last line. */
  lemma {:induction false} CompleteEntries(b: Block, opener: Token, rest: Stream)
    requires GEntries(b, opener, Current(rest))
    ensures CodeBlock(opener, PrintBlock(b, rest)) == CodeBlockEnd(b, rest, 0)
    decreases b, 1
  {
    if b.AddLine? {
      CompleteStmt(b.line, rest);
      CompleteStart(b.init, opener, PrintStmt(b.line, rest));
    } else {
      BlankLine(rest);
      CompleteStart(b, opener, rest);
    }
  }

  /** The block loop reads the entries back and is about to read a line. */
  lemma {:induction false} CompleteStart(b: Block, opener: Token, toks: Stream)
    requires GStart(b, opener)
    ensures CodeBlock(opener, PrintBlock(b, toks)) == CodeBlockLoop(b, toks, 0)
    decreases b, 0
  {
    if b.AddEol? {
      CompleteEntries(b.init, opener, More(b.eol, toks));
    }
  }

  lemma BlankLine(rest: Stream)
    requires BlankBefore(Peek(rest))
    ensures Line(rest) == Blank(rest, 0)
  {
    if Peek(rest) != Eol {
      StopsEmpty(rest, false);
    }
  }

  lemma {:induction false} CompleteStmt(s: Stmt, rest: Stream)
    requires GStmt(s, Current(rest))
    ensures Line(PrintStmt(s, rest)) == OkLine(s, rest, 0)
    decreases s, 1
  {
    hide G1, GBlock, GIfs, E1, ForeachBlock, TestcaseBlock, IfBlock;
    match s
    case ExprStmt(node) => CompleteExpression(node, rest);
    case JumpStmt(_, _) =>
    case IfStmt(_, _, _) => CompleteIf(s, rest);
    case ForeachStmt(_, _, _, _, _, _) => CompleteForeach(s, rest);
    case TestcaseStmt(_, _, _, _, _) => CompleteTestcase(s, rest);
  }

  lemma {:induction false} CompleteIf(s: Stmt, rest: Stream)
    requires s.IfStmt? && GStmt(s, Current(rest))
    ensures Line(PrintStmt(s, rest)) == OkLine(s, rest, 0)
    decreases s, 0
  {
    hide ConditionBlock, G1, GBlock, GIfs, E1, CodeBlock, ForeachBlock, TestcaseBlock;
    var end := More(s.endif, rest);
    var r1 := PrintElse(s.elseblock, end);
    if s.elseblock.Else? {
      CompleteBlock(s.elseblock.block, s.elseblock.eol, end);
    }
    CompleteIfs(s.ifs, r1);
    assert ElsePart(r1) == OkElse(s.elseblock, end, 0);
  }

  lemma {:induction false} CompleteTestcase(s: Stmt, rest: Stream)
    requires s.TestcaseStmt? && GStmt(s, Current(rest))
    ensures Line(PrintStmt(s, rest)) == OkLine(s, rest, 0)
    decreases s, 0
  {
    var end := More(s.endtestcase, rest);
    CompleteCondition(s.condition, s.eol, s.block, end);
    assert TestcaseBlock(s.testcase, Print(s.condition, More(s.eol, PrintBlock(s.block, end)))) == OkLine(s, rest, 0);
  }

  /** No expression begins like another statement, nor with the end of a line. */
  lemma CompleteExpression(node: Node, rest: Stream)
    requires !node.EmptyNode? && G1(node, Current(rest), false)
    ensures Line(Print(node, rest)) == OkLine(ExprStmt(node), rest, 0)
  {
    hide E1, G1, Print, Stops, IfBlock, ForeachBlock, TestcaseBlock;
    var toks := Print(node, rest);
    Complete1(node, rest, false);
    if Peek(toks) == Eol || StartsStatement(Peek(toks)) {
      StatementStops(Peek(toks));
      StopsEmpty(toks, false);
    }
  }

  lemma StatementStops(t: Tid)
    requires t == Eol || StartsStatement(t)
    ensures Stops(t)
  {
  }

  /** A condition with its line end and block. */
  lemma {:induction false} CompleteCondition(condition: Node, eol: Token, block: Block, rest: Stream)
    requires G1(condition, eol, false) && eol.tid == Eol && GBlock(block, eol, Current(rest))
    ensures var r1 := More(eol, PrintBlock(block, rest));
            ConditionBlock(Print(condition, r1)) == (Ok(condition, r1, 0), OkBlock(block, rest, 0))
    decreases block, 3
  {
    Complete1(condition, More(eol, PrintBlock(block, rest)), false);
    CompleteBlock(block, eol, rest);
  }

  lemma {:induction false} CompleteIfs(ifs: IfList, rest: Stream)
    requires GIfs(ifs, Current(rest))
    ensures Line(PrintIfs(ifs, rest)) == IfRest(ifs, rest, 0)
    decreases ifs
  {
    hide ConditionBlock, IfRest, G1, GBlock, Line, Print, PrintBlock;
    var toks := Print(ifs.condition, More(ifs.eol, PrintBlock(ifs.block, rest)));
    CompleteCondition(ifs.condition, ifs.eol, ifs.block, rest);
    if ifs.FirstIf? {
      IfStep(ifs, toks, rest);
    } else {
      CompleteIfs(ifs.init, More(ifs.keyword, toks));
      ElifStep(ifs.init, More(ifs.keyword, toks), 0);
    }
  }

  lemma IfStep(ifs: IfList, toks: Stream, rest: Stream)
    requires ifs.FirstIf? && ifs.keyword.tid == KwIf
    requires exists r1 :: Peek(r1) == Eol && r1.head == ifs.eol
               && ConditionBlock(toks) == (Ok(ifs.condition, r1, 0), OkBlock(ifs.block, rest, 0))
    ensures Line(More(ifs.keyword, toks)) == IfRest(ifs, rest, 0)
  {
    hide ConditionBlock, IfRest, ForeachBlock, TestcaseBlock, E1;
    assert IfBlock(ifs.keyword, toks) == IfRest(ifs, rest, 0);
  }

  lemma {:induction false} CompleteForeach(s: Stmt, rest: Stream)
    requires s.ForeachStmt? && GStmt(s, Current(rest))
    ensures Line(PrintStmt(s, rest)) == OkLine(s, rest, 0)
    decreases s, 0
  {
    var end := More(s.endforeach, rest);
    var r2 := PrintBlock(s.block, end);
    SameFirstBlock(s.block, end, More(s.endforeach, End(s.endforeach)));
    Complete1(s.items, r2, false);
    CompleteBlock(s.block, s.colon, end);
    ForeachStep(s, Print(s.items, r2), r2, rest);
  }

  lemma ForeachStep(s: Stmt, toks: Stream, r2: Stream, rest: Stream)
    requires s.ForeachStmt? && s.foreach.tid == KwForeach && GNames(s.names) && s.colon.tid == Colon
    requires s.endforeach.tid == KwEndforeach
    requires E1(toks, false) == Ok(s.items, r2, 0)
    requires CodeBlock(s.colon, r2) == OkBlock(s.block, More(s.endforeach, rest), 0)
    ensures Line(More(s.foreach, PrintNames(s.names, More(s.colon, toks)))) == OkLine(s, rest, 0)
  {
    assert ForeachRest(s.foreach, s.names, More(s.colon, toks)) == OkLine(s, rest, 0);
    var names := PrintNames(s.names, More(s.colon, toks));
    assert ForeachBlock(s.foreach, names) == OkLine(s, rest, 0);
  }
}
