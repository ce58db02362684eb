/**
 Misplaced arguments in statements and code blocks.
 */
module MisplacedBlocks {
  import opened Tokens
  import opened Ast
  import opened ParserSpec
  import opened Grammar
  import opened Blocks
  import opened Misplaced
  import opened Reprint

  // ----- on trees

  function FlagsBlock(b: Block): nat
    decreases b
  {
    match b
    case NoLines(_) => 0
    case AddLine(init, line) => FlagsBlock(init) + FlagsStmt(line)
    case AddEol(init, _) => FlagsBlock(init)
  }

  function FlagsStmt(s: Stmt): nat
    decreases s
  {
    match s
    case ExprStmt(node) => Flags(node)
    case JumpStmt(_, _) => 0
    case IfStmt(ifs, elseblock, _) => FlagsIfs(ifs) + if elseblock.Else? then FlagsBlock(elseblock.block) else 0
    case ForeachStmt(_, _, _, items, block, _) => Flags(items) + FlagsBlock(block)
    case TestcaseStmt(_, condition, _, block, _) => Flags(condition) + FlagsBlock(block)
  }

  function FlagsIfs(ifs: IfList): nat
    decreases ifs
  {
    Flags(ifs.condition) + FlagsBlock(ifs.block) + if ifs.AddElif? then FlagsIfs(ifs.init) else 0
  }

  lemma {:induction false} BlockOrdered(b: Block)
    ensures FlagsBlock(b) == 0 <==> Every(b, Ordered)
    decreases b
  {
    hide Flags, Ordered;
    match b
    case NoLines(_) =>
    case AddLine(init, line) => BlockOrdered(init); StmtOrdered(line);
    case AddEol(init, _) => BlockOrdered(init);
  }

  lemma {:induction false} StmtOrdered(s: Stmt)
    ensures FlagsStmt(s) == 0 <==> EveryStmt(s, Ordered)
    decreases s
  {
    hide Flags, Ordered;
    match s
    case ExprStmt(node) => FlagsOrdered(node);
    case JumpStmt(_, _) =>
    case IfStmt(ifs, elseblock, _) =>
      IfsOrdered(ifs);
      if elseblock.Else? {
        BlockOrdered(elseblock.block);
      }
    case ForeachStmt(_, _, _, items, block, _) => FlagsOrdered(items); BlockOrdered(block);
    case TestcaseStmt(_, condition, _, block, _) => FlagsOrdered(condition); BlockOrdered(block);
  }

  lemma {:induction false} IfsOrdered(ifs: IfList)
    ensures FlagsIfs(ifs) == 0 <==> EveryIf(ifs, Ordered)
    decreases ifs
  {
    hide Flags, Ordered;
    FlagsOrdered(ifs.condition);
    BlockOrdered(ifs.block);
    if ifs.AddElif? {
      IfsOrdered(ifs.init);
    }
  }

  /** The tokens of a block are of the kinds that belong in their places. */
  predicate KindsBlock(b: Block)
    decreases b
  {
    match b
    case NoLines(_) => true
    case AddLine(init, line) => KindsBlock(init) && KindsStmt(line)
    case AddEol(init, eol) => KindsBlock(init) && eol.tid == Eol
  }

  predicate KindsStmt(s: Stmt)
    decreases s
  {
    match s
    case ExprStmt(node) => Kinds(node)
    case JumpStmt(keyword, _) => keyword.tid == KwContinue || keyword.tid == KwBreak
    case IfStmt(ifs, elseblock, endif) => KindsIfs(ifs) && KindsElse(elseblock) && endif.tid == KwEndif
    case ForeachStmt(foreach, names, colon, items, block, endforeach) =>
      && foreach.tid == KwForeach && GNames(names) && colon.tid == Colon && Kinds(items)
      && KindsBlock(block) && endforeach.tid == KwEndforeach
    case TestcaseStmt(testcase, condition, eol, block, endtestcase) =>
      && testcase.tid == KwTestcase && Kinds(condition) && eol.tid == Eol
      && KindsBlock(block) && endtestcase.tid == KwEndtestcase
  }

  predicate KindsIfs(ifs: IfList)
    decreases ifs
  {
    && Kinds(ifs.condition) && ifs.eol.tid == Eol && KindsBlock(ifs.block)
    && if ifs.FirstIf? then ifs.keyword.tid == KwIf else ifs.keyword.tid == KwElif && KindsIfs(ifs.init)
  }

  predicate KindsElse(e: ElseBlock)
    decreases e
  {
    e.Else? ==> e.keyword.tid == KwElse && e.eol.tid == Eol && KindsBlock(e.block)
  }

  // ----- printed

  predicate LineWord(t: Tid) {
    || t == Eol || t == KwIf || t == KwElif || t == KwElse || t == KwEndif || t == KwContinue || t == KwBreak
    || t == KwForeach || t == KwEndforeach || t == KwTestcase || t == KwEndtestcase
  }

  lemma LineWordPlain(t: Tid)
    requires LineWord(t)
    ensures Plain(t)
  {
  }

  lemma LineSkips(toks: Stream)
    requires LineWord(Peek(toks))
    ensures toks.More? && Misplacements(toks) == Misplacements(toks.tail)
  {
    hide Plain, LineWord;
    LineWordPlain(Peek(toks));
    PlainSkips(NoList(false), toks);
  }

  lemma LineWordAlone(tok: Token, rest: Stream)
    requires LineWord(tok.tid)
    ensures Misplacements(More(tok, rest)) == Misplacements(rest)
  {
    hide LineWord, Misplacements;
    LineSkips(More(tok, rest));
  }

  /** The names of a loop and the colon behind them. */
  lemma NamesSkip(names: Names, toks: Stream)
    requires GNames(names) && Peek(toks) == Colon
    ensures Misplacements(PrintNames(names, toks)) == Misplacements(toks.tail)
  {
    hide Flagged;
    var n := NoList(false);
    WordSkips(n, toks);
    if names.OneName? {
      WordSkips(n, More(names.name, toks));
    } else {
      var second := More(names.second, toks);
      WordSkips(n, second);
      CommaGoesOn(n, More(names.comma, second));
      WordSkips(n, More(names.name, More(names.comma, second)));
    }
  }

  lemma {:induction false} PrintBlockFlagged(b: Block, rest: Stream)
    requires KindsBlock(b)
    ensures Misplacements(PrintBlock(b, rest)) == Misplacements(rest)
    decreases b
  {
    hide Misplacements;
    match b
    case NoLines(_) =>
    case AddLine(init, line) =>
      PrintBlockFlagged(init, PrintStmt(line, rest));
      PrintStmtFlagged(line, rest);
    case AddEol(init, eol) =>
      PrintBlockFlagged(init, More(eol, rest));
      LineWordAlone(eol, rest);
  }

  lemma PrintNode(t: Node, rest: Stream)
    requires Kinds(t)
    ensures Misplacements(Print(t, rest)) == Misplacements(rest)
  {
    hide Flagged, Kinds;
    PrintFlagged(NoList(false), t, rest);
  }

  lemma {:induction false} PrintStmtFlagged(s: Stmt, rest: Stream)
    requires KindsStmt(s)
    ensures Misplacements(PrintStmt(s, rest)) == Misplacements(rest)
    decreases s
  {
    hide Misplacements, Kinds;
    match s
    case ExprStmt(node) => PrintNode(node, rest);
    case JumpStmt(keyword, _) => LineWordAlone(keyword, rest);
    case IfStmt(ifs, elseblock, endif) =>
      PrintIfsFlagged(ifs, PrintElse(elseblock, More(endif, rest)));
      if elseblock.Else? {
        var block := PrintBlock(elseblock.block, More(endif, rest));
        LineWordAlone(elseblock.keyword, More(elseblock.eol, block));
        LineWordAlone(elseblock.eol, block);
        PrintBlockFlagged(elseblock.block, More(endif, rest));
      }
      LineWordAlone(endif, rest);
    case ForeachStmt(foreach, names, colon, items, block, endforeach) =>
      var body := PrintBlock(block, More(endforeach, rest));
      var header := More(colon, Print(items, body));
      LineWordAlone(foreach, PrintNames(names, header));
      NamesSkip(names, header);
      PrintNode(items, body);
      PrintBlockFlagged(block, More(endforeach, rest));
      LineWordAlone(endforeach, rest);
    case TestcaseStmt(testcase, condition, eol, block, endtestcase) =>
      var body := PrintBlock(block, More(endtestcase, rest));
      LineWordAlone(testcase, Print(condition, More(eol, body)));
      PrintNode(condition, More(eol, body));
      LineWordAlone(eol, body);
      PrintBlockFlagged(block, More(endtestcase, rest));
      LineWordAlone(endtestcase, rest);
  }

  lemma {:induction false} PrintIfsFlagged(ifs: IfList, rest: Stream)
    requires KindsIfs(ifs)
    ensures Misplacements(PrintIfs(ifs, rest)) == Misplacements(rest)
    decreases ifs
  {
    hide Misplacements, Kinds;
    var body := PrintBlock(ifs.block, rest);
    var branch := Print(ifs.condition, More(ifs.eol, body));
    if ifs.AddElif? {
      PrintIfsFlagged(ifs.init, More(ifs.keyword, branch));
    }
    LineWordAlone(ifs.keyword, branch);
    PrintNode(ifs.condition, More(ifs.eol, body));
    LineWordAlone(ifs.eol, body);
    PrintBlockFlagged(ifs.block, rest);
  }

  // ----- parsed

  predicate TalliedBlock(count: nat, lost: nat, r: ParsedBlock) {
    r.OkBlock? ==>
      KindsBlock(r.block) && lost <= r.lost && (r.lost == lost ==> count == FlagsBlock(r.block) + Misplacements(r.rest))
  }

  predicate TalliedLine(count: nat, lost: nat, r: ParsedLine) {
    && (r.OkLine? ==>
          && KindsStmt(r.line) && lost <= r.lost
          && (r.lost == lost ==> count == FlagsStmt(r.line) + Misplacements(r.rest)))
    && (r.Blank? ==> lost <= r.lost && (r.lost == lost ==> count == Misplacements(r.rest)))
  }

  lemma {:induction false} TalliedCodeBlock(opener: Token, toks: Stream)
    ensures TalliedBlock(Misplacements(toks), 0, CodeBlock(opener, toks))
    decreases Size(toks), 4
  {
    hide CodeBlockLoop, Misplacements;
    TalliedBlockLoop(NoLines(opener), toks, 0);
  }

  lemma {:induction false} TalliedBlockLoop(b: Block, toks: Stream, lost: nat)
    requires KindsBlock(b)
    ensures TalliedBlock(FlagsBlock(b) + Misplacements(toks), lost, CodeBlockLoop(b, toks, lost))
    decreases Size(toks), 3
  {
    hide Line, CodeBlockEnd, Misplacements, KindsStmt, FlagsStmt;
    TalliedLineAt(toks);
    var l := Line(toks);
    if l.OkLine? {
      TalliedBlockEnd(AddLine(b, l.line), l.rest, lost + l.lost);
    } else if l.Blank? {
      TalliedBlockEnd(b, l.rest, lost + l.lost);
    }
  }

  lemma {:induction false} TalliedBlockEnd(b: Block, toks: Stream, lost: nat)
    requires KindsBlock(b)
    ensures TalliedBlock(FlagsBlock(b) + Misplacements(toks), lost, CodeBlockEnd(b, toks, lost))
    decreases Size(toks), 0
  {
    hide CodeBlockLoop, Misplacements;
    if Peek(toks) == Eol {
      LineSkips(toks);
      TalliedBlockLoop(AddEol(b, toks.head), toks.tail, lost);
    }
  }

  lemma {:induction false} TalliedLineAt(toks: Stream)
    ensures TalliedLine(Misplacements(toks), 0, Line(toks))
    decreases Size(toks), 1
  {
    hide IfBlock, ForeachBlock, TestcaseBlock, E1, Misplacements, KindsStmt, FlagsStmt;
    if Peek(toks) == Eol {
    } else if Peek(toks) == KwIf {
      LineSkips(toks);
      TalliedIf(toks.head, toks.tail);
    } else if Peek(toks) == KwForeach {
      LineSkips(toks);
      TalliedForeach(toks.head, toks.tail);
    } else if Peek(toks) == KwTestcase {
      LineSkips(toks);
      TalliedTestcase(toks.head, toks.tail);
    } else if Peek(toks) == KwContinue || Peek(toks) == KwBreak {
      TalliedJump(toks);
    } else {
      TalliedExpression(toks);
    }
  }

  lemma TalliedJump(toks: Stream)
    requires Peek(toks) == KwContinue || Peek(toks) == KwBreak
    ensures TalliedLine(Misplacements(toks), 0, OkLine(JumpStmt(toks.head, Current(toks.tail)), toks.tail, 0))
  {
    hide Misplacements;
    LineSkips(toks);
  }

  lemma TalliedExpression(toks: Stream)
    requires Peek(toks) != Eol && !StartsStatement(Peek(toks))
    ensures TalliedLine(Misplacements(toks), 0, Line(toks))
  {
    hide E1, Flagged, Kinds, IfBlock, ForeachBlock, TestcaseBlock;
    Tallied1(NoList(false), toks, false);
  }

  /** What is known when a condition and its block have been read. */
  predicate TalliedCondition(toks: Stream, c: Parsed, b: ParsedBlock) {
    c.Ok? && b.OkBlock? ==>
      && Kinds(c.node) && Peek(c.rest) == Eol && KindsBlock(b.block)
      && (c.lost + b.lost == 0 ==> Misplacements(toks) == Flags(c.node) + FlagsBlock(b.block) + Misplacements(b.rest))
  }

  lemma {:induction false} TalliedConditionBlock(toks: Stream)
    ensures var (c, b) := ConditionBlock(toks); TalliedCondition(toks, c, b)
    decreases Size(toks), 5
  {
    hide E1, CodeBlock, Flagged, Kinds, Flags, KindsBlock, FlagsBlock;
    Tallied1(NoList(false), toks, false);
    var c := E1(toks, false);
    if c.Ok? && Peek(c.rest) == Eol {
      LineSkips(c.rest);
      TalliedCodeBlock(c.rest.head, c.rest.tail);
    }
  }

  lemma {:induction false} TalliedIf(keyword: Token, toks: Stream)
    requires keyword.tid == KwIf
    ensures TalliedLine(Misplacements(toks), 0, IfBlock(keyword, toks))
    decreases Size(toks), 6
  {
    hide ConditionBlock, IfRest, Misplacements, Kinds, Flags, KindsBlock, FlagsBlock, KindsStmt, FlagsStmt;
    TalliedConditionBlock(toks);
    var (c, b) := ConditionBlock(toks);
    if c.Ok? && b.OkBlock? {
      TalliedIfRest(FirstIf(keyword, c.node, c.rest.head, b.block), b.rest, c.lost + b.lost);
    }
  }

  lemma {:induction false} TalliedIfRest(ifs: IfList, toks: Stream, lost: nat)
    requires KindsIfs(ifs)
    ensures TalliedLine(FlagsIfs(ifs) + Misplacements(toks), lost, IfRest(ifs, toks, lost))
    decreases Size(toks), 2
  {
    hide ConditionBlock, IfRest, Misplacements, Kinds, Flags, KindsBlock, FlagsBlock, KindsStmt, FlagsStmt;
    if Peek(toks) == KwElif {
      ElifStep(ifs, toks, lost);
      LineSkips(toks);
      TalliedConditionBlock(toks.tail);
      var (c, b) := ConditionBlock(toks.tail);
      if c.Ok? && b.OkBlock? {
        TalliedIfRest(AddElif(ifs, toks.head, c.node, c.rest.head, b.block), b.rest, lost + c.lost + b.lost);
      }
    } else {
      TalliedEndif(ifs, toks, lost);
    }
  }

  lemma {:induction false} TalliedEndif(ifs: IfList, toks: Stream, lost: nat)
    requires KindsIfs(ifs) && Peek(toks) != KwElif
    ensures TalliedLine(FlagsIfs(ifs) + Misplacements(toks), lost, IfRest(ifs, toks, lost))
    decreases Size(toks), 1
  {
    hide ConditionBlock, ElsePart, Misplacements, KindsIfs, FlagsIfs;
    TalliedElse(toks);
    var e := ElsePart(toks);
    if e.OkElse? && Peek(e.rest) == KwEndif {
      LineSkips(e.rest);
    }
  }

  lemma {:induction false} TalliedElse(toks: Stream)
    ensures var e := ElsePart(toks);
            e.OkElse? ==>
              && KindsElse(e.block)
              && (e.lost == 0 ==>
                    Misplacements(toks) ==
                    (if e.block.Else? then FlagsBlock(e.block.block) else 0) + Misplacements(e.rest))
    decreases Size(toks), 0
  {
    hide CodeBlock, Misplacements, KindsBlock, FlagsBlock;
    if Peek(toks) == KwElse && Peek(toks.tail) == Eol {
      assert Size(toks) == 1 + Size(toks.tail);
      LineSkips(toks);
      LineSkips(toks.tail);
      TalliedCodeBlock(toks.tail.head, toks.tail.tail);
    }
  }

  lemma {:induction false} TalliedForeach(keyword: Token, toks: Stream)
    requires keyword.tid == KwForeach
    ensures TalliedLine(Misplacements(toks), 0, ForeachBlock(keyword, toks))
    decreases Size(toks), 6
  {
    hide ForeachRest, Misplacements;
    if Peek(toks) == Id {
      var more := toks.tail;
      assert Size(toks) == 1 + Size(more);
      if Peek(more) != Comma {
        TalliedForeachRest(keyword, OneName(toks.head), more);
      } else if Peek(more.tail) == Id {
        assert Size(more) == 1 + Size(more.tail);
        TalliedForeachRest(keyword, TwoNames(toks.head, more.head, more.tail.head), more.tail.tail);
      }
    }
  }

  lemma {:induction false} TalliedForeachRest(keyword: Token, names: Names, toks: Stream)
    requires keyword.tid == KwForeach && GNames(names)
    ensures TalliedLine(Misplacements(PrintNames(names, toks)), 0, ForeachRest(keyword, names, toks))
    decreases Size(toks), 6
  {
    hide E1, CodeBlock, Flagged, Kinds, Flags, KindsBlock, FlagsBlock, GNames, PrintNames;
    if Peek(toks) == Colon {
      NamesSkip(names, toks);
      Tallied1(NoList(false), toks.tail, false);
      var items := E1(toks.tail, false);
      if items.Ok? {
        TalliedCodeBlock(toks.head, items.rest);
        var b := CodeBlock(toks.head, items.rest);
        if b.OkBlock? && Peek(b.rest) == KwEndforeach {
          LineSkips(b.rest);
        }
      }
    }
  }

  lemma {:induction false} TalliedTestcase(keyword: Token, toks: Stream)
    requires keyword.tid == KwTestcase
    ensures TalliedLine(Misplacements(toks), 0, TestcaseBlock(keyword, toks))
    decreases Size(toks), 6
  {
    hide ConditionBlock, Misplacements, Kinds, Flags, KindsBlock, FlagsBlock;
    TalliedConditionBlock(toks);
    var (c, b) := ConditionBlock(toks);
    if c.Ok? && b.OkBlock? && Peek(b.rest) == KwEndtestcase {
      LineSkips(b.rest);
    }
  }
}
