/**
 What a successful parse of statements and code blocks means.
 */
module BlockSound {
  import opened Tokens
  import opened Ast
  import opened ParserSpec
  import opened Grammar
  import opened ParserSound
  import opened Blocks

  // ----- sizes

  lemma {:induction false} BlockShift(b: Block, x: Stream, y: Stream)
    ensures Size(PrintBlock(b, x)) + Size(y) == Size(PrintBlock(b, y)) + Size(x)
    decreases b, 0
  {
    match b
    case NoLines(_) =>
    case AddEol(init, eol) => BlockShift(init, More(eol, x), More(eol, y));
    case AddLine(init, line) =>
      StmtShift(line, x, y);
      BlockShift(init, PrintStmt(line, x), PrintStmt(line, y));
  }

  lemma {:induction false} StmtShift(s: Stmt, x: Stream, y: Stream)
    ensures Size(PrintStmt(s, x)) + Size(y) == Size(PrintStmt(s, y)) + Size(x)
    decreases s
  {
    match s
    case ExprStmt(node) => PrintShift(node, x, y);
    case JumpStmt(_, _) =>
    case IfStmt(ifs, elseblock, endif) =>
      var x1, y1 := More(endif, x), More(endif, y);
      if elseblock.Else? {
        BlockShift(elseblock.block, x1, y1);
        EolSize(elseblock.eol, PrintBlock(elseblock.block, x1));
        EolSize(elseblock.eol, PrintBlock(elseblock.block, y1));
      }
      IfsShift(ifs, PrintElse(elseblock, x1), PrintElse(elseblock, y1));
    case ForeachStmt(foreach, names, colon, items, block, endforeach) =>
      var x1, y1 := PrintBlock(block, More(endforeach, x)), PrintBlock(block, More(endforeach, y));
      BlockShift(block, More(endforeach, x), More(endforeach, y));
      PrintShift(items, x1, y1);
      NamesShift(names, More(colon, Print(items, x1)), More(colon, Print(items, y1)));
    case TestcaseStmt(testcase, condition, eol, block, endtestcase) =>
      ConditionShift(condition, eol, block, More(endtestcase, x), More(endtestcase, y));
  }

  lemma EolSize(eol: Token, s: Stream)
    ensures Size(More(eol, s)) == 1 + Size(s)
  {}

  lemma NamesShift(names: Names, x: Stream, y: Stream)
    ensures Size(PrintNames(names, x)) + Size(y) == Size(PrintNames(names, y)) + Size(x)
  {
    if names.TwoNames? {
      EolSize(names.comma, More(names.second, x));
      EolSize(names.comma, More(names.second, y));
    }
  }

  lemma {:induction false} ConditionShift(condition: Node, eol: Token, block: Block, x: Stream, y: Stream)
    ensures Size(Print(condition, More(eol, PrintBlock(block, x)))) + Size(y)
         == Size(Print(condition, More(eol, PrintBlock(block, y)))) + Size(x)
    decreases block, 1
  {
    BlockShift(block, x, y);
    PrintShift(condition, More(eol, PrintBlock(block, x)), More(eol, PrintBlock(block, y)));
  }

  lemma {:induction false} IfsShift(ifs: IfList, x: Stream, y: Stream)
    ensures Size(PrintIfs(ifs, x)) + Size(y) == Size(PrintIfs(ifs, y)) + Size(x)
    decreases ifs
  {
    ConditionShift(ifs.condition, ifs.eol, ifs.block, x, y);
    if ifs.AddElif? {
      IfsShift(ifs.init, More(ifs.keyword, Print(ifs.condition, More(ifs.eol, PrintBlock(ifs.block, x)))),
               More(ifs.keyword, Print(ifs.condition, More(ifs.eol, PrintBlock(ifs.block, y)))));
    }
  }

  // ----- faithful pieces

  /** No ternary lies inside a branch of another. */
  predicate Calm(t: Node) { Disciplined(t, false) }

  predicate FaithfulBlock(toks: Stream, b: Block, rest: Stream, lost: nat) {
    && Size(toks) == Size(PrintBlock(b, rest)) + lost
    && (lost == 0 && Every(b, Ordered) ==> toks == PrintBlock(b, rest))
    && Every(b, Calm)
  }

  predicate FaithfulStmt(toks: Stream, s: Stmt, rest: Stream, lost: nat) {
    && Size(toks) == Size(PrintStmt(s, rest)) + lost
    && (lost == 0 && EveryStmt(s, Ordered) ==> toks == PrintStmt(s, rest))
    && EveryStmt(s, Calm)
  }

  predicate FaithfulIfs(toks: Stream, ifs: IfList, rest: Stream, lost: nat) {
    && Size(toks) == Size(PrintIfs(ifs, rest)) + lost
    && (lost == 0 && EveryIf(ifs, Ordered) ==> toks == PrintIfs(ifs, rest))
    && EveryIf(ifs, Calm)
  }

  predicate SoundBlock(opener: Token, toks: Stream, r: ParsedBlock) {
    r.OkBlock? ==>
      && FaithfulBlock(toks, r.block, r.rest, r.lost)
      && (r.lost == 0 && Every(r.block, Ordered) ==> GBlock(r.block, opener, Current(r.rest)))
  }

  predicate SoundLine(toks: Stream, r: ParsedLine) {
    && (r.OkLine? ==>
          && FaithfulStmt(toks, r.line, r.rest, r.lost)
          && (r.lost == 0 && EveryStmt(r.line, Ordered) ==> GStmt(r.line, Current(r.rest))))
    && (r.Blank? ==>
          && Size(toks) == Size(r.rest) + r.lost
          && (r.lost == 0 ==> toks == r.rest && BlankBefore(Peek(toks))))
  }

  // ----- blocks

  lemma {:induction false} SoundCodeBlock(opener: Token, toks: Stream)
    ensures SoundBlock(opener, toks, CodeBlock(opener, toks))
    decreases Size(toks), 4
  {
    hide CodeBlockLoop;
    SoundBlockLoop(opener, toks, NoLines(opener), toks, 0);
  }

  lemma LineAdded(orig: Stream, b: Block, toks: Stream, lost: nat, line: Stmt, rest: Stream, more: nat)
    requires FaithfulBlock(orig, b, toks, lost)
    requires FaithfulStmt(toks, line, rest, more)
    ensures FaithfulBlock(orig, AddLine(b, line), rest, lost + more)
  {
    BlockShift(b, toks, PrintStmt(line, rest));
  }

  lemma BlankKept(orig: Stream, b: Block, toks: Stream, lost: nat, rest: Stream, more: nat)
    requires FaithfulBlock(orig, b, toks, lost) && Size(toks) == Size(rest) + more && (more == 0 ==> toks == rest)
    ensures FaithfulBlock(orig, b, rest, lost + more)
  {
    BlockShift(b, toks, rest);
  }

  lemma {:induction false} SoundBlockLoop(opener: Token, orig: Stream, b: Block, toks: Stream, lost: nat)
    requires FaithfulBlock(orig, b, toks, lost)
    requires lost == 0 && Every(b, Ordered) ==> GStart(b, opener)
    ensures SoundBlock(opener, orig, CodeBlockLoop(b, toks, lost))
    decreases Size(toks), 3
  {
    hide Line, CodeBlockEnd, FaithfulBlock, FaithfulStmt, GStmt, BlankBefore;
    SoundLineAt(toks);
    var l := Line(toks);
    if l.OkLine? {
      LineAdded(orig, b, toks, lost, l.line, l.rest, l.lost);
      SoundBlockEnd(opener, orig, AddLine(b, l.line), l.rest, lost + l.lost);
    } else if l.Blank? {
      BlankKept(orig, b, toks, lost, l.rest, l.lost);
      SoundBlockEnd(opener, orig, b, l.rest, lost + l.lost);
    }
  }

  lemma {:induction false} SoundBlockEnd(opener: Token, orig: Stream, b: Block, toks: Stream, lost: nat)
    requires FaithfulBlock(orig, b, toks, lost)
    requires lost == 0 && Every(b, Ordered) ==> GEntries(b, opener, Current(toks))
    ensures SoundBlock(opener, orig, CodeBlockEnd(b, toks, lost))
    decreases Size(toks), 0
  {
    hide CodeBlockLoop;
    if Peek(toks) == Eol {
      SoundBlockLoop(opener, orig, AddEol(b, toks.head), toks.tail, lost);
    }
  }

  lemma {:induction false} SoundLineAt(toks: Stream)
    ensures SoundLine(toks, Line(toks))
    decreases Size(toks), 1
  {
    hide IfBlock, ForeachBlock, TestcaseBlock, E1;
    if Peek(toks) == Eol {
    } else if Peek(toks) == KwIf {
      SoundIf(toks.head, toks.tail);
    } else if Peek(toks) == KwForeach {
      SoundForeach(toks.head, toks.tail);
    } else if Peek(toks) == KwTestcase {
      SoundTestcase(toks.head, toks.tail);
    } else if Peek(toks) != KwContinue && Peek(toks) != KwBreak {
      SoundExpression(toks);
    }
  }

  lemma SoundExpression(toks: Stream)
    requires Peek(toks) != Eol && !StartsStatement(Peek(toks))
    ensures SoundLine(toks, Line(toks))
  {
    Sound1(toks, false);
    var s := E1(toks, false);
    if s.Ok? && s.node.EmptyNode? && s.lost == 0 {
      EmptyStops(s.node, Current(s.rest), false);
    }
  }

  // ----- statements with blocks

  /** What is known when a condition and its block have been read. */
  predicate SoundCondition(toks: Stream, c: Parsed, b: ParsedBlock) {
    c.Ok? && b.OkBlock? ==>
      && Peek(c.rest) == Eol
      && Size(toks) == Size(Print(c.node, More(c.rest.head, PrintBlock(b.block, b.rest)))) + c.lost + b.lost
      && Calm(c.node) && Every(b.block, Calm)
      && (c.lost + b.lost == 0 && Ordered(c.node) && Every(b.block, Ordered) ==>
            && toks == Print(c.node, More(c.rest.head, PrintBlock(b.block, b.rest)))
            && G1(c.node, c.rest.head, false)
            && GBlock(b.block, c.rest.head, Current(b.rest)))
  }

  lemma {:induction false} SoundConditionBlock(toks: Stream)
    ensures var (c, b) := ConditionBlock(toks); SoundCondition(toks, c, b)
    decreases Size(toks), 5
  {
    hide E1, CodeBlock, GBlock, G1, BlankBefore;
    Sound1(toks, false);
    var c := E1(toks, false);
    if c.Ok? && Peek(c.rest) == Eol {
      SoundCodeBlock(c.rest.head, c.rest.tail);
      var b := CodeBlock(c.rest.head, c.rest.tail);
      if b.OkBlock? {
        PrintShift(c.node, c.rest, More(c.rest.head, PrintBlock(b.block, b.rest)));
      }
    }
  }

  lemma {:induction false} SoundIf(keyword: Token, toks: Stream)
    requires keyword.tid == KwIf
    ensures SoundLine(More(keyword, toks), IfBlock(keyword, toks))
    decreases Size(toks), 6
  {
    hide ConditionBlock, IfRest, GBlock, G1;
    SoundConditionBlock(toks);
    var (c, b) := ConditionBlock(toks);
    if c.Ok? && b.OkBlock? {
      SoundIfRest(More(keyword, toks), FirstIf(keyword, c.node, c.rest.head, b.block), b.rest, c.lost + b.lost);
    }
  }

  lemma BranchAdded(orig: Stream, ifs: IfList, toks: Stream, lost: nat, c: Parsed, b: ParsedBlock)
    requires FaithfulIfs(orig, ifs, toks, lost) && Peek(toks) == KwElif
    requires c.Ok? && b.OkBlock? && SoundCondition(toks.tail, c, b)
    ensures FaithfulIfs(orig, AddElif(ifs, toks.head, c.node, c.rest.head, b.block), b.rest, lost + c.lost + b.lost)
  {
    var more := More(toks.head, Print(c.node, More(c.rest.head, PrintBlock(b.block, b.rest))));
    IfsShift(ifs, toks, more);
  }

  lemma {:induction false} SoundIfRest(orig: Stream, ifs: IfList, toks: Stream, lost: nat)
    requires FaithfulIfs(orig, ifs, toks, lost)
    requires lost == 0 && EveryIf(ifs, Ordered) ==> GIfs(ifs, Current(toks))
    ensures SoundLine(orig, IfRest(ifs, toks, lost))
    decreases Size(toks), 2
  {
    hide ConditionBlock, IfRest, FaithfulIfs, GBlock, G1, GStmt, FaithfulStmt;
    if Peek(toks) == KwElif {
      ElifStep(ifs, toks, lost);
      SoundConditionBlock(toks.tail);
      var (c, b) := ConditionBlock(toks.tail);
      if c.Ok? && b.OkBlock? {
        BranchAdded(orig, ifs, toks, lost, c, b);
        SoundIfRest(orig, AddElif(ifs, toks.head, c.node, c.rest.head, b.block), b.rest, lost + c.lost + b.lost);
      }
    } else {
      SoundEndif(orig, ifs, toks, lost);
    }
  }

  /** What is known of the `else` branch, or its absence, in front of `rest`. */
  predicate SoundElsePart(toks: Stream, e: ElseBlock, rest: Stream, lost: nat) {
    && Size(toks) == Size(PrintElse(e, rest)) + lost
    && (if e.Else? then Every(e.block, Calm) && e.keyword == Current(toks) else Current(toks) == Current(rest))
    && (lost == 0 && (e.Else? ==> Every(e.block, Ordered)) ==> toks == PrintElse(e, rest) && GElse(e, Current(rest)))
  }

  lemma ElseAdded(orig: Stream, ifs: IfList, toks: Stream, lost: nat, e: ElseBlock, rest: Stream, more: nat)
    requires FaithfulIfs(orig, ifs, toks, lost)
    requires SoundElsePart(toks, e, rest, more) && Peek(rest) == KwEndif
    ensures FaithfulStmt(orig, IfStmt(ifs, e, rest.head), rest.tail, lost + more)
  {
    IfsShift(ifs, toks, PrintElse(e, rest));
  }

  lemma {:induction false} SoundEndif(orig: Stream, ifs: IfList, toks: Stream, lost: nat)
    requires FaithfulIfs(orig, ifs, toks, lost) && Peek(toks) != KwElif
    requires lost == 0 && EveryIf(ifs, Ordered) ==> GIfs(ifs, Current(toks))
    ensures SoundLine(orig, IfRest(ifs, toks, lost))
    decreases Size(toks), 1
  {
    hide ConditionBlock, ElsePart, FaithfulIfs, FaithfulStmt, GIfs, GElse, PrintElse, Ordered;
    SoundElse(toks);
    var e := ElsePart(toks);
    if e.OkElse? && Peek(e.rest) == KwEndif {
      ElseAdded(orig, ifs, toks, lost, e.block, e.rest, e.lost);
    }
  }

  lemma {:induction false} SoundElse(toks: Stream)
    ensures var e := ElsePart(toks); e.OkElse? ==> SoundElsePart(toks, e.block, e.rest, e.lost)
    decreases Size(toks), 0
  {
    if Peek(toks) == KwElse && Peek(toks.tail) == Eol {
      EolSize(toks.head, toks.tail);
      SoundCodeBlock(toks.tail.head, toks.tail.tail);
      var b := CodeBlock(toks.tail.head, toks.tail.tail);
      if b.OkBlock? {
        EolSize(toks.tail.head, PrintBlock(b.block, b.rest));
      }
    }
  }

  lemma {:induction false} SoundForeach(keyword: Token, toks: Stream)
    requires keyword.tid == KwForeach
    ensures SoundLine(More(keyword, toks), ForeachBlock(keyword, toks))
    decreases Size(toks), 6
  {
    if Peek(toks) == Id {
      var more := toks.tail;
      EolSize(toks.head, more);
      if Peek(more) != Comma {
        SoundForeachRest(keyword, OneName(toks.head), more);
      } else if Peek(more.tail) == Id {
        EolSize(more.head, more.tail);
        SoundForeachRest(keyword, TwoNames(toks.head, more.head, more.tail.head), more.tail.tail);
      }
    }
  }

  lemma {:induction false} SoundForeachRest(keyword: Token, names: Names, toks: Stream)
    requires keyword.tid == KwForeach && GNames(names)
    ensures SoundLine(More(keyword, PrintNames(names, toks)), ForeachRest(keyword, names, toks))
    decreases Size(toks), 6
  {
    hide E1, CodeBlock, GBlock, G1, GNames, FaithfulStmt, GStmt, PrintNames;
    if Peek(toks) == Colon {
      SoundItemsBlock(toks);
      var items := E1(toks.tail, false);
      if items.Ok? {
        var b := CodeBlock(toks.head, items.rest);
        if b.OkBlock? && Peek(b.rest) == KwEndforeach {
          ForeachAdded(keyword, names, toks, items.node, b.block, b.rest, items.lost + b.lost);
        }
      }
    }
  }

  lemma ForeachAdded(keyword: Token, names: Names, toks: Stream, items: Node, block: Block, end: Stream, lost: nat)
    requires keyword.tid == KwForeach && GNames(names) && Peek(toks) == Colon && Peek(end) == KwEndforeach
    requires Size(toks) == 1 + Size(Print(items, PrintBlock(block, end))) + lost && Calm(items) && Every(block, Calm)
    requires lost == 0 && Ordered(items) && Every(block, Ordered) ==>
               && toks.tail == Print(items, PrintBlock(block, end))
               && G1(items, FirstToken(block, end.head), false) && GBlock(block, toks.head, end.head)
    ensures var s := ForeachStmt(keyword, names, toks.head, items, block, end.head);
            && FaithfulStmt(More(keyword, PrintNames(names, toks)), s, end.tail, lost)
            && (lost == 0 && EveryStmt(s, Ordered) ==> GStmt(s, Current(end.tail)))
  {
    hide Print, PrintBlock, PrintNames, GBlock, G1, GNames, Ordered, Disciplined, FirstToken;
    NamesShift(names, toks, More(toks.head, Print(items, PrintBlock(block, end))));
  }

  /** The iterated expression and the body, which starts at the colon's token. */
  lemma {:induction false} SoundItemsBlock(toks: Stream)
    requires Peek(toks) == Colon
    ensures var items := E1(toks.tail, false);
            items.Ok? ==>
              var b := CodeBlock(toks.head, items.rest);
              b.OkBlock? && Peek(b.rest) == KwEndforeach ==>
                && Size(toks) == 1 + Size(Print(items.node, PrintBlock(b.block, b.rest))) + items.lost + b.lost
                && Calm(items.node) && Every(b.block, Calm)
                && (items.lost + b.lost == 0 && Ordered(items.node) && Every(b.block, Ordered) ==>
                      && toks.tail == Print(items.node, PrintBlock(b.block, b.rest))
                      && G1(items.node, FirstToken(b.block, b.rest.head), false)
                      && GBlock(b.block, toks.head, b.rest.head))
    decreases Size(toks), 5
  {
    Sound1(toks.tail, false);
    var items := E1(toks.tail, false);
    if items.Ok? {
      SoundCodeBlock(toks.head, items.rest);
      var b := CodeBlock(toks.head, items.rest);
      if b.OkBlock? && Peek(b.rest) == KwEndforeach {
        PrintShift(items.node, items.rest, PrintBlock(b.block, b.rest));
        SameFirstBlock(b.block, b.rest, More(b.rest.head, End(b.rest.head)));
      }
    }
  }

  lemma {:induction false} SoundTestcase(keyword: Token, toks: Stream)
    requires keyword.tid == KwTestcase
    ensures SoundLine(More(keyword, toks), TestcaseBlock(keyword, toks))
    decreases Size(toks), 6
  {
    hide ConditionBlock, GBlock, G1;
    SoundConditionBlock(toks);
  }
}
