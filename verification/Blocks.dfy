/**
 Statements and code blocks: their trees, printer, parser functions and grammar.
 */
module Blocks {
  import opened Tokens
  import opened Ast
  import opened ParserSpec
  import opened Grammar

  /** The entries of a code block, the last one outermost. Line ends are entries of their own;
      the original keeps them in the whitespace of the neighbouring nodes. Empty lines leave no
      node. `opener` is the token that opens the block. The node of `continue` or `break` is made from the token behind
      the keyword, `at`. */
  datatype Block =
    | NoLines(opener: Token)
    | AddLine(init: Block, line: Stmt)
    | AddEol(init: Block, eol: Token)

  datatype Stmt =
    | ExprStmt(node: Node)
    | JumpStmt(keyword: Token, at: Token)
    | IfStmt(ifs: IfList, elseblock: ElseBlock, endif: Token)
    | ForeachStmt(foreach: Token, names: Names, colon: Token, items: Node, block: Block, endforeach: Token)
    | TestcaseStmt(testcase: Token, condition: Node, eol: Token, block: Block, endtestcase: Token)

  datatype IfList =
    | FirstIf(keyword: Token, condition: Node, eol: Token, block: Block)
    | AddElif(init: IfList, keyword: Token, condition: Node, eol: Token, block: Block)

  datatype ElseBlock = NoElse(at: Token) | Else(keyword: Token, eol: Token, block: Block)

  datatype Names = OneName(name: Token) | TwoNames(name: Token, comma: Token, second: Token)

  // ----- printing

  function PrintBlock(b: Block, rest: Stream): Stream
    decreases b
  {
    match b
    case NoLines(_) => rest
    case AddLine(init, line) => PrintBlock(init, PrintStmt(line, rest))
    case AddEol(init, eol) => PrintBlock(init, More(eol, rest))
  }

  function PrintStmt(s: Stmt, rest: Stream): Stream
    decreases s
  {
    match s
    case ExprStmt(node) => Print(node, rest)
    case JumpStmt(keyword, _) => More(keyword, rest)
    case IfStmt(ifs, elseblock, endif) => PrintIfs(ifs, PrintElse(elseblock, More(endif, rest)))
    case ForeachStmt(foreach, names, colon, items, block, endforeach) =>
      More(foreach, PrintNames(names, More(colon, Print(items, PrintBlock(block, More(endforeach, rest))))))
    case TestcaseStmt(testcase, condition, eol, block, endtestcase) =>
      More(testcase, Print(condition, More(eol, PrintBlock(block, More(endtestcase, rest)))))
  }

  function PrintIfs(ifs: IfList, rest: Stream): Stream
    decreases ifs
  {
    match ifs
    case FirstIf(keyword, condition, eol, block) => More(keyword, Print(condition, More(eol, PrintBlock(block, rest))))
    case AddElif(init, keyword, condition, eol, block) =>
      PrintIfs(init, More(keyword, Print(condition, More(eol, PrintBlock(block, rest)))))
  }

  function PrintElse(e: ElseBlock, rest: Stream): Stream
    decreases e
  {
    match e
    case NoElse(_) => rest
    case Else(keyword, eol, block) => More(keyword, More(eol, PrintBlock(block, rest)))
  }

  function PrintNames(names: Names, rest: Stream): Stream {
    match names
    case OneName(name) => More(name, rest)
    case TwoNames(name, comma, second) => More(name, More(comma, More(second, rest)))
  }

  // ----- parsing

  datatype ParsedLine = OkLine(line: Stmt, rest: Stream, lost: nat) | Blank(rest: Stream, lost: nat) | ErrLine(error:
  ParseError)
  datatype ParsedBlock = OkBlock(block: Block, rest: Stream, lost: nat) | ErrBlock(error: ParseError)
  datatype ParsedElse = OkElse(block: ElseBlock, rest: Stream, lost: nat) | ErrElse(error: ParseError)

  /** A whole file; `opener` stands for its beginning. */
  function Parse(opener: Token, toks: Stream): ParsedBlock {
    var b := CodeBlock(opener, toks);
    if b.ErrBlock? then b
    else if Peek(b.rest) != Eof then ErrBlock(Expecting(Eof, Peek(b.rest)))
    else b
  }

  function CodeBlock(opener: Token, toks: Stream): (r: ParsedBlock)
    ensures r.OkBlock? ==> Size(r.rest) <= Size(toks)
    decreases Size(toks), 4
  {
    CodeBlockLoop(NoLines(opener), toks, 0)
  }

  function CodeBlockLoop(b: Block, toks: Stream, lost: nat): (r: ParsedBlock)
    ensures r.OkBlock? ==> Size(r.rest) <= Size(toks)
    decreases Size(toks), 3
  {
    var l := Line(toks);
    if l.ErrLine? then ErrBlock(l.error)
    else CodeBlockEnd(if l.OkLine? then AddLine(b, l.line) else b, l.rest, lost + l.lost)
  }

  /** After a line: an end of line goes on with the block. */
  function CodeBlockEnd(b: Block, toks: Stream, lost: nat): (r: ParsedBlock)
    ensures r.OkBlock? ==> Size(r.rest) <= Size(toks)
    decreases Size(toks), 0
  {
    if Peek(toks) == Eol then CodeBlockLoop(AddEol(b, toks.head), toks.tail, lost)
    else OkBlock(b, toks, lost)
  }

  function Line(toks: Stream): (r: ParsedLine)
    ensures !r.ErrLine? ==> Size(r.rest) <= Size(toks)
    decreases Size(toks), 1
  {
    if Peek(toks) == Eol then Blank(toks, 0)
    else if Peek(toks) == KwIf then IfBlock(toks.head, toks.tail)
    else if Peek(toks) == KwForeach then ForeachBlock(toks.head, toks.tail)
    else if Peek(toks) == KwContinue || Peek(toks) == KwBreak then
      OkLine(JumpStmt(toks.head, Current(toks.tail)), toks.tail, 0)
    else if Peek(toks) == KwTestcase then TestcaseBlock(toks.head, toks.tail)
    else
      var s := E1(toks, false);
      if s.Err? then ErrLine(s.error)
      else if s.node.EmptyNode? then Blank(s.rest, s.lost)
      else OkLine(ExprStmt(s.node), s.rest, s.lost)
  }

  /** A condition, the end of its line, and the block after it. */
  function ConditionBlock(toks: Stream): (r: (Parsed, ParsedBlock))
    ensures r.0.Ok? && r.1.OkBlock? ==> Peek(r.0.rest) == Eol && Size(r.1.rest) < Size(r.0.rest) <= Size(toks)
    decreases Size(toks), 5
  {
    var c := E1(toks, false);
    if c.Err? then (c, ErrBlock(c.error))
    else if Peek(c.rest) != Eol then (c, ErrBlock(Expecting(Eol, Peek(c.rest))))
    else (c, CodeBlock(c.rest.head, c.rest.tail))
  }

  function IfBlock(keyword: Token, toks: Stream): (r: ParsedLine)
    ensures !r.ErrLine? ==> Size(r.rest) <= Size(toks)
    decreases Size(toks), 6
  {
    var (c, b) := ConditionBlock(toks);
    if b.ErrBlock? then ErrLine(b.error)
    else if c.Err? then ErrLine(c.error)
    else IfRest(FirstIf(keyword, c.node, c.rest.head, b.block), b.rest, c.lost + b.lost)
  }

  /** Any `elif` branches, then the `else` branch and `endif`. */
  function IfRest(ifs: IfList, toks: Stream, lost: nat): (r: ParsedLine)
    ensures !r.ErrLine? ==> Size(r.rest) <= Size(toks)
    decreases Size(toks), 1
  {
    if Peek(toks) == KwElif then
      var (c, b) := ConditionBlock(toks.tail);
      if b.ErrBlock? then ErrLine(b.error)
      else if c.Err? then ErrLine(c.error)
      else IfRest(AddElif(ifs, toks.head, c.node, c.rest.head, b.block), b.rest, lost + c.lost + b.lost)
    else
      var e := ElsePart(toks);
      if e.ErrElse? then ErrLine(e.error)
      else if Peek(e.rest) != KwEndif then ErrLine(Expecting(KwEndif, Peek(e.rest)))
      else OkLine(IfStmt(ifs, e.block, e.rest.head), e.rest.tail, lost + e.lost)
  }

  /** An `elif` branch is read, or the whole statement fails. */
  lemma ElifStep(ifs: IfList, toks: Stream, lost: nat)
    requires Peek(toks) == KwElif
    ensures var (c, b) := ConditionBlock(toks.tail);
            IfRest(ifs, toks, lost) ==
            (if b.ErrBlock? then ErrLine(b.error)
             else if c.Err? then ErrLine(c.error)
             else IfRest(AddElif(ifs, toks.head, c.node, c.rest.head, b.block), b.rest, lost + c.lost + b.lost))
  {
    hide ConditionBlock, ElsePart;
  }

  function ElsePart(toks: Stream): (r: ParsedElse)
    ensures r.OkElse? ==> Size(r.rest) <= Size(toks)
    decreases Size(toks), 0
  {
    if Peek(toks) != KwElse then OkElse(NoElse(Current(toks)), toks, 0)
    else if Peek(toks.tail) != Eol then ErrElse(Expecting(Eol, Peek(toks.tail)))
    else
      assert Size(toks) == 1 + Size(toks.tail);
      var b := CodeBlock(toks.tail.head, toks.tail.tail);
      if b.ErrBlock? then ErrElse(b.error)
      else OkElse(Else(toks.head, toks.tail.head, b.block), b.rest, b.lost)
  }

  function ForeachBlock(keyword: Token, toks: Stream): (r: ParsedLine)
    ensures !r.ErrLine? ==> Size(r.rest) <= Size(toks)
    decreases Size(toks), 6
  {
    if Peek(toks) != Id then ErrLine(Expecting(Id, Peek(toks)))
    else
      assert Size(toks) == 1 + Size(toks.tail);
      var more := toks.tail;
      if Peek(more) != Comma then ForeachRest(keyword, OneName(toks.head), more)
      else if Peek(more.tail) != Id then ErrLine(Expecting(Id, Peek(more.tail)))
      else
        assert Size(more) == 1 + Size(more.tail);
        ForeachRest(keyword, TwoNames(toks.head, more.head, more.tail.head), more.tail.tail)
  }

  function ForeachRest(keyword: Token, names: Names, toks: Stream): (r: ParsedLine)
    ensures !r.ErrLine? ==> Size(r.rest) <= Size(toks)
    decreases Size(toks), 6
  {
    if Peek(toks) != Colon then ErrLine(Expecting(Colon, Peek(toks)))
    else
      var items := E1(toks.tail, false);
      if items.Err? then ErrLine(items.error)
      else
        var b := CodeBlock(toks.head, items.rest);
        if b.ErrBlock? then ErrLine(b.error)
        else if Peek(b.rest) != KwEndforeach then ErrLine(Expecting(KwEndforeach, Peek(b.rest)))
        else OkLine(ForeachStmt(keyword, names, toks.head, items.node, b.block, b.rest.head), b.rest.tail,
                    items.lost + b.lost)
  }

  function TestcaseBlock(keyword: Token, toks: Stream): (r: ParsedLine)
    ensures !r.ErrLine? ==> Size(r.rest) <= Size(toks)
    decreases Size(toks), 6
  {
    var (c, b) := ConditionBlock(toks);
    if b.ErrBlock? then ErrLine(b.error)
    else if c.Err? then ErrLine(c.error)
    else if Peek(b.rest) != KwEndtestcase then ErrLine(Expecting(KwEndtestcase, Peek(b.rest)))
    else OkLine(TestcaseStmt(keyword, c.node, c.rest.head, b.block, b.rest.head), b.rest.tail, c.lost + b.lost)
  }

  // ----- grammar

  /** Kinds that begin a statement which is no expression. */
  predicate StartsStatement(t: Tid) {
    t == KwIf || t == KwForeach || t == KwContinue || t == KwBreak || t == KwTestcase
  }

  /** Kinds in front of which a line is blank. */
  predicate BlankBefore(t: Tid) {
    t == Eol || (Stops(t) && !StartsStatement(t))
  }

  /** Entries behind which a new line may begin: none, or the last one is the end of a line. */
  predicate GStart(b: Block, opener: Token)
    decreases b, 0
  {
    match b
    case NoLines(o) => o == opener
    case AddEol(init, eol) => eol.tid == Eol && GEntries(init, opener, eol)
    case AddLine(_, _) => false
  }

  /** Entries followed by `next`, which may be the end of a line. */
  predicate GEntries(b: Block, opener: Token, next: Token)
    decreases b, 1
  {
    if b.AddLine? then GStart(b.init, opener) && GStmt(b.line, next)
    else GStart(b, opener) && BlankBefore(next.tid)
  }

  predicate GBlock(b: Block, opener: Token, next: Token)
    decreases b, 2
  {
    GEntries(b, opener, next) && next.tid != Eol
  }

  /** The first token of a block that is followed by `next`. */
  function FirstToken(b: Block, next: Token): Token {
    Current(PrintBlock(b, More(next, End(next))))
  }

  predicate GStmt(s: Stmt, next: Token)
    decreases s
  {
    match s
    case ExprStmt(node) => !node.EmptyNode? && G1(node, next, false)
    case JumpStmt(keyword, at) => (keyword.tid == KwContinue || keyword.tid == KwBreak) && at == next
    case IfStmt(ifs, elseblock, endif) =>
      && GIfs(ifs, if elseblock.Else? then elseblock.keyword else endif)
      && GElse(elseblock, endif) && endif.tid == KwEndif
    case ForeachStmt(foreach, names, colon, items, block, endforeach) =>
      && foreach.tid == KwForeach && GNames(names) && colon.tid == Colon
      && G1(items, FirstToken(block, endforeach), false)
      && GBlock(block, colon, endforeach) && endforeach.tid == KwEndforeach
    case TestcaseStmt(testcase, condition, eol, block, endtestcase) =>
      && testcase.tid == KwTestcase && G1(condition, eol, false) && eol.tid == Eol
      && GBlock(block, eol, endtestcase) && endtestcase.tid == KwEndtestcase
  }

  /** The `if` and `elif` branches, followed by `next`. */
  predicate GIfs(ifs: IfList, next: Token)
    decreases ifs
  {
    && G1(ifs.condition, ifs.eol, false) && ifs.eol.tid == Eol
    && GBlock(ifs.block, ifs.eol, next)
    && (if ifs.FirstIf? then ifs.keyword.tid == KwIf else ifs.keyword.tid == KwElif && GIfs(ifs.init, ifs.keyword))
  }

  predicate GElse(e: ElseBlock, endif: Token)
    decreases e
  {
    match e
    case NoElse(at) => at == endif
    case Else(keyword, eol, block) => keyword.tid == KwElse && eol.tid == Eol && GBlock(block, eol, endif)
  }

  predicate GNames(names: Names) {
    match names
    case OneName(name) => name.tid == Id
    case TwoNames(name, comma, second) => name.tid == Id && comma.tid == Comma && second.tid == Id
  }

  // ----- the expressions inside

  /** Every expression of the block satisfies `p`. */
  predicate Every(b: Block, p: Node -> bool)
    decreases b
  {
    match b
    case NoLines(_) => true
    case AddLine(init, line) => Every(init, p) && EveryStmt(line, p)
    case AddEol(init, _) => Every(init, p)
  }

  predicate EveryStmt(s: Stmt, p: Node -> bool)
    decreases s
  {
    match s
    case ExprStmt(node) => p(node)
    case JumpStmt(_, _) => true
    case IfStmt(ifs, elseblock, _) => EveryIf(ifs, p) && (elseblock.Else? ==> Every(elseblock.block, p))
    case ForeachStmt(_, _, _, items, block, _) => p(items) && Every(block, p)
    case TestcaseStmt(_, condition, _, block, _) => p(condition) && Every(block, p)
  }

  predicate EveryIf(ifs: IfList, p: Node -> bool)
    decreases ifs
  {
    p(ifs.condition) && Every(ifs.block, p) && (ifs.AddElif? ==> EveryIf(ifs.init, p))
  }

  // ----- the first token of a block

  lemma {:induction false} SameFirst(t: Node, x: Stream, y: Stream)
    requires Current(x) == Current(y)
    ensures Current(Print(t, x)) == Current(Print(t, y))
    decreases t
  {
    match t
    case MethodNode(source, dot, name, lpar, args, rpar) =>
      SameFirst(source, More(dot, More(name, More(lpar, PrintArgs(args, More(rpar, x))))),
                More(dot, More(name, More(lpar, PrintArgs(args, More(rpar, y))))));
    case IndexNode(source, open, index, close) =>
      SameFirst(source, More(open, Print(index, More(close, x))), More(open, Print(index, More(close, y))));
    case BinaryNode(_, left, operator, right) =>
      SameFirst(left, PrintOperator(operator, Print(right, x)), PrintOperator(operator, Print(right, y)));
    case TernaryNode(condition, q, trueblock, colon, falseblock) =>
      SameFirst(condition, More(q, Print(trueblock, More(colon, Print(falseblock, x)))),
                More(q, Print(trueblock, More(colon, Print(falseblock, y)))));
    case _ =>
  }

  lemma {:induction false} SameFirstIfs(ifs: IfList, x: Stream, y: Stream)
    ensures Current(PrintIfs(ifs, x)) == Current(PrintIfs(ifs, y))
    decreases ifs
  {
    if ifs.AddElif? {
      SameFirstIfs(ifs.init, More(ifs.keyword, Print(ifs.condition, More(ifs.eol, PrintBlock(ifs.block, x)))),
                   More(ifs.keyword, Print(ifs.condition, More(ifs.eol, PrintBlock(ifs.block, y)))));
    }
  }

  lemma {:induction false} SameFirstBlock(b: Block, x: Stream, y: Stream)
    requires Current(x) == Current(y)
    ensures Current(PrintBlock(b, x)) == Current(PrintBlock(b, y))
    decreases b
  {
    match b
    case NoLines(_) =>
    case AddEol(init, eol) => SameFirstBlock(init, More(eol, x), More(eol, y));
    case AddLine(init, line) =>
      if line.ExprStmt? {
        SameFirst(line.node, x, y);
      } else if line.IfStmt? {
        SameFirstIfs(line.ifs, PrintElse(line.elseblock, More(line.endif, x)),
                     PrintElse(line.elseblock, More(line.endif, y)));
      }
      SameFirstBlock(init, PrintStmt(line, x), PrintStmt(line, y));
  }
}
