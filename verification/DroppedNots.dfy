/**
 The `not` tokens that the parser accepts and throws away, counted on the token
 stream alone.
 */
module DroppedNots {
  import opened Tokens
  import opened Ast
  import opened ParserSpec
  import opened Grammar
  import opened Blocks

  /** The brackets around a place. `compared` says that the comparison of the current expression, which may have
      only one, has been read there. */
  datatype Level = Outside(compared: bool) | Inside(compared: bool, outer: Level)

  /** What has just been read of the current expression. */
  datatype Place = AtStart | AfterSign | AfterName | AfterOperand

  datatype State = State(level: Level, place: Place)

  /** Where a new expression starts. */
  function Fresh(level: Level): State { State(level.(compared := false), AtStart) }

  predicate Atom(t: Tid) { t == Id || t == Number || IsString(t) || t == KwTrue || t == KwFalse }

  /** An opening bracket goes on with the expression: an index, the arguments of a call, or an operand. */
  predicate Joins(p: Place, t: Tid) {
    p == AtStart || p == AfterSign || t == LBracket || (p == AfterName && t == LParen)
  }

  /** Behind a token other than `not`. An operand behind another one, or a comparison behind another one, belongs to
      a new statement. */
  function After(s: State, t: Tid): State {
    var c := s.level.compared;
    if t == Dash then s.(place := if s.place == AtStart then AfterSign else AtStart)
    else if t == Plus || t == Dot || IsMulDiv(t) then s.(place := AtStart)
    else if IsComparison(t) then State(s.level.(compared := true), AtStart)
    else if Opens(t) then State(Inside(false, s.level.(compared := c && Joins(s.place, t))), AtStart)
    else if Closes(t) && s.level.Inside? then State(s.level.outer, AfterOperand)
    else if Atom(t) then
      State(s.level.(compared := c && (s.place == AtStart || s.place == AfterSign)),
            if t == Id then AfterName else AfterOperand)
    else Fresh(s.level)
  }

  /** A `not` is an operator when an operand, or a sign, has been read and no comparison: with `in`, or dropped.
      Otherwise it is a sign, of a new statement if the comparison has been read together with its operand. */
  function Drops(s: State, toks: Stream): nat
    decreases toks
  {
    if Peek(toks) == Eof then 0
    else if Peek(toks) != KwNot then Drops(After(s, toks.head.tid), toks.tail)
    else if s.place == AtStart || s.level.compared then
      Drops(State(s.level.(compared := s.place == AtStart && s.level.compared), AfterSign), toks.tail)
    else (if Peek(toks.tail) == KwIn then 0 else 1) + Drops(Fresh(s.level), toks.tail)
  }

  /** The `not` tokens that are dropped from a file. */
  function Dropped(toks: Stream): nat { Drops(Fresh(Outside(false)), toks) }

  // ----- one token

  predicate ResetsWords(t: Tid) {
    || t == PlusAssign || t == Assign || t == Question || t == Colon || t == Comma
    || t == Eol || t == KwOr || t == KwAnd
  }

  predicate BranchWord(t: Tid) {
    t == KwIf || t == KwElif || t == KwElse || t == KwEndif || t == KwContinue || t == KwBreak
  }

  predicate BlockWord(t: Tid) { t == KwForeach || t == KwEndforeach || t == KwTestcase || t == KwEndtestcase }
  predicate ResetsLines(t: Tid) { BranchWord(t) || BlockWord(t) }

  /** Kinds that are neither operators, brackets nor operands. */
  predicate Neutral(t: Tid) {
    && t != Eof && t != KwNot && t != Dash && t != Plus && t != Dot
    && !IsMulDiv(t) && !IsComparison(t) && !Opens(t) && !Closes(t) && !Atom(t)
  }

  lemma WordsNeutral(t: Tid)
    requires ResetsWords(t)
    ensures Neutral(t)
  {
  }

  lemma BranchesNeutral(t: Tid)
    requires BranchWord(t)
    ensures Neutral(t)
  {
  }

  lemma BlocksNeutral(t: Tid)
    requires BlockWord(t)
    ensures Neutral(t)
  {
    assert !IsMulDiv(t) && !IsComparison(t);
    assert !Opens(t) && !Closes(t);
    assert !IsString(t);
    assert !Atom(t);
  }

  lemma LinesNeutral(t: Tid)
    requires ResetsLines(t)
    ensures Neutral(t)
  {
    hide BranchWord, BlockWord;
    if BranchWord(t) {
      BranchesNeutral(t);
    } else {
      BlocksNeutral(t);
    }
  }

  lemma NeutralNext(s: State, t: Tid)
    requires Neutral(t)
    ensures t != Eof && t != KwNot && After(s, t) == Fresh(s.level)
  {
    hide IsMulDiv, IsComparison, Opens, Closes, Atom;
  }

  lemma ResetCounts(s: State, toks: Stream)
    requires ResetsWords(Peek(toks)) || ResetsLines(Peek(toks))
    ensures toks.More? && Drops(s, toks) == Drops(Fresh(s.level), toks.tail)
  {
    hide After, ResetsWords, ResetsLines, Neutral;
    if ResetsWords(Peek(toks)) {
      WordsNeutral(Peek(toks));
    } else {
      LinesNeutral(Peek(toks));
    }
    NeutralNext(s, Peek(toks));
  }

  lemma ComparisonNext(s: State, t: Tid)
    requires IsComparison(t)
    ensures t != Eof && t != KwNot && After(s, t) == State(s.level.(compared := true), AtStart)
  {
  }

  lemma ComparisonCounts(s: State, toks: Stream)
    requires IsComparison(Peek(toks))
    ensures toks.More? && Drops(s, toks) == Drops(State(s.level.(compared := true), AtStart), toks.tail)
  {
    hide After, IsComparison;
    ComparisonNext(s, Peek(toks));
  }

  /** Kinds behind which another operand is expected at the same level. */
  predicate Operates(p: Place, t: Tid) { t == Plus || t == Dot || IsMulDiv(t) || (t == Dash && p != AtStart) }

  lemma OperatorNext(s: State, t: Tid)
    requires Operates(s.place, t)
    ensures t != Eof && t != KwNot && After(s, t) == State(s.level, AtStart)
  {
  }

  lemma OperatorCounts(s: State, toks: Stream)
    requires Operates(s.place, Peek(toks))
    ensures toks.More? && Drops(s, toks) == Drops(State(s.level, AtStart), toks.tail)
  {
    hide After, Operates;
    OperatorNext(s, Peek(toks));
  }

  lemma SignCounts(level: Level, toks: Stream)
    requires Peek(toks) == Dash || Peek(toks) == KwNot
    ensures toks.More? && Drops(State(level, AtStart), toks) == Drops(State(level, AfterSign), toks.tail)
  {
  }

  lemma AtomNext(level: Level, p: Place, t: Tid)
    requires Atom(t) && (p == AtStart || p == AfterSign)
    ensures t != Eof && t != KwNot
    ensures After(State(level, p), t) == State(level, if t == Id then AfterName else AfterOperand)
  {
    hide IsMulDiv, IsComparison, Opens, Closes, Atom;
    AtomOnly(t);
  }

  lemma AtomOnly(t: Tid)
    requires Atom(t)
    ensures t != Eof && t != KwNot && t != Dash && t != Plus && t != Dot
    ensures !IsMulDiv(t) && !IsComparison(t) && !Opens(t) && !Closes(t)
  {
  }

  lemma AtomCounts(level: Level, p: Place, toks: Stream)
    requires Atom(Peek(toks)) && (p == AtStart || p == AfterSign)
    ensures toks.More?
    ensures Drops(State(level, p), toks)
         == Drops(State(level, if Peek(toks) == Id then AfterName else AfterOperand), toks.tail)
  {
    hide After, Atom;
    AtomNext(level, p, Peek(toks));
  }

  lemma OpenNext(s: State, t: Tid)
    requires Opens(t) && Joins(s.place, t)
    ensures t != Eof && t != KwNot && After(s, t) == Fresh(Inside(false, s.level))
  {
  }

  lemma OpenCounts(s: State, toks: Stream)
    requires Opens(Peek(toks)) && Joins(s.place, Peek(toks))
    ensures toks.More? && Drops(s, toks) == Drops(Fresh(Inside(false, s.level)), toks.tail)
  {
    hide After, Opens, Joins;
    OpenNext(s, Peek(toks));
  }

  lemma CloseNext(level: Level, t: Tid)
    requires Closes(t)
    ensures t != Eof && t != KwNot && After(Fresh(Inside(false, level)), t) == State(level, AfterOperand)
  {
  }

  lemma CloseCounts(level: Level, toks: Stream)
    requires Closes(Peek(toks))
    ensures toks.More? && Drops(Fresh(Inside(false, level)), toks) == Drops(State(level, AfterOperand), toks.tail)
  {
    hide After, Closes;
    CloseNext(level, Peek(toks));
  }

  lemma WordResets(t: Tid)
    requires t == PlusAssign || t == Assign || t == Question
    ensures ResetsWords(t)
  {
  }

  lemma FreshResets(level: Level, toks: Stream)
    requires ResetsWords(Peek(toks)) || ResetsLines(Peek(toks))
    ensures toks.More? && Drops(Fresh(level), toks) == Drops(Fresh(level), toks.tail)
  {
    hide Drops, ResetsWords, ResetsLines;
    ResetCounts(Fresh(level), toks);
  }

  // ----- every level of the parser

  /** The expression that was read goes no further, at the levels of calls, signs, products and sums. */
  predicate Settled8(p: Place, t: Tid) {
    && t != Dot && t != LBracket
    && (p == AtStart || p == AfterSign ==> !StartsOperand(t))
    && (p == AfterName ==> t != LParen)
  }

  predicate Settled7(p: Place, t: Tid) { Settled8(p, t) && (p == AtStart ==> t != KwNot && t != Dash) }
  predicate Settled6(p: Place, t: Tid) { Settled7(p, t) && !IsMulDiv(t) }
  predicate Settled5(p: Place, t: Tid) { Settled6(p, t) && !IsAddSub(t) }

  lemma SumOperates(p: Place, t: Tid)
    requires Settled6(p, t) && IsAddSub(t)
    ensures Operates(p, t)
  {
  }

  lemma ProductOperates(p: Place, t: Tid)
    requires IsMulDiv(t)
    ensures Operates(p, t)
  {
    hide IsMulDiv;
  }

  lemma NotBehind(p: Place)
    requires Settled5(p, KwNot)
    ensures p != AtStart
  {
  }

  /** From `s` on, `count` tokens were to be dropped before the parse that ended in `r`. */
  predicate Counted(count: nat, s: State, r: Parsed) {
    r.Ok? ==> count == r.lost + Drops(s, r.rest)
  }

  predicate CountedArgs(count: nat, s: State, r: ParsedArgs) {
    r.OkArgs? ==> count == r.lost + Drops(s, r.rest)
  }

  lemma {:induction false} Counted1(level: Level, toks: Stream, inTernary: bool)
    ensures Counted(Drops(Fresh(level), toks), Fresh(level), E1(toks, inTernary))
    decreases Size(toks), 12
  {
    hide E2, E1Rest, Drops, Fresh;
    Counted2(level, toks, inTernary);
    var left := E2(toks, inTernary);
    if left.Ok? {
      CountedRest1(level, left.node, left.rest, left.lost, inTernary);
    }
  }

  lemma {:induction false} CountedRest1(level: Level, left: Node, toks: Stream, lost: nat, inTernary: bool)
    ensures Counted(lost + Drops(Fresh(level), toks), Fresh(level), E1Rest(left, toks, lost, inTernary))
    decreases Size(toks), 0
  {
    hide Assigned, TrueBlock, Drops, Fresh, ResetsWords, ResetsLines;
    if Peek(toks) == PlusAssign || Peek(toks) == Assign {
      WordResets(Peek(toks));
      FreshResets(level, toks);
      CountedAssigned(level, Peek(toks) == PlusAssign, left, toks.head, toks.tail, lost, inTernary);
    } else if Peek(toks) == Question && !inTernary {
      WordResets(Peek(toks));
      FreshResets(level, toks);
      CountedTernary(level, left, toks.head, toks.tail, lost);
    }
  }

  lemma {:induction false} CountedAssigned(level: Level, plus: bool, left: Node, op: Token, toks: Stream, lost: nat,
                                           inTernary: bool)
    ensures Counted(lost + Drops(Fresh(level), toks), Fresh(level), Assigned(plus, left, op, toks, lost, inTernary))
    decreases Size(toks), 13
  {
    hide E1, Drops, Fresh;
    Counted1(level, toks, inTernary);
  }

  lemma {:induction false} CountedTernary(level: Level, condition: Node, q: Token, toks: Stream, lost: nat)
    ensures Counted(lost + Drops(Fresh(level), toks), Fresh(level), TrueBlock(condition, q, toks, lost))
    decreases Size(toks), 13
  {
    hide E1, Drops;
    Counted1(level, toks, true);
    var yes := E1(toks, true);
    if yes.Ok? && Peek(yes.rest) == Colon {
      FreshResets(level, yes.rest);
      Counted1(level, yes.rest.tail, true);
    }
  }

  lemma {:induction false} Counted2(level: Level, toks: Stream, inTernary: bool)
    ensures Counted(Drops(Fresh(level), toks), Fresh(level), E2(toks, inTernary))
    decreases Size(toks), 10
  {
    hide E3, E2Loop, Drops, Fresh;
    Counted3(level, toks, inTernary);
    var left := E3(toks, inTernary);
    if left.Ok? {
      CountedLoop2(level, left.node, left.rest, left.lost, inTernary);
    }
  }

  lemma {:induction false} CountedLoop2(level: Level, left: Node, toks: Stream, lost: nat, inTernary: bool)
    ensures Counted(lost + Drops(Fresh(level), toks), Fresh(level), E2Loop(left, toks, lost, inTernary))
    decreases Size(toks), 0
  {
    hide E3, Drops;
    if Peek(toks) == KwOr {
      FreshResets(level, toks);
      Counted3(level, toks.tail, inTernary);
      var right := E3(toks.tail, inTernary);
      if right.Ok? {
        CountedLoop2(level, BinaryNode(OrOp, left, Single(toks.head), right.node), right.rest, lost + right.lost,
                     inTernary);
      }
    }
  }

  lemma {:induction false} Counted3(level: Level, toks: Stream, inTernary: bool)
    ensures Counted(Drops(Fresh(level), toks), Fresh(level), E3(toks, inTernary))
    decreases Size(toks), 9
  {
    hide E4, E3Loop, Drops, Fresh;
    Counted4(level, toks, inTernary);
    var left := E4(toks, inTernary);
    if left.Ok? {
      CountedLoop3(level, left.node, left.rest, left.lost, inTernary);
    }
  }

  lemma {:induction false} CountedLoop3(level: Level, left: Node, toks: Stream, lost: nat, inTernary: bool)
    ensures Counted(lost + Drops(Fresh(level), toks), Fresh(level), E3Loop(left, toks, lost, inTernary))
    decreases Size(toks), 0
  {
    hide E4, Drops;
    if Peek(toks) == KwAnd {
      FreshResets(level, toks);
      Counted4(level, toks.tail, inTernary);
      var right := E4(toks.tail, inTernary);
      if right.Ok? {
        CountedLoop3(level, BinaryNode(AndOp, left, Single(toks.head), right.node), right.rest, lost + right.lost,
                     inTernary);
      }
    }
  }

  lemma {:induction false} Counted4(level: Level, toks: Stream, inTernary: bool)
    ensures Counted(Drops(Fresh(level), toks), Fresh(level), E4(toks, inTernary))
    decreases Size(toks), 8
  {
    hide E5, E4Rest, Drops, Settled5;
    var start := level.(compared := false);
    var p := Counted5(start, toks, inTernary);
    var left := E5(toks, inTernary);
    if left.Ok? {
      CountedRest4(start, p, left.node, left.rest, left.lost, inTernary);
    }
  }

  lemma {:induction false} CountedRest4(level: Level, p: Place, left: Node, toks: Stream, lost: nat, inTernary: bool)
    requires !level.compared && Settled5(p, Peek(toks))
    ensures Counted(lost + Drops(State(level, p), toks), Fresh(level), E4Rest(left, toks, lost, inTernary))
    decreases Size(toks), 0
  {
    hide E4Right, ComparisonOf, IsComparison, Drops, Settled5;
    if IsComparison(Peek(toks)) {
      ComparisonCounts(State(level, p), toks);
      CountedRight4(level, CompareOp(ComparisonOf(Peek(toks))), left, Single(toks.head), toks.tail, lost, inTernary);
    } else if Peek(toks) == KwNot {
      NotBehind(p);
      NotCounts(level, p, toks);
      if Peek(toks.tail) == KwIn {
        assert Size(toks) == 1 + Size(toks.tail);
        CountedRight4(level, CompareOp(CmpNotIn), left, NotIn(toks.head, toks.tail.head), toks.tail.tail, lost,
                      inTernary);
      }
    } else {
      Restarts(level, p, toks);
    }
  }

  /** In operator position a `not` is dropped unless `in` follows. */
  lemma NotCounts(level: Level, p: Place, toks: Stream)
    requires Peek(toks) == KwNot && !level.compared && p != AtStart
    ensures toks.More?
    ensures Peek(toks.tail) != KwIn ==> Drops(State(level, p), toks) == 1 + Drops(Fresh(level), toks.tail)
    ensures Peek(toks.tail) == KwIn ==>
              && toks.tail.More?
              && Drops(State(level, p), toks) == Drops(State(level.(compared := true), AtStart), toks.tail.tail)
  {
    if Peek(toks.tail) == KwIn {
      ComparisonCounts(Fresh(level), toks.tail);
    }
  }

  lemma {:induction false} CountedRight4(level: Level, op: BinaryOp, left: Node, operator: Operator, toks: Stream,
                                         lost: nat, inTernary: bool)
    ensures Counted(lost + Drops(State(level.(compared := true), AtStart), toks), Fresh(level),
                    E4Right(op, left, operator, toks, lost, inTernary))
    decreases Size(toks), 8
  {
    hide E5, Drops;
    var compared := level.(compared := true);
    var p := Counted5(compared, toks, inTernary);
    var right := E5(toks, inTernary);
    if right.Ok? {
      Restarts(compared, p, right.rest);
    }
  }

  /** Where an expression of this level ends, the count goes on as at the start of a new one. */
  lemma Restarts(level: Level, p: Place, toks: Stream)
    requires Settled5(p, Peek(toks)) && (level.compared || Peek(toks) != KwNot)
    ensures Drops(State(level, p), toks) == Drops(Fresh(level), toks)
  {
    if Peek(toks) != Eof && Peek(toks) != KwNot {
      SameAfter(level, p, Peek(toks));
    }
  }

  lemma SameAfter(level: Level, p: Place, t: Tid)
    requires Settled5(p, t) && t != KwNot
    ensures After(State(level, p), t) == After(Fresh(level), t)
  {
    hide Settled5, IsMulDiv, IsComparison, Closes, Atom;
    SettledKinds(p, t);
  }

  lemma SettledKinds(p: Place, t: Tid)
    requires Settled5(p, t)
    ensures t != Dash && t != Plus && t != Dot && t != LBracket && !IsMulDiv(t)
    ensures p == AtStart || p == AfterSign ==> !Opens(t) && !Atom(t)
    ensures p == AfterName ==> t != LParen
  {
  }

  lemma {:induction false} Counted5(level: Level, toks: Stream, inTernary: bool) returns (p: Place)
    ensures var r := E5(toks, inTernary);
            Counted(Drops(State(level, AtStart), toks), State(level, p), r) && (r.Ok? ==> Settled5(p, Peek(r.rest)))
    decreases Size(toks), 7
  {
    hide E6, E5Loop, Drops, Settled6;
    p := Counted6(level, toks, inTernary);
    var left := E6(toks, inTernary);
    if left.Ok? {
      p := CountedLoop5(level, p, left.node, left.rest, left.lost, inTernary);
    }
  }

  lemma {:induction false} CountedLoop5(level: Level, q: Place, left: Node, toks: Stream, lost: nat, inTernary: bool)
    returns (p: Place)
    requires Settled6(q, Peek(toks))
    ensures var r := E5Loop(left, toks, lost, inTernary);
            Counted(lost + Drops(State(level, q), toks), State(level, p), r) && (r.Ok? ==> Settled5(p, Peek(r.rest)))
    decreases Size(toks), 0
  {
    hide E6, Drops, ArithOf, Settled6, IsAddSub, Operates;
    p := q;
    if IsAddSub(Peek(toks)) {
      SumOperates(q, Peek(toks));
      OperatorCounts(State(level, q), toks);
      p := Counted6(level, toks.tail, inTernary);
      var right := E6(toks.tail, inTernary);
      if right.Ok? {
        p := CountedLoop5(level, p, BinaryNode(ArithmeticOp(ArithOf(Peek(toks))), left, Single(toks.head), right.node),
                          right.rest, lost + right.lost, inTernary);
      }
    }
  }

  lemma {:induction false} Counted6(level: Level, toks: Stream, inTernary: bool) returns (p: Place)
    ensures var r := E6(toks, inTernary);
            Counted(Drops(State(level, AtStart), toks), State(level, p), r) && (r.Ok? ==> Settled6(p, Peek(r.rest)))
    decreases Size(toks), 6
  {
    hide E7, E6Loop, Drops, Settled7;
    p := Counted7(level, toks, inTernary);
    var left := E7(toks, inTernary);
    if left.Ok? {
      p := CountedLoop6(level, p, left.node, left.rest, left.lost, inTernary);
    }
  }

  lemma {:induction false} CountedLoop6(level: Level, q: Place, left: Node, toks: Stream, lost: nat, inTernary: bool)
    returns (p: Place)
    requires Settled7(q, Peek(toks))
    ensures var r := E6Loop(left, toks, lost, inTernary);
            Counted(lost + Drops(State(level, q), toks), State(level, p), r) && (r.Ok? ==> Settled6(p, Peek(r.rest)))
    decreases Size(toks), 0
  {
    hide E7, Drops, ArithOf, IsMulDiv, Operates, Settled7;
    p := q;
    if IsMulDiv(Peek(toks)) {
      ProductOperates(q, Peek(toks));
      OperatorCounts(State(level, q), toks);
      p := Counted7(level, toks.tail, inTernary);
      var right := E7(toks.tail, inTernary);
      if right.Ok? {
        p := CountedLoop6(level, p, BinaryNode(ArithmeticOp(ArithOf(Peek(toks))), left, Single(toks.head), right.node),
                          right.rest, lost + right.lost, inTernary);
      }
    }
  }

  lemma {:induction false} Counted7(level: Level, toks: Stream, inTernary: bool) returns (p: Place)
    ensures var r := E7(toks, inTernary);
            Counted(Drops(State(level, AtStart), toks), State(level, p), r) && (r.Ok? ==> Settled7(p, Peek(r.rest)))
    decreases Size(toks), 5
  {
    hide E8, Drops;
    if Peek(toks) == KwNot || Peek(toks) == Dash {
      SignCounts(level, toks);
      p := Counted8(level, AfterSign, toks.tail, inTernary);
    } else {
      p := Counted8(level, AtStart, toks, inTernary);
    }
  }

  /** Behind `q`, the parse that ended in `r` has read up to `p`; without an operand, it has read nothing. */
  predicate Operand8(count: nat, level: Level, q: Place, toks: Stream, p: Place, r: Parsed) {
    && Counted(count, State(level, p), r)
    && (r.Ok? ==> Settled8(p, Peek(r.rest)) && (p == AtStart || p == AfterSign ==> p == q && r.rest == toks))
  }

  lemma {:induction false} Counted8(level: Level, q: Place, toks: Stream, inTernary: bool) returns (p: Place)
    requires q == AtStart || q == AfterSign
    ensures Operand8(Drops(State(level, q), toks), level, q, toks, p, E8(toks, inTernary))
    decreases Size(toks), 4
  {
    hide E9, Call, E8Loop, Drops, StartsOperand;
    p := Counted9(level, q, toks, inTernary);
    var left := E9(toks, inTernary);
    if left.Ok? {
      if Peek(left.rest) == LParen {
        if left.node.IsId() {
          OpenCounts(State(level, p), left.rest);
        }
        p := CountedCall(level, left.node, left.rest.head, left.rest.tail, left.lost, inTernary);
      } else {
        p := CountedLoop8(level, p, left.node, left.rest, left.lost, inTernary);
      }
    }
  }

  lemma {:induction false} CountedCall(level: Level, left: Node, lpar: Token, toks: Stream, lost: nat, inTernary: bool)
    returns (p: Place)
    ensures var r := Call(left, lpar, toks, lost, inTernary);
            && Operand8(lost + Drops(Fresh(Inside(false, level)), toks), level, AfterOperand, toks, p, r)
            && (r.Ok? ==> left.IsId())
    decreases Size(toks), 15
  {
    hide ParseItems, E8Loop, Drops, Settled8;
    p := AfterOperand;
    CountedItems(Inside(false, level), lpar, toks, inTernary, false);
    var args := ParseItems(lpar, toks, inTernary, false);
    if args.OkArgs? && Peek(args.rest) == RParen && left.IsId() {
      CloseCounts(level, args.rest);
      p := CountedLoop8(level, AfterOperand, FunctionNode(left.tok, lpar, args.args, args.rest.head), args.rest.tail,
                        lost + args.lost, inTernary);
    }
  }

  lemma {:induction false} CountedLoop8(level: Level, q: Place, left: Node, toks: Stream, lost: nat, inTernary: bool)
    returns (p: Place)
    requires q == AfterName ==> Peek(toks) != LParen
    requires q == AtStart || q == AfterSign ==> !StartsOperand(Peek(toks))
    ensures Operand8(lost + Drops(State(level, q), toks), level, q, toks, p, E8Loop(left, toks, lost, inTernary))
    decreases Size(toks), 1
  {
    hide MethodCall, E8Index, Drops, StartsOperand;
    if Peek(toks) == Dot {
      OperatorCounts(State(level, q), toks);
      CountedMethod(level, left, toks.head, toks.tail, lost, inTernary);
      var call := MethodCall(left, toks.head, toks.tail, lost, inTernary);
      p := AfterOperand;
      if call.Ok? {
        p := CountedIndex8(level, AfterOperand, call.node, call.rest, call.lost, true, inTernary);
      }
    } else {
      p := CountedIndex8(level, q, left, toks, lost, false, inTernary);
    }
  }

  lemma {:induction false} CountedIndex8(level: Level, q: Place, left: Node, toks: Stream, lost: nat, goAgain: bool,
                                         inTernary: bool) returns (p: Place)
    requires q == AfterName ==> Peek(toks) != LParen
    requires q == AtStart || q == AfterSign ==> !StartsOperand(Peek(toks))
    requires !goAgain ==> Peek(toks) != Dot
    ensures Operand8(lost + Drops(State(level, q), toks), level, q, toks, p,
                     E8Index(left, toks, lost, goAgain, inTernary))
    decreases Size(toks), if goAgain then 2 else 0
  {
    hide IndexCall, E8Loop, Drops, StartsOperand;
    p := q;
    if Peek(toks) == LBracket {
      OpenCounts(State(level, q), toks);
      CountedIndex(level, left, toks.head, toks.tail, lost, inTernary);
      var index := IndexCall(left, toks.head, toks.tail, lost, inTernary);
      p := AfterOperand;
      if index.Ok? {
        p := CountedLoop8(level, AfterOperand, index.node, index.rest, index.lost, inTernary);
      }
    } else if goAgain {
      p := CountedLoop8(level, q, left, toks, lost, inTernary);
    }
  }

  lemma {:induction false} CountedMethod(level: Level, source: Node, dot: Token, toks: Stream, lost: nat,
                                         inTernary: bool)
    ensures Counted(lost + Drops(State(level, AtStart), toks), State(level, AfterOperand),
                    MethodCall(source, dot, toks, lost, inTernary))
    decreases Size(toks), 1
  {
    hide E10, MethodArgs, Drops, Atom;
    NameRead(toks);
    if Peek(toks) == Id && Peek(toks.tail) == LParen {
      assert Size(toks) == 1 + Size(toks.tail);
      CallOpens(level, toks);
      CountedMethodArgs(level, source, dot, toks.head, toks.tail.head, toks.tail.tail, lost, inTernary);
    }
  }

  lemma CallOpens(level: Level, toks: Stream)
    requires Peek(toks) == Id && Peek(toks.tail) == LParen
    ensures toks.More? && toks.tail.More?
    ensures Drops(State(level, AtStart), toks) == Drops(Fresh(Inside(false, level)), toks.tail.tail)
  {
    hide Drops;
    AtomCounts(level, AtStart, toks);
    OpenCounts(State(level, AfterName), toks.tail);
  }

  lemma {:induction false} CountedMethodArgs(level: Level, source: Node, dot: Token, name: Token, lpar: Token,
                                             toks: Stream, lost: nat, inTernary: bool)
    ensures Counted(lost + Drops(Fresh(Inside(false, level)), toks), State(level, AfterOperand),
                    MethodArgs(source, dot, name, lpar, toks, lost, inTernary))
    decreases Size(toks), 15
  {
    hide ParseItems, MethodCall, Drops;
    CountedItems(Inside(false, level), lpar, toks, inTernary, false);
    var args := ParseItems(lpar, toks, inTernary, false);
    if args.OkArgs? && Peek(args.rest) == RParen {
      var more := args.rest.tail;
      assert Size(args.rest) == 1 + Size(more);
      CloseCounts(level, args.rest);
      if Peek(more) == Dot {
        OperatorCounts(State(level, AfterOperand), more);
        CountedMethod(level, MethodNode(source, dot, name, lpar, args.args, args.rest.head), more.head, more.tail,
                      lost + args.lost, inTernary);
      }
    }
  }

  lemma {:induction false} CountedIndex(level: Level, source: Node, open: Token, toks: Stream, lost: nat,
                                        inTernary: bool)
    ensures Counted(lost + Drops(Fresh(Inside(false, level)), toks), State(level, AfterOperand),
                    IndexCall(source, open, toks, lost, inTernary))
    decreases Size(toks), 13
  {
    hide E1, Drops;
    Counted1(Inside(false, level), toks, inTernary);
    var index := E1(toks, inTernary);
    if index.Ok? && Peek(index.rest) == RBracket {
      CloseCounts(level, index.rest);
    }
  }

  lemma {:induction false} Counted9(level: Level, q: Place, toks: Stream, inTernary: bool) returns (p: Place)
    requires q == AtStart || q == AfterSign
    ensures var r := E9(toks, inTernary);
            && Counted(Drops(State(level, q), toks), State(level, p), r)
            && (r.Ok? && (p == AtStart || p == AfterSign) ==> p == q && r.rest == toks && !StartsOperand(Peek(toks)))
            && (r.Ok? ==> (r.node.IsId() <==> p == AfterName))
    decreases Size(toks), 3
  {
    hide Parentheses, Collection, E10, Drops, StartsOperand, Fresh;
    p := AfterOperand;
    if Peek(toks) == LParen {
      OpenCounts(State(level, q), toks);
      CountedParentheses(level, toks.head, toks.tail, inTernary);
    } else if Peek(toks) == LBracket || Peek(toks) == LCurl {
      OpenCounts(State(level, q), toks);
      CountedCollection(level, Peek(toks) == LCurl, toks.head, toks.tail, inTernary);
    } else {
      p := CountedLeaf(level, q, toks);
    }
  }

  lemma CountedLeaf(level: Level, q: Place, toks: Stream) returns (p: Place)
    requires (q == AtStart || q == AfterSign) && Peek(toks) != LParen && Peek(toks) != LBracket && Peek(toks) != LCurl
    ensures var r := E10(toks);
            && Counted(Drops(State(level, q), toks), State(level, p), r)
            && (p == AtStart || p == AfterSign ==> p == q && r.rest == toks && !StartsOperand(Peek(toks)))
            && (r.node.IsId() <==> p == AfterName)
  {
    hide Drops;
    if Atom(Peek(toks)) {
      AtomCounts(level, q, toks);
      p := if Peek(toks) == Id then AfterName else AfterOperand;
    } else {
      p := q;
    }
  }


  lemma {:induction false} CountedParentheses(level: Level, lpar: Token, toks: Stream, inTernary: bool)
    ensures var r := Parentheses(lpar, toks, inTernary);
            && Counted(Drops(Fresh(Inside(false, level)), toks), State(level, AfterOperand), r)
            && (r.Ok? ==> !r.node.IsId())
    decreases Size(toks), 13
  {
    hide E1, Drops;
    Counted1(Inside(false, level), toks, inTernary);
    var inner := E1(toks, inTernary);
    if inner.Ok? && Peek(inner.rest) == RParen {
      CloseCounts(level, inner.rest);
    }
  }

  lemma {:induction false} CountedCollection(level: Level, dict: bool, open: Token, toks: Stream, inTernary: bool)
    ensures var r := Collection(dict, open, toks, inTernary);
            && Counted(Drops(Fresh(Inside(false, level)), toks), State(level, AfterOperand), r)
            && (r.Ok? ==> !r.node.IsId())
    decreases Size(toks), 15
  {
    hide ParseItems, Drops;
    CountedItems(Inside(false, level), open, toks, inTernary, dict);
    var args := ParseItems(open, toks, inTernary, dict);
    if args.OkArgs? && Peek(args.rest) == (if dict then RCurl else RBracket) {
      CloseCounts(level, args.rest);
    }
  }

  lemma {:induction false} CountedItems(level: Level, open: Token, toks: Stream, inTernary: bool, dict: bool)
    ensures CountedArgs(Drops(Fresh(level), toks), Fresh(level), ParseItems(open, toks, inTernary, dict))
    decreases Size(toks), 14
  {
    hide ItemsNext, Drops;
    CountedNext(level, ArgumentNode(NoItems(open), NoTokens, false), toks, 0, inTernary, dict);
  }

  lemma {:induction false} CountedNext(level: Level, a: ArgumentNode, toks: Stream, lost: nat, inTernary: bool,
                                       dict: bool)
    ensures CountedArgs(lost + Drops(Fresh(level), toks), Fresh(level), ItemsNext(a, toks, lost, inTernary, dict))
    decreases Size(toks), 13
  {
    hide E1, ItemsLoop, Drops, Fresh;
    Counted1(level, toks, inTernary);
    var s := E1(toks, inTernary);
    if s.Ok? {
      CountedItemsLoop(level, a, s.node, s.rest, lost + s.lost, inTernary, dict);
    }
  }

  lemma {:induction false} CountedItemsLoop(level: Level, a: ArgumentNode, s: Node, toks: Stream, lost: nat,
                                            inTernary: bool, dict: bool)
    ensures CountedArgs(lost + Drops(Fresh(level), toks), Fresh(level), ItemsLoop(a, s, toks, lost, inTernary, dict))
    decreases Size(toks), 0
  {
    hide KeywordItem, ItemsNext, Drops;
    if !s.EmptyNode? && Peek(toks) == Colon && (dict || s.IsId()) {
      FreshResets(level, toks);
      CountedKeyword(level, a, s, toks.head, toks.tail, lost, inTernary, dict);
    } else if !s.EmptyNode? && !dict && Peek(toks) == Comma {
      FreshResets(level, toks);
      CountedNext(level, a.AddComma(toks.head).Append(s), toks.tail, lost, inTernary, dict);
    }
  }

  lemma {:induction false} CountedKeyword(level: Level, a: ArgumentNode, key: Node, colon: Token, toks: Stream,
                                          lost: nat, inTernary: bool, dict: bool)
    ensures CountedArgs(lost + Drops(Fresh(level), toks), Fresh(level),
                        KeywordItem(a, key, colon, toks, lost, inTernary, dict))
    decreases Size(toks), 13
  {
    hide E1, ItemsNext, Drops;
    Counted1(level, toks, inTernary);
    var value := E1(toks, inTernary);
    if value.Ok? && Peek(value.rest) == Comma {
      FreshResets(level, value.rest);
      CountedNext(level, a.SetKwarg(key, colon, value.node).AddComma(value.rest.head), value.rest.tail,
                  lost + value.lost, inTernary, dict);
    }
  }

  // ----- statements and blocks

  predicate CountedLine(count: nat, r: ParsedLine) {
    !r.ErrLine? ==> count == r.lost + Dropped(r.rest)
  }

  predicate CountedBlock(count: nat, r: ParsedBlock) {
    r.OkBlock? ==> count == r.lost + Dropped(r.rest)
  }

  lemma ResetDropped(toks: Stream)
    requires ResetsWords(Peek(toks)) || ResetsLines(Peek(toks))
    ensures toks.More? && Dropped(toks) == Dropped(toks.tail)
  {
    hide Drops, ResetsWords, ResetsLines;
    ResetCounts(Fresh(Outside(false)), toks);
  }

  /** The name of a loop variable. */
  lemma NameDropped(toks: Stream)
    requires Peek(toks) == Id && (Peek(toks.tail) == Comma || Peek(toks.tail) == Colon)
    ensures toks.tail.More? && Dropped(toks) == Dropped(toks.tail.tail)
  {
    hide Drops;
    AtomCounts(Outside(false), AtStart, toks);
    ResetCounts(State(Outside(false), AfterName), toks.tail);
  }

  lemma {:induction false} CountedCodeBlock(opener: Token, toks: Stream)
    ensures CountedBlock(Dropped(toks), CodeBlock(opener, toks))
    decreases Size(toks), 4
  {
    hide CodeBlockLoop, Dropped;
    CountedBlockLoop(NoLines(opener), toks, 0);
  }

  lemma {:induction false} CountedBlockLoop(b: Block, toks: Stream, lost: nat)
    ensures CountedBlock(lost + Dropped(toks), CodeBlockLoop(b, toks, lost))
    decreases Size(toks), 3
  {
    hide Line, Dropped;
    CountedLineAt(toks);
    var l := Line(toks);
    if !l.ErrLine? && Peek(l.rest) == Eol {
      ResetDropped(l.rest);
      CountedBlockLoop(AddEol(if l.OkLine? then AddLine(b, l.line) else b, l.rest.head), l.rest.tail, lost + l.lost);
    }
  }

  lemma {:induction false} CountedLineAt(toks: Stream)
    ensures CountedLine(Dropped(toks), Line(toks))
    decreases Size(toks), 1
  {
    hide E1, IfBlock, TestcaseBlock, ForeachBlock, Drops;
    if Peek(toks) == Eol {
    } else if Peek(toks) == KwIf {
      ResetDropped(toks);
      CountedIf(toks.head, toks.tail);
    } else if Peek(toks) == KwForeach {
      ResetDropped(toks);
      CountedForeach(toks.head, toks.tail);
    } else if Peek(toks) == KwTestcase {
      ResetDropped(toks);
      CountedTestcase(toks.head, toks.tail);
    } else if Peek(toks) == KwContinue || Peek(toks) == KwBreak {
      ResetDropped(toks);
    } else {
      Counted1(Outside(false), toks, false);
    }
  }

  lemma {:induction false} CountedIf(keyword: Token, toks: Stream)
    ensures CountedLine(Dropped(toks), IfBlock(keyword, toks))
    decreases Size(toks), 6
  {
    hide ConditionBlock, IfRest, Dropped;
    CountedCondition(toks);
    var (c, b) := ConditionBlock(toks);
    if c.Ok? && b.OkBlock? {
      CountedIfRest(FirstIf(keyword, c.node, c.rest.head, b.block), b.rest, c.lost + b.lost);
    }
  }

  lemma {:induction false} CountedTestcase(keyword: Token, toks: Stream)
    ensures CountedLine(Dropped(toks), TestcaseBlock(keyword, toks))
    decreases Size(toks), 6
  {
    hide ConditionBlock, Dropped;
    CountedCondition(toks);
    var (c, b) := ConditionBlock(toks);
    if c.Ok? && b.OkBlock? && Peek(b.rest) == KwEndtestcase {
      ResetDropped(b.rest);
    }
  }

  lemma {:induction false} CountedCondition(toks: Stream)
    ensures var (c, b) := ConditionBlock(toks);
            c.Ok? && b.OkBlock? ==> Dropped(toks) == c.lost + b.lost + Dropped(b.rest)
    decreases Size(toks), 5
  {
    hide E1, CodeBlock, Drops;
    Counted1(Outside(false), toks, false);
    var c := E1(toks, false);
    if c.Ok? && Peek(c.rest) == Eol {
      ResetDropped(c.rest);
      CountedCodeBlock(c.rest.head, c.rest.tail);
    }
  }

  lemma {:induction false} CountedIfRest(ifs: IfList, toks: Stream, lost: nat)
    ensures CountedLine(lost + Dropped(toks), IfRest(ifs, toks, lost))
    decreases Size(toks), 1
  {
    hide ConditionBlock, IfRest, Dropped;
    if Peek(toks) == KwElif {
      ElifStep(ifs, toks, lost);
      ResetDropped(toks);
      CountedCondition(toks.tail);
      var (c, b) := ConditionBlock(toks.tail);
      if c.Ok? && b.OkBlock? {
        CountedIfRest(AddElif(ifs, toks.head, c.node, c.rest.head, b.block), b.rest, lost + c.lost + b.lost);
      }
    } else {
      CountedEndif(ifs, toks, lost);
    }
  }

  lemma {:induction false} CountedEndif(ifs: IfList, toks: Stream, lost: nat)
    requires Peek(toks) != KwElif
    ensures CountedLine(lost + Dropped(toks), IfRest(ifs, toks, lost))
    decreases Size(toks), 0, 1
  {
    hide ConditionBlock, ElsePart, Dropped;
    CountedElse(toks);
    var e := ElsePart(toks);
    if e.OkElse? && Peek(e.rest) == KwEndif {
      ResetDropped(e.rest);
    }
  }

  lemma {:induction false} CountedElse(toks: Stream)
    ensures var e := ElsePart(toks); e.OkElse? ==> Dropped(toks) == e.lost + Dropped(e.rest)
    decreases Size(toks), 0, 0
  {
    hide CodeBlock, Dropped;
    if Peek(toks) == KwElse && Peek(toks.tail) == Eol {
      assert Size(toks) == 1 + Size(toks.tail);
      ResetDropped(toks);
      ResetDropped(toks.tail);
      CountedCodeBlock(toks.tail.head, toks.tail.tail);
    }
  }

  lemma {:induction false} CountedForeach(keyword: Token, toks: Stream)
    ensures CountedLine(Dropped(toks), ForeachBlock(keyword, toks))
    decreases Size(toks), 6
  {
    hide ForeachRest, Dropped;
    if Peek(toks) == Id {
      var more := toks.tail;
      assert Size(toks) == 1 + Size(more);
      if Peek(more) != Comma {
        if Peek(more) == Colon {
          NameDropped(toks);
        }
        CountedForeachRest(keyword, OneName(toks.head), more);
      } else if Peek(more.tail) == Id {
        assert Size(more) == 1 + Size(more.tail);
        NameDropped(toks);
        if Peek(more.tail.tail) == Colon {
          NameDropped(more.tail);
        }
        CountedForeachRest(keyword, TwoNames(toks.head, more.head, more.tail.head), more.tail.tail);
      }
    }
  }

  lemma {:induction false} CountedForeachRest(keyword: Token, names: Names, toks: Stream)
    ensures var r := ForeachRest(keyword, names, toks);
            r.OkLine? ==> Peek(toks) == Colon && Dropped(toks.tail) == r.lost + Dropped(r.rest)
    ensures !ForeachRest(keyword, names, toks).Blank?
    decreases Size(toks), 6
  {
    hide E1, CodeBlock, Drops;
    if Peek(toks) == Colon {
      Counted1(Outside(false), toks.tail, false);
      var items := E1(toks.tail, false);
      if items.Ok? {
        CountedCodeBlock(toks.head, items.rest);
        var b := CodeBlock(toks.head, items.rest);
        if b.OkBlock? && Peek(b.rest) == KwEndforeach {
          ResetDropped(b.rest);
        }
      }
    }
  }
}
