/**
 The lexer: a loop over the source text that keeps the position of the current line and the
 nesting of brackets.
 */
module Lexer {
  import opened Tokens
  import opened Lexing
  import opened Wrappers

  datatype LexError = ByteOrderMark | DoubleQuote(loc: nat) | Unrecognized(loc: nat)

  // ----- what a token must be, given the tokens before it

  /** How many of the first `n` tokens open a bracket, less how many close one. */
  function Depth(tokens: seq<Token>, n: nat, open: Tid, close: Tid): int
    requires n <= |tokens|
  {
    if n == 0 then 0 else Depth(tokens, n - 1, open, close) + Turn(tokens[n - 1].tid, open, close)
  }

  function Turn(t: Tid, open: Tid, close: Tid): int {
    if t == open then 1 else if t == close then -1 else 0
  }

  /** A line end behind the first `n` tokens lies inside brackets. */
  predicate Inside(tokens: seq<Token>, n: nat)
    requires n <= |tokens|
  {
    Depth(tokens, n, LParen, RParen) > 0 || Depth(tokens, n, LBracket, RBracket) > 0 || Depth(tokens, n, LCurl, RCurl)
    > 0
  }

  function Keyword(name: string, inUnitTest: bool): (k: Option<Tid>)
    ensures k.Some? ==> Plain(k.value)
  {
    if name == "true" then Some(KwTrue)
    else if name == "false" then Some(KwFalse)
    else if name == "if" then Some(KwIf)
    else if name == "else" then Some(KwElse)
    else if name == "elif" then Some(KwElif)
    else if name == "endif" then Some(KwEndif)
    else if name == "and" then Some(KwAnd)
    else if name == "or" then Some(KwOr)
    else if name == "not" then Some(KwNot)
    else if name == "foreach" then Some(KwForeach)
    else if name == "endforeach" then Some(KwEndforeach)
    else if name == "in" then Some(KwIn)
    else if name == "continue" then Some(KwContinue)
    else if name == "break" then Some(KwBreak)
    else if inUnitTest && name == "testcase" then Some(KwTestcase)
    else if inUnitTest && name == "endtestcase" then Some(KwEndtestcase)
    else None
  }

  /** The patterns as they match in a source text, and the keyword table. */
  datatype Table = Table(scan: nat -> Option<Match>, keyword: string -> Option<Tid>)

  function KindOf(raw: Raw, text: string, inside: bool, keyword: string -> Option<Tid>): Tid {
    match raw
    case RawWhitespace => Whitespace
    case RawMultilineFStr => MultilineFStr
    case RawFStr => FStr
    case RawId => var k := keyword(text); if k.Some? then k.value else Id
    case RawNumber => Number
    case RawEolCont => Whitespace
    case RawMultilineStr => MultilineStr
    case RawComment => Comment
    case RawStr => Str
    case RawOperator(t) => if t == Eol && inside then Whitespace else t
  }

  /** The widths of the opening and the closing quotes. */
  function OpeningWidth(raw: Raw): nat {
    match raw
    case RawMultilineFStr => 4
    case RawMultilineStr => 3
    case RawFStr => 2
    case RawStr => 1
    case _ => 0
  }

  function ClosingWidth(raw: Raw): nat {
    match raw
    case RawMultilineFStr => 3
    case RawMultilineStr => 3
    case RawFStr => 1
    case RawStr => 1
    case _ => 0
  }

  predicate IsMultiline(raw: Raw) { raw == RawMultilineStr || raw == RawMultilineFStr }

  // ----- newlines in single-quoted strings, which the lexer does not count

  predicate Regular(t: Token) { t.tid == Str || t.tid == FStr }

  /** The newlines inside the single-quoted strings among the first `n` tokens. */
  function Uncounted(code: string, tokens: seq<Token>, n: nat): nat
    requires n <= |tokens|
  {
    if n == 0 then 0 else Uncounted(code, tokens, n - 1) + NewlinesIn(code, tokens[n - 1])
  }

  function NewlinesIn(code: string, t: Token): nat {
    if Regular(t) && t.start <= t.end <= |code| then CountNewlines(code, t.start, t.end) else 0
  }

  /** The last newline in the text of the first `n` tokens lies inside a single-quoted string. */
  predicate Behind(code: string, tokens: seq<Token>, n: nat)
    requires n <= |tokens|
  {
    n > 0 && if Quiet(code, tokens[n - 1].start, tokens[n - 1].end) then Behind(code, tokens, n - 1) else
    Regular(tokens[n - 1])
  }

  /** Where the token behind the first `n` ones starts. */
  function EndOf(tokens: seq<Token>, n: nat): nat
    requires n <= |tokens|
  {
    if n == 0 then 0 else tokens[n - 1].end
  }

  /** Token `n` is what the table matches behind the tokens before it. */
  predicate CutOk(code: string, table: Table, tokens: seq<Token>, n: nat)
    requires n < |tokens|
  {
    var t := tokens[n];
    && t.start == EndOf(tokens, n)
    && t.start < t.end <= |code|
    && var m := table.scan(t.start);
    && m.Some? && m.value.end == t.end
    && TokenFor(code, m.value.raw, Inside(tokens, n), table.keyword, t)
  }

  /** Kind and value of a token that was matched as `raw`. */
  predicate TokenFor(code: string, raw: Raw, inside: bool, keyword: string -> Option<Tid>, t: Token)
    requires t.start < t.end <= |code|
  {
    && t.tid == KindOf(raw, code[t.start..t.end], inside, keyword)
    && t.start + OpeningWidth(raw) + ClosingWidth(raw) <= t.end
    && t.value == code[t.start + OpeningWidth(raw)..t.end - ClosingWidth(raw)]
  }

  /** The position of token `n`, but for newlines in single-quoted strings before it. */
  predicate PositionOk(code: string, tokens: seq<Token>, n: nat)
    requires n < |tokens|
  {
    var t := tokens[n];
    && Positioned(code, tokens, n, t.lineno, t.lineStart)
    && t.start == EndOf(tokens, n)
    && t.colno == t.start - t.lineStart
  }

  /** Line and line start behind the first `n` tokens, but for newlines in single-quoted strings. */
  predicate Positioned(code: string, tokens: seq<Token>, n: nat, lineno: nat, lineStart: nat)
    requires n <= |tokens|
  {
    var loc := EndOf(tokens, n);
    && loc <= |code|
    && lineno + Uncounted(code, tokens, n) == 1 + Newlines(code, loc)
    && lineStart <= LineStart(code, loc)
    && (lineStart == LineStart(code, loc) <==> !Behind(code, tokens, n))
  }

  /** The tokens cut the text from its beginning, without gap or overlap, as the table demands. */
  predicate Lexed(code: string, table: Table, tokens: seq<Token>) {
    forall n :: 0 <= n < |tokens| ==> CutOk(code, table, tokens, n) && PositionOk(code, tokens, n)
  }

  /** Nothing that is said of the first `n` tokens depends on the others. */
  lemma {:induction false} Framed(code: string, tokens: seq<Token>, t: Token, n: nat)
    requires n <= |tokens|
    ensures EndOf(tokens + [t], n) == EndOf(tokens, n)
    ensures Uncounted(code, tokens + [t], n) == Uncounted(code, tokens, n)
    ensures Behind(code, tokens + [t], n) == Behind(code, tokens, n)
  {
    if n > 0 {
      Framed(code, tokens, t, n - 1);
    }
  }

  lemma {:induction false} FramedDepth(tokens: seq<Token>, t: Token, n: nat, open: Tid, close: Tid)
    requires n <= |tokens|
    ensures Depth(tokens + [t], n, open, close) == Depth(tokens, n, open, close)
  {
    if n > 0 {
      FramedDepth(tokens, t, n - 1, open, close);
    }
  }

  lemma FramedInside(tokens: seq<Token>, t: Token, n: nat)
    requires n <= |tokens|
    ensures Inside(tokens + [t], n) == Inside(tokens, n)
  {
    FramedDepth(tokens, t, n, LParen, RParen);
    FramedDepth(tokens, t, n, LBracket, RBracket);
    FramedDepth(tokens, t, n, LCurl, RCurl);
  }

  // ----- what a match can contain

  /** Where `code[i..end]` may contain newlines, if it was matched as `raw`. */
  predicate Shaped(code: string, raw: Raw, i: nat, end: nat) {
    && i < end <= |code| && i + OpeningWidth(raw) + ClosingWidth(raw) <= end
    && (if IsMultiline(raw) then Quiet(code, i, i + OpeningWidth(raw)) && Quiet(code, end - 3, end)
        else if raw == RawEolCont || raw == RawOperator(Eol) then code[end - 1] == '\n' && Quiet(code, i, end - 1)
        else raw == RawStr || raw == RawFStr || Quiet(code, i, end))
  }

  /** A match, if there is one, is shaped as its kind demands. */
  predicate ShapedMatch(code: string, i: nat, m: Option<Match>) {
    m.Some? ==> (m.value.raw.RawOperator? ==> Plain(m.value.raw.tid)) && Shaped(code, m.value.raw, i, m.value.end)
  }

  lemma MatchShape(code: string, i: nat, config: Config)
    requires i < |code| && !config.decimal('\n')
    ensures ShapedMatch(code, i, MatchAt(code, i, config))
  {
    SymbolShape(code, i);
  }

  lemma SymbolShape(code: string, i: nat)
    requires i < |code|
    ensures ShapedMatch(code, i, MatchSymbol(code, i))
  {
    OperatorShape(code, i);
  }

  lemma OperatorShape(code: string, i: nat)
    requires i < |code|
    ensures ShapedMatch(code, i, MatchOperator(code, i))
  {
    var two := if i + 1 < |code| then Operator2(code[i], code[i + 1]) else None;
    var one := Operator1(code[i]);
    if two.Some? {
      PlainShape(code, i, two.value, i + 2);
    } else if one.Some? {
      PlainShape(code, i, one.value, i + 1);
    }
  }

  lemma PlainShape(code: string, i: nat, t: Tid, end: nat)
    requires i < end <= |code| && Plain(t)
    requires if t == Eol then end == i + 1 && code[i] == '\n' else Quiet(code, i, end)
    ensures ShapedMatch(code, i, Some(Match(RawOperator(t), end)))
  {
  }

  ghost predicate WellShaped(code: string, table: Table) {
    && (forall i: nat :: i < |code| ==> ShapedMatch(code, i, table.scan(i)))
    && (forall name :: table.keyword(name).Some? ==> Plain(table.keyword(name).value))
  }

  lemma RegularKind(raw: Raw, text: string, inside: bool, keyword: string -> Option<Tid>)
    requires raw.RawOperator? ==> Plain(raw.tid)
    requires keyword(text).Some? ==> Plain(keyword(text).value)
    ensures var t := KindOf(raw, text, inside, keyword);
            t != Eof && (t == Str || t == FStr <==> raw == RawStr || raw == RawFStr)
  {
  }

  // ----- the loop

  /** The line bookkeeping has followed the text from `start` to `end`, but not into a single-quoted string. */
  predicate Moved(code: string, raw: Raw, start: nat, end: nat, lineno: nat, lineStart: nat, lineno': nat,
                  lineStart': nat)
    requires start <= end <= |code|
  {
    if raw == RawStr || raw == RawFStr then lineno' == lineno && lineStart' == lineStart
    else
      && lineno' == lineno + Newlines(code, end) - Newlines(code, start)
      && lineStart' == if Quiet(code, start, end) then lineStart else LineStart(code, end)
  }

  lemma MultilineMoves(code: string, start: nat, text: nat, close: nat, end: nat)
    requires start <= text <= close <= end <= |code| && Quiet(code, start, text) && Quiet(code, close, end)
    ensures CountNewlines(code, text, close) == Newlines(code, end) - Newlines(code, start)
    ensures CountNewlines(code, text, close) > 0 ==> close - LastLineLength(code, text, close) == LineStart(code, end)
    ensures CountNewlines(code, text, close) == 0 <==> Quiet(code, start, end)
  {
    QuietSpan(code, start, text);
    QuietSpan(code, close, end);
    SplitSpan(code, text, close);
  }

  /** The bookkeeping behind one more token. */
  lemma PositionedNext(code: string, tokens: seq<Token>, t: Token, raw: Raw, lineno: nat, lineStart: nat,
                       lineno': nat, lineStart': nat)
    requires t.start == EndOf(tokens, |tokens|) && Shaped(code, raw, t.start, t.end)
    requires Regular(t) <==> raw == RawStr || raw == RawFStr
    requires Positioned(code, tokens, |tokens|, lineno, lineStart)
    requires Moved(code, raw, t.start, t.end, lineno, lineStart, lineno', lineStart')
    ensures Positioned(code, tokens + [t], |tokens| + 1, lineno', lineStart')
  {
    Framed(code, tokens, t, |tokens|);
    NewlinesGrow(code, t.start, t.end);
    if Regular(t) {
      SplitSpan(code, t.start, t.end);
    }
    if Quiet(code, t.start, t.end) {
      QuietSpan(code, t.start, t.end);
    }
  }

  lemma CutFramed(code: string, table: Table, tokens: seq<Token>, t: Token, n: nat)
    requires n < |tokens| && CutOk(code, table, tokens, n)
    ensures CutOk(code, table, tokens + [t], n)
  {
    Framed(code, tokens, t, n);
    FramedInside(tokens, t, n);
  }

  lemma PositionFramed(code: string, tokens: seq<Token>, t: Token, n: nat)
    requires n < |tokens| && PositionOk(code, tokens, n)
    ensures PositionOk(code, tokens + [t], n)
  {
    Framed(code, tokens, t, n);
  }

  lemma CutNext(code: string, table: Table, tokens: seq<Token>, m: Match, t: Token)
    requires t.start == EndOf(tokens, |tokens|) && t.start < t.end <= |code|
    requires table.scan(t.start) == Some(m) && t.end == m.end
    requires TokenFor(code, m.raw, Inside(tokens, |tokens|), table.keyword, t)
    ensures CutOk(code, table, tokens + [t], |tokens|)
  {
    Framed(code, tokens, t, |tokens|);
    FramedInside(tokens, t, |tokens|);
    assert (tokens + [t])[|tokens|] == t;
  }

  lemma PositionNext(code: string, tokens: seq<Token>, t: Token)
    requires t.start == EndOf(tokens, |tokens|) && Positioned(code, tokens, |tokens|, t.lineno, t.lineStart)
    requires t.colno == t.start - t.lineStart
    ensures PositionOk(code, tokens + [t], |tokens|)
  {
    Framed(code, tokens, t, |tokens|);
    assert (tokens + [t])[|tokens|] == t;
  }

  lemma LexedNext(code: string, table: Table, tokens: seq<Token>, t: Token)
    requires Lexed(code, table, tokens)
    requires CutOk(code, table, tokens + [t], |tokens|) && PositionOk(code, tokens + [t], |tokens|)
    ensures Lexed(code, table, tokens + [t])
  {
    forall n | 0 <= n < |tokens|
      ensures CutOk(code, table, tokens + [t], n) && PositionOk(code, tokens + [t], n)
    {
      CutFramed(code, table, tokens, t, n);
      PositionFramed(code, tokens, t, n);
    }
  }

  /** The bracket counters agree with the first `n` tokens. */
  predicate Nested(tokens: seq<Token>, n: nat, parCount: int, bracketCount: int, curlCount: int)
    requires n <= |tokens|
  {
    && parCount == Depth(tokens, n, LParen, RParen)
    && bracketCount == Depth(tokens, n, LBracket, RBracket)
    && curlCount == Depth(tokens, n, LCurl, RCurl)
  }

  lemma DepthNext(tokens: seq<Token>, t: Token, open: Tid, close: Tid)
    ensures Depth(tokens + [t], |tokens| + 1, open, close)
         == Depth(tokens, |tokens|, open, close) + Turn(t.tid, open, close)
  {
    FramedDepth(tokens, t, |tokens|, open, close);
  }

  /** The line bookkeeping for one token: it counts the newlines of the token and finds its last line, unless the token
      is a single-quoted string. */
  method Advance(code: string, raw: Raw, start: nat, end: nat, lineno: nat, lineStart: nat)
    returns (lineno': nat, lineStart': nat)
    requires Shaped(code, raw, start, end)
    ensures Moved(code, raw, start, end, lineno, lineStart, lineno', lineStart')
  {
    lineno', lineStart' := lineno, lineStart;
    if raw == RawOperator(Eol) || raw == RawEolCont {
      QuietSpan(code, start, end - 1);
      lineno', lineStart' := lineno + 1, end;
    } else if IsMultiline(raw) {
      var text, close := start + OpeningWidth(raw), end - 3;
      MultilineMoves(code, start, text, close, end);
      var lines := CountNewlines(code, text, close);
      if lines > 0 {
        lineno', lineStart' := lineno + lines, end - LastLineLength(code, text, close) - 3;
      }
    } else if raw != RawStr && raw != RawFStr {
      QuietSpan(code, start, end);
    }
  }

  /** The bracket counters behind one more token. */
  method Nest(t: Token, parCount: int, bracketCount: int, curlCount: int, ghost tokens: seq<Token>)
    returns (par: int, bracket: int, curl: int)
    requires Nested(tokens, |tokens|, parCount, bracketCount, curlCount)
    ensures Nested(tokens + [t], |tokens| + 1, par, bracket, curl)
  {
    par, bracket, curl := parCount, bracketCount, curlCount;
    if t.tid == LParen {
      par := par + 1;
    } else if t.tid == RParen {
      par := par - 1;
    } else if t.tid == LBracket {
      bracket := bracket + 1;
    } else if t.tid == RBracket {
      bracket := bracket - 1;
    } else if t.tid == LCurl {
      curl := curl + 1;
    } else if t.tid == RCurl {
      curl := curl - 1;
    }
    DepthNext(tokens, t, LParen, RParen);
    DepthNext(tokens, t, LBracket, RBracket);
    DepthNext(tokens, t, LCurl, RCurl);
  }

  /** The token for a match, where the line bookkeeping stands at `lineno` and `lineStart`. */
  method MakeToken(code: string, table: Table, m: Match, loc: nat, lineno: nat, lineStart: nat, inside: bool)
    returns (t: Token)
    requires WellShaped(code, table) && ShapedMatch(code, loc, Some(m)) && lineStart <= loc
    ensures t.start == loc && t.end == m.end <= |code| && TokenFor(code, m.raw, inside, table.keyword, t)
    ensures t.lineno == lineno && t.lineStart == lineStart && t.colno == loc - lineStart
    ensures Regular(t) <==> m.raw == RawStr || m.raw == RawFStr
  {
    var text := code[loc..m.end];
    var value := code[loc + OpeningWidth(m.raw)..m.end - ClosingWidth(m.raw)];
    var tid := KindOf(m.raw, text, inside, table.keyword);
    RegularKind(m.raw, text, inside, table.keyword);
    t := Token(tid, lineStart, lineno, loc - lineStart, loc, m.end, value);
  }

  /** The invariant of the lexer's loop. */
  predicate Reached(code: string, table: Table, tokens: seq<Token>, loc: nat, lineno: nat, lineStart: nat) {
    && loc == EndOf(tokens, |tokens|)
    && Lexed(code, table, tokens)
    && Positioned(code, tokens, |tokens|, lineno, lineStart)
  }

  lemma ReachedNext(code: string, table: Table, tokens: seq<Token>, m: Match, t: Token, lineno': nat, lineStart': nat)
    requires Reached(code, table, tokens, t.start, t.lineno, t.lineStart)
    requires t.start < |code| && table.scan(t.start) == Some(m) && t.end == m.end && Shaped(code, m.raw, t.start, t.end)
    requires TokenFor(code, m.raw, Inside(tokens, |tokens|), table.keyword, t) && t.colno == t.start - t.lineStart
    requires Regular(t) <==> m.raw == RawStr || m.raw == RawFStr
    requires Moved(code, m.raw, t.start, t.end, t.lineno, t.lineStart, lineno', lineStart')
    ensures Reached(code, table, tokens + [t], t.end, lineno', lineStart')
  {
    hide TokenFor, Moved, Inside, Regular, CutOk, PositionOk, Positioned;
    CutNext(code, table, tokens, m, t);
    PositionNext(code, tokens, t);
    PositionedNext(code, tokens, t, m.raw, t.lineno, t.lineStart, lineno', lineStart');
    LexedNext(code, table, tokens, t);
  }

  /** Cuts the source text into tokens, up to its end or to the first place where nothing matches. */
  method Cut(code: string, table: Table) returns (tokens: seq<Token>, loc: nat)
    requires WellShaped(code, table)
    ensures Lexed(code, table, tokens) && loc == EndOf(tokens, |tokens|) <= |code|
    ensures loc < |code| ==> table.scan(loc).None?
  {
    var lineStart: nat, lineno: nat := 0, 1;
    var parCount, bracketCount, curlCount := 0, 0, 0;
    tokens, loc := [], 0;
    while loc < |code|
      invariant Reached(code, table, tokens, loc, lineno, lineStart)
      invariant Nested(tokens, |tokens|, parCount, bracketCount, curlCount)
      decreases |code| - loc
    {
      var m := table.scan(loc);
      if m.None? {
        return;
      }
      assert ShapedMatch(code, loc, m);
      var inside := parCount > 0 || bracketCount > 0 || curlCount > 0;
      var t := MakeToken(code, table, m.value, loc, lineno, lineStart, inside);
      parCount, bracketCount, curlCount := Nest(t, parCount, bracketCount, curlCount, tokens);
      lineno, lineStart := Advance(code, m.value.raw, loc, t.end, lineno, lineStart);
      ReachedNext(code, table, tokens, m.value, t, lineno, lineStart);
      tokens, loc := tokens + [t], t.end;
    }
  }

  function FullTable(code: string, config: Config): Table {
    Table(Patterns(code, config), (name: string) => Keyword(name, config.inUnitTest))
  }

  lemma TableShaped(code: string, config: Config)
    requires !config.decimal('\n')
    ensures WellShaped(code, FullTable(code, config))
  {
    forall i: nat | i < |code|
      ensures ShapedMatch(code, i, MatchAt(code, i, config))
    {
      MatchShape(code, i, config);
    }
  }

  /** Cuts a file into tokens, or reports why it cannot be cut further. */
  method Lex(code: string, config: Config) returns (tokens: seq<Token>, error: Option<LexError>)
    requires !config.decimal('\n')
    ensures Lexed(code, FullTable(code, config), tokens)
    ensures error.None? <==> EndOf(tokens, |tokens|) == |code|
    ensures error == Some(ByteOrderMark) <==> code != "" && code[0] == '\U{FEFF}'
    ensures error.Some? && error != Some(ByteOrderMark) ==>
              var loc := EndOf(tokens, |tokens|);
              && loc < |code| && MatchAt(code, loc, config).None?
              && error.value == if code[loc] == '\"' then DoubleQuote(loc) else Unrecognized(loc)
  {
    if code != "" && code[0] == '\U{FEFF}' {
      return [], Some(ByteOrderMark);
    }
    TableShaped(code, config);
    var loc;
    tokens, loc := Cut(code, FullTable(code, config));
    error := if loc == |code| then None else Some(if code[loc] == '\"' then DoubleQuote(loc) else Unrecognized(loc));
  }

  // ----- partition and positions

  /** Every token is non-empty and starts where the one before it ends. */
  lemma TokensContiguous(code: string, table: Table, tokens: seq<Token>, i: nat)
    requires Lexed(code, table, tokens) && i < |tokens|
    ensures tokens[i].start == (if i == 0 then 0 else tokens[i - 1].end)
    ensures tokens[i].start < tokens[i].end <= |code|
  {
    assert CutOk(code, table, tokens, i);
  }

  predicate Covers(t: Token, p: nat) { t.start <= p < t.end }

  /** Every position before the end of the last token lies in exactly one token. */
  lemma {:induction false} TokensPartition(code: string, table: Table, tokens: seq<Token>, n: nat,
                                           p: nat) returns (i: nat)
    requires Lexed(code, table, tokens) && n <= |tokens| && p < EndOf(tokens, n)
    ensures i < n && Covers(tokens[i], p)
    ensures forall k :: 0 <= k < n && Covers(tokens[k], p) ==> k == i
  {
    i := n - 1;
    TokensContiguous(code, table, tokens, i);
    if p < tokens[i].start {
      i := TokensPartition(code, table, tokens, n - 1, p);
    } else {
      forall k | 0 <= k < i
        ensures !Covers(tokens[k], p)
      {
        EndsGrow(code, table, tokens, k, i);
      }
    }
  }

  lemma {:induction false} EndsGrow(code: string, table: Table, tokens: seq<Token>, k: nat, i: nat)
    requires Lexed(code, table, tokens) && k < i < |tokens|
    ensures tokens[k].end <= tokens[i].start
  {
    TokensContiguous(code, table, tokens, i);
    if k < i - 1 {
      TokensContiguous(code, table, tokens, i - 1);
      EndsGrow(code, table, tokens, k, i - 1);
    }
  }

  lemma {:induction false} UncountedGrows(code: string, tokens: seq<Token>, i: nat, n: nat)
    requires i <= n <= |tokens|
    ensures Uncounted(code, tokens, i) <= Uncounted(code, tokens, n)
  {
    if i < n {
      UncountedGrows(code, tokens, i, n - 1);
    }
  }

  lemma {:induction false} CountedNotBehind(code: string, table: Table, tokens: seq<Token>, n: nat)
    requires Lexed(code, table, tokens) && n <= |tokens| && Uncounted(code, tokens, n) == 0
    ensures !Behind(code, tokens, n)
  {
    if n > 0 {
      var t := tokens[n - 1];
      CountedNotBehind(code, table, tokens, n - 1);
      assert CutOk(code, table, tokens, n - 1);
      SplitSpan(code, t.start, t.end);
    }
  }

  /** Line and column of `t` are those found by counting newlines. */
  predicate ExactLine(code: string, t: Token) { t.start <= |code| && t.lineno == 1 + Newlines(code, t.start) }
  predicate ExactColumn(code: string, t: Token) { t.start <= |code| && t.colno == t.start - LineStart(code, t.start) }

  /** A token's line is right exactly when no single-quoted string before it contains a newline; its
      column is right exactly when the last newline before it is in no such string. */
  lemma PositionExact(code: string, table: Table, tokens: seq<Token>, i: nat)
    requires Lexed(code, table, tokens) && i < |tokens|
    ensures ExactLine(code, tokens[i]) <==> Uncounted(code, tokens, i) == 0
    ensures ExactColumn(code, tokens[i]) <==> !Behind(code, tokens, i)
  {
    assert PositionOk(code, tokens, i);
  }

  /** All lines are right exactly when no single-quoted string but perhaps the last token
      contains a newline; and then all columns are right. */
  lemma PositionsExact(code: string, table: Table, tokens: seq<Token>)
    requires Lexed(code, table, tokens) && tokens != []
    ensures (forall i :: 0 <= i < |tokens| ==> ExactLine(code, tokens[i]))
       <==> Uncounted(code, tokens, |tokens| - 1) == 0
    ensures Uncounted(code, tokens, |tokens| - 1) == 0 ==>
              forall i :: 0 <= i < |tokens| ==> ExactColumn(code, tokens[i])
  {
    PositionExact(code, table, tokens, |tokens| - 1);
    if Uncounted(code, tokens, |tokens| - 1) == 0 {
      forall i | 0 <= i < |tokens|
        ensures ExactLine(code, tokens[i]) && ExactColumn(code, tokens[i])
      {
        UncountedGrows(code, tokens, i, |tokens| - 1);
        CountedNotBehind(code, table, tokens, i);
        PositionExact(code, table, tokens, i);
      }
    }
  }

  /** A newline in a single-quoted string puts the token behind it on the wrong line: however this text is lexed, as far
      as anything matches. */
  lemma NewlineInString(config: Config, tokens: seq<Token>)
    requires Lexed("'\n'x", FullTable("'\n'x", config), tokens)
    requires EndOf(tokens, |tokens|) < 4 ==> MatchAt("'\n'x", EndOf(tokens, |tokens|), config).None?
    ensures |tokens| >= 2 && tokens[1].start == 3 && tokens[1].lineno == 1 && Newlines("'\n'x", 3) == 1
    ensures !ExactLine("'\n'x", tokens[1])
  {
    hide MatchAt, Newlines, Patterns;
    var code := "'\n'x";
    var table := FullTable(code, config);
    StringFirst(config);
    NameSecond(config);
    PatternsMatch(code, config, 0);
    assert tokens != [];
    assert CutOk(code, table, tokens, 0);
    assert |tokens| >= 2;
    assert CutOk(code, table, tokens, 1);
    LinesOfString();
    BehindString(code, table, tokens);
  }

  lemma NameSecond(config: Config)
    ensures MatchAt("'\n'x", 3, config).Some?
  {
    var code := "'\n'x";
    assert MatchId(code, 3, config.machinefile).Some?;
  }

  lemma PatternsMatch(code: string, config: Config, i: nat)
    requires i < |code|
    ensures FullTable(code, config).scan(i) == MatchAt(code, i, config)
  {
    hide MatchAt;
  }

  lemma LinesOfString()
    ensures Newlines("'\n'x", 0) == 0 && Newlines("'\n'x", 3) == 1
  {
    var code := "'\n'x";
    assert Newlines(code, 1) == 0 && Newlines(code, 2) == 1;
  }

  /** The first token is a single-quoted string with one newline. */
  lemma BehindString(code: string, table: Table, tokens: seq<Token>)
    requires Lexed(code, table, tokens) && |tokens| >= 2 && Regular(tokens[0])
    requires tokens[0].start == 0 && tokens[0].end <= |code| && tokens[1].start == tokens[0].end
    requires Newlines(code, 0) == 0 && Newlines(code, tokens[0].end) == 1
    ensures tokens[1].lineno == 1 && !ExactLine(code, tokens[1])
  {
    hide Newlines, CutOk;
    SplitSpan(code, 0, tokens[0].end);
    assert Uncounted(code, tokens, 0) == 0 && Uncounted(code, tokens, 1) == 1;
    PositionExact(code, table, tokens, 1);
    assert PositionOk(code, tokens, 1);
  }

  lemma StringFirst(config: Config)
    ensures MatchAt("'\n'x", 0, config) == Some(Match(RawStr, 3))
  {
    var code := "'\n'x";
    assert StringClose(code, 3 - 1) == Some(2);
    assert StringClose(code, 1) == Some(2);
  }

  /** No token is of the kind that stands for the end of the file. */
  lemma NoEof(code: string, table: Table, tokens: seq<Token>, i: nat)
    requires Lexed(code, table, tokens) && WellShaped(code, table) && i < |tokens|
    ensures tokens[i].tid != Eof
  {
    hide PositionOk, KindOf, Inside;
    var t := tokens[i];
    assert CutOk(code, table, tokens, i);
    assert ShapedMatch(code, t.start, table.scan(t.start));
    RegularKind(table.scan(t.start).value.raw, code[t.start..t.end], Inside(tokens, i), table.keyword);
  }
}
