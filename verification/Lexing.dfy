/**
 What the lexer's token patterns match, and line and column by counting newlines.
 */
module Lexing {
  import opened Tokens
  import opened Wrappers

  /** What a pattern of the token table, or a single character, is recognised as. */
  datatype Raw =
    | RawWhitespace | RawMultilineFStr | RawFStr | RawId | RawNumber | RawEolCont | RawMultilineStr | RawComment
    | RawStr | RawOperator(tid: Tid)

  /** Lexer settings; `decimal` are the characters that the pattern for decimal digits accepts. */
  datatype Config = Config(machinefile: bool, inUnitTest: bool, decimal: char -> bool)

  /** Kinds that are neither a string nor the end of the file. */
  predicate Plain(t: Tid) { t != Eof && t != Str && t != FStr && t != MultilineStr && t != MultilineFStr }

  // ----- pieces of patterns

  predicate Blank(c: char) { c == ' ' || c == '\t' }
  predicate NotNewline(c: char) { c != '\n' }
  predicate Letter(c: char) { c == '_' || 'a' <= c <= 'z' || 'A' <= c <= 'Z' }
  predicate LetterOrDigit(c: char) { Letter(c) || '0' <= c <= '9' }
  predicate Binary(c: char) { '0' <= c <= '1' }
  predicate Octal(c: char) { '0' <= c <= '7' }
  predicate Hex(c: char) { '0' <= c <= '9' || 'a' <= c <= 'f' || 'A' <= c <= 'F' }

  /** The end of the longest run of characters in `p` from `i` on. */
  function Run(code: string, i: nat, p: char -> bool): (e: nat)
    requires i <= |code|
    ensures i <= e <= |code|
    ensures forall k :: i <= k < e ==> p(code[k])
    ensures e < |code| ==> !p(code[e])
    decreases |code| - i
  {
    if i < |code| && p(code[i]) then Run(code, i + 1, p) else i
  }

  predicate TripleAt(code: string, i: nat) {
    i + 2 < |code| && code[i] == '\'' && code[i + 1] == '\'' && code[i + 2] == '\''
  }

  /** The first three quotes from `i` on. */
  function FindTriple(code: string, i: nat): (r: Option<nat>)
    requires i <= |code|
    ensures r.Some? ==> i <= r.value && TripleAt(code, r.value) && forall k :: i <= k < r.value ==> !TripleAt(code, k)
    ensures r.None? ==> forall k :: i <= k ==> !TripleAt(code, k)
    decreases |code| - i
  {
    if TripleAt(code, i) then Some(i) else if i == |code| then None else FindTriple(code, i + 1)
  }

  /** `code[i..j]` is a run of plain characters and escaped pairs. */
  predicate StringBody(code: string, i: nat, j: nat)
    requires i <= j <= |code|
    decreases j - i
  {
    || i == j
    || (code[i] != '\'' && code[i] != '\\' && StringBody(code, i + 1, j))
    || (code[i] == '\\' && i + 1 < j && code[i + 1] != '\n' && StringBody(code, i + 2, j))
  }

  /** A quote at `e` closes a string whose text starts at `i`. */
  predicate Closes(code: string, i: nat, e: nat) {
    i <= e < |code| && code[e] == '\'' && StringBody(code, i, e)
  }

  /** The quote that closes a string whose text starts at `i`. */
  function StringClose(code: string, i: nat): (r: Option<nat>)
    requires i <= |code|
    ensures r.Some? ==> Closes(code, i, r.value)
    decreases |code| - i
  {
    if i == |code| then None
    else if code[i] == '\'' then Some(i)
    else if code[i] != '\\' then StringClose(code, i + 1)
    else if i + 1 < |code| && code[i + 1] != '\n' then StringClose(code, i + 2)
    else None
  }

  /** The closing quote is unique, and found whenever there is one. */
  lemma {:induction false} StringCloseOnly(code: string, i: nat, e: nat)
    requires Closes(code, i, e)
    ensures StringClose(code, i) == Some(e)
    decreases e - i
  {
    if i < e {
      if code[i] == '\\' {
        StringCloseOnly(code, i + 2, e);
      } else {
        StringCloseOnly(code, i + 1, e);
      }
    }
  }

  // ----- the patterns, in the order in which they are tried

  function Prefixed(code: string, i: nat, lower: char, upper: char, p: char -> bool): Option<nat>
    requires i < |code|
  {
    if i + 2 < |code| && code[i] == '0' && (code[i + 1] == lower || code[i + 1] == upper) && p(code[i + 2]) then
      Some(Run(code, i + 2, p))
    else None
  }

  function MatchNumber(code: string, i: nat, decimal: char -> bool): (r: Option<nat>)
    requires i < |code|
    ensures r.Some? ==> i < r.value <= |code| && (!decimal('\n') ==> Quiet(code, i, r.value))
  {
    var binary := Prefixed(code, i, 'b', 'B', Binary);
    if binary.Some? then binary else
    var octal := Prefixed(code, i, 'o', 'O', Octal);
    if octal.Some? then octal else
    var hex := Prefixed(code, i, 'x', 'X', Hex);
    if hex.Some? then hex
    else if code[i] == '0' then Some(i + 1)
    else if '1' <= code[i] <= '9' then Some(Run(code, i + 1, decimal))
    else None
  }

  /** A backslash, blanks, perhaps a comment, and the end of the line. */
  function MatchEolCont(code: string, i: nat): (r: Option<nat>)
    requires i < |code|
    ensures r.Some? ==> i + 1 < r.value <= |code| && code[r.value - 1] == '\n' && Quiet(code, i, r.value - 1)
  {
    if code[i] != '\\' then None
    else
      var blanks := Run(code, i + 1, Blank);
      var end := if blanks < |code| && code[blanks] == '#' then Run(code, blanks, NotNewline) else blanks;
      if end < |code| && code[end] == '\n' then Some(end + 1) else None
  }

  /** A string whose opening quotes end at `text`. */
  function MatchString(code: string, i: nat, text: nat): (r: Option<nat>)
    requires i < text
    ensures r.Some? ==> text < r.value <= |code|
  {
    if text <= |code| && code[text - 1] == '\'' then
      var close := StringClose(code, text);
      if close.Some? then Some(close.value + 1) else None
    else None
  }

  function MatchMultiline(code: string, i: nat, quotes: nat): (r: Option<nat>)
    requires i <= quotes
    ensures r.Some? ==> quotes + 6 <= r.value <= |code| && TripleAt(code, quotes) && TripleAt(code, r.value - 3)
  {
    if TripleAt(code, quotes) then
      var close := FindTriple(code, quotes + 3);
      if close.Some? then Some(close.value + 3) else None
    else None
  }

  /** The two-character operators. */
  function Operator2(a: char, b: char): (r: Option<Tid>)
    ensures r.Some? ==> Plain(r.value) && r.value != Eol && a != '\n' && b != '\n'
  {
    if b != '=' then None
    else if a == '+' then Some(PlusAssign)
    else if a == '=' then Some(Equal)
    else if a == '!' then Some(NEqual)
    else if a == '<' then Some(Le)
    else if a == '>' then Some(Ge)
    else None
  }

  /** Single characters; a double quote and every character that is not listed raise. */
  function Operator1(c: char): (r: Option<Tid>)
    ensures r.Some? ==> Plain(r.value) && (r.value == Eol <==> c == '\n')
  {
    match c
    case '\n' => Some(Eol)
    case '(' => Some(LParen)
    case ')' => Some(RParen)
    case '[' => Some(LBracket)
    case ']' => Some(RBracket)
    case '{' => Some(LCurl)
    case '}' => Some(RCurl)
    case ',' => Some(Comma)
    case '.' => Some(Dot)
    case '+' => Some(Plus)
    case '-' => Some(Dash)
    case '*' => Some(Star)
    case '%' => Some(Percent)
    case '/' => Some(FSlash)
    case ':' => Some(Colon)
    case '=' => Some(Assign)
    case '<' => Some(Lt)
    case '>' => Some(Gt)
    case '?' => Some(Question)
    case _ => None
  }

  function MatchId(code: string, i: nat, machinefile: bool): (r: Option<nat>)
    requires i < |code|
    ensures r.Some? ==> i < r.value <= |code| && (Quiet(code, i, r.value))
  {
    if Letter(code[i]) then Some(Run(code, i, LetterOrDigit))
    else if machinefile && code[i] == '~' then Some(i + 1)
    else None
  }

  datatype Match = Match(raw: Raw, end: nat)

  /** The token that starts at `i`: the first pattern that matches there. */
  function MatchAt(code: string, i: nat, config: Config): (r: Option<Match>)
    requires i < |code|
    ensures r.Some? ==> i < r.value.end <= |code|
  {
    if Blank(code[i]) then Some(Match(RawWhitespace, Run(code, i, Blank))) else
    var multilineF := if code[i] == 'f' then MatchMultiline(code, i, i + 1) else None;
    if multilineF.Some? then Some(Match(RawMultilineFStr, multilineF.value)) else
    var fstring := if code[i] == 'f' then MatchString(code, i, i + 2) else None;
    if fstring.Some? then Some(Match(RawFStr, fstring.value)) else
    var id := MatchId(code, i, config.machinefile);
    if id.Some? then Some(Match(RawId, id.value)) else
    var number := MatchNumber(code, i, config.decimal);
    if number.Some? then Some(Match(RawNumber, number.value)) else MatchSymbol(code, i)
  }

  /** The patterns that start with neither a blank, a letter nor a digit. */
  function MatchSymbol(code: string, i: nat): (r: Option<Match>)
    requires i < |code|
    ensures r.Some? ==> i < r.value.end <= |code|
  {
    var cont := MatchEolCont(code, i);
    if cont.Some? then Some(Match(RawEolCont, cont.value)) else
    var multiline := MatchMultiline(code, i, i);
    if multiline.Some? then Some(Match(RawMultilineStr, multiline.value))
    else if code[i] == '#' then Some(Match(RawComment, Run(code, i, NotNewline))) else
    var str := MatchString(code, i, i + 1);
    if str.Some? then Some(Match(RawStr, str.value)) else MatchOperator(code, i)
  }

  /** Operators and single characters, the longer ones first. */
  function MatchOperator(code: string, i: nat): (r: Option<Match>)
    requires i < |code|
    ensures r.Some? ==> i < r.value.end <= |code|
  {
    var two := if i + 1 < |code| then Operator2(code[i], code[i + 1]) else None;
    if two.Some? then Some(Match(RawOperator(two.value), i + 2)) else
    var one := Operator1(code[i]);
    if one.Some? then Some(Match(RawOperator(one.value), i + 1)) else None
  }

  /** The lexer's view of the source text: the token that starts at each position. */
  function Patterns(code: string, config: Config): nat -> Option<Match> {
    (i: nat) => if i < |code| then MatchAt(code, i, config) else None
  }

  // ----- positions by counting

  /** No newline in `code[i..j]`. */
  predicate Quiet(code: string, i: nat, j: nat)
  {
    j <= |code| && forall k :: i <= k < j ==> code[k] != '\n'
  }

  /** The number of newlines before `p`. */
  function Newlines(code: string, p: nat): nat
    requires p <= |code|
  {
    if p == 0 then 0 else Newlines(code, p - 1) + if code[p - 1] == '\n' then 1 else 0
  }

  /** Where the line of position `p` starts. */
  function LineStart(code: string, p: nat): (s: nat)
    requires p <= |code|
    ensures s <= p && Quiet(code, s, p) && (s > 0 ==> code[s - 1] == '\n')
  {
    if p == 0 then 0 else if code[p - 1] == '\n' then p else LineStart(code, p - 1)
  }

  lemma {:induction false} QuietSpan(code: string, i: nat, j: nat)
    requires i <= j && Quiet(code, i, j)
    ensures Newlines(code, j) == Newlines(code, i) && LineStart(code, j) == LineStart(code, i)
    decreases j
  {
    if i < j {
      QuietSpan(code, i, j - 1);
    }
  }

  lemma {:induction false} NewlinesGrow(code: string, i: nat, j: nat)
    requires i <= j <= |code|
    ensures Newlines(code, i) <= Newlines(code, j)
    ensures Newlines(code, i) == Newlines(code, j) <==> Quiet(code, i, j)
    ensures LineStart(code, i) <= LineStart(code, j)
    ensures !Quiet(code, i, j) ==> i < LineStart(code, j)
    decreases j
  {
    if i < j {
      NewlinesGrow(code, i, j - 1);
      assert Quiet(code, i, j) <==> Quiet(code, i, j - 1) && code[j - 1] != '\n';
    }
  }

  // ----- the pieces of a split string

  /** One less than the number of pieces when `code[i..j]` is split at newlines. */
  function CountNewlines(code: string, i: nat, j: nat): nat
    requires i <= j <= |code|
    decreases j
  {
    if i == j then 0 else CountNewlines(code, i, j - 1) + if code[j - 1] == '\n' then 1 else 0
  }

  /** The length of the last piece when `code[i..j]` is split at newlines. */
  function LastLineLength(code: string, i: nat, j: nat): (n: nat)
    requires i <= j <= |code|
    ensures n <= j - i
    decreases j
  {
    if i == j || code[j - 1] == '\n' then 0 else LastLineLength(code, i, j - 1) + 1
  }

  /** Splitting a piece of the source counts its newlines and finds where its last line starts. */
  lemma {:induction false} SplitSpan(code: string, i: nat, j: nat)
    requires i <= j <= |code|
    ensures CountNewlines(code, i, j) == Newlines(code, j) - Newlines(code, i)
    ensures CountNewlines(code, i, j) > 0 ==> j - LastLineLength(code, i, j) == LineStart(code, j)
    ensures CountNewlines(code, i, j) == 0 <==> Quiet(code, i, j)
    decreases j
  {
    if i < j {
      SplitSpan(code, i, j - 1);
    }
  }
}
