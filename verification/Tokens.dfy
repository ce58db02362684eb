/**
 Tokens shared by the lexer and the parser of the Meson language.
 */
module Tokens {

  /** Token kinds, after the lexer has turned keywords into kinds of their own. */
  datatype Tid =
    | Eof | Eol | Whitespace | Comment
    | Id | Number | Str | FStr | MultilineStr | MultilineFStr
    | PlusAssign | Equal | NEqual | Le | Ge | Lt | Gt | Assign
    | LParen | RParen | LBracket | RBracket | LCurl | RCurl
    | Comma | Dot | Plus | Dash | Star | Percent | FSlash | Colon | Question
    | KwTrue | KwFalse | KwIf | KwElse | KwElif | KwEndif | KwAnd | KwOr | KwNot | KwIn
    | KwForeach | KwEndforeach | KwContinue | KwBreak | KwTestcase | KwEndtestcase

  /** A token with its position: `start..end` is the span in the source text. */
  datatype Token = Token(tid: Tid, lineStart: nat, lineno: nat, colno: nat, start: nat, end: nat, value: string)

  /** The significant tokens that a parser has still to read; the end is an `Eof` token. */
  datatype Stream = End(eof: Token) | More(head: Token, tail: Stream)

  function Size(s: Stream): nat {
    if s.End? then 0 else 1 + Size(s.tail)
  }

  /** The current token; the end of the stream reads as an `Eof` token. */
  function Current(s: Stream): Token {
    if s.End? then s.eof.(tid := Eof) else s.head
  }

  /** The kind of the current token. */
  function Peek(s: Stream): Tid {
    if s.End? then Eof else s.head.tid
  }

  /** Brackets. */
  predicate Opens(t: Tid) { t == LParen || t == LBracket || t == LCurl }
  predicate Closes(t: Tid) { t == RParen || t == RBracket || t == RCurl }
}
