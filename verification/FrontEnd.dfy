/**
 From the text of a build file to its tree.
 */
module FrontEnd {
  import opened Tokens
  import opened Blocks
  import opened BlockComplete
  import opened BlockSound
  import opened DroppedNots
  import opened Misplaced
  import opened MisplacedBlocks
  import opened ParserObject
  import opened ParserTheorems
  import Lexer
  import Lexing
  import Wrappers

  /** The token that stands for the beginning of a file. */
  const Opening := Token(Eof, 0, 0, 0, 0, 0, "")

  /** The significant tokens of a lexed text. */
  ghost function Reading(tokens: seq<Token>): Stream { Significant(tokens, 0, Opening) }

  /** `b` is the whole reading of `toks`: it prints back to them, up to the end of the file, and is a
      block of the grammar there. */
  ghost predicate ReadsAs(toks: Stream, b: Block) {
    exists rest :: Peek(rest) == Eof && toks == PrintBlock(b, rest) && GBlock(b, Opening, Current(rest))
  }

  lemma Accepted(toks: Stream)
    ensures var r := Blocks.Parse(Opening, toks);
            r.OkBlock? ==>
              && Every(r.block, Calm)
              && (ReadsAs(toks, r.block) <==> Dropped(toks) == 0 && Misplacements(toks) == 0)
  {
    hide CodeBlock, PrintBlock, GBlock, Dropped, Misplacements;
    FileKept(Opening, toks);
    SoundCodeBlock(Opening, toks);
    var r := Blocks.Parse(Opening, toks);
    if r.OkBlock? {
      if Dropped(toks) == 0 && Misplacements(toks) == 0 {
        BlockOrdered(r.block);
      }
      if ReadsAs(toks, r.block) {
        var rest :| Peek(rest) == Eof && toks == PrintBlock(r.block, rest) && GBlock(r.block, Opening, Current(rest));
        CompleteBlock(r.block, Opening, rest);
      }
    }
  }

  /** Lexes and parses a file; it is accepted exactly when the tokens cover its text and the parser reads all
      significant ones. An accepted file is the reading of all its significant tokens exactly when no `not` is
      dropped and no argument is misplaced in them. */
  method ParseFile(code: string, config: Lexing.Config) returns (tokens: seq<Token>, tree: Wrappers.Option<Block>)
    requires !config.decimal('\n')
    ensures Lexer.Lexed(code, Lexer.FullTable(code, config), tokens)
    ensures tree == if Lexer.EndOf(tokens, |tokens|) == |code| && Blocks.Parse(Opening, Reading(tokens)).OkBlock?
                    then Wrappers.Some(Blocks.Parse(Opening, Reading(tokens)).block) else Wrappers.None
    ensures tree.Some? ==>
              && Every(tree.value, Calm)
              && (ReadsAs(Reading(tokens), tree.value) <==>
                    Dropped(Reading(tokens)) == 0 && Misplacements(Reading(tokens)) == 0)
  {
    var error;
    tokens, error := Lexer.Lex(code, config);
    if error.Some? {
      return tokens, Wrappers.None;
    }
    Lexer.TableShaped(code, config);
    forall i | 0 <= i < |tokens|
      ensures tokens[i].tid != Eof
    {
      Lexer.NoEof(code, Lexer.FullTable(code, config), tokens, i);
    }
    var parser := new Parser(tokens);
    Accepted(Reading(tokens));
    var r := parser.Parse(Opening);
    tree := if r.Failure? then Wrappers.None else Wrappers.Some(r.value);
  }
}
