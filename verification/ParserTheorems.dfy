/**
 The parser and the grammar agree; what the parser keeps and what it loses.
 */
module ParserTheorems {
  import opened Tokens
  import opened Ast
  import opened ParserSpec
  import opened Grammar
  import opened ParserComplete
  import opened ParserSound
  import opened Blocks
  import opened BlockComplete
  import opened BlockSound
  import opened DroppedNots
  import opened Misplaced
  import opened Reprint
  import opened MisplacedBlocks

  /** The parser reads `t` and loses nothing exactly when the tokens are those of `t`
      and `t` is an expression of the grammar there. */
  lemma ExpressionExact(toks: Stream, t: Node, rest: Stream, inTernary: bool)
    requires Ordered(t)
    ensures E1(toks, inTernary) == Ok(t, rest, 0) <==> toks == Print(t, rest) && G1(t, Current(rest), inTernary)
  {
    if E1(toks, inTernary) == Ok(t, rest, 0) {
      Sound1(toks, inTernary);
    }
    if toks == Print(t, rest) && G1(t, Current(rest), inTernary) {
      Complete1(t, rest, inTernary);
    }
  }

  /** A token stream begins with at most one expression of the grammar. */
  lemma ExpressionUnambiguous(t: Node, x: Stream, u: Node, y: Stream, inTernary: bool)
    requires Print(t, x) == Print(u, y)
    requires G1(t, Current(x), inTernary) && G1(u, Current(y), inTernary)
    ensures t == u && x == y
  {
    Complete1(t, x, inTernary);
    Complete1(u, y, inTernary);
  }

  /** Of an accepted expression: no ternary lies inside a branch of another, the dropped tokens are those that the
      tokens tell, and the tree prints back to the tokens exactly when nothing is dropped or misplaced in them. */
  lemma ExpressionKept(toks: Stream, inTernary: bool)
    ensures var r := E1(toks, inTernary);
            r.Ok? ==>
              && Disciplined(r.node, inTernary)
              && Size(toks) == Size(Print(r.node, r.rest)) + r.lost
              && Dropped(toks) == r.lost + Dropped(r.rest)
              && (toks == Print(r.node, r.rest) <==>
                    Dropped(toks) == Dropped(r.rest) && Misplacements(toks) == Misplacements(r.rest))
  {
    hide E1, Print, Drops, Flagged, Kinds, Flags;
    Sound1(toks, inTernary);
    Counted1(Outside(false), toks, inTernary);
    Tallied1(NoList(false), toks, inTernary);
    var r := E1(toks, inTernary);
    if r.Ok? {
      FlagsOrdered(r.node);
      PrintFlagged(NoList(false), r.node, r.rest);
    }
  }

  /** When nothing was dropped, the order flags of the tree tell whether it prints back. */
  lemma OrderedKept(toks: Stream, inTernary: bool)
    ensures var r := E1(toks, inTernary);
            r.Ok? && r.lost == 0 ==> (toks == Print(r.node, r.rest) <==> Ordered(r.node))
  {
    hide E1, Print, Drops, Flagged, Kinds, Flags;
    Sound1(toks, inTernary);
    Tallied1(NoList(false), toks, inTernary);
    var r := E1(toks, inTernary);
    if r.Ok? {
      FlagsOrdered(r.node);
      PrintFlagged(NoList(false), r.node, r.rest);
    }
  }

  /** A whole file is read as `b` with nothing lost exactly when its tokens are those of `b`
      and `b` is a code block of the grammar up to the end of the file. */
  lemma FileExact(opener: Token, toks: Stream, b: Block, eof: Token)
    requires Every(b, Ordered) && eof.tid == Eof
    ensures Parse(opener, toks) == OkBlock(b, End(eof), 0)
       <==> toks == PrintBlock(b, End(eof)) && GBlock(b, opener, eof)
  {
    if Parse(opener, toks) == OkBlock(b, End(eof), 0) {
      SoundCodeBlock(opener, toks);
    }
    if toks == PrintBlock(b, End(eof)) && GBlock(b, opener, eof) {
      CompleteBlock(b, opener, End(eof));
    }
  }

  /** A file has at most one reading. */
  lemma FileUnambiguous(opener: Token, b: Block, c: Block, eof: Token)
    requires eof.tid == Eof
    requires PrintBlock(b, End(eof)) == PrintBlock(c, End(eof))
    requires GBlock(b, opener, eof) && GBlock(c, opener, eof)
    ensures b == c
  {
    CompleteBlock(b, opener, End(eof));
    CompleteBlock(c, opener, End(eof));
  }

  /** Of an accepted file: no ternary lies inside a branch of another, the dropped tokens are those that the tokens
      tell, and the tree prints back to the tokens exactly when nothing is dropped or misplaced in them. */
  lemma FileKept(opener: Token, toks: Stream)
    ensures var r := Parse(opener, toks);
            r.OkBlock? ==>
              && Every(r.block, Calm)
              && Size(toks) == Size(PrintBlock(r.block, r.rest)) + r.lost
              && r.lost == Dropped(toks)
              && (r.lost == 0 ==> FlagsBlock(r.block) == Misplacements(toks))
              && (toks == PrintBlock(r.block, r.rest) <==> Dropped(toks) == 0 && Misplacements(toks) == 0)
  {
    hide CodeBlock, PrintBlock, KindsBlock, FlagsBlock;
    SoundCodeBlock(opener, toks);
    CountedCodeBlock(opener, toks);
    TalliedCodeBlock(opener, toks);
    var r := Parse(opener, toks);
    if r.OkBlock? {
      BlockOrdered(r.block);
      PrintBlockFlagged(r.block, r.rest);
    }
  }
}
