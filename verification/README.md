# A verified model of Meson's core algorithms

Meson turns build descriptions into build files. This project models, in Dafny, the parts of it
whose correctness is hard to see, and proves what they promise:

* the **language front end**: a lexer that cuts a text into tokens with positions, and a
  ten-level recursive-descent parser over a token cursor (`Tokens`, `Lexing`, `Lexer`, `Ast`,
  `ParserSpec`, `Blocks`, `ParserObject`). A grammar is stated on trees, independently of the
  parser (`Grammar`, `Blocks`); the parser is proved to be complete and sound for it
  (`ParserComplete`, `ParserSound`, `BlockComplete`, `BlockSound`), what it loses is counted on the
  tokens (`DroppedNots`, `Misplaced`, `Reprint`, `MisplacedBlocks`), and the main results are in
  `ParserTheorems`, `ParserExamples` and `FrontEnd`;
* the **link graph**: the memoised traversal for link-time dependencies, the worklist for
  run-time libraries, the collection of internal libraries, and the rules by which a static library
  takes in the objects of others (`LinkGraph`, `AllDependencies`, `LinkDeps`, `StaticBundle`,
  `Construction`, `LinkComplete`);
* the **compiler argument list** with its pending queues (`ArgTheory`, `ArgMeaning`, `ArgList`);
* the **dependency file** parser and closure (`Depfile`, `DepfileRoundTrip`, `DepfileClosure`);
* two **protocols over runs**: the saved configuration with its roll back (`Coredata`), and the
  log of installed directories (`DirLog`);
* two **loops**: the formatter's line splitter (`LineSplit`) and the greedy matcher of expected
  output (`OutputMatch`).

Classes stand for objects that the original updates in place (`Parser`, `Builder`, `CompilerArgs`, `DepFile`,
`BuildDir`, `DirMaker`, `ComputeLineLengths`); every method of theirs is proved against a
function of the old state. `hide` statements only keep definitions that a proof does not need out of its way.

Where the code does not meet a promise, the model keeps the code, shows an input, and proves the exact condition:

* A `not` in operator position that is not followed by `in` is accepted and dropped
  (`ParserExamples.DanglingNotVanishes`), and a positional argument behind a keyword argument loses its
  place (`ParserExamples.MisplacedArgument`). Two scans of the tokens tell where this happens: `Dropped`
  and `Misplacements`. An accepted file prints back to its tokens exactly when both find nothing
  (`ParserTheorems.FileKept`). The first scan has to know where an expression ends, because the body
  of a loop may begin on the line of its header (`ParserExamples.HeaderLineBody`).
* Newlines in single-quoted strings are not counted (`Lexer.NewlineInString`). A token's line is right
  exactly when no such newline comes before it, and its column exactly when the last newline before it
  is none (`Lexer.PositionExact`, `Lexer.PositionsExact`).
* A unique argument that goes to the front occurs as often as in the first batch that has it, although
  the code means to add it once (`ArgMeaning.AddedOnce`, `ArgMeaning.DoubledExactly`). The tables for C
  exclude this (`ArgList.OnceForC`), those for D do not (`ArgList.TwiceForD`).
* A handled failure of a setup run puts back `coredata.dat` in every history (`Coredata.HandledFailure`),
  but not a previous version of it: the whole state is restored exactly when there was none, and no
  temporary file (`Coredata.FailureRestoresAll`, `Coredata.PreviousLost`).

Parameters stand for what the model cannot see: which characters count as decimal digits, which
file names are those of versioned libraries, whether an argument is an absolute path, the normal form of
a dependency's path, whether an expected line matches an actual one, how far a line reaches, and where a run is cut short.

## Model

| member | source | states |
|---|---|---|
| Lexing.Run | mesonbuild/mparser.py:116-132 | A repeated character class matches the longest run: all characters in it belong to the class and the next one does not. |
| Lexing.FindTriple | mesonbuild/mparser.py:119-124 | A triple-quoted string ends at the first three quotes behind its opening ones, or has no end at all. |
| Lexing.StringCloseOnly | mesonbuild/mparser.py:120-126 | A single-quoted string has at most one closing quote behind plain characters and escaped pairs, and the scanner finds it. |
| Lexing.MatchEolCont | mesonbuild/mparser.py:123-123 | A line continuation ends with the only newline in it. |
| Lexing.SplitSpan | mesonbuild/mparser.py:222-225 | Splitting a piece of text at newlines counts its newlines and finds where the last line starts. |
| Lexer.MatchShape | mesonbuild/mparser.py:116-155 | Which matches can contain newlines, and where: only multi-line strings, continuations, line ends and single-quoted strings. |
| Lexer.Advance | mesonbuild/mparser.py:200-229 | Line number and line start follow the text across a token, as if its newlines had been counted, except across a single-quoted string. |
| Lexer.Nest | mesonbuild/mparser.py:186-197 | The three bracket counters agree with the tokens read so far. |
| Lexer.MakeToken | mesonbuild/mparser.py:170-231 | Kind, value and position of the token for a match; a line end inside brackets becomes whitespace. |
| Lexer.Cut | mesonbuild/mparser.py:160-231 | For any token table, the loop ends at the end of the text or where nothing matches, and every token is the match at its place, with its position up to newlines in single-quoted strings. |
| Lexer.Lex | mesonbuild/mparser.py:102-234 | The same for Meson's own table; a byte order mark, a double quote and an unknown character are the only errors, each reported where it is. |
| Lexer.TokensContiguous | mesonbuild/mparser.py:160-231 | Tokens are not empty and each starts where the one before it ends. |
| Lexer.TokensPartition | mesonbuild/mparser.py:160-231 | Every position before the end of the last token lies in exactly one token. |
| Lexer.PositionExact | mesonbuild/mparser.py:161-231 | Line and column of a token equal those found by counting newlines, each under an exact condition on the single-quoted strings before it. |
| Lexer.PositionsExact | mesonbuild/mparser.py:161-231 | All lines are right exactly when no single-quoted string but perhaps the last token has a newline, and then all columns are. |
| Lexer.NewlineInString | mesonbuild/mparser.py:213-219 | Meson's own table cuts the text of a string with a newline and a name behind it into these two tokens, and the name gets the wrong line. |
| Lexer.BehindString | mesonbuild/mparser.py:213-231 | Whatever the table, a token behind a first string with one newline is on the wrong line. |
| Lexer.NoEof | mesonbuild/mparser.py:160-231 | The lexer yields no end-of-file token, so the parser's own one marks the end. |
| ParserObject.Parser.constructor | mesonbuild/mparser.py:722-730 | A new parser stands in front of the significant tokens, outside of any ternary. |
| ParserObject.Parser.GetSym | mesonbuild/mparser.py:739-751 | Moves to the next token that is neither whitespace nor a comment, or to an end-of-file token behind the last one. |
| ParserObject.Parser.Accept | mesonbuild/mparser.py:756-760 | Takes the current token exactly when it has the wanted kind. |
| ParserObject.Parser.AcceptAny | mesonbuild/mparser.py:762-767 | Takes the current token exactly when it has one of the wanted kinds. |
| ParserObject.Parser.Expect | mesonbuild/mparser.py:769-777 | Takes the wanted token or fails with the kind that was found. |
| ParserObject.Parser.E1 | mesonbuild/mparser.py:791-819 | Computes the specified tree, error and rest of the tokens, and hands back the ternary flag. |
| ParserObject.Parser.Assigned | mesonbuild/mparser.py:793-805 | The same for the value and the target check of an assignment. |
| ParserObject.Parser.Ternary | mesonbuild/mparser.py:806-818 | The same for the branches of a ternary; the flag is set inside and cleared behind. |
| ParserObject.Parser.OtherBranch | mesonbuild/mparser.py:816-818 | The same behind the colon of a ternary. |
| ParserObject.Parser.E2 | mesonbuild/mparser.py:821-829 | The same for the loop over `or`. |
| ParserObject.Parser.OrOperand | mesonbuild/mparser.py:823-828 | One turn of that loop ends it as specified, or reads an operand and leaves the specified rest. |
| ParserObject.Parser.E3 | mesonbuild/mparser.py:831-839 | The same for the loop over `and`. |
| ParserObject.Parser.AndOperand | mesonbuild/mparser.py:833-838 | One turn of that loop likewise. |
| ParserObject.Parser.E4 | mesonbuild/mparser.py:841-862 | The same for comparisons, `not in`, and the `not` that is dropped. |
| ParserObject.Parser.Compared | mesonbuild/mparser.py:843-861 | The same for the right operand of a comparison. |
| ParserObject.Parser.E5 | mesonbuild/mparser.py:864-873 | The same for the loop over `+` and `-`. |
| ParserObject.Parser.E6 | mesonbuild/mparser.py:875-884 | The same for the loop over `%`, `*` and `/`. |
| ParserObject.Parser.E7 | mesonbuild/mparser.py:886-893 | The same for the unary operators. |
| ParserObject.Parser.E8 | mesonbuild/mparser.py:895-916 | The same for calls. |
| ParserObject.Parser.Call | mesonbuild/mparser.py:898-906 | The same for the arguments of a call, whose function must be a plain name. |
| ParserObject.Parser.Chain | mesonbuild/mparser.py:907-916 | The same for the loop over method calls and indexings. |
| ParserObject.Parser.E9 | mesonbuild/mparser.py:918-939 | The same for parentheses, arrays and dictionaries. |
| ParserObject.Parser.Parentheses | mesonbuild/mparser.py:920-925 | The same for a parenthesised expression, which hands on the ternary flag. |
| ParserObject.Parser.Array | mesonbuild/mparser.py:926-931 | The same for an array. |
| ParserObject.Parser.Dict | mesonbuild/mparser.py:932-937 | The same for a dictionary. |
| ParserObject.Parser.E10 | mesonbuild/mparser.py:941-955 | The same for plain tokens; it never fails. |
| ParserObject.Parser.KeyValues | mesonbuild/mparser.py:957-972 | The same for the loop over dictionary entries. |
| ParserObject.Parser.KeyValue | mesonbuild/mparser.py:961-971 | One turn of that loop ends it as specified, or reads a comma and leaves the specified rest. |
| ParserObject.Parser.Args | mesonbuild/mparser.py:974-995 | The same for the loop over arguments. |
| ParserObject.Parser.Argument | mesonbuild/mparser.py:978-994 | One turn of that loop, for positional and keyword arguments. |
| ParserObject.Parser.KeywordItem | mesonbuild/mparser.py:982-990 | The same for a keyword item of either loop: its value, and the comma that may follow. |
| ParserObject.Parser.MethodCall | mesonbuild/mparser.py:997-1014 | The same for a method call and those chained to it. |
| ParserObject.Parser.MethodArgs | mesonbuild/mparser.py:1006-1014 | The same behind the opening parenthesis. |
| ParserObject.Parser.IndexCall | mesonbuild/mparser.py:1016-1021 | The same for an indexing. |
| ParserObject.Parser.ForeachBlock | mesonbuild/mparser.py:1023-1039 | The same for a loop statement with one or two names. |
| ParserObject.Parser.ForeachRest | mesonbuild/mparser.py:1033-1039 | The same behind the names. |
| ParserObject.Parser.IfBlock | mesonbuild/mparser.py:1041-1084 | The same for a conditional statement. |
| ParserObject.Parser.ConditionBlock | mesonbuild/mparser.py:1041-1046 | The same for a condition, the end of its line, and a block. |
| ParserObject.Parser.EndIf | mesonbuild/mparser.py:1048-1084 | The same behind the `elif` branches. |
| ParserObject.Parser.ElseIfBlock | mesonbuild/mparser.py:1053-1059 | The same for the loop over its `elif` branches. |
| ParserObject.Parser.ElseBlock | mesonbuild/mparser.py:1061-1067 | The same for its `else` branch. |
| ParserObject.Parser.TestcaseBlock | mesonbuild/mparser.py:1069-1075 | The same for a test case. |
| ParserObject.Parser.Line | mesonbuild/mparser.py:1077-1097 | The same for one line. |
| ParserObject.Parser.Jump | mesonbuild/mparser.py:1089-1092 | The node of `continue` and `break` is made from the token behind the keyword. |
| ParserObject.Parser.CodeBlock | mesonbuild/mparser.py:1099-1125 | The same for the loop over lines. |
| ParserObject.Parser.Parse | mesonbuild/mparser.py:779-786 | The same for a whole file, which must be read to its end. |
| ParserComplete.Complete1 | mesonbuild/mparser.py:791-1021 | Round trip: an expression of the grammar, printed in front of any token that cannot extend it, is parsed back to itself and leaves exactly the rest. |
| ParserComplete.Complete2 | mesonbuild/mparser.py:821-829 | The round trip at the level of `or`. |
| ParserComplete.Complete3 | mesonbuild/mparser.py:831-839 | The round trip at the level of `and`. |
| ParserComplete.Complete4 | mesonbuild/mparser.py:841-862 | The round trip at the level of comparisons, which do not associate. |
| ParserComplete.Complete5 | mesonbuild/mparser.py:864-873 | The round trip at the level of sums. |
| ParserComplete.Complete6 | mesonbuild/mparser.py:875-884 | The round trip at the level of products. |
| ParserComplete.Complete8 | mesonbuild/mparser.py:895-916 | The round trip at the level of calls, methods and indexings. |
| ParserComplete.Complete9 | mesonbuild/mparser.py:918-955 | The round trip at the level of parentheses, arrays, dictionaries and plain tokens. |
| ParserComplete.CompleteArgs | mesonbuild/mparser.py:957-995 | The round trip of argument lists and dictionary entries, with or without a last comma. |
| ParserSound.Sound1 | mesonbuild/mparser.py:791-1021 | Whatever is accepted: no token is lost but dropped `not` tokens, no ternary lies in a branch of another, and if nothing was dropped or misplaced the tokens are those of the tree and the tree is an expression of the grammar. |
| ParserSound.SoundItems | mesonbuild/mparser.py:957-995 | The same for argument lists. |
| BlockComplete.CompleteBlock | mesonbuild/mparser.py:1023-1125 | The round trip of code blocks, statements and empty lines. |
| BlockSound.SoundCodeBlock | mesonbuild/mparser.py:1023-1125 | Soundness of code blocks and statements, as for expressions. |
| DroppedNots.Counted1 | mesonbuild/mparser.py:791-1021 | From any place, the `not` tokens that the tokens tell to be dropped are those that an accepted expression has dropped and those still ahead. |
| DroppedNots.CountedRest4 | mesonbuild/mparser.py:847-862 | The place where it happens: behind an operand and before any comparison, a `not` is dropped exactly if no `in` follows. |
| DroppedNots.Restarts | mesonbuild/mparser.py:841-1021 | Behind a complete expression the count goes on as at the start of a new one, also on the same line. |
| DroppedNots.CountedCodeBlock | mesonbuild/mparser.py:1023-1125 | The same for code blocks and statements, so for a file: the count on the tokens is exact. |
| Misplaced.FlagsOrdered | mesonbuild/mparser.py:370-374 | A tree has no raised order flag exactly when no positional argument of it was appended behind a keyword argument. |
| Misplaced.Tallied1 | mesonbuild/mparser.py:791-1021 | Unless a `not` is dropped, the argument lists with a misplaced argument, counted on the tokens, are those flagged in the tree and those still ahead. |
| Misplaced.TalliedItems | mesonbuild/mparser.py:957-995 | The same for an argument list in its brackets. |
| Misplaced.ItemStarts | mesonbuild/mparser.py:974-995 | The tokens at the start of an item tell whether the parser will take it as a keyword or as a positional argument. |
| Reprint.PrintFlagged | mesonbuild/mparser.py:370-374 | The tokens of a printed tree have no misplaced argument. |
| MisplacedBlocks.TalliedCodeBlock | mesonbuild/mparser.py:1023-1125 | The count of misplaced arguments for code blocks and statements. |
| MisplacedBlocks.PrintBlockFlagged | mesonbuild/mparser.py:1023-1125 | The tokens of a printed block have no misplaced argument. |
| ParserTheorems.ExpressionExact | mesonbuild/mparser.py:791-1021 | The parser reads a tree and loses nothing exactly when the tokens are those of the tree and the tree is an expression of the grammar. |
| ParserTheorems.ExpressionUnambiguous | mesonbuild/mparser.py:791-1021 | Tokens begin with at most one expression of the grammar. |
| ParserTheorems.ExpressionKept | mesonbuild/mparser.py:791-1021 | An accepted expression prints back to its tokens exactly when the tokens tell that nothing is dropped and nothing is misplaced in them; and its ternaries are disciplined. |
| ParserTheorems.OrderedKept | mesonbuild/mparser.py:370-374 | When nothing was dropped, an accepted expression prints back to its tokens exactly when no order flag is raised in it. |
| ParserExamples.ConditionMayNest | mesonbuild/mparser.py:806-818 | A parenthesised ternary may be the condition of another. |
| ParserExamples.DanglingNotVanishes | mesonbuild/mparser.py:847-862 | `a not` is read as `a`. |
| ParserExamples.MisplacedArgument | mesonbuild/mparser.py:370-374 | `k: v, b` is read as `b, k: v`, with the order flag raised, and prints back to other tokens. |
| ParserExamples.HeaderLineBody | mesonbuild/mparser.py:1023-1039 | In `foreach x : a == b not c` the body begins on the line of the header; its `not` is kept, and the count on the tokens says so. |
| ParserTheorems.FileExact | mesonbuild/mparser.py:779-1125 | A whole file is read as a block with nothing lost exactly when its tokens are those of the block and the block is one of the grammar. |
| ParserTheorems.FileUnambiguous | mesonbuild/mparser.py:779-1125 | A file has at most one reading. |
| ParserTheorems.FileKept | mesonbuild/mparser.py:779-1125 | An accepted file prints back to its tokens exactly when no `not` is dropped and no argument is misplaced in them, both counted on the tokens alone; the number of dropped tokens is that count; and all ternaries are disciplined. |
| FrontEnd.ParseFile | mesonbuild/mparser.py:721-786 | From text to tree: a text is accepted exactly when the tokens cover it and the parser reads them all; then no ternary lies in a branch of another, and the tree is the reading of all significant tokens exactly when no `not` is dropped and no argument misplaced in them. |
| AllDependencies.FromLink | mesonbuild/build.py:280-308 | What one link_with edge lists and enters: the rules for the Rust ABI, procedural macros and internal libraries. |
| AllDependencies.FromLinks | mesonbuild/build.py:280-308 | The loop over link_with lists what its edges list and keeps the visits complete. |
| AllDependencies.FromWhole | mesonbuild/build.py:309-314 | What one link_whole edge lists and enters. |
| AllDependencies.FromWholes | mesonbuild/build.py:309-314 | The loop over link_whole likewise. |
| AllDependencies.Recurse | mesonbuild/build.py:270-314 | The memoised traversal ends on every finite graph; the visits that it adds were reached, are complete, and list exactly what it returns. |
| AllDependencies.All | mesonbuild/build.py:270-314 | It lists exactly what the unmemoised walks list, where flags say whether all libraries entered are internal, or have the Rust ABI. |
| AllDependencies.WalkVisited | mesonbuild/build.py:276-278 | No walk leads out of a set of visits that is closed. |
| AllDependencies.GetDependencies | mesonbuild/build.py:1662-1678 | The targets needed for linking, without repeats: the direct ones and those listed for link_with. |
| LinkDeps.GetAllLinkDeps | mesonbuild/build.py:1516-1540 | The worklist ends although index targets are queued again unmarked, and returns without repeats exactly the shared libraries that can be reached, the target itself included. |
| LinkDeps.AllMarked | mesonbuild/build.py:1526-1540 | When nothing waits any more, every target that can be reached is marked, or stands for a marked one. |
| LinkDeps.Requeued | mesonbuild/build.py:1530-1532 | Replacing an index by its target, unmarked, keeps the invariant. |
| LinkDeps.Marked | mesonbuild/build.py:1533-1539 | Marking a target and queueing what it links keeps the invariant. |
| StaticBundle.InternalRecurse | mesonbuild/build.py:1764-1772 | With a shared result, the recursion adds exactly the internal libraries behind a target. |
| StaticBundle.InternalLinks | mesonbuild/build.py:1764-1769 | The loop over link_with adds exactly the internal libraries behind its edges. |
| StaticBundle.InternalWholes | mesonbuild/build.py:1770-1772 | The loop over link_whole likewise. |
| StaticBundle.PullsThrough | mesonbuild/build.py:1764-1772 | What is behind an internal library behind a target is behind that target. |
| StaticBundle.GetInternalStaticLibraries | mesonbuild/build.py:1759-1762 | The internal libraries behind a target, without repeats. |
| Construction.Builder.CheckCanLinkTogether | mesonbuild/build.py:1774-1783 | Two targets may be linked exactly when a library with the Rust ABI goes into a Rust target, and a cross build mixes machines only for procedural macros; which of the two errors is raised otherwise. |
| Construction.Builder.Bundle | mesonbuild/build.py:2646-2664 | A Rust library lists what it bundles, others take in its objects, and what is no plain static library is refused. |
| Construction.Builder.BundleInternal | mesonbuild/build.py:2630-2632 | All internal libraries behind a target are bundled, or one of them cannot be. |
| Construction.Builder.WholeOne | mesonbuild/build.py:2622-2633 | What one link_whole target adds, or why it fails. |
| Construction.Builder.LinkWhole | mesonbuild/build.py:2617-2633 | What is taken in with link_whole targets: they themselves and, for an installed static library, the internal libraries behind them; the first failure decides. |
| Construction.Builder.Link | mesonbuild/build.py:2635-2644 | An installed static library promotes internal libraries to link_whole; other targets are listed. |
| LinkComplete.Construct | mesonbuild/build.py:1164-1174 | A target is put together from link_with and then link_whole; whatever was given to it may be linked to it and is in one of its lists, and the graph stays built. |
| LinkComplete.Grown | mesonbuild/build.py:1164-1174 | A target built as the rules say may be added to a built graph. |
| LinkComplete.HoldsThrough | mesonbuild/build.py:1511-1513 | Holding the objects of a library is transitive. |
| LinkComplete.BuiltStep | mesonbuild/build.py:3104-3143 | The empty graph is built, and a custom target, which links nothing and has no objects, may be added to a built graph. |
| LinkComplete.SelfContained | mesonbuild/build.py:2602-2664 | An installed static library holds the objects of every internal static library that is reached from it through internal ones, over edges of both kinds. |
| LinkComplete.Contained | mesonbuild/build.py:2617-2664 | Such a library lies inside a bundled one, and whatever it pulls is bundled as well. |
| LinkComplete.LastInstalled | mesonbuild/build.py:2602-2664 | When internal libraries behind an installed one are no longer listed, they are internal to the last installed library before them. |
| LinkComplete.NothingLost | mesonbuild/build.py:1662-1678 | Link completeness: the objects of every static library reached through static libraries, none of them Rust, lie in the recursive objects of some target needed for linking. |
| ArgTheory.MergePlain | mesonbuild/arglist.py:112-120 | The fast path: without overridable arguments waiting, merging is concatenation. |
| ArgTheory.MergeTwice | mesonbuild/arglist.py:122-150 | Flushing twice is flushing once with longer queues. |
| ArgTheory.AddPending | mesonbuild/arglist.py:284-309 | A batch that waits counts as if it had been merged at once. |
| ArgMeaning.FlushKeepsSettled | mesonbuild/arglist.py:112-150 | Flushing keeps order and number of the arguments that cannot be overridden. |
| ArgMeaning.FlushKeepsOrder | mesonbuild/arglist.py:112-150 | Flushing keeps the first occurrences of prepended overridable arguments, and the last ones of appended ones, in order. |
| ArgMeaning.CountMerge | mesonbuild/arglist.py:122-150 | How often an argument occurs in a flushed list. |
| ArgMeaning.CountFronts | mesonbuild/arglist.py:292-307 | A batch adds a unique argument to the front as often as it has it, unless it is there. |
| ArgMeaning.CountBacks | mesonbuild/arglist.py:292-307 | A batch adds a unique argument to the end at most once. |
| ArgMeaning.AddedOnce | mesonbuild/arglist.py:284-309 | From empty, overridable arguments and unique ones at the end occur at most once; unique ones at the front as often as in their first batch. |
| ArgMeaning.DoubledExactly | mesonbuild/arglist.py:284-309 | Of the arguments that can be deduplicated, exactly the unique ones that go to the front can occur twice. |
| ArgMeaning.FrontDoubled | mesonbuild/arglist.py:297-304 | One batch can add such an argument to the front twice. |
| ArgList.NoUniqueInFront | mesonbuild/arglist.py:198-231 | If every prefix that sends an argument to the front makes it overridable, no unique argument goes to the front. |
| ArgList.OnceForC | mesonbuild/compilers/mixins/clike.py:60-61 | So with the prefixes for C every added argument that can be deduplicated occurs at most once. |
| ArgList.TwiceForD | mesonbuild/compilers/d.py:372-374 | With the prefixes for D a static library behind `-L` that one batch has twice occurs twice. |
| ArgList.CompilerArgs.constructor | mesonbuild/arglist.py:93-106 | A new list stands for its arguments. |
| ArgList.CompilerArgs.FlushPrePost | mesonbuild/arglist.py:112-150 | Flushing by either path leaves what the list stands for in its container, and the queues empty. |
| ArgList.CompilerArgs.FlushPre | mesonbuild/arglist.py:128-133 | Waiting arguments at the front keep their first overridable occurrences. |
| ArgList.CompilerArgs.FlushPost | mesonbuild/arglist.py:134-139 | Waiting arguments at the end keep their last ones. |
| ArgList.CompilerArgs.IAdd | mesonbuild/arglist.py:284-309 | Adding a batch leaves the container alone and changes what the list stands for as the eager list does. |
| ArgList.CompilerArgs.Enqueue | mesonbuild/arglist.py:288-306 | The loop over a batch, and that the flag for the fast path stays true to what waits. |
| ArgList.CompilerArgs.Append | mesonbuild/arglist.py:326-327 | Appending is adding a batch of one. |
| ArgList.CompilerArgs.AppendDirect | mesonbuild/arglist.py:245-255 | Appends without reordering, but for absolute paths. |
| ArgList.CompilerArgs.Insert | mesonbuild/arglist.py:188-190 | Inserts into what the list stands for, at a position that may be negative or outside of the list. |
| ArgList.CompilerArgs.GetItem | mesonbuild/arglist.py:165-167 | Reads from what the list stands for, at a position that may be negative, or fails outside of the list. |
| ArgList.FlushTimingInvisible | mesonbuild/arglist.py:112-309 | For every history of batches, flushes and edits the queues stand for the list that merges every batch at once. |
| Depfile.Parse | mesonbuild/depfile.py:11-52 | The nested loop computes the state machine over lines. |
| Depfile.LinesText | mesonbuild/depfile.py:17-29 | Lines cut after their newlines are parsed like the text they were cut from. |
| DepfileRoundTrip.ReadName | mesonbuild/depfile.py:22-51 | An escaped name is read back. |
| DepfileRoundTrip.ReadGap | mesonbuild/depfile.py:22-45 | Spaces end a word, continuations do not. |
| DepfileRoundTrip.ReadEntry | mesonbuild/depfile.py:16-51 | A written rule is read back. |
| DepfileRoundTrip.RoundTrip | mesonbuild/depfile.py:11-52 | Rules with targets and non-empty, newline-free names, written with escapes and any continuations, are read back. |
| DepfileRoundTrip.FileRoundTrip | mesonbuild/depfile.py:11-52 | The same for the lines of the written text, split after their newlines. |
| DepfileRoundTrip.SplitJoins | mesonbuild/depfile.py:17-19 | Splitting a text that ends with a newline gives lines that join to it. |
| DepfileClosure.DepFile.constructor | mesonbuild/depfile.py:60-68 | A target's dependencies are the union over all rules that name it. |
| DepfileClosure.AddRule | mesonbuild/depfile.py:63-67 | One rule adds its dependencies to each of its targets, and changes no other target. |
| DepfileClosure.DepFile.Collect | mesonbuild/depfile.py:70-84 | With a shared set of visited names the recursion ends, and returns the dependencies of the names that it adds. |
| DepfileClosure.DepFile.GetAllDependencies | mesonbuild/depfile.py:70-84 | Exactly the names reached in one or more steps, sorted, on cyclic graphs too. |
| DepfileClosure.Sorted | mesonbuild/depfile.py:84-84 | A set as a sorted list without repeats. |
| Coredata.BuildDir.Save | mesonbuild/coredata.py:467-481 | What saving leaves in the three files, wherever it is cut short. |
| Coredata.BuildDir.Generate | mesonbuild/msetup.py:271-348 | What a setup run leaves, with its error handler. |
| Coredata.AlwaysSound | mesonbuild/msetup.py:271-348 | Over every history of setup, reconfigure, configure and wipe, `coredata.dat` is never torn, holds the old or the new value after each run, and the previous version never exists alone. |
| Coredata.FailureRestores | mesonbuild/msetup.py:340-348 | A handled failure restores `coredata.dat`, or its absence, exactly when the previous version does not exist alone. |
| Coredata.FailureRestoresAll | mesonbuild/msetup.py:340-348 | All three files are as before exactly when there was no previous version and no temporary file. |
| Coredata.PreviousLost | mesonbuild/msetup.py:340-348 | After two successful runs a handled failure loses the previous version. |
| Coredata.HandledFailure | mesonbuild/msetup.py:340-348 | In every history a handled failure leaves the value of before the run, and no other file. |
| Coredata.RunLands | mesonbuild/msetup.py:271-348 | Which runs change `coredata.dat`, and to what. |
| Coredata.ValueIsLastWritten | mesonbuild/coredata.py:467-481 | `coredata.dat` holds a value exactly when the last run that put one in place, with no wipe since, put that one in place. |
| DirLog.DirMaker.constructor | mesonbuild/minstall.py:92-96 | A new log is empty. |
| DirLog.DirMaker.MakeDirs | mesonbuild/minstall.py:98-124 | When a directory is created, when the call fails, and that the log stays the one of the successful calls in dry and in real runs. |
| DirLog.DirMaker.Walk | mesonbuild/minstall.py:99-115 | The walk upwards collects the missing directories, child first, or finds an ancestor that is no directory. |
| DirLog.DirMaker.Exit | mesonbuild/minstall.py:129-132 | The log is written with the last directory first. |
| DirLog.LogExact | mesonbuild/minstall.py:91-132 | The log of any calls has no repeats, lists parents first, and consists of exactly the directories that were wanted and not there. |
| DirLog.Install | mesonbuild/minstall.py:340-342 | An installation stops at the first call that is not allowed and writes the log in any case; dry and real runs write the same log of the calls that they made. |
| DirLog.DryRunAgrees | mesonbuild/minstall.py:340-342 | If existing directories are allowed, the same calls are allowed in a dry run and in a real one. |
| DirLog.Uninstall | mesonbuild/scripts/uninstall.py:11-29 | Removal in logged order, with the number of failures. |
| DirLog.UninstallRestores | mesonbuild/scripts/uninstall.py:11-29 | Every directory of a log is empty when its turn comes, and the initial tree is left. |
| DirLog.InstallUndone | mesonbuild/minstall.py:91-132 | The log of any calls undoes them without failure. |
| LineSplit.ComputeLineLengths.SplitIfNeeded | mesonbuild/mformat.py:948-959 | Splits the outermost node on one line around a node that asks, unless it was split in this pass. |
| LineSplit.ComputeLineLengths.Visit | mesonbuild/mformat.py:961-1017 | A pass adds exactly the specified nodes to those split. |
| LineSplit.SplitsExact | mesonbuild/mformat.py:948-1017 | A pass splits a node exactly when it is on one line, everything around it is not, and it or a node inside it asks. |
| LineSplit.SplitsAntichain | mesonbuild/mformat.py:948-1017 | The nodes split in one pass never lie inside each other. |
| LineSplit.Measure | mesonbuild/mformat.py:1134-1141 | One pass never unsplits a node, splits exactly the nodes that the rule names, and asks for another pass exactly when some node asks. |
| LineSplit.Pass | mesonbuild/mformat.py:1134-1141 | Formatting and measuring never unsplit a node. |
| LineSplit.PassProgress | mesonbuild/mformat.py:1134-1141 | A pass that asks for another one leaves fewer nodes on one line. |
| LineSplit.Format | mesonbuild/mformat.py:1134-1141 | The loop stops behind the first pass that does not ask for another one, or at the bound; a bound larger than the number of nodes on one line is never what stops it, and then nothing asks any more. |
| OutputMatch.CompareOutput | run_project_tests.py:495-561 | The loop computes the specified verdict and the entry that it blames. |
| OutputMatch.Sort | run_project_tests.py:497-526 | Entries with count zero are unwanted, the others are wanted, in order. |
| OutputMatch.FindBan | run_project_tests.py:529-532 | The first unwanted entry that matches a line. |
| OutputMatch.Matched | run_project_tests.py:539-555 | What is left to find when the current entry matches, and what becomes unwanted. |
| OutputMatch.JudgeAccepts | run_project_tests.py:527-561 | The verdict is a pass exactly when the lines are accepted. |
| OutputMatch.WithoutCounts | run_project_tests.py:495-561 | Without positive counts, output passes exactly when no line matches an unwanted entry and the others embed in order into increasing lines. |
| OutputMatch.GreedyComplete | run_project_tests.py:527-561 | Taking the first line that matches loses no embedding. |
| OutputMatch.CountedEntry | run_project_tests.py:529-559 | An entry with a positive count succeeds exactly when so many lines match it from the moment it becomes current to the end. |
| OutputMatch.FoundEntry | run_project_tests.py:539-559 | An entry without a count succeeds exactly when some line matches it, and the rest succeeds behind the first one. |

## Left out

- ParserObject.Parser.GetSym: whitespace and comments are skipped; which node the original hangs them on is not modelled. Line ends are entries of a block.
- ParserObject.Parser.Expect: errors carry the wanted and the found kind, not the text and the place of the message.
- Lexer.Lex: warnings about future keywords and about newlines in strings, and the decoding of escape sequences and numbers.
- AllDependencies.GetDependencies: the order of the list is not stated, only its members and that none is repeated.
- AllDependencies.All: order and repetition of what is listed are not stated.
- LinkDeps.GetAllLinkDeps: the order of the list is not stated.
- StaticBundle.GetInternalStaticLibraries: the order of the list is not stated.
- LinkComplete.Construct: which targets end up in the lists is stated, not their order and repetition; results cached by `lru_cache` and the choice between the halves of a `both_libraries` object.
- Construction.Builder.Link: the check for position-independent code in shared libraries, which only rejects more targets.
- Construction.Builder.LinkWhole: order and repetition in the lists; shared internal libraries may be bundled twice.
- LinkComplete.NothingLost: walks through Rust libraries, which rustc bundles by its own rules; custom targets cannot be bundled and have no objects of their own here.
- LinkComplete.SelfContained: that extracting a target's objects includes those nested in it is taken from the meaning of recursive extraction.
- ArgList.CompilerArgs.GetItem: slices; assignment and deletion of items flush and then change the container, as an edit in a history does.
- ArgList.OnceForC: the suffixes and whole arguments in the tables for C may be any.
- Depfile.Parse: reading lines from a file.
- DepfileClosure.DepFile.constructor: the normal form of paths is a parameter.
- Coredata.FailureRestores: speaks of `coredata.dat` alone, because the previous version is not restored.
- Coredata.BuildDir.Generate: everything that a run does beside these three files; writing the information file in the error handler is taken to succeed, and a wipe is one step.
- DirLog.DirMaker.MakeDirs: files installed between the calls, symbolic links, the normalisation of paths, and failures of the operating system half way through a chain of directories.
- DirLog.Uninstall: entries of the log that are files.
- LineSplit.Format: how far lines reach, and which nodes other visitors put on several lines before a pass, are arbitrary; the bound of ten passes is a parameter.
- OutputMatch.CompareOutput: the conversion of path separators, and the regular expressions themselves.
- Interpreter, option store, compilers, backends, introspection, environment and program lookup: input and output, or flat case distinctions.
