/**
 Dependency files that are written with escapes and continuation lines are read back.
 */
module DepfileRoundTrip {
  import opened Depfile

  // ----- writing

  function EscapeChar(c: char): string {
    if c == ' ' || c == ':' || c == '\\' then ['\\', c] else if c == '$' then "$$" else [c]
  }

  function EscapeName(name: string): string {
    if name == "" then "" else EscapeName(name[..|name| - 1]) + EscapeChar(name[|name| - 1])
  }

  datatype Blank = Space | Continuation

  function BlankText(b: Blank): string { if b == Space then " " else "\\\n" }

  function GapText(gap: seq<Blank>): string {
    if gap == [] then "" else GapText(gap[..|gap| - 1]) + BlankText(gap[|gap| - 1])
  }

  /** A name and the blanks before it. */
  datatype Item = Item(gap: seq<Blank>, name: string)

  function ItemsText(items: seq<Item>): string {
    if items == [] then ""
    else ItemsText(items[..|items| - 1]) + GapText(items[|items| - 1].gap) + EscapeName(items[|items| - 1].name)
  }

  /** A rule and how it is laid out. */
  datatype Entry = Entry(targets: seq<Item>, beforeColon: seq<Blank>, deps: seq<Item>, tail: seq<Blank>)

  function EntryText(e: Entry): string {
    ItemsText(e.targets) + GapText(e.beforeColon) + ":" + ItemsText(e.deps) + GapText(e.tail) + "\n"
  }

  function FileText(entries: seq<Entry>): string {
    if entries == [] then "" else FileText(entries[..|entries| - 1]) + EntryText(entries[|entries| - 1])
  }

  /** Names are not empty and have no newline; two names are a space apart at least, wherever
      lines are continued. */
  predicate GoodItems(items: seq<Item>) {
    && (forall i :: 0 <= i < |items| ==> GoodName(items[i].name))
    && (forall i :: 0 < i < |items| ==> Space in items[i].gap)
  }

  predicate GoodName(name: string) { name != "" && forall i :: 0 <= i < |name| ==> name[i] != '\n' }

  predicate GoodEntry(e: Entry) {
    e.targets != [] && GoodItems(e.targets) && Space !in e.beforeColon && GoodItems(e.deps)
  }

  function Names(items: seq<Item>): seq<string> {
    if items == [] then [] else Names(items[..|items| - 1]) + [items[|items| - 1].name]
  }

  function RuleOf(e: Entry): Rule { Rule(Names(e.targets), Names(e.deps)) }

  function RulesOf(entries: seq<Entry>): seq<Rule> {
    if entries == [] then [] else RulesOf(entries[..|entries| - 1]) + [RuleOf(entries[|entries| - 1])]
  }

  // ----- reading the pieces

  /** Two pieces of text, one after the other. */
  lemma Then(st: State, s: string, mid: State, t: string, end: State)
    requires Text(st, s) == mid && Text(mid, t) == end
    ensures Text(st, s + t) == end
  {
    TextConcat(st, s, t);
  }

  lemma OneChar(st: State, c: char)
    ensures Text(st, [c]) == TextStep(st, c)
  {
    assert [c][..0] == "";
  }

  lemma TwoChars(st: State, c: char, d: char)
    ensures Text(st, [c, d]) == TextStep(TextStep(st, c), d)
  {
    assert [c, d] == [c] + [d];
    TextConcat(st, [c], [d]);
    OneChar(st, c);
    OneChar(TextStep(st, c), d);
  }

  lemma ReadChar(st: State, c: char)
    requires st.escape == NoEscape && c != '\n'
    ensures Text(st, EscapeChar(c)) == st.(out := st.out + [c])
  {
    if |EscapeChar(c)| == 2 {
      TwoChars(st, EscapeChar(c)[0], EscapeChar(c)[1]);
    } else {
      OneChar(st, c);
    }
  }

  lemma {:induction false} ReadName(st: State, name: string)
    requires st.escape == NoEscape && forall i :: 0 <= i < |name| ==> name[i] != '\n'
    ensures Text(st, EscapeName(name)) == st.(out := st.out + name)
  {
    if name != "" {
      var init, last := name[..|name| - 1], name[|name| - 1];
      var mid := st.(out := st.out + init);
      ReadName(st, init);
      ReadChar(mid, last);
      assert st.out + init + [last] == st.out + name;
      Then(st, EscapeName(init), mid, EscapeChar(last), st.(out := st.out + name));
    }
  }

  lemma {:induction false} ReadGap(st: State, gap: seq<Blank>)
    requires st.escape == NoEscape
    ensures Text(st, GapText(gap)) == if Space in gap then EndWord(st) else st
  {
    if gap != [] {
      var init, last := gap[..|gap| - 1], gap[|gap| - 1];
      var mid := if Space in init then EndWord(st) else st;
      ReadGap(st, init);
      ReadBlank(mid, last);
      Then(st, GapText(init), mid, BlankText(last), if last == Space then EndWord(mid) else mid);
      assert gap == init + [last];
    }
  }

  lemma ReadBlank(st: State, b: Blank)
    requires st.escape == NoEscape
    ensures Text(st, BlankText(b)) == if b == Space then EndWord(st) else st
  {
    if b == Space {
      OneChar(st, ' ');
    } else {
      TwoChars(st, '\\', '\n');
    }
  }

  /** The state after some words: all but the last are in their list, the last one is pending. */
  function Words(st: State, names: seq<string>): State {
    if names == [] then st
    else
      var words := names[..|names| - 1];
      if st.inDeps then st.(deps := st.deps + words, out := names[|names| - 1])
      else st.(targets := st.targets + words, out := names[|names| - 1])
  }

  lemma {:induction false} ReadItems(st: State, items: seq<Item>)
    requires st.escape == NoEscape && st.out == "" && GoodItems(items)
    ensures Text(st, ItemsText(items)) == Words(st, Names(items))
  {
    if items != [] {
      var init, last := items[..|items| - 1], items[|items| - 1];
      ReadItems(st, init);
      TextConcat(st, ItemsText(init) + GapText(last.gap), EscapeName(last.name));
      TextConcat(st, ItemsText(init), GapText(last.gap));
      var st' := Words(st, Names(init));
      ReadGap(st', last.gap);
      NextWord(st, init, last.name);
      ReadName(EndWord(st'), last.name);
      assert init == [] ==> EndWord(st') == st';
    }
  }

  /** Ending the pending word and reading the next one. */
  lemma NextWord(st: State, init: seq<Item>, name: string)
    requires st.escape == NoEscape && st.out == "" && GoodItems(init)
    ensures var st' := EndWord(Words(st, Names(init)));
            st'.out == "" && st'.escape == NoEscape && st'.(out := name) == Words(st, Names(init) + [name])
  {
    hide GoodItems, EndWord, Words;
    var names := Names(init);
    var more := names + [name];
    assert more[..|names|] == names && more[|names|] == name;
    NamesGood(init);
    WordEnds(st, names);
    WordsLast(st, more);
  }

  lemma NamesGood(items: seq<Item>)
    requires GoodItems(items)
    ensures forall i :: 0 <= i < |Names(items)| ==> Names(items)[i] != ""
  {
  }

  /** Ending the last word puts all words into their list. */
  lemma WordEnds(st: State, names: seq<string>)
    requires st.escape == NoEscape && st.out == "" && forall i :: 0 <= i < |names| ==> names[i] != ""
    ensures EndWord(Words(st, names))
         == if st.inDeps then st.(deps := st.deps + names) else st.(targets := st.targets + names)
  {
    if names == [] {
      assert st.deps + names == st.deps && st.targets + names == st.targets;
    } else {
      var words, last := names[..|names| - 1], names[|names| - 1];
      assert (st.deps + words) + [last] == st.deps + names;
      assert (st.targets + words) + [last] == st.targets + names;
    }
  }

  lemma WordsLast(st: State, names: seq<string>)
    requires names != []
    ensures var words, last := names[..|names| - 1], names[|names| - 1];
            Words(st, names) == if st.inDeps then st.(deps := st.deps + words, out := last)
                                else st.(targets := st.targets + words, out := last)
  {
  }

  lemma ReadEntry(st: State, e: Entry)
    requires st == State(st.rules, [], [], false, "", NoEscape) && GoodEntry(e)
    ensures Text(st, EntryText(e)) == State(st.rules + [RuleOf(e)], [], [], false, "", NoEscape)
  {
    var started := st.(targets := Names(e.targets), inDeps := true);
    var end := State(st.rules + [RuleOf(e)], [], [], false, "", NoEscape);
    ReadTargets(st, e);
    ReadDeps(started, e);
    Chain(st, ItemsText(e.targets) + GapText(e.beforeColon) + ":", started, ItemsText(e.deps), GapText(e.tail), "\n",
          end);
  }

  lemma Chain(st: State, a: string, mid: State, b: string, c: string, d: string, end: State)
    requires Text(st, a) == mid && Text(mid, b + c + d) == end
    ensures Text(st, a + b + c + d) == end
  {
    Then(st, a, mid, b + c + d, end);
    assert a + (b + c + d) == a + b + c + d;
  }

  /** The part of an entry up to its colon. */
  lemma ReadTargets(st: State, e: Entry)
    requires st == State(st.rules, [], [], false, "", NoEscape) && GoodEntry(e)
    ensures Text(st, ItemsText(e.targets) + GapText(e.beforeColon) + ":")
         == st.(targets := Names(e.targets), inDeps := true)
  {
    var read := Words(st, Names(e.targets));
    ReadItems(st, e.targets);
    ReadGap(read, e.beforeColon);
    Then(st, ItemsText(e.targets), read, GapText(e.beforeColon), read);
    Colon(st, Names(e.targets));
    Then(st, ItemsText(e.targets) + GapText(e.beforeColon), read, ":",
         st.(targets := Names(e.targets), inDeps := true));
  }

  lemma Colon(st: State, targets: seq<string>)
    requires st == State(st.rules, [], [], false, "", NoEscape) && targets != []
    ensures Text(Words(st, targets), ":") == st.(targets := targets, inDeps := true)
  {
    OneChar(Words(st, targets), ':');
    assert targets[..|targets| - 1] + [targets[|targets| - 1]] == targets;
  }

  /** The part of an entry behind its colon. */
  lemma ReadDeps(st: State, e: Entry)
    requires st == State(st.rules, st.targets, [], true, "", NoEscape) && GoodItems(e.deps)
    ensures Text(st, ItemsText(e.deps) + GapText(e.tail) + "\n")
         == State(st.rules + [Rule(st.targets, Names(e.deps))], [], [], false, "", NoEscape)
  {
    var read := Words(st, Names(e.deps));
    var ended := if Space in e.tail then EndWord(read) else read;
    var end := State(st.rules + [Rule(st.targets, Names(e.deps))], [], [], false, "", NoEscape);
    ReadItems(st, e.deps);
    ReadGap(read, e.tail);
    Then(st, ItemsText(e.deps), read, GapText(e.tail), ended);
    EndOfLine(st, e.deps, ended);
    Then(st, ItemsText(e.deps) + GapText(e.tail), ended, "\n", end);
  }

  lemma EndOfLine(st: State, deps: seq<Item>, ended: State)
    requires st == State(st.rules, st.targets, [], true, "", NoEscape) && GoodItems(deps)
    requires ended == Words(st, Names(deps)) || ended == EndWord(Words(st, Names(deps)))
    ensures Text(ended, "\n") == State(st.rules + [Rule(st.targets, Names(deps))], [], [], false, "", NoEscape)
  {
    EndOfDeps(st, deps);
    OneChar(ended, '\n');
  }

  lemma EndOfDeps(st: State, deps: seq<Item>)
    requires st.inDeps && st.deps == [] && st.out == "" && st.escape == NoEscape && GoodItems(deps)
    ensures EndWord(Words(st, Names(deps))) == st.(deps := Names(deps))
    ensures EndWord(EndWord(Words(st, Names(deps)))) == EndWord(Words(st, Names(deps)))
  {
    var names := Names(deps);
    if names != [] {
      assert names[..|names| - 1] + [names[|names| - 1]] == names;
      assert names[|names| - 1] == deps[|deps| - 1].name;
    }
  }

  lemma {:induction false} ReadFile(entries: seq<Entry>)
    requires forall i :: 0 <= i < |entries| ==> GoodEntry(entries[i])
    ensures Text(Start, FileText(entries)) == State(RulesOf(entries), [], [], false, "", NoEscape)
  {
    if entries != [] {
      var init, last := entries[..|entries| - 1], entries[|entries| - 1];
      ReadFile(init);
      TextConcat(Start, FileText(init), EntryText(last));
      ReadEntry(Text(Start, FileText(init)), last);
    }
  }

  /** The lines of a text, each up to its newline. */
  function SplitLines(text: string): seq<string>
    decreases |text|, |text| + 1
  {
    if text == "" then [] else SplitFrom(text, 0)
  }

  function SplitFrom(text: string, i: nat): (lines: seq<string>)
    requires i < |text| && forall k :: 0 <= k < i ==> text[k] != '\n'
    decreases |text|, |text| - i
  {
    if text[i] == '\n' then [text[..i + 1]] + SplitLines(text[i + 1..])
    else if i + 1 == |text| then [text]
    else SplitFrom(text, i + 1)
  }

  lemma {:induction false} SplitJoins(text: string)
    requires text != "" ==> text[|text| - 1] == '\n'
    ensures forall i :: 0 <= i < |SplitLines(text)| ==> IsLine(SplitLines(text)[i])
    ensures Joined(SplitLines(text)) == text
    decreases |text|, |text| + 1
  {
    if text != "" {
      SplitFromJoins(text, 0);
    }
  }

  lemma {:induction false} SplitFromJoins(text: string, i: nat)
    requires i < |text| && text[|text| - 1] == '\n' && forall k :: 0 <= k < i ==> text[k] != '\n'
    ensures forall k :: 0 <= k < |SplitFrom(text, i)| ==> IsLine(SplitFrom(text, i)[k])
    ensures Joined(SplitFrom(text, i)) == text
    decreases |text|, |text| - i
  {
    if text[i] == '\n' {
      var line, rest := text[..i + 1], text[i + 1..];
      SplitJoins(rest);
      JoinedPrepend(line, SplitLines(rest));
      assert line + rest == text;
    } else {
      SplitFromJoins(text, i + 1);
    }
  }

  lemma {:induction false} JoinedPrepend(line: string, lines: seq<string>)
    ensures Joined([line] + lines) == line + Joined(lines)
    decreases |lines|
  {
    if lines == [] {
      assert [line] + lines == [line] && [line][..0] == [];
    } else {
      var init, last := lines[..|lines| - 1], lines[|lines| - 1];
      JoinedPrepend(line, init);
      assert ([line] + lines)[..|lines|] == [line] + init;
      assert line + (Joined(init) + last) == (line + Joined(init)) + last;
    }
  }

  lemma {:induction false} FileEnds(entries: seq<Entry>)
    ensures FileText(entries) != "" ==> FileText(entries)[|FileText(entries)| - 1] == '\n'
  {
  }

  /** Splitting the written text into lines and parsing them gives back the rules. */
  lemma FileRoundTrip(entries: seq<Entry>)
    requires forall i :: 0 <= i < |entries| ==> GoodEntry(entries[i])
    ensures Lines(Start, SplitLines(FileText(entries))).rules == RulesOf(entries)
  {
    FileEnds(entries);
    SplitJoins(FileText(entries));
    RoundTrip(entries, SplitLines(FileText(entries)));
  }

  /** Parsing gives back the rules that were written, however their lines are continued. */
  lemma RoundTrip(entries: seq<Entry>, lines: seq<string>)
    requires forall i :: 0 <= i < |entries| ==> GoodEntry(entries[i])
    requires (forall i :: 0 <= i < |lines| ==> IsLine(lines[i])) && Joined(lines) == FileText(entries)
    ensures Lines(Start, lines).rules == RulesOf(entries)
  {
    LinesText(lines);
    ReadFile(entries);
  }
}
