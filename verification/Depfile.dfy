/**
 The parser of dependency files, and the text that it reads back.
 */
module Depfile {

  datatype Rule = Rule(targets: seq<string>, deps: seq<string>)

  datatype Escape = NoEscape | Backslash | Dollar

  /** Everything that the parser remembers between two characters. */
  datatype State = State(rules: seq<Rule>, targets: seq<string>, deps: seq<string>, inDeps: bool, out: string, escape:
  Escape)

  const Start := State([], [], [], false, "", NoEscape)

  // ----- the machine

  /** A blank ends the word that is being read, if there is one. */
  function EndWord(st: State): State {
    if st.out == "" then st
    else if st.inDeps then st.(deps := st.deps + [st.out], out := "")
    else st.(targets := st.targets + [st.out], out := "")
  }

  function Step(st: State, c: char): State {
    if st.escape == Dollar then st.(out := (if c == '$' then st.out else st.out + "$") + [c], escape := NoEscape)
    else if st.escape == Backslash then if c == '\n' then st else st.(out := st.out + [c], escape := NoEscape)
    else if c == '\\' then st.(escape := Backslash)
    else if c == '$' then st.(escape := Dollar)
    else if c == ' ' then EndWord(st)
    else if c == '\n' then
      var st' := EndWord(st);
      State(st'.rules + [Rule(st'.targets, st'.deps)], [], [], false, "", NoEscape)
    else if c == ':' then st.(targets := st.targets + [st.out], out := "", inDeps := true)
    else st.(out := st.out + [c])
  }

  function Run(st: State, s: string): State {
    if s == "" then st else Step(Run(st, s[..|s| - 1]), s[|s| - 1])
  }

  function Ended(line: string): string {
    if line != "" && line[|line| - 1] == '\n' then line else line + "\n"
  }

  /** Every line starts without a pending escape. */
  function Lines(st: State, lines: seq<string>): State {
    if lines == [] then st
    else Run(Lines(st, lines[..|lines| - 1]).(escape := NoEscape), Ended(lines[|lines| - 1]))
  }

  // ----- the parser

  method Parse(lines: seq<string>) returns (rules: seq<Rule>)
    ensures rules == Lines(Start, lines).rules
  {
    rules := [];
    var targets: seq<string>, deps: seq<string>, inDeps, out := [], [], false, "";
    var escape := NoEscape;
    for i := 0 to |lines|
      invariant State(rules, targets, deps, inDeps, out, escape) == Lines(Start, lines[..i])
    {
      assert lines[..i + 1][..i] == lines[..i];
      var line := Ended(lines[i]);
      ghost var before := Lines(Start, lines[..i]).(escape := NoEscape);
      escape := NoEscape;
      for j := 0 to |line|
        invariant State(rules, targets, deps, inDeps, out, escape) == Run(before, line[..j])
      {
        assert line[..j + 1][..j] == line[..j];
        var c := line[j];
        assert Run(before, line[..j + 1]) == Step(Run(before, line[..j]), c);
        if escape != NoEscape {
          if escape == Dollar && c != '$' {
            out := out + "$";
          }
          if escape == Backslash && c == '\n' {
            continue;
          }
          out := out + [c];
          escape := NoEscape;
          continue;
        }
        if c == '\\' || c == '$' {
          escape := if c == '\\' then Backslash else Dollar;
        } else if c == ' ' || c == '\n' {
          if out != "" {
            if inDeps {
              deps := deps + [out];
            } else {
              targets := targets + [out];
            }
          }
          out := "";
          if c == '\n' {
            rules := rules + [Rule(targets, deps)];
            targets, deps, inDeps := [], [], false;
          }
        } else if c == ':' {
          targets := targets + [out];
          out := "";
          inDeps := true;
        } else {
          out := out + [c];
        }
      }
      assert line[..|line|] == line;
    }
    assert lines[..|lines|] == lines;
  }

  // ----- a text as a whole

  predicate IsLine(line: string) {
    line != "" && line[|line| - 1] == '\n' && forall i :: 0 <= i < |line| - 1 ==> line[i] != '\n'
  }

  function Joined(lines: seq<string>): string {
    if lines == [] then "" else Joined(lines[..|lines| - 1]) + lines[|lines| - 1]
  }

  /** On a whole text, the end of a line drops a pending escape. */
  function TextStep(st: State, c: char): State {
    if c == '\n' then Step(st, c).(escape := NoEscape) else Step(st, c)
  }

  function Text(st: State, s: string): State {
    if s == "" then st else TextStep(Text(st, s[..|s| - 1]), s[|s| - 1])
  }

  lemma {:induction false} TextConcat(st: State, s: string, t: string)
    ensures Text(st, s + t) == Text(Text(st, s), t)
  {
    if t == "" {
      assert s + t == s;
    } else {
      TextConcat(st, s, t[..|t| - 1]);
      assert (s + t)[..|s + t| - 1] == s + t[..|t| - 1];
    }
  }

  lemma {:induction false} RunText(st: State, s: string)
    requires forall i :: 0 <= i < |s| ==> s[i] != '\n'
    ensures Run(st, s) == Text(st, s)
  {
    if s != "" {
      RunText(st, s[..|s| - 1]);
    }
  }

  /** Lines that are cut after their newlines are parsed like the text they were cut from. */
  lemma {:induction false} LinesText(lines: seq<string>)
    requires forall i :: 0 <= i < |lines| ==> IsLine(lines[i])
    ensures Lines(Start, lines).(escape := NoEscape) == Text(Start, Joined(lines)).(escape := NoEscape)
    ensures lines != [] ==> Text(Start, Joined(lines)).escape == NoEscape
  {
    if lines != [] {
      var init, last := lines[..|lines| - 1], lines[|lines| - 1];
      LinesText(init);
      var st := Lines(Start, init).(escape := NoEscape);
      assert Text(Start, Joined(init)) == st;
      TextConcat(Start, Joined(init), last);
      RunText(st, last[..|last| - 1]);
    }
  }
}
