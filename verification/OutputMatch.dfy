/**
 The greedy matcher of expected output lines.
 */
module OutputMatch {
  import opened Sequences
  import opened Wrappers

  /** An expected line. A negative count means that it must be found, zero that it must not occur, and a positive one
      that it must occur so often. */
  datatype Entry = Entry(expected: Pattern, count: int)

  /** An expected line, and how it is compared. */
  datatype Pattern = Pattern(how: string, text: string)

  /** Whether an expected line matches an actual one: equality, or a regular expression. */
  type Matcher = (Pattern, string) -> bool

  datatype Verdict = Pass | UnexpectedFound(expected: Pattern) | NotFound(expected: Pattern)

  predicate Banned(hit: Matcher, bans: set<Pattern>, line: string) {
    exists b :: b in bans && hit(b, line)
  }

  // ----- the machine, line by line

  /** The lines are accepted when `entries` are still expected, in order, and `bans` must not occur. */
  predicate Accepts(hit: Matcher, entries: seq<Entry>, bans: set<Pattern>, lines: seq<string>)
    decreases |lines|
  {
    if lines == [] then entries == []
    else if Banned(hit, bans, lines[0]) then false
    else if entries == [] then Accepts(hit, [], bans, lines[1..])
    else if !hit(entries[0].expected, lines[0]) then Accepts(hit, entries, bans, lines[1..])
    else if entries[0].count < 0 then Accepts(hit, entries[1..], bans, lines[1..])
    else if entries[0].count == 1 then Accepts(hit, entries[1..], bans + {entries[0].expected}, lines[1..])
    else Accepts(hit, [entries[0].(count := entries[0].count - 1)] + entries[1..], bans, lines[1..])
  }

  /** The first of `bans` that matches. */
  function FirstBan(hit: Matcher, bans: seq<Pattern>, line: string): Option<Pattern> {
    if bans == [] then None
    else
      var before := FirstBan(hit, bans[..|bans| - 1], line);
      if before.Some? then before else if hit(bans[|bans| - 1], line) then Some(bans[|bans| - 1]) else None
  }

  /** The verdict, with the entry that it blames. */
  function Judge(hit: Matcher, entries: seq<Entry>, bans: seq<Pattern>, lines: seq<string>): Verdict
    decreases |lines|
  {
    if lines == [] then if entries == [] then Pass else NotFound(entries[0].expected)
    else
      var ban := FirstBan(hit, bans, lines[0]);
      if ban.Some? then UnexpectedFound(ban.value)
      else if entries == [] then Judge(hit, [], bans, lines[1..])
      else if !hit(entries[0].expected, lines[0]) then Judge(hit, entries, bans, lines[1..])
      else Judge(hit, Remaining(entries), BansAfter(entries, bans), lines[1..])
  }

  /** What is expected, and what must not occur, once the first entry has matched. */
  function Remaining(entries: seq<Entry>): seq<Entry>
    requires entries != []
  {
    var e := entries[0];
    if e.count < 0 || e.count == 1 then entries[1..] else [e.(count := e.count - 1)] + entries[1..]
  }

  function BansAfter(entries: seq<Entry>, bans: seq<Pattern>): seq<Pattern>
    requires entries != []
  {
    if entries[0].count == 1 then bans + [entries[0].expected] else bans
  }

  lemma {:induction false} FirstBanBanned(hit: Matcher, bans: seq<Pattern>, line: string)
    ensures FirstBan(hit, bans, line).Some? <==> Banned(hit, Elements(bans), line)
  {
    if bans != [] {
      var init, last := bans[..|bans| - 1], bans[|bans| - 1];
      FirstBanBanned(hit, init, line);
      assert bans == init + [last];
      assert Elements(bans) == Elements(init) + {last};
      BanOne(hit, Elements(init), last, line);
    }
  }

  /** The verdict is a pass exactly when the lines are accepted. */
  lemma {:induction false} JudgeAccepts(hit: Matcher, entries: seq<Entry>, bans: seq<Pattern>, lines: seq<string>)
    ensures Judge(hit, entries, bans, lines).Pass? <==> Accepts(hit, entries, Elements(bans), lines)
    decreases |lines|
  {
    if lines != [] {
      FirstBanBanned(hit, bans, lines[0]);
      var rest := lines[1..];
      if entries == [] {
        JudgeAccepts(hit, [], bans, rest);
      } else if !hit(entries[0].expected, lines[0]) {
        JudgeAccepts(hit, entries, bans, rest);
      } else if entries[0].count < 0 {
        JudgeAccepts(hit, entries[1..], bans, rest);
      } else if entries[0].count == 1 {
        JudgeAccepts(hit, entries[1..], bans + [entries[0].expected], rest);
        assert Elements(bans + [entries[0].expected]) == Elements(bans) + {entries[0].expected};
      } else {
        JudgeAccepts(hit, [entries[0].(count := entries[0].count - 1)] + entries[1..], bans, rest);
      }
    }
  }

  function Wanted(expected: seq<Entry>): seq<Entry> {
    if expected == [] then []
    else Wanted(expected[..|expected| - 1])
           + if expected[|expected| - 1].count != 0 then [expected[|expected| - 1]] else []
  }

  function Unwanted(expected: seq<Entry>): seq<Pattern> {
    if expected == [] then []
    else Unwanted(expected[..|expected| - 1])
           + if expected[|expected| - 1].count == 0 then [expected[|expected| - 1].expected] else []
  }

  lemma {:induction false} NothingToCheck(hit: Matcher, lines: seq<string>)
    ensures Judge(hit, [], [], lines) == Pass
    decreases |lines|
  {
    if lines != [] {
      NothingToCheck(hit, lines[1..]);
    }
  }

  /** Finds the first unwanted entry that matches. */
  method FindBan(hit: Matcher, nomatches: seq<Pattern>, line: string) returns (ban: Option<Pattern>)
    ensures ban == FirstBan(hit, nomatches, line)
  {
    for k := 0 to |nomatches|
      invariant FirstBan(hit, nomatches[..k], line) == None
    {
      assert nomatches[..k + 1][..k] == nomatches[..k];
      if hit(nomatches[k], line) {
        FirstBanStays(hit, nomatches, k + 1, line);
        return Some(nomatches[k]);
      }
    }
    assert nomatches[..|nomatches|] == nomatches;
    return None;
  }

  lemma {:induction false} FirstBanStays(hit: Matcher, bans: seq<Pattern>, k: nat, line: string)
    requires k <= |bans| && FirstBan(hit, bans[..k], line).Some?
    ensures FirstBan(hit, bans, line) == FirstBan(hit, bans[..k], line)
  {
    if k < |bans| {
      assert bans[..|bans| - 1][..k] == bans[..k];
      FirstBanStays(hit, bans[..|bans| - 1], k, line);
    } else {
      assert bans[..k] == bans;
    }
  }

  method Sort(expected: seq<Entry>) returns (matches: seq<Entry>, nomatches: seq<Pattern>)
    ensures matches == Wanted(expected) && nomatches == Unwanted(expected)
    ensures forall e :: e in matches ==> e.count != 0
  {
    matches, nomatches := [], [];
    for k := 0 to |expected|
      invariant matches == Wanted(expected[..k]) && nomatches == Unwanted(expected[..k])
      invariant forall e :: e in matches ==> e.count != 0
    {
      assert expected[..k + 1][..k] == expected[..k];
      if expected[k].count == 0 {
        nomatches := nomatches + [expected[k].expected];
      } else {
        matches := matches + [expected[k]];
      }
    }
    assert expected[..|expected|] == expected;
  }

  /** The current entry has matched a line. */
  method Matched(matches: seq<Entry>, nomatches: seq<Pattern>, i: nat)
    returns (matches': seq<Entry>, nomatches': seq<Pattern>, i': nat)
    requires i < |matches| && forall k :: i <= k < |matches| ==> matches[k].count != 0
    ensures i' <= |matches'| && matches'[i'..] == Remaining(matches[i..])
    ensures nomatches' == BansAfter(matches[i..], nomatches)
    ensures forall k :: i' <= k < |matches'| ==> matches'[k].count != 0
  {
    matches', nomatches', i' := matches, nomatches, i;
    if matches[i].count < 0 {
      i' := i + 1;
    } else {
      var left := matches[i].(count := matches[i].count - 1);
      matches' := matches[i := left];
      if left.count == 0 {
        nomatches' := nomatches + [left.expected];
        i' := i + 1;
      }
    }
  }

  method CompareOutput(hit: Matcher, expected: seq<Entry>, lines: seq<string>) returns (v: Verdict)
    ensures v == if expected == [] then Pass else Judge(hit, Wanted(expected), Unwanted(expected), lines)
  {
    if expected == [] {
      return Pass;
    }
    var matches, nomatches := Sort(expected);
    ghost var answer := Judge(hit, matches, nomatches, lines);
    var i: nat := 0;
    for n := 0 to |lines|
      invariant 0 <= i <= |matches| && forall k :: i <= k < |matches| ==> matches[k].count != 0
      invariant answer == Judge(hit, matches[i..], nomatches, lines[n..])
    {
      assert lines[n..][1..] == lines[n + 1..];
      var actual := lines[n];
      var ban := FindBan(hit, nomatches, actual);
      if ban.Some? {
        return UnexpectedFound(ban.value);
      }
      if i >= |matches| {
        if nomatches == [] {
          NothingToCheck(hit, lines[n..]);
          return Pass;
        }
        continue;
      }
      if hit(matches[i].expected, actual) {
        matches, nomatches, i := Matched(matches, nomatches, i);
      }
    }
    v := if i < |matches| then NotFound(matches[i].expected) else Pass;
  }

  // ----- what is accepted, entry by entry

  predicate Clean(hit: Matcher, bans: set<Pattern>, lines: seq<string>) {
    forall k :: 0 <= k < |lines| ==> !Banned(hit, bans, lines[k])
  }

  function Count(hit: Matcher, expected: Pattern, lines: seq<string>): nat {
    if lines == [] then 0 else (if hit(expected, lines[0]) then 1 else 0) + Count(hit, expected, lines[1..])
  }

  /** The lines behind the `n`th one that matches, if there are so many. */
  function Behind(hit: Matcher, expected: Pattern, n: nat, lines: seq<string>): seq<string>
    decreases |lines|
  {
    if n == 0 || lines == [] then lines
    else Behind(hit, expected, if hit(expected, lines[0]) then n - 1 else n, lines[1..])
  }

  lemma {:induction false} CleanEmpty(hit: Matcher, bans: set<Pattern>, lines: seq<string>)
    ensures Accepts(hit, [], bans, lines) <==> Clean(hit, bans, lines)
    decreases |lines|
  {
    if lines != [] {
      CleanEmpty(hit, bans, lines[1..]);
      CleanHead(hit, bans, lines);
    }
  }

  lemma CleanHead(hit: Matcher, bans: set<Pattern>, lines: seq<string>)
    requires lines != []
    ensures Clean(hit, bans, lines) <==> !Banned(hit, bans, lines[0]) && Clean(hit, bans, lines[1..])
  {
    if !Banned(hit, bans, lines[0]) && Clean(hit, bans, lines[1..]) {
      forall k | 0 <= k < |lines|
        ensures !Banned(hit, bans, lines[k])
      {
        if k > 0 {
          assert lines[1..][k - 1] == lines[k];
        }
      }
    }
  }

  lemma BanOne(hit: Matcher, bans: set<Pattern>, b: Pattern, line: string)
    ensures Banned(hit, bans + {b}, line) <==> Banned(hit, bans, line) || hit(b, line)
  {
    if Banned(hit, bans, line) {
      var x :| x in bans && hit(x, line);
      assert x in bans + {b};
    } else if hit(b, line) {
      assert b in bans + {b};
    }
  }

  /** A further ban only adds that no line may match it. */
  lemma {:induction false} BanSplit(hit: Matcher, entries: seq<Entry>, bans: set<Pattern>, b: Pattern,
                                    lines: seq<string>)
    ensures Accepts(hit, entries, bans + {b}, lines)
       <==> Accepts(hit, entries, bans, lines) && Count(hit, b, lines) == 0
    decreases |lines|
  {
    if lines != [] {
      BanOne(hit, bans, b, lines[0]);
      var rest := lines[1..];
      if entries == [] {
        BanSplit(hit, [], bans, b, rest);
      } else if !hit(entries[0].expected, lines[0]) {
        BanSplit(hit, entries, bans, b, rest);
      } else if entries[0].count < 0 {
        BanSplit(hit, entries[1..], bans, b, rest);
      } else if entries[0].count == 1 {
        BanSplit(hit, entries[1..], bans + {entries[0].expected}, b, rest);
        assert bans + {entries[0].expected} + {b} == bans + {b} + {entries[0].expected};
      } else {
        BanSplit(hit, [entries[0].(count := entries[0].count - 1)] + entries[1..], bans, b, rest);
      }
    }
  }

  /** Everything accepted is free of banned lines. */
  lemma {:induction false} AcceptedClean(hit: Matcher, entries: seq<Entry>, bans: set<Pattern>, lines: seq<string>)
    requires Accepts(hit, entries, bans, lines)
    ensures Clean(hit, bans, lines)
    decreases |lines|
  {
    if lines != [] {
      var rest := lines[1..];
      CleanHead(hit, bans, lines);
      if entries == [] {
        AcceptedClean(hit, [], bans, rest);
      } else if !hit(entries[0].expected, lines[0]) {
        AcceptedClean(hit, entries, bans, rest);
      } else if entries[0].count < 0 {
        AcceptedClean(hit, entries[1..], bans, rest);
      } else if entries[0].count == 1 {
        BanSplit(hit, entries[1..], bans, entries[0].expected, rest);
        AcceptedClean(hit, entries[1..], bans, rest);
      } else {
        AcceptedClean(hit, [entries[0].(count := entries[0].count - 1)] + entries[1..], bans, rest);
      }
    }
  }

  /** A current entry with a positive count succeeds exactly when so many lines match it from here to the end, and
      what follows it succeeds behind the last of them. */
  lemma {:induction false} CountedEntry(hit: Matcher, e: Entry, rest: seq<Entry>, bans: set<Pattern>,
                                        lines: seq<string>)
    requires e.count > 0
    ensures Accepts(hit, [e] + rest, bans, lines) <==>
              && Count(hit, e.expected, lines) == e.count && Clean(hit, bans, lines)
              && Accepts(hit, rest, bans, Behind(hit, e.expected, e.count, lines))
    decreases |lines|
  {
    if lines != [] {
      var entries, more := [e] + rest, lines[1..];
      assert entries[1..] == rest && entries[0] == e;
      CleanHead(hit, bans, lines);
      if !hit(e.expected, lines[0]) {
        CountedEntry(hit, e, rest, bans, more);
      } else if e.count == 1 {
        BanSplit(hit, rest, bans, e.expected, more);
        if Accepts(hit, rest, bans, more) {
          AcceptedClean(hit, rest, bans, more);
        }
      } else {
        CountedEntry(hit, e.(count := e.count - 1), rest, bans, more);
      }
    }
  }

  /** A current entry without a count succeeds exactly when some line matches it, and what follows it succeeds
      behind the first one. */
  lemma {:induction false} FoundEntry(hit: Matcher, e: Entry, rest: seq<Entry>, bans: set<Pattern>, lines: seq<string>)
    requires e.count < 0
    ensures Accepts(hit, [e] + rest, bans, lines) <==>
              && Count(hit, e.expected, lines) > 0 && Clean(hit, bans, lines)
              && Accepts(hit, rest, bans, Behind(hit, e.expected, 1, lines))
    decreases |lines|
  {
    if lines != [] {
      var entries, more := [e] + rest, lines[1..];
      assert entries[1..] == rest && entries[0] == e;
      CleanHead(hit, bans, lines);
      if !hit(e.expected, lines[0]) {
        FoundEntry(hit, e, rest, bans, more);
      } else if Accepts(hit, rest, bans, more) {
        AcceptedClean(hit, rest, bans, more);
      }
    }
  }

  // ----- without positive counts: embedding in order

  /** The entries match, in order, lines at the increasing positions `at`. */
  predicate Embeds(hit: Matcher, entries: seq<Entry>, lines: seq<string>, at: seq<nat>) {
    && |at| == |entries|
    && (forall k :: 0 <= k < |at| ==> at[k] < |lines| && hit(entries[k].expected, lines[at[k]]))
    && (forall j, k :: 0 <= j < k < |at| ==> at[j] < at[k])
  }

  ghost predicate Embeddable(hit: Matcher, entries: seq<Entry>, lines: seq<string>) {
    exists at :: Embeds(hit, entries, lines, at)
  }

  function Later(at: seq<nat>): (r: seq<nat>)
    ensures |r| == |at| && forall k :: 0 <= k < |at| ==> r[k] == at[k] + 1
  {
    seq(|at|, i requires 0 <= i < |at| => at[i] + 1)
  }

  function Sooner(at: seq<nat>): (r: seq<nat>)
    requires forall k :: 0 <= k < |at| ==> at[k] > 0
    ensures |r| == |at| && forall k :: 0 <= k < |at| ==> r[k] == at[k] - 1
  {
    seq(|at|, i requires 0 <= i < |at| => at[i] - 1)
  }

  /** One line more in front. */
  lemma EmbedsLater(hit: Matcher, entries: seq<Entry>, lines: seq<string>)
    requires lines != [] && Embeddable(hit, entries, lines[1..])
    ensures Embeddable(hit, entries, lines)
  {
    var at :| Embeds(hit, entries, lines[1..], at);
    assert forall k :: 0 <= k < |at| ==> lines[1..][at[k]] == lines[at[k] + 1];
    assert Embeds(hit, entries, lines, Later(at));
  }

  /** The first line is used for the first entry. */
  lemma EmbedsNow(hit: Matcher, entries: seq<Entry>, lines: seq<string>)
    requires lines != [] && entries != [] && hit(entries[0].expected, lines[0])
    requires Embeddable(hit, entries[1..], lines[1..])
    ensures Embeddable(hit, entries, lines)
  {
    var at :| Embeds(hit, entries[1..], lines[1..], at);
    var later := Later(at);
    var now := [0] + later;
    assert now[0] == 0 && forall k :: 0 < k < |now| ==> now[k] == at[k - 1] + 1;
    forall k | 0 <= k < |now|
      ensures now[k] < |lines| && hit(entries[k].expected, lines[now[k]])
    {
      if k > 0 {
        assert hit(entries[1..][k - 1].expected, lines[1..][at[k - 1]]);
      }
    }
    forall j, k | 0 <= j < k < |now|
      ensures now[j] < now[k]
    {
      if j > 0 {
        assert at[j - 1] < at[k - 1];
      }
    }
    assert Embeds(hit, entries, lines, now);
  }

  /** Taking the first line for the first entry whenever it matches loses nothing. */
  lemma EmbedsGreedy(hit: Matcher, entries: seq<Entry>, lines: seq<string>)
    requires lines != [] && entries != [] && Embeddable(hit, entries, lines)
    ensures if hit(entries[0].expected, lines[0]) then Embeddable(hit, entries[1..], lines[1..])
            else Embeddable(hit, entries, lines[1..])
  {
    var at :| Embeds(hit, entries, lines, at);
    if hit(entries[0].expected, lines[0]) {
      var rest := at[1..];
      assert forall k :: 0 <= k < |rest| ==> rest[k] == at[k + 1] && at[k + 1] > at[0];
      SoonerEmbeds(hit, entries[1..], lines, rest);
    } else {
      assert forall k :: 0 < k < |at| ==> at[k] > at[0];
      SoonerEmbeds(hit, entries, lines, at);
    }
  }

  lemma SoonerEmbeds(hit: Matcher, entries: seq<Entry>, lines: seq<string>, at: seq<nat>)
    requires lines != [] && Embeds(hit, entries, lines, at) && forall k :: 0 <= k < |at| ==> at[k] > 0
    ensures Embeddable(hit, entries, lines[1..])
  {
    assert forall k :: 0 <= k < |at| ==> lines[1..][at[k] - 1] == lines[at[k]];
    assert Embeds(hit, entries, lines[1..], Sooner(at));
  }

  /** Without positive counts, the lines are accepted exactly when none of them is banned and
      the entries can be embedded in order. */
  lemma {:induction false} GreedyComplete(hit: Matcher, entries: seq<Entry>, bans: set<Pattern>, lines: seq<string>)
    requires forall k :: 0 <= k < |entries| ==> entries[k].count < 0
    ensures Accepts(hit, entries, bans, lines) <==> Clean(hit, bans, lines) && Embeddable(hit, entries, lines)
    decreases |lines|
  {
    if entries == [] {
      CleanEmpty(hit, bans, lines);
      assert Embeds(hit, entries, lines, []);
    } else if lines == [] {
      forall at
        ensures !Embeds(hit, entries, lines, at)
      {
        assert |at| > 0 ==> at[0] >= |lines|;
      }
    } else {
      var rest := lines[1..];
      CleanHead(hit, bans, lines);
      if Embeddable(hit, entries, lines) {
        EmbedsGreedy(hit, entries, lines);
      }
      if hit(entries[0].expected, lines[0]) {
        GreedyComplete(hit, entries[1..], bans, rest);
        if Embeddable(hit, entries[1..], rest) {
          EmbedsNow(hit, entries, lines);
        }
      } else {
        GreedyComplete(hit, entries, bans, rest);
        if Embeddable(hit, entries, rest) {
          EmbedsLater(hit, entries, lines);
        }
      }
    }
  }

  lemma {:induction false} WantedCounts(expected: seq<Entry>)
    requires forall k :: 0 <= k < |expected| ==> expected[k].count <= 0
    ensures forall k :: 0 <= k < |Wanted(expected)| ==> Wanted(expected)[k].count < 0
  {
    if expected != [] {
      WantedCounts(expected[..|expected| - 1]);
    }
  }

  /** Without positive counts, output passes exactly when no line matches an unwanted entry and the others can be
      embedded
      in order. */
  lemma WithoutCounts(hit: Matcher, expected: seq<Entry>, lines: seq<string>)
    requires forall k :: 0 <= k < |expected| ==> expected[k].count <= 0
    ensures Judge(hit, Wanted(expected), Unwanted(expected), lines).Pass?
       <==> Clean(hit, Elements(Unwanted(expected)), lines) && Embeddable(hit, Wanted(expected), lines)
  {
    JudgeAccepts(hit, Wanted(expected), Unwanted(expected), lines);
    WantedCounts(expected);
    GreedyComplete(hit, Wanted(expected), Elements(Unwanted(expected)), lines);
  }
}
