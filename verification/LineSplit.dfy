/**
 The formatter's splitting of long lines: in one measuring pass only the outermost nodes are
 split, and passes are repeated until no line asks for more.
 */
module LineSplit {
  import opened Sequences
  import opened Wrappers

  /** The argument lists and parentheses of a file that can be split, with those inside them and those behind
      them on the same level. `checked` nodes are measured at their closing bracket; empty argument lists are not. */
  datatype Forest = Nothing(at: nat) | Tree(id: nat, checked: bool, inner: Forest, next: Forest)

  function Ids(f: Forest): set<nat> {
    if f.Nothing? then {} else {f.id} + Ids(f.inner) + Ids(f.next)
  }

  /** Every node occurs once, and none of them is in `above`. */
  predicate Distinct(f: Forest, above: set<nat>)
    decreases f
  {
    f.Tree? ==>
      && f.id !in above && f.id !in Ids(f.inner) && f.id !in Ids(f.next) && Ids(f.inner) !! Ids(f.next)
      && Distinct(f.inner, above + {f.id}) && Distinct(f.next, above)
  }

  lemma {:induction false} DistinctApart(f: Forest, above: set<nat>)
    requires Distinct(f, above)
    ensures Ids(f) !! above
    decreases f
  {
    if f.Tree? {
      DistinctApart(f.inner, above + {f.id});
      DistinctApart(f.next, above);
    }
  }

  // ----- the nodes that one pass splits

  /** A checked node that is on one line and reaches too far. `multi` are the nodes that were split before the pass;
      `long` says whether the line reaches too far at the closing bracket of a node. */
  predicate Asks(multi: set<nat>, long: nat -> bool, f: Forest)
    requires f.Tree?
  {
    f.checked && f.id !in multi && long(f.id)
  }

  /** The outermost node on one line, after one more node on the way in. */
  function Outer(outer: Option<nat>, id: nat, multi: set<nat>): Option<nat> {
    if outer.Some? then outer else if id !in multi then Some(id) else None
  }

  /** For every node that asks, the outermost node around it that is on one line is split. */
  function Splits(f: Forest, outer: Option<nat>, multi: set<nat>, long: nat -> bool): set<nat>
    decreases f, 1
  {
    if f.Nothing? then {} else NodeSplits(f, outer, multi, long) + Splits(f.next, outer, multi, long)
  }

  function NodeSplits(f: Forest, outer: Option<nat>, multi: set<nat>, long: nat -> bool): set<nat>
    requires f.Tree?
    decreases f, 0
  {
    var own := Outer(outer, f.id, multi);
    Splits(f.inner, own, multi, long) + if Asks(multi, long, f) && own.Some? then {own.value} else {}
  }

  /** Some node of the forest asks. */
  predicate Asking(f: Forest, multi: set<nat>, long: nat -> bool) {
    f.Tree? && (Asks(multi, long, f) || Asking(f.inner, multi, long) || Asking(f.next, multi, long))
  }

  /** Inside a node on one line, only that node is split. */
  lemma {:induction false} SplitsInside(f: Forest, o: nat, multi: set<nat>, long: nat -> bool)
    ensures Splits(f, Some(o), multi, long) == if Asking(f, multi, long) then {o} else {}
    decreases f
  {
    if f.Tree? {
      SplitsInside(f.inner, o, multi, long);
      SplitsInside(f.next, o, multi, long);
    }
  }

  lemma {:induction false} SplitsOutside(f: Forest, multi: set<nat>, long: nat -> bool)
    ensures forall d :: d in Splits(f, None, multi, long) ==> d in Ids(f) && d !in multi
    ensures Splits(f, None, multi, long) != {} <==> Asking(f, multi, long)
    decreases f
  {
    if f.Tree? {
      SplitsOutside(f.next, multi, long);
      if f.id in multi {
        SplitsOutside(f.inner, multi, long);
      } else {
        SplitsInside(f.inner, f.id, multi, long);
      }
    }
  }

  // ----- what is split, said without the pass

  /** `a` is around `d`. */
  predicate Around(f: Forest, a: nat, d: nat) {
    f.Tree? && ((a == f.id && d in Ids(f.inner)) || Around(f.inner, a, d) || Around(f.next, a, d))
  }

  /** `d`, or a node inside it, asks. */
  predicate AsksWithin(f: Forest, d: nat, multi: set<nat>, long: nat -> bool) {
    f.Tree? &&
    if d == f.id then Asks(multi, long, f) || Asking(f.inner, multi, long)
    else AsksWithin(f.inner, d, multi, long) || AsksWithin(f.next, d, multi, long)
  }

  lemma {:induction false} AroundKnown(f: Forest, a: nat, d: nat)
    requires Around(f, a, d)
    ensures a in Ids(f) && d in Ids(f)
    decreases f
  {
    if a == f.id && d in Ids(f.inner) {
    } else if Around(f.inner, a, d) {
      AroundKnown(f.inner, a, d);
    } else {
      AroundKnown(f.next, a, d);
    }
  }

  lemma {:induction false} WithinKnown(f: Forest, d: nat, multi: set<nat>, long: nat -> bool)
    requires AsksWithin(f, d, multi, long)
    ensures d in Ids(f)
    decreases f
  {
    if d != f.id {
      if AsksWithin(f.inner, d, multi, long) {
        WithinKnown(f.inner, d, multi, long);
      } else {
        WithinKnown(f.next, d, multi, long);
      }
    }
  }

  /** `d` is on one line, and everything around it is not. */
  ghost predicate Outermost(f: Forest, d: nat, multi: set<nat>) {
    d !in multi && forall a :: Around(f, a, d) ==> a in multi
  }

  /** A pass splits exactly the outermost nodes on one line that ask, or have a node inside that asks. */
  lemma {:induction false} SplitsExact(f: Forest, above: set<nat>, multi: set<nat>, long: nat -> bool, d: nat)
    requires Distinct(f, above)
    ensures d in Splits(f, None, multi, long) <==> Outermost(f, d, multi) && AsksWithin(f, d, multi, long)
    decreases f
  {
    if f.Tree? {
      SplitsExact(f.next, above, multi, long, d);
      SplitsOutside(f.next, multi, long);
      if f.id in multi {
        SplitsExact(f.inner, above + {f.id}, multi, long, d);
        SplitsOutside(f.inner, multi, long);
      } else {
        SplitsInside(f.inner, f.id, multi, long);
      }
      AroundParts(f, d, above);
      if AsksWithin(f.inner, d, multi, long) {
        WithinKnown(f.inner, d, multi, long);
      }
      if AsksWithin(f.next, d, multi, long) {
        WithinKnown(f.next, d, multi, long);
      }
    }
  }

  /** What is around a node, by where the node is. */
  lemma AroundParts(f: Forest, d: nat, above: set<nat>)
    requires f.Tree? && Distinct(f, above)
    ensures forall a :: Around(f, a, d) <==>
              if d in Ids(f.inner) then a == f.id || Around(f.inner, a, d)
              else if d in Ids(f.next) then Around(f.next, a, d) else false
  {
    forall a: nat
      ensures Around(f.inner, a, d) ==> d in Ids(f.inner)
      ensures Around(f.next, a, d) ==> d in Ids(f.next)
    {
      if Around(f.inner, a, d) {
        AroundKnown(f.inner, a, d);
      }
      if Around(f.next, a, d) {
        AroundKnown(f.next, a, d);
      }
    }
  }

  /** The nodes split in one pass never lie inside each other. */
  lemma SplitsAntichain(f: Forest, multi: set<nat>, long: nat -> bool, a: nat, d: nat)
    requires Distinct(f, {}) && a in Splits(f, None, multi, long) && d in Splits(f, None, multi, long)
    ensures !Around(f, a, d)
  {
    SplitsExact(f, {}, multi, long, a);
    SplitsExact(f, {}, multi, long, d);
  }

  // ----- the pass

  /** The outermost node on one line among those being visited. */
  function FirstSingle(stack: seq<nat>, multi: set<nat>): Option<nat> {
    if stack == [] then None else Outer(FirstSingle(stack[..|stack| - 1], multi), stack[|stack| - 1], multi)
  }

  lemma {:induction false} FirstSingleAt(stack: seq<nat>, multi: set<nat>, i: nat)
    requires i <= |stack| && (forall k :: 0 <= k < i ==> stack[k] in multi) && (i < |stack| ==> stack[i] !in multi)
    ensures FirstSingle(stack, multi) == if i < |stack| then Some(stack[i]) else None
  {
    if stack != [] {
      var init := stack[..|stack| - 1];
      FirstSingleAt(init, multi, if i < |init| then i else |init|);
    }
  }

  lemma {:induction false} FirstSingleIn(stack: seq<nat>, multi: set<nat>)
    ensures var o := FirstSingle(stack, multi); o.Some? ==> o.value in stack && o.value !in multi
    ensures FirstSingle(stack, multi).None? ==> forall k :: 0 <= k < |stack| ==> stack[k] in multi
  {
    if stack != [] {
      FirstSingleIn(stack[..|stack| - 1], multi);
    }
  }

  class ComputeLineLengths {
    /** The nodes that are split over several lines. */
    var multiline: set<nat>
    var splitStack: seq<nat>
    var splitNow: set<nat>
    var needRegenerate: bool

    /** `multi` are the nodes that were split before the pass. */
    ghost predicate Valid(multi: set<nat>)
      reads this
    {
      multiline == multi + splitNow && multi !! splitNow && (needRegenerate <==> splitNow != {})
    }

    constructor (multi: set<nat>)
      ensures Valid(multi) && splitStack == [] && splitNow == {}
    {
      multiline, splitStack, splitNow, needRegenerate := multi, [], {}, false;
    }

    method SplitIfNeeded(node: nat, long: nat -> bool, ghost multi: set<nat>)
      requires Valid(multi)
      requires node in splitNow ==> FirstSingle(splitStack, multi).None?
      modifies this`multiline, this`splitNow, this`needRegenerate
      ensures Valid(multi)
      ensures splitNow == old(splitNow)
              + if node !in multi && long(node) then {Outer(FirstSingle(splitStack, multi), node, multi).value} else {}
    {
      if node !in multiline && long(node) {
        var i := 0;
        while i < |splitStack|
          invariant 0 <= i <= |splitStack| && forall k :: 0 <= k < i ==> splitStack[k] in multi
          invariant splitNow == old(splitNow) && multiline == old(multiline) && needRegenerate == old(needRegenerate)
        {
          var outer := splitStack[i];
          if outer in splitNow {
            FirstSingleAt(splitStack, multi, i);
            return;
          }
          if outer !in multiline {
            FirstSingleAt(splitStack, multi, i);
            Split(outer);
            return;
          }
          i := i + 1;
        }
        FirstSingleAt(splitStack, multi, i);
        Split(node);
      }
    }

    method Split(node: nat)
      modifies this`multiline, this`splitNow, this`needRegenerate
      ensures multiline == old(multiline) + {node} && splitNow == old(splitNow) + {node} && needRegenerate
    {
      multiline, splitNow, needRegenerate := multiline + {node}, splitNow + {node}, true;
    }

    /** Visits the nodes from left to right. */
    method Visit(f: Forest, long: nat -> bool, ghost multi: set<nat>)
      requires Valid(multi) && Distinct(f, Elements(splitStack)) && Ids(f) !! splitNow
      modifies this
      ensures Valid(multi) && splitStack == old(splitStack)
      ensures splitNow == old(splitNow) + Splits(f, FirstSingle(splitStack, multi), multi, long)
      decreases f, 1
    {
      if f.Tree? {
        VisitNode(f, long, multi);
        Visit(f.next, long, multi);
      }
    }

    /** Visits what is inside a node, and then measures at its closing bracket. */
    method VisitNode(f: Forest, long: nat -> bool, ghost multi: set<nat>)
      requires f.Tree? && Valid(multi) && Distinct(f, Elements(splitStack)) && Ids(f) !! splitNow
      modifies this
      ensures Valid(multi) && splitStack == old(splitStack) && Ids(f.next) !! splitNow
      ensures splitNow == old(splitNow) + NodeSplits(f, FirstSingle(splitStack, multi), multi, long)
      decreases f, 0
    {
      InnerSplits(f, splitStack, multi, long);
      VisitInner(f, long, multi);
      if f.checked {
        SplitIfNeeded(f.id, long, multi);
      }
    }

    method VisitInner(f: Forest, long: nat -> bool, ghost multi: set<nat>)
      requires f.Tree? && Valid(multi) && Distinct(f, Elements(splitStack)) && Ids(f) !! splitNow
      modifies this
      ensures Valid(multi) && splitStack == old(splitStack)
      ensures splitNow
           == old(splitNow) + Splits(f.inner, Outer(FirstSingle(splitStack, multi), f.id, multi), multi, long)
      decreases f.inner, 2
    {
      ghost var before := splitStack;
      splitStack := splitStack + [f.id];
      assert splitStack[..|before|] == before;
      assert Elements(splitStack) == Elements(before) + {f.id};
      Visit(f.inner, long, multi);
      splitStack := splitStack[..|splitStack| - 1];
    }
  }

  /** What visiting the inside of a node can split. */
  lemma InnerSplits(f: Forest, stack: seq<nat>, multi: set<nat>, long: nat -> bool)
    requires f.Tree? && Distinct(f, Elements(stack))
    ensures var outer := FirstSingle(stack, multi);
            var inner := Splits(f.inner, Outer(outer, f.id, multi), multi, long);
            && (f.id in inner ==> outer.None?)
            && inner !! Ids(f.next)
            && (outer.Some? ==> outer.value !in Ids(f.next))
  {
    DistinctApart(f.next, Elements(stack));
    var own := Outer(FirstSingle(stack, multi), f.id, multi);
    FirstSingleIn(stack, multi);
    if own.Some? {
      SplitsInside(f.inner, own.value, multi, long);
    } else {
      SplitsOutside(f.inner, multi, long);
    }
  }

  // ----- repeated passes

  /** One measuring pass over the file. */
  method Measure(f: Forest, multi: set<nat>, long: nat -> bool) returns (after: set<nat>, again: bool)
    requires Distinct(f, {})
    ensures after == multi + Splits(f, None, multi, long) && (again <==> Asking(f, multi, long))
  {
    var cll := new ComputeLineLengths(multi);
    assert Elements(cll.splitStack) == {};
    cll.Visit(f, long, multi);
    SplitsOutside(f, multi, long);
    after, again := cll.multiline, cll.needRegenerate;
  }

  /** The nodes on one line. */
  function Singles(f: Forest, multi: set<nat>): set<nat> { Ids(f) - multi }

  /** A pass that asks for another one leaves fewer nodes on one line. */
  lemma PassProgress(f: Forest, multi: set<nat>, long: nat -> bool)
    requires Asking(f, multi, long)
    ensures |Singles(f, multi + Splits(f, None, multi, long))| < |Singles(f, multi)|
  {
    var now := Splits(f, None, multi, long);
    SplitsOutside(f, multi, long);
    var d :| d in now;
    Smaller(Singles(f, multi + now), Singles(f, multi), d);
  }

  lemma {:induction false} Smaller(a: set<nat>, b: set<nat>, d: nat)
    requires a <= b && d in b && d !in a
    ensures |a| < |b|
  {
    var rest := b - a;
    assert b == a + rest && a !! rest;
    assert |b| == |a| + |rest| && d in rest;
  }

  /** The nodes on several lines after `n` passes. Before a pass, formatting may put further nodes on several lines;
      `grow` and `long` say what happens before and in each pass. */
  function Rounds(f: Forest, multi: set<nat>, grow: nat -> set<nat>, long: nat -> (nat -> bool), n: nat): set<nat> {
    if n == 0 then multi
    else
      var start := Rounds(f, multi, grow, long, n - 1) + grow(n - 1);
      start + Splits(f, None, start, long(n - 1))
  }

  /** Pass `n`, counted from 0, asks for another one. */
  ghost predicate Again(f: Forest, multi: set<nat>, grow: nat -> set<nat>, long: nat -> (nat -> bool), n: nat) {
    Asking(f, Rounds(f, multi, grow, long, n) + grow(n), long(n))
  }

  lemma RoundsStart(f: Forest, multi: set<nat>, grow: nat -> set<nat>, long: nat -> (nat -> bool))
    ensures Rounds(f, multi, grow, long, 0) == multi
  {
  }

  lemma RoundsNext(f: Forest, multi: set<nat>, grow: nat -> set<nat>, long: nat -> (nat -> bool), n: nat)
    ensures var start := Rounds(f, multi, grow, long, n) + grow(n);
            && Rounds(f, multi, grow, long, n + 1) == start + Splits(f, None, start, long(n))
            && (Again(f, multi, grow, long, n) <==> Asking(f, start, long(n)))
  {
    hide Splits, Asking;
  }

  /** The regeneration loop with any bound on its passes. It stops behind the first pass that does not ask for another
      one, which comes in time if the bound is larger than the number of nodes on one line; then nothing asks any
      more. */
  method Format(f: Forest, multi: set<nat>, grow: nat -> set<nat>, long: nat -> (nat -> bool), bound: nat)
    returns (after: set<nat>, passes: nat, settled: bool)
    requires Distinct(f, {})
    ensures after == Rounds(f, multi, grow, long, passes) && multi <= after
    ensures passes <= bound && (!settled ==> passes == bound)
    ensures forall i :: 0 <= i < passes ==> (Again(f, multi, grow, long, i) <==> i < passes - 1 || !settled)
    ensures settled ==> passes > 0 && !Asking(f, after, long(passes - 1))
    ensures bound > |Singles(f, multi)| ==> settled
  {
    hide Splits, Asking, Distinct, Singles, Rounds, Again;
    after, passes, settled := multi, 0, false;
    RoundsStart(f, multi, grow, long);
    while passes < bound && !settled
      invariant after == Rounds(f, multi, grow, long, passes) && multi <= after && passes <= bound
      invariant forall i :: 0 <= i < passes ==> (Again(f, multi, grow, long, i) <==> i < passes - 1 || !settled)
      invariant settled ==> passes > 0 && !Asking(f, after, long(passes - 1))
      invariant !settled ==> passes + |Singles(f, after)| <= |Singles(f, multi)|
      decreases bound - passes, !settled
    {
      var again;
      RoundsNext(f, multi, grow, long, passes);
      after, again := Pass(f, after, grow(passes), long(passes));
      passes, settled := passes + 1, !again;
    }
  }

  /** Formatting, and one measuring pass. */
  method Pass(f: Forest, multi: set<nat>, grown: set<nat>, long: nat -> bool) returns (after: set<nat>, again: bool)
    requires Distinct(f, {})
    ensures after == multi + grown + Splits(f, None, multi + grown, long)
    ensures again <==> Asking(f, multi + grown, long)
    ensures multi <= after && |Singles(f, after)| <= |Singles(f, multi)|
    ensures if again then |Singles(f, after)| < |Singles(f, multi)| else !Asking(f, after, long)
  {
    var start := multi + grown;
    after, again := Measure(f, start, long);
    Fewer(Singles(f, start), Singles(f, multi));
    Fewer(Singles(f, after), Singles(f, start));
    if again {
      PassProgress(f, start, long);
    } else {
      SplitsOutside(f, start, long);
      assert after == start;
    }
  }

  lemma Fewer(a: set<nat>, b: set<nat>)
    requires a <= b
    ensures |a| <= |b|
  {
    var rest := b - a;
    assert b == a + rest && a !! rest;
    assert |b| == |a| + |rest|;
  }
}
