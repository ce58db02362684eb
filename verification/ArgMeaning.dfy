/**
 What de-duplication keeps: the meaning of the plain list.
 */
module ArgMeaning {
  import opened ArgTheory

  /** The arguments that cannot be overridden, in order. */
  function Settled(r: Rules, s: seq<Arg>): seq<Arg> {
    if s == [] then []
    else Settled(r, s[..|s| - 1]) + if r.kind(s[|s| - 1]) != Overridden then [s[|s| - 1]] else []
  }

  /** The overridable arguments that go to the front, or those that go to the end, in order. */
  function Pick(r: Rules, first: bool, s: seq<Arg>): seq<Arg> {
    if s == [] then []
    else Pick(r, first, s[..|s| - 1]) + if Picked(r, first, s[|s| - 1]) then [s[|s| - 1]] else []
  }

  predicate Picked(r: Rules, first: bool, a: Arg) { r.kind(a) == Overridden && r.prepend(a) == first }

  // ----- filters and concatenation

  lemma {:induction false} SettledConcat(r: Rules, s: seq<Arg>, t: seq<Arg>)
    ensures Settled(r, s + t) == Settled(r, s) + Settled(r, t)
  {
    if t == [] {
      assert s + t == s;
    } else {
      SettledConcat(r, s, t[..|t| - 1]);
      assert (s + t)[..|s + t| - 1] == s + t[..|t| - 1];
    }
  }

  lemma {:induction false} PickConcat(r: Rules, first: bool, s: seq<Arg>, t: seq<Arg>)
    ensures Pick(r, first, s + t) == Pick(r, first, s) + Pick(r, first, t)
  {
    if t == [] {
      assert s + t == s;
    } else {
      PickConcat(r, first, s, t[..|t| - 1]);
      assert (s + t)[..|s + t| - 1] == s + t[..|t| - 1];
    }
  }

  lemma {:induction false} PickNone(r: Rules, first: bool, s: seq<Arg>)
    requires forall a :: a in s ==> r.prepend(a) != first
    ensures Pick(r, first, s) == []
  {
    if s != [] {
      PickNone(r, first, s[..|s| - 1]);
    }
  }

  lemma {:induction false} WithoutKeeps(r: Rules, first: bool, s: seq<Arg>, x: set<Arg>)
    ensures (forall a :: a in x ==> r.kind(a) == Overridden) ==> Settled(r, Without(s, x)) == Settled(r, s)
    ensures (forall a :: a in x ==> !Picked(r, first, a)) ==> Pick(r, first, Without(s, x)) == Pick(r, first, s)
  {
    if s != [] {
      WithoutKeeps(r, first, s[1..], x);
      assert s == [s[0]] + s[1..];
      SettledConcat(r, [s[0]], s[1..]);
      SettledConcat(r, [s[0]], Without(s[1..], x));
      PickConcat(r, first, [s[0]], s[1..]);
      PickConcat(r, first, [s[0]], Without(s[1..], x));
    }
  }

  lemma {:induction false} FrontSettled(r: Rules, s: seq<Arg>)
    ensures Settled(r, Front(r, s)) == Settled(r, s)
  {
    if s != [] {
      FrontSettled(r, s[..|s| - 1]);
      SettledConcat(r, Front(r, s[..|s| - 1]), [s[|s| - 1]]);
    }
  }

  lemma {:induction false} BackSettled(r: Rules, s: seq<Arg>)
    ensures Settled(r, Back(r, s)) == Settled(r, s)
  {
    if s != [] {
      BackSettled(r, s[1..]);
      assert s == [s[0]] + s[1..];
      SettledConcat(r, [s[0]], s[1..]);
      SettledConcat(r, [s[0]], Back(r, s[1..]));
    }
  }

  /** Flushing keeps the order and the number of all arguments that cannot be overridden. */
  lemma FlushKeepsSettled(r: Rules, container: seq<Arg>, pre: seq<Arg>, post: seq<Arg>)
    ensures Settled(r, Merge(r, container, pre, post)) == Settled(r, pre + container + post)
  {
    var x := Over(r, pre) + Over(r, post);
    FrontSettled(r, pre);
    BackSettled(r, post);
    WithoutKeeps(r, true, container, x);
    SettledConcat(r, Front(r, pre) + Without(container, x), Back(r, post));
    SettledConcat(r, Front(r, pre), Without(container, x));
    SettledConcat(r, pre + container, post);
    SettledConcat(r, pre, container);
  }

  // ----- first and last occurrences

  lemma OverWithout(r: Rules, s: seq<Arg>, x: set<Arg>)
    ensures Over(r, Without(s, x)) == Over(r, s) - x
  {
    WithoutMembers(s, x);
  }

  lemma {:induction false} FrontWithout(r: Rules, s: seq<Arg>, x: set<Arg>)
    ensures Front(r, Without(s, x)) == Without(Front(r, s), x)
  {
    if s != [] {
      var init, last := s[..|s| - 1], s[|s| - 1];
      FrontWithout(r, init, x);
      OverWithout(r, init, x);
      assert s == init + [last];
      WithoutConcat(init, [last], x);
      WithoutConcat(Front(r, init), [last], x);
      var w := Without(init, x);
      if last in x {
        assert Without([last], x) == [] && w + [] == w;
        assert Without(s, x) == w;
      } else {
        assert Without([last], x) == [last];
        assert (w + [last])[..|w|] == w;
      }
    }
  }

  lemma {:induction false} BackWithout(r: Rules, s: seq<Arg>, x: set<Arg>)
    ensures Back(r, Without(s, x)) == Without(Back(r, s), x)
  {
    if s != [] {
      BackWithout(r, s[1..], x);
      OverWithout(r, s[1..], x);
      if s[0] !in x {
        var w := Without(s[1..], x);
        assert ([s[0]] + w)[1..] == w;
      }
    }
  }

  lemma {:induction false} FrontFront(r: Rules, s: seq<Arg>)
    ensures Front(r, Front(r, s)) == Front(r, s)
  {
    if s != [] {
      var init, last := s[..|s| - 1], s[|s| - 1];
      FrontFront(r, init);
      FrontMembers(r, init);
      var f := Front(r, init);
      assert (f + [last])[..|f|] == f;
      assert Over(r, f) == Over(r, init);
    }
  }

  lemma {:induction false} BackBack(r: Rules, s: seq<Arg>)
    ensures Back(r, Back(r, s)) == Back(r, s)
  {
    if s != [] {
      BackBack(r, s[1..]);
      BackMembers(r, s[1..]);
      var b := Back(r, s[1..]);
      assert ([s[0]] + b)[1..] == b;
      assert Over(r, b) == Over(r, s[1..]);
    }
  }

  /** Overridable arguments in the order of their first, or of their last, occurrences. */
  function FirstOrder(r: Rules, s: seq<Arg>): seq<Arg> { Pick(r, true, Front(r, s)) }
  function LastOrder(r: Rules, s: seq<Arg>): seq<Arg> { Pick(r, false, Back(r, s)) }

  /** The first occurrences of a list that starts with `pre` and goes on with `container`. */
  lemma FirstOrderOf(r: Rules, pre: seq<Arg>, container: seq<Arg>, post: seq<Arg>)
    requires forall a :: a in post ==> !r.prepend(a)
    ensures FirstOrder(r, pre + container + post)
         == FirstOrder(r, pre) + Pick(r, true, Without(Front(r, container), Over(r, pre)))
  {
    var y := Without(Front(r, post), Over(r, pre + container));
    FrontConcat(r, pre + container, post);
    FrontConcat(r, pre, container);
    FrontMembers(r, post);
    WithoutMembers(Front(r, post), Over(r, pre + container));
    PickNone(r, true, y);
    PickConcat(r, true, Front(r, pre + container), y);
    PickConcat(r, true, Front(r, pre), Without(Front(r, container), Over(r, pre)));
  }

  lemma LastOrderOf(r: Rules, pre: seq<Arg>, container: seq<Arg>, post: seq<Arg>)
    requires forall a :: a in pre ==> r.prepend(a)
    ensures LastOrder(r, pre + container + post)
         == Pick(r, false, Without(Back(r, container), Over(r, post))) + LastOrder(r, post)
  {
    assert pre + container + post == pre + (container + post);
    var y := Without(Back(r, pre), Over(r, container + post));
    BackConcat(r, pre, container + post);
    BackConcat(r, container, post);
    BackMembers(r, pre);
    WithoutMembers(Back(r, pre), Over(r, container + post));
    PickNone(r, false, y);
    PickConcat(r, false, y, Back(r, container + post));
    PickConcat(r, false, Without(Back(r, container), Over(r, post)), Back(r, post));
  }

  /** Flushing keeps the overridable arguments of the front in the order of their first
      occurrences, and those of the end in the order of their last ones. */
  lemma FlushKeepsOrder(r: Rules, container: seq<Arg>, pre: seq<Arg>, post: seq<Arg>)
    requires Placed(r, pre, post)
    ensures FirstOrder(r, Merge(r, container, pre, post)) == FirstOrder(r, pre + container + post)
    ensures LastOrder(r, Merge(r, container, pre, post)) == LastOrder(r, pre + container + post)
  {
    var x := Over(r, pre) + Over(r, post);
    var front, middle, back := Front(r, pre), Without(container, x), Back(r, post);
    FrontMembers(r, pre);
    BackMembers(r, post);
    FirstOrderOf(r, front, middle, back);
    FirstOrderOf(r, pre, container, post);
    FrontFront(r, pre);
    FrontMiddle(r, container, pre, post);
    LastOrderOf(r, front, middle, back);
    LastOrderOf(r, pre, container, post);
    BackBack(r, post);
    BackMiddle(r, container, pre, post);
    assert Over(r, front) == Over(r, pre) && Over(r, back) == Over(r, post);
  }

  lemma FrontMiddle(r: Rules, container: seq<Arg>, pre: seq<Arg>, post: seq<Arg>)
    requires Placed(r, pre, post)
    ensures var middle := Without(container, Over(r, pre) + Over(r, post));
            Pick(r, true, Without(Front(r, middle), Over(r, pre))) ==
            Pick(r, true, Without(Front(r, container), Over(r, pre)))
  {
    var x := Over(r, pre) + Over(r, post);
    var f := Front(r, container);
    FrontWithout(r, container, x);
    WithoutTwice(f, x, Over(r, pre));
    WithoutTwice(f, Over(r, pre), Over(r, post));
    assert x + Over(r, pre) == Over(r, pre) + Over(r, post);
    WithoutKeeps(r, true, Without(f, Over(r, pre)), Over(r, post));
  }

  lemma BackMiddle(r: Rules, container: seq<Arg>, pre: seq<Arg>, post: seq<Arg>)
    requires Placed(r, pre, post)
    ensures var middle := Without(container, Over(r, pre) + Over(r, post));
            Pick(r, false, Without(Back(r, middle), Over(r, post))) ==
            Pick(r, false, Without(Back(r, container), Over(r, post)))
  {
    var x := Over(r, pre) + Over(r, post);
    var b := Back(r, container);
    BackWithout(r, container, x);
    WithoutTwice(b, x, Over(r, post));
    WithoutTwice(b, Over(r, post), Over(r, pre));
    assert x + Over(r, post) == Over(r, post) + Over(r, pre);
    WithoutKeeps(r, false, Without(b, Over(r, post)), Over(r, pre));
  }

  // ----- how often an argument occurs

  function Count(s: seq<Arg>, a: Arg): nat {
    if s == [] then 0 else Count(s[..|s| - 1], a) + if s[|s| - 1] == a then 1 else 0
  }

  lemma {:induction false} CountConcat(s: seq<Arg>, t: seq<Arg>, a: Arg)
    ensures Count(s + t, a) == Count(s, a) + Count(t, a)
  {
    if t == [] {
      assert s + t == s;
    } else {
      CountConcat(s, t[..|t| - 1], a);
      assert (s + t)[..|s + t| - 1] == s + t[..|t| - 1];
    }
  }

  lemma {:induction false} CountIn(s: seq<Arg>, a: Arg)
    ensures Count(s, a) > 0 <==> a in s
  {
    if s != [] {
      CountIn(s[..|s| - 1], a);
      assert s == s[..|s| - 1] + [s[|s| - 1]];
    }
  }

  lemma {:induction false} CountWithout(s: seq<Arg>, x: set<Arg>, a: Arg)
    ensures Count(Without(s, x), a) == if a in x then 0 else Count(s, a)
  {
    if s != [] {
      CountWithout(s[1..], x, a);
      assert s == [s[0]] + s[1..];
      CountConcat([s[0]], s[1..], a);
      CountConcat([s[0]], Without(s[1..], x), a);
    }
  }

  lemma {:induction false} CountFront(r: Rules, s: seq<Arg>, a: Arg)
    ensures Count(Front(r, s), a) == if r.kind(a) != Overridden then Count(s, a) else if a in s then 1 else 0
  {
    if s != [] {
      var init, last := s[..|s| - 1], s[|s| - 1];
      CountFront(r, init, a);
      CountConcat(Front(r, init), [last], a);
      assert s == init + [last];
    }
  }

  lemma {:induction false} CountBack(r: Rules, s: seq<Arg>, a: Arg)
    ensures Count(Back(r, s), a) == if r.kind(a) != Overridden then Count(s, a) else if a in s then 1 else 0
  {
    if s != [] {
      CountBack(r, s[1..], a);
      CountConcat([s[0]], Back(r, s[1..]), a);
      assert s == [s[0]] + s[1..];
      CountConcat([s[0]], s[1..], a);
    }
  }

  lemma CountMerge(r: Rules, container: seq<Arg>, pre: seq<Arg>, post: seq<Arg>, a: Arg)
    requires Placed(r, pre, post)
    ensures Count(Merge(r, container, pre, post), a)
         == if r.kind(a) != Overridden then Count(pre, a) + Count(container, a) + Count(post, a)
            else if a in pre || a in post then 1 else Count(container, a)
  {
    var x := Over(r, pre) + Over(r, post);
    CountConcat(Front(r, pre) + Without(container, x), Back(r, post), a);
    CountConcat(Front(r, pre), Without(container, x), a);
    CountFront(r, pre, a);
    CountBack(r, post, a);
    CountWithout(container, x, a);
  }

  /** What a batch adds of a unique argument at the end, and in front. */
  lemma {:induction false} CountBacks(r: Rules, have: seq<Arg>, batch: seq<Arg>, a: Arg)
    requires r.kind(a) == Unique
    ensures Count(Backs(r, have, batch), a) == if !r.prepend(a) && a !in have && a in batch then 1 else 0
  {
    if batch != [] {
      var init, last := batch[..|batch| - 1], batch[|batch| - 1];
      CountBacks(r, have, init, a);
      CountConcat(Backs(r, have, init), [last], a);
      CountIn(Backs(r, have, init), a);
      assert batch == init + [last];
    }
  }

  lemma {:induction false} CountFronts(r: Rules, have: seq<Arg>, batch: seq<Arg>, a: Arg)
    requires r.kind(a) == Unique
    ensures Count(Fronts(r, have, batch), a) == if r.prepend(a) && a !in have then Count(batch, a) else 0
  {
    if batch != [] {
      var init, last := batch[..|batch| - 1], batch[|batch| - 1];
      CountFronts(r, have, init, a);
      CountConcat(Fronts(r, have, init), [last], a);
      BatchPlaced(r, have, init);
    }
  }

  /** All batches, one after the other, from the empty list. */
  function EagerAll(r: Rules, batches: seq<seq<Arg>>): seq<Arg> {
    if batches == [] then [] else EagerAdd(r, EagerAll(r, batches[..|batches| - 1]), batches[|batches| - 1])
  }

  /** How often `a` occurs in the first batch that has it. */
  function FirstBatchCount(batches: seq<seq<Arg>>, a: Arg): nat {
    if batches == [] then 0
    else
      var before := FirstBatchCount(batches[..|batches| - 1], a);
      if before > 0 then before else Count(batches[|batches| - 1], a)
  }

  /** From the empty list, every overridable argument, and every unique argument that does not go to the
      front, occurs at most once; one that goes to the front occurs as often as in its first batch. */
  lemma {:induction false} AddedOnce(r: Rules, batches: seq<seq<Arg>>, a: Arg)
    ensures r.kind(a) == Overridden || (r.kind(a) == Unique && !r.prepend(a)) ==> Count(EagerAll(r, batches), a) <= 1
    ensures r.kind(a) == Unique && r.prepend(a) ==> Count(EagerAll(r, batches), a) == FirstBatchCount(batches, a)
  {
    if batches != [] {
      var init, batch := batches[..|batches| - 1], batches[|batches| - 1];
      AddedOnce(r, init, a);
      var s := EagerAll(r, init);
      BatchPlaced(r, s, batch);
      CountMerge(r, s, Fronts(r, s, batch), Backs(r, s, batch), a);
      CountIn(s, a);
      if r.kind(a) == Unique {
        CountBacks(r, s, batch, a);
        CountFronts(r, s, batch, a);
      }
    }
  }

  /** So of the arguments that can be deduplicated, exactly the unique ones that go to the front can be doubled. */
  lemma DoubledExactly(r: Rules, a: Arg)
    requires r.kind(a) != NoDedup
    ensures (exists batches :: Count(EagerAll(r, batches), a) > 1) <==> r.kind(a) == Unique && r.prepend(a)
  {
    if r.kind(a) == Unique && r.prepend(a) {
      FrontDoubled(r, a);
      assert Count(EagerAll(r, [[a, a]]), a) > 1;
    } else {
      forall batches
        ensures Count(EagerAll(r, batches), a) <= 1
      {
        AddedOnce(r, batches, a);
      }
    }
  }

  /** A unique argument that goes to the front is doubled when one batch has it twice. */
  lemma FrontDoubled(r: Rules, a: Arg)
    requires r.kind(a) == Unique && r.prepend(a)
    ensures Count(EagerAll(r, [[a, a]]), a) == 2
  {
    AddedOnce(r, [[a, a]], a);
    assert [[a, a]][..0] == [];
    assert [a, a][..1] == [a] && [a][..0] == [];
    assert Count([a], a) == 1 && Count([a, a], a) == 2;
  }
}
