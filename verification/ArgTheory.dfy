/**
 Lists of compiler arguments and their de-duplication, as plain functions.
 */
module ArgTheory {

  type Arg = string

  datatype Dedup = NoDedup | Unique | Overridden

  /** How an argument is classified, and whether it goes to the front. */
  datatype Rules = Rules(kind: Arg -> Dedup, prepend: Arg -> bool)

  function Over(r: Rules, s: seq<Arg>): set<Arg> {
    set a | a in s && r.kind(a) == Overridden
  }

  /** `s` without the members of `x`. */
  function Without(s: seq<Arg>, x: set<Arg>): seq<Arg> {
    if s == [] then [] else if s[0] in x then Without(s[1..], x) else [s[0]] + Without(s[1..], x)
  }

  /** Only the first of several equal overridable arguments. */
  function Front(r: Rules, s: seq<Arg>): seq<Arg> {
    if s == [] then []
    else
      var init, last := s[..|s| - 1], s[|s| - 1];
      if last in Over(r, init) then Front(r, init) else Front(r, init) + [last]
  }

  /** Only the last of several equal overridable arguments. */
  function Back(r: Rules, s: seq<Arg>): seq<Arg> {
    if s == [] then [] else if s[0] in Over(r, s[1..]) then Back(r, s[1..]) else [s[0]] + Back(r, s[1..])
  }

  /** The list that a container with pending arguments stands for. */
  function Merge(r: Rules, container: seq<Arg>, pre: seq<Arg>, post: seq<Arg>): seq<Arg> {
    Front(r, pre) + Without(container, Over(r, pre) + Over(r, post)) + Back(r, post)
  }

  // ----- removal

  lemma {:induction false} WithoutConcat(s: seq<Arg>, t: seq<Arg>, x: set<Arg>)
    ensures Without(s + t, x) == Without(s, x) + Without(t, x)
  {
    if s == [] {
      assert s + t == t;
    } else {
      WithoutConcat(s[1..], t, x);
      assert (s + t)[1..] == s[1..] + t;
    }
  }

  lemma {:induction false} WithoutTwice(s: seq<Arg>, x: set<Arg>, y: set<Arg>)
    ensures Without(Without(s, x), y) == Without(s, x + y)
  {
    if s != [] {
      WithoutTwice(s[1..], x, y);
      if s[0] !in x {
        assert ([s[0]] + Without(s[1..], x))[1..] == Without(s[1..], x);
      }
    }
  }

  lemma {:induction false} WithoutNone(s: seq<Arg>, x: set<Arg>)
    requires forall a :: a in s ==> a !in x
    ensures Without(s, x) == s
  {
    if s != [] {
      WithoutNone(s[1..], x);
    }
  }

  lemma {:induction false} WithoutMembers(s: seq<Arg>, x: set<Arg>)
    ensures forall a :: a in Without(s, x) <==> a in s && a !in x
  {
    if s != [] {
      WithoutMembers(s[1..], x);
      assert forall a :: a in s <==> a == s[0] || a in s[1..];
    }
  }

  // ----- first and last occurrences

  lemma {:induction false} FrontMembers(r: Rules, s: seq<Arg>)
    ensures forall a :: a in Front(r, s) <==> a in s
  {
    if s != [] {
      FrontMembers(r, s[..|s| - 1]);
      assert s == s[..|s| - 1] + [s[|s| - 1]];
    }
  }

  lemma {:induction false} BackMembers(r: Rules, s: seq<Arg>)
    ensures forall a :: a in Back(r, s) <==> a in s
  {
    if s != [] {
      BackMembers(r, s[1..]);
      assert s == [s[0]] + s[1..];
    }
  }

  lemma {:induction false} FrontConcat(r: Rules, s: seq<Arg>, t: seq<Arg>)
    ensures Front(r, s + t) == Front(r, s) + Without(Front(r, t), Over(r, s))
  {
    if t == [] {
      assert s + t == s;
    } else {
      var init, last := t[..|t| - 1], t[|t| - 1];
      FrontConcat(r, s, init);
      assert (s + t)[..|s + t| - 1] == s + init && (s + t)[|s + t| - 1] == last;
      assert Over(r, s + init) == Over(r, s) + Over(r, init);
      WithoutConcat(Front(r, init), [last], Over(r, s));
    }
  }

  lemma {:induction false} BackConcat(r: Rules, s: seq<Arg>, t: seq<Arg>)
    ensures Back(r, s + t) == Without(Back(r, s), Over(r, t)) + Back(r, t)
  {
    if s == [] {
      assert s + t == t;
    } else {
      var a, rest := s[0], s[1..];
      BackConcat(r, rest, t);
      assert (s + t)[1..] == rest + t && (s + t)[0] == a;
      assert Over(r, rest + t) == Over(r, rest) + Over(r, t);
      if a !in Over(r, rest) {
        BackStep(a, Back(r, rest), Back(r, t), Over(r, t));
      }
    }
  }

  lemma BackStep(a: Arg, s: seq<Arg>, t: seq<Arg>, x: set<Arg>)
    ensures Without([a] + s, x) + t == if a in x then Without(s, x) + t else [a] + (Without(s, x) + t)
  {
    assert ([a] + s)[1..] == s;
  }

  lemma {:induction false} FrontPlain(r: Rules, s: seq<Arg>)
    requires Over(r, s) == {}
    ensures Front(r, s) == s
  {
    if s != [] {
      var init := s[..|s| - 1];
      assert Over(r, init) <= Over(r, s);
      FrontPlain(r, init);
    }
  }

  lemma {:induction false} BackPlain(r: Rules, s: seq<Arg>)
    requires Over(r, s) == {}
    ensures Back(r, s) == s
  {
    if s != [] {
      assert Over(r, s[1..]) <= Over(r, s);
      BackPlain(r, s[1..]);
    }
  }

  /** Without overridable arguments waiting, merging is plain concatenation. */
  lemma MergePlain(r: Rules, container: seq<Arg>, pre: seq<Arg>, post: seq<Arg>)
    requires Over(r, pre) == {} && Over(r, post) == {}
    ensures Merge(r, container, pre, post) == pre + container + post
  {
    FrontPlain(r, pre);
    BackPlain(r, post);
    WithoutNone(container, {});
    assert Over(r, pre) + Over(r, post) == {};
  }

  /** Arguments in front of the container go there by rule, those behind it do not. */
  predicate Placed(r: Rules, pre: seq<Arg>, post: seq<Arg>) {
    (forall a :: a in pre ==> r.prepend(a)) && (forall a :: a in post ==> !r.prepend(a))
  }

  /** Merging in two goes is merging at once. */
  lemma MergeTwice(r: Rules, container: seq<Arg>, pre: seq<Arg>, post: seq<Arg>, pre': seq<Arg>, post': seq<Arg>)
    requires Placed(r, pre, post) && Placed(r, pre', post')
    ensures Merge(r, Merge(r, container, pre, post), pre', post') == Merge(r, container, pre' + pre, post + post')
  {
    var x := Over(r, pre') + Over(r, post');
    var front, middle, back := Front(r, pre), Without(container, Over(r, pre) + Over(r, post)), Back(r, post);
    var b, c, d := Without(front, Over(r, pre')), Without(middle, x), Without(back, Over(r, post'));
    assert Without(front + middle + back, x) == b + c + d by {
      WithoutConcat(front + middle, back, x);
      WithoutConcat(front, middle, x);
      WithoutPlaced(r, front, pre, back, post, pre', post');
    }
    assert c == Without(container, Over(r, pre' + pre) + Over(r, post + post')) by {
      WithoutTwice(container, Over(r, pre) + Over(r, post), x);
      assert Over(r, pre' + pre) + Over(r, post + post') == Over(r, pre) + Over(r, post) + x;
    }
    FrontConcat(r, pre', pre);
    BackConcat(r, post, post');
    Associate(Front(r, pre'), b, c, d, Back(r, post'));
  }

  lemma Associate(a: seq<Arg>, b: seq<Arg>, c: seq<Arg>, d: seq<Arg>, e: seq<Arg>)
    ensures a + (b + c + d) + e == (a + b) + c + (d + e)
  {
  }

  lemma WithoutPlaced(r: Rules, front: seq<Arg>, pre: seq<Arg>, back: seq<Arg>, post: seq<Arg>, pre': seq<Arg>,
                      post': seq<Arg>)
    requires Placed(r, pre, post) && Placed(r, pre', post') && front == Front(r, pre) && back == Back(r, post)
    ensures Without(front, Over(r, pre') + Over(r, post')) == Without(front, Over(r, pre'))
    ensures Without(back, Over(r, pre') + Over(r, post')) == Without(back, Over(r, post'))
  {
    FrontMembers(r, pre);
    BackMembers(r, post);
    WithoutTwice(front, Over(r, pre'), Over(r, post'));
    WithoutMembers(front, Over(r, pre'));
    WithoutNone(Without(front, Over(r, pre')), Over(r, post'));
    WithoutTwice(back, Over(r, post'), Over(r, pre'));
    WithoutMembers(back, Over(r, post'));
    WithoutNone(Without(back, Over(r, post')), Over(r, pre'));
    assert Over(r, pre') + Over(r, post') == Over(r, post') + Over(r, pre');
  }

  // ----- adding a batch

  /** A unique argument that is there already is not added again. `have` are the arguments
      before the batch, `added` those that the batch has put at the end. */
  predicate Skips(r: Rules, have: seq<Arg>, added: seq<Arg>, a: Arg) {
    r.kind(a) == Unique && (a in have || a in added)
  }

  /** What a batch adds at the end. */
  function Backs(r: Rules, have: seq<Arg>, batch: seq<Arg>): seq<Arg> {
    if batch == [] then []
    else
      var so, a := Backs(r, have, batch[..|batch| - 1]), batch[|batch| - 1];
      if Skips(r, have, so, a) || r.prepend(a) then so else so + [a]
  }

  /** What a batch adds in front, in the order of the batch. */
  function Fronts(r: Rules, have: seq<Arg>, batch: seq<Arg>): seq<Arg> {
    if batch == [] then []
    else
      var so, a := Fronts(r, have, batch[..|batch| - 1]), batch[|batch| - 1];
      if Skips(r, have, Backs(r, have, batch[..|batch| - 1]), a) || !r.prepend(a) then so else so + [a]
  }

  /** The simple list: every batch is merged at once. */
  function EagerAdd(r: Rules, s: seq<Arg>, batch: seq<Arg>): seq<Arg> {
    Merge(r, s, Fronts(r, s, batch), Backs(r, s, batch))
  }

  lemma {:induction false} BatchPlaced(r: Rules, have: seq<Arg>, batch: seq<Arg>)
    ensures Placed(r, Fronts(r, have, batch), Backs(r, have, batch))
  {
    if batch != [] {
      BatchPlaced(r, have, batch[..|batch| - 1]);
    }
  }

  /** Only the unique arguments that are there matter for a batch. */
  lemma {:induction false} BatchSame(r: Rules, have: seq<Arg>, have': seq<Arg>, batch: seq<Arg>)
    requires forall a :: r.kind(a) == Unique ==> (a in have <==> a in have')
    ensures Fronts(r, have, batch) == Fronts(r, have', batch) && Backs(r, have, batch) == Backs(r, have', batch)
  {
    if batch != [] {
      BatchSame(r, have, have', batch[..|batch| - 1]);
    }
  }

  /** Merging neither adds nor removes kinds of arguments, but overridable ones are all kept once. */
  lemma MergeMembers(r: Rules, container: seq<Arg>, pre: seq<Arg>, post: seq<Arg>)
    ensures forall a :: a in Merge(r, container, pre, post) <==> a in container || a in pre || a in post
  {
    FrontMembers(r, pre);
    BackMembers(r, post);
    WithoutMembers(container, Over(r, pre) + Over(r, post));
  }

  /** A batch that waits counts as if it had been merged into what the lists stand for. */
  lemma AddPending(r: Rules, container: seq<Arg>, pre: seq<Arg>, post: seq<Arg>, batch: seq<Arg>)
    requires Placed(r, pre, post)
    ensures var have := container + pre + post;
            var fronts, backs := Fronts(r, have, batch), Backs(r, have, batch);
            && Placed(r, fronts + pre, post + backs)
            && Merge(r, container, fronts + pre, post + backs) == EagerAdd(r, Merge(r, container, pre, post), batch)
  {
    var have, merged := container + pre + post, Merge(r, container, pre, post);
    MergeMembers(r, container, pre, post);
    BatchSame(r, have, merged, batch);
    BatchPlaced(r, have, batch);
    MergeTwice(r, container, pre, post, Fronts(r, have, batch), Backs(r, have, batch));
  }
}
