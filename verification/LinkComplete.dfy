/**
 The separate algorithms fit together: nothing that a target needs is lost when it is linked.
 */
module LinkComplete {
  import opened Sequences
  import opened Trails
  import opened LinkGraph
  import opened AllDependencies
  import opened StaticBundle
  import opened Construction

  /** What construction guarantees of a target: a static library that is not Rust holds the objects
      of its link_whole targets and, when it is installed, of the internal libraries behind them, and
      links to no internal library. */
  ghost predicate BuiltTarget(g: Graph, t: Target)
    requires Layered(g)
  {
    && (!t.rust ==> forall l :: l in t.links || l in t.wholes ==> l < |g| && !g[l].UsesRustAbi())
    && (t.kind.StaticLibrary? && !t.rust ==>
          && (forall w :: w in t.wholes ==> w in t.bundled)
          && (forall b :: b in t.bundled ==> Bundleable(g, b))
          && (t.install ==>
                && (forall l :: l in t.links ==> l < |g| && !g[l].IsInternal())
                && (forall w, l :: w in t.wholes && Pulls(g, w, l) ==> l in t.bundled)))
  }

  ghost predicate Built(g: Graph) {
    Layered(g) && forall n :: 0 <= n < |g| ==> BuiltTarget(g, g[n])
  }

  /** Constructs a target from the libraries given to it, or fails. */
  method Construct(g: Graph, decl: Target, cross: bool, linkWith: seq<nat>, linkWhole: seq<nat>)
    returns (r: Outcome, t: Target)
    requires Built(g) && decl.IsBuildTarget() && Below(linkWith, |g|) && Below(linkWhole, |g|)
    ensures r == if LinksOutcome(g, decl, cross, linkWith).Failed? then LinksOutcome(g, decl, cross, linkWith)
                 else WholesOutcome(g, decl, cross, linkWhole)
    ensures r.Done? ==> Built(g + [t]) && t == decl.(links := t.links, wholes := t.wholes, bundled := t.bundled)
    ensures r.Done? ==> forall x :: x in t.links <==> x in linkWith && !Promoted(g, decl, x)
    ensures r.Done? ==>
              forall x :: x in t.wholes <==> Wholes(g, decl, Promotions(g, decl, linkWith) + Elements(linkWhole), x)
    ensures r.Done? ==>
              forall x :: x in t.bundled <==> Bundles(g, decl, Promotions(g, decl, linkWith) + Elements(linkWhole), x)
    ensures r.Done? ==> forall x :: x in linkWith || x in linkWhole ==> MayLink(g, decl, cross, x)
    ensures r.Done? ==> forall x :: x in linkWith ==> x in t.links || x in t.wholes
    ensures r.Done? ==> forall x :: x in linkWhole ==> x in t.wholes
  {
    hide Pulls, LinkOutcome, WholeOutcome, Wholes, Bundles, BuiltTarget;
    var b := new Builder(g, decl, cross);
    t := decl;
    r := b.Link(linkWith);
    if r.Failed? {
      return;
    }
    ghost var promoted := Promotions(g, decl, linkWith);
    r := b.LinkWhole(linkWhole);
    if r.Failed? {
      return;
    }
    t := decl.(links := b.links, wholes := b.wholes, bundled := b.bundled);
    ghost var all := promoted + Elements(linkWhole);
    JoinTargets(g, decl, promoted, Elements(linkWhole));
    AllAccepted(g, decl, cross, linkWith, linkWhole);
    ListsOnly(g, decl, t, cross, all);
    assert Taken(g, t, cross, all);
    TakenBuilt(g, t, cross, all);
    TakenBelow(g, t, cross, all);
    Grown(g, t);
  }

  lemma AllAccepted(g: Graph, decl: Target, cross: bool, linkWith: seq<nat>, linkWhole: seq<nat>)
    requires Layered(g) && Below(linkWith, |g|) && Below(linkWhole, |g|)
    requires LinksOutcome(g, decl, cross, linkWith).Done? && WholesOutcome(g, decl, cross, linkWhole).Done?
    ensures forall x :: x in Promotions(g, decl, linkWith) + Elements(linkWhole) ==>
              x < |g| && WholeOutcome(g, decl, cross, x).Done?
    ensures forall x :: x in linkWith || x in linkWhole ==> MayLink(g, decl, cross, x)
  {
    hide Pulls, WithAllBehind;
    LinksDone(g, decl, cross, linkWith);
    WholesDone(g, decl, cross, linkWhole);
  }

  /** What a target takes in does not depend on its lists. */
  lemma ListsOnly(g: Graph, decl: Target, t: Target, cross: bool, all: set<nat>)
    requires Layered(g) && t == decl.(links := t.links, wholes := t.wholes, bundled := t.bundled)
    ensures forall x :: x in all ==> Wholes(g, t, all, x)
    ensures forall x :: Wholes(g, t, all, x) <==> Wholes(g, decl, all, x)
    ensures forall x :: Bundles(g, t, all, x) <==> Bundles(g, decl, all, x)
    ensures forall x :: Promoted(g, t, x) <==> Promoted(g, decl, x)
    ensures forall x: nat :: x < |g| ==> WholeOutcome(g, t, cross, x) == WholeOutcome(g, decl, cross, x)
  {
    hide Pulls;
  }

  /** The lists of a target that has taken in the accepted targets `all`. */
  ghost predicate Taken(g: Graph, t: Target, cross: bool, all: set<nat>)
    requires Layered(g)
  {
    && (forall x :: x in t.wholes <==> Wholes(g, t, all, x))
    && (forall x :: x in t.bundled <==> Bundles(g, t, all, x))
    && (forall x :: x in all ==> x < |g| && WholeOutcome(g, t, cross, x).Done?)
    && (forall x :: x in t.links ==> x < |g| && !Promoted(g, t, x) && MayLink(g, t, cross, x))
  }

  lemma TakenBuilt(g: Graph, t: Target, cross: bool, all: set<nat>)
    requires Layered(g) && Taken(g, t, cross, all)
    ensures BuiltTarget(g, t)
  {
    if t.kind.StaticLibrary? && !t.rust {
      forall w | w in t.wholes
        ensures w in t.bundled
        ensures t.install ==> forall l :: Pulls(g, w, l) ==> l in t.bundled
      {
        assert w in all;
        assert TakenIn(g, t.install, all, w);
        forall l | t.install && Pulls(g, w, l)
          ensures l in t.bundled
        {
          assert TakenIn(g, t.install, all, l);
        }
      }
    }
  }

  lemma TakenBelow(g: Graph, t: Target, cross: bool, all: set<nat>)
    requires Layered(g) && Taken(g, t, cross, all)
    ensures Below(t.links, |g|) && Below(t.wholes, |g|) && Below(t.bundled, |g|)
  {
    forall x: nat | TakenIn(g, t.install, all, x)
      ensures x < |g|
    {
      var y :| y in all && (x == y || (t.install && Pulls(g, y, x)));
      if x != y {
        PullsBelow(g, y, x);
      }
    }
    forall i | 0 <= i < |t.wholes|
      ensures t.wholes[i] < |g|
    {
      assert t.wholes[i] in t.wholes;
    }
    forall i | 0 <= i < |t.bundled|
      ensures t.bundled[i] < |g|
    {
      assert t.bundled[i] in t.bundled;
    }
    forall i | 0 <= i < |t.links|
      ensures t.links[i] < |g|
    {
      assert t.links[i] in t.links;
    }
  }

  // ----- a graph grows by one target

  /** A custom target links to nothing; an index stands for an output of an earlier target. */
  predicate PlainCustom(g: Graph, t: Target) {
    && !t.IsBuildTarget() && !t.rust && t.links == [] && t.wholes == [] && t.bundled == []
    && (t.kind.CustomIndex? ==> t.kind.target < |g| && !g[t.kind.target].kind.CustomIndex?)
  }

  lemma LayeredGrown(g: Graph, t: Target)
    requires Layered(g) && (t.IsBuildTarget() || PlainCustom(g, t)) && Below(t.links, |g|) && Below(t.wholes, |g|)
    requires Below(t.bundled, |g|)
    ensures Layered(g + [t])
  {
    forall n | 0 <= n < |g + [t]|
      ensures TargetOk(g + [t], n)
    {
      if n < |g| {
        assert TargetOk(g, n);
      }
    }
  }

  lemma {:induction false} PullsFramed(g: Graph, t: Target, n: nat, l: nat)
    requires Layered(g) && Layered(g + [t]) && n < |g|
    ensures Pulls(g + [t], n, l) <==> Pulls(g, n, l)
    decreases n
  {
    forall m | 0 <= m < n
      ensures Pulls(g + [t], m, l) <==> Pulls(g, m, l)
    {
      PullsFramed(g, t, m, l);
    }
  }

  lemma Grown(g: Graph, t: Target)
    requires Built(g) && BuiltTarget(g, t) && (t.IsBuildTarget() || PlainCustom(g, t))
    requires Below(t.links, |g|) && Below(t.wholes, |g|) && Below(t.bundled, |g|)
    ensures Built(g + [t])
  {
    LayeredGrown(g, t);
    forall n | 0 <= n < |g + [t]|
      ensures BuiltTarget(g + [t], (g + [t])[n])
    {
      var u := (g + [t])[n];
      assert u == if n < |g| then g[n] else t;
      BuiltFramed(g, t, u);
    }
  }

  lemma BuiltFramed(g: Graph, t: Target, u: Target)
    requires Layered(g) && Layered(g + [t]) && BuiltTarget(g, u)
    requires Below(u.links, |g|) && Below(u.wholes, |g|) && Below(u.bundled, |g|)
    ensures BuiltTarget(g + [t], u)
  {
    forall w, l | w in u.wholes && Pulls(g + [t], w, l)
      ensures Pulls(g, w, l)
    {
      PullsFramed(g, t, w, l);
    }
  }

  /** Every graph that is put together target by target is built: it starts empty, custom targets may
      be added, and so may what `Construct` returns. */
  lemma BuiltStep(g: Graph, t: Target)
    requires Built(g) && PlainCustom(g, t)
    ensures Built([]) && Built(g + [t])
  {
    Grown(g, t);
  }

  // ----- the objects inside an archive

  /** The own objects of `m` are among the recursive objects of `n`. */
  ghost predicate Holds(g: Graph, n: nat, m: nat)
    requires Layered(g)
    decreases n
  {
    n < |g| && (m == n || exists b :: b in g[n].bundled && b < n && Holds(g, b, m))
  }

  lemma {:induction false} HoldsThrough(g: Graph, n: nat, m: nat, k: nat)
    requires Layered(g) && Holds(g, n, m) && Holds(g, m, k)
    ensures Holds(g, n, k)
    decreases n
  {
    if n != m {
      var b :| b in g[n].bundled && b < n && Holds(g, b, m);
      HoldsThrough(g, b, m, k);
    }
  }

  lemma HoldsBundled(g: Graph, n: nat, b: nat)
    requires Layered(g) && n < |g| && b in g[n].bundled
    ensures b < n && Holds(g, n, b)
  {
    var i :| 0 <= i < |g[n].bundled| && g[n].bundled[i] == b;
    assert Holds(g, b, b);
  }

  // ----- walks through libraries

  predicate Linked(g: Graph, a: nat, b: nat) {
    a < |g| && b < |g| && (b in g[a].links || b in g[a].wholes)
  }

  /** A trail through internal static libraries, behind its origin. */
  predicate InternalTrail(g: Graph, t: Trail<nat>) {
    if t.At? then t.target < |g|
    else
      && InternalTrail(g, t.init) && Linked(g, t.init.target, t.target)
      && g[t.target].kind.StaticLibrary? && !g[t.target].install
  }

  /** A trail through static libraries that are not Rust, behind its origin. */
  predicate StaticTrail(g: Graph, t: Trail<nat>) {
    if t.At? then t.target < |g|
    else StaticTrail(g, t.init) && Linked(g, t.init.target, t.target) && Bundleable(g, t.target)
  }

  predicate Archive(g: Graph, n: nat) { Bundleable(g, n) && g[n].install }

  /** An installed static library is self-contained: it holds the objects of every internal static
      library that is reached from it through internal static libraries. */
  lemma SelfContained(g: Graph, t: Trail<nat>)
    requires Built(g) && InternalTrail(g, t) && Archive(g, Origin(t))
    ensures Holds(g, Origin(t), t.target)
  {
    if t.To? {
      var c := Contained(g, t);
      HoldsBundled(g, Origin(t), c);
      HoldsThrough(g, Origin(t), c, t.target);
    }
  }

  /** It lies inside a bundled library, and everything that it pulls is bundled as well. */
  lemma {:induction false} Contained(g: Graph, t: Trail<nat>) returns (c: nat)
    requires Built(g) && t.To? && InternalTrail(g, t) && Archive(g, Origin(t))
    ensures c in g[Origin(t)].bundled && Holds(g, c, t.target) && Bundleable(g, t.target)
    ensures forall l :: Pulls(g, t.target, l) ==> l in g[Origin(t)].bundled
    decreases t
  {
    var n, x, y := Origin(t), t.init.target, t.target;
    assert BuiltTarget(g, g[n]);
    if t.init.At? {
      assert Origin(t.init) == x;
      assert y in g[n].links ==> !g[y].IsInternal();
      assert y in g[n].wholes;
      c := y;
      assert Holds(g, c, y);
    } else {
      c := Contained(g, t.init);
      forall l | Pulls(g, y, l)
        ensures l in g[n].bundled
      {
        PullsOver(g, x, y, l);
      }
      if y in g[x].links {
        assert Linked(g, x, y) && Layered(g);
        PullsLink(g, x, y);
        c := y;
        assert Holds(g, c, y);
      } else {
        assert BuiltTarget(g, g[x]);
        HoldsBundled(g, x, y);
        HoldsThrough(g, c, x, y);
      }
    }
  }

  lemma LinkedBelow(g: Graph, a: nat, b: nat)
    requires Layered(g) && Linked(g, a, b)
    ensures b < a
  {
    if b in g[a].links {
      var i :| 0 <= i < |g[a].links| && g[a].links[i] == b;
    } else {
      var i :| 0 <= i < |g[a].wholes| && g[a].wholes[i] == b;
    }
  }

  /** What an internal library pulls is pulled by whatever links it. */
  lemma PullsOver(g: Graph, a: nat, b: nat, l: nat)
    requires Layered(g) && Linked(g, a, b) && g[b].IsInternal() && Pulls(g, b, l)
    ensures Pulls(g, a, l)
  {
    LinkedBelow(g, a, b);
  }

  lemma PullsLink(g: Graph, a: nat, b: nat)
    requires Layered(g) && Linked(g, a, b) && b in g[a].links && g[b].IsInternal()
    ensures Pulls(g, a, b)
  {
    LinkedBelow(g, a, b);
  }

  // ----- the trail as a walk of the traversal

  function WalkOf(g: Graph, t: Trail<nat>): Path {
    if t.At? then Root(Key(t.target, true, true))
    else
      var a := t.init.target;
      Hop(WalkOf(g, t.init), a < |g| && t.target !in g[a].links, t.target)
  }

  lemma {:induction false} WalkOfTrail(g: Graph, t: Trail<nat>)
    requires StaticTrail(g, t)
    ensures Walk(g, WalkOf(g, t)) && Start(WalkOf(g, t)) == Key(Origin(t), true, true)
    ensures KeyOf(g, WalkOf(g, t)).target == t.target && Origin(t) < |g|
    decreases t
  {
    if t.To? {
      WalkOfTrail(g, t.init);
    }
  }

  /** Behind an installed library, the last installed one and the internal trail from it. */
  lemma {:induction false} LastInstalled(g: Graph, t: Trail<nat>) returns (s: Trail<nat>, rest: Trail<nat>)
    requires StaticTrail(g, t) && t.To? && !g[t.target].install && !KeyOf(g, WalkOf(g, t.init)).internals
    ensures s < t && s.To? && StaticTrail(g, s) && Origin(s) == Origin(t) && Archive(g, s.target)
    ensures InternalTrail(g, rest) && Origin(rest) == s.target && rest.target == t.target
    decreases t
  {
    var y := t.init.target;
    WalkOfTrail(g, t.init);
    if g[y].install {
      s, rest := t.init, To(At(y), t.target);
    } else {
      s, rest := LastInstalled(g, t.init);
      rest := To(rest, t.target);
    }
  }

  /** Link completeness: the own objects of every static library that is reached from a target through
      static libraries, none of them Rust, lie in the recursive objects of some target needed to link it. */
  lemma {:induction false} NothingLost(g: Graph, t: Trail<nat>) returns (d: nat)
    requires Built(g) && StaticTrail(g, t) && t.To?
    ensures Origin(t) < |g| && Needed(g, Origin(t), d) && Holds(g, d, t.target)
    decreases t
  {
    var self, a, x := Origin(t), t.init.target, t.target;
    var key := KeyOf(g, WalkOf(g, t.init));
    WalkOfTrail(g, t.init);
    assert Holds(g, x, x);
    if x in g[a].links && (key.internals || g[x].install) {
      d := x;
      assert Lists(g, key, Yield(x, false));
      assert ListedByWalk(g, Key(self, true, true), Yield(x, false));
    } else if x in g[a].links {
      var s, rest := LastInstalled(g, t);
      SelfContained(g, rest);
      d := NothingLost(g, s);
      HoldsThrough(g, d, s.target, x);
    } else if t.init.At? {
      d := x;
    } else {
      assert BuiltTarget(g, g[a]);
      HoldsBundled(g, a, x);
      d := NothingLost(g, t.init);
      HoldsThrough(g, d, a, x);
    }
  }
}
