/**
 The worklist that collects the shared libraries needed at run time.
 */
module LinkDeps {
  import opened Trails
  import opened LinkGraph
  import opened AllDependencies

  /** `b` is linked by `a`, or is the target behind the index `a`. */
  predicate Edge(g: Graph, a: nat, b: nat) {
    && a < |g| && b < |g|
    && (if g[a].kind.CustomIndex? then b == g[a].kind.target
        else g[a].IsBuildTarget() && (b in g[a].links || b in g[a].wholes))
  }

  predicate Follows(g: Graph, t: Trail<nat>) {
    if t.At? then t.target < |g| else Follows(g, t.init) && Edge(g, t.init.target, t.target)
  }

  /** `b` can be reached from `a`, which counts as reached itself. */
  ghost predicate Reachable(g: Graph, a: nat, b: nat) {
    exists t: Trail<nat> :: Follows(g, t) && Origin(t) == a && t.target == b
  }

  lemma ReachableNext(g: Graph, a: nat, b: nat, c: nat)
    requires Reachable(g, a, b) && Edge(g, b, c)
    ensures Reachable(g, a, c)
  {
    var t: Trail<nat> :| Follows(g, t) && Origin(t) == a && t.target == b;
    assert Follows(g, To(t, c)) && Origin(To(t, c)) == a;
  }

  // ----- the work left on the stack; an index target may be popped twice as often

  function Weight(g: Graph, n: nat): nat { if n < |g| && g[n].kind.CustomIndex? then 2 else 1 }

  function Work(g: Graph, stack: seq<nat>): nat {
    if stack == [] then 0 else Work(g, stack[..|stack| - 1]) + Weight(g, stack[|stack| - 1])
  }

  lemma {:induction false} WorkPrepend(g: Graph, n: nat, stack: seq<nat>)
    ensures Work(g, [n] + stack) == Weight(g, n) + Work(g, stack)
  {
    if stack != [] {
      WorkPrepend(g, n, stack[..|stack| - 1]);
      assert ([n] + stack)[..|stack|] == [n] + stack[..|stack| - 1];
    }
  }

  // ----- the invariant

  /** `s` is marked or waiting, or is an index whose target is. */
  predicate Covered(g: Graph, marked: set<nat>, stack: seq<nat>, s: nat) {
    || s in marked || s in stack
    || (s < |g| && g[s].kind.CustomIndex? && (g[s].kind.target in marked || g[s].kind.target in stack))
  }

  ghost predicate Invariant(g: Graph, self: nat, marked: set<nat>, stack: seq<nat>) {
    && Covered(g, marked, stack, self)
    && (forall s :: s in stack || s in marked ==> s < |g| && Reachable(g, self, s))
    && (forall t, s :: t in marked && Edge(g, t, s) ==> Covered(g, marked, stack, s))
    && (forall t :: t in marked ==> !g[t].kind.CustomIndex?)
  }

  /** When nothing waits, every target that can be reached is marked, or its target is. */
  lemma {:induction false} AllMarked(g: Graph, self: nat, marked: set<nat>, t: Trail<nat>)
    requires WellFormed(g) && Invariant(g, self, marked, []) && Follows(g, t) && Origin(t) == self
    ensures Covered(g, marked, [], t.target)
    decreases t
  {
    if t.To? {
      AllMarked(g, self, marked, t.init);
      var a := t.init.target;
      if a !in marked {
        assert TargetOk(g, a);
      }
    }
  }

  /** Prepends, one by one, the targets that are not in `nonresults`. */
  method ExtendLeft(stack: seq<nat>, ids: seq<nat>, nonresults: set<nat>) returns (r: seq<nat>)
    ensures forall s :: s in r <==> s in stack || (s in ids && s !in nonresults)
  {
    r := stack;
    for i := 0 to |ids|
      invariant forall s :: s in r <==> s in stack || (s in ids[..i] && s !in nonresults)
    {
      assert ids[..i + 1] == ids[..i] + [ids[i]];
      if ids[i] !in nonresults {
        r := [ids[i]] + r;
      }
    }
    assert ids[..|ids|] == ids;
  }

  predicate Known(g: Graph, n: nat) { n < |g| }

  function Everything(g: Graph): set<nat> { set n: nat | 0 <= n < |g| && Known(g, n) }

  method GetAllLinkDeps(g: Graph, self: nat) returns (result: seq<nat>)
    requires WellFormed(g) && self < |g|
    ensures NoRepeats(result)
    ensures forall t: nat :: t in result <==> t < |g| && g[t].kind.SharedLibrary? && Reachable(g, self, t)
  {
    result := [];
    var nonresults: set<nat> := {};
    var stack := [self];
    ghost var marked: set<nat> := {};
    assert Follows(g, At(self)) && Origin(At(self)) == self;
    while stack != []
      invariant NoRepeats(result) && marked <= Everything(g)
      invariant forall t :: t in result <==> t in marked && g[t].kind.SharedLibrary?
      invariant forall t :: t in nonresults <==> t in marked && !g[t].kind.SharedLibrary?
      invariant Invariant(g, self, marked, stack)
      decreases Everything(g) - marked, Work(g, stack)
    {
      var t := stack[|stack| - 1];
      ghost var was := stack;
      stack := stack[..|stack| - 1];
      assert was == stack + [t];
      if t in result || t in nonresults {
        Popped(g, self, marked, stack, t);
        continue;
      }
      assert TargetOk(g, t);
      if g[t].kind.CustomIndex? {
        Requeued(g, self, marked, stack, t);
        WorkPrepend(g, g[t].kind.target, stack);
        stack := [g[t].kind.target] + stack;
        continue;
      }
      if g[t].kind.SharedLibrary? {
        result := result + [t];
      } else {
        nonresults := nonresults + {t};
      }
      marked := marked + {t};
      if g[t].IsBuildTarget() {
        stack := ExtendLeft(stack, g[t].links, nonresults);
        stack := ExtendLeft(stack, g[t].wholes, nonresults);
      }
      Marked(g, self, marked - {t}, was, t, marked, stack);
    }
    forall t: nat | t < |g| && g[t].kind.SharedLibrary? && Reachable(g, self, t)
      ensures t in result
    {
      var trail: Trail<nat> :| Follows(g, trail) && Origin(trail) == self && trail.target == t;
      AllMarked(g, self, marked, trail);
    }
  }

  /** Popping a marked target keeps the invariant. */
  lemma Popped(g: Graph, self: nat, marked: set<nat>, stack: seq<nat>, t: nat)
    requires Invariant(g, self, marked, stack + [t]) && t in marked
    ensures Invariant(g, self, marked, stack)
  {
    forall s | s in stack
      ensures s < |g| && Reachable(g, self, s)
    {
      assert s in stack + [t];
    }
    forall s: nat | Covered(g, marked, stack + [t], s)
      ensures Covered(g, marked, stack, s)
    {
    }
  }

  /** Replacing an index by its target, without marking it, keeps the invariant. */
  lemma Requeued(g: Graph, self: nat, marked: set<nat>, stack: seq<nat>, t: nat)
    requires WellFormed(g) && t < |g| && g[t].kind.CustomIndex?
    requires Invariant(g, self, marked, stack + [t])
    ensures Invariant(g, self, marked, [g[t].kind.target] + stack)
  {
    assert TargetOk(g, t);
    var target := g[t].kind.target;
    assert t in stack + [t];
    ReachableNext(g, self, t, target);
    forall s | s in stack
      ensures s < |g| && Reachable(g, self, s)
    {
      assert s in stack + [t];
    }
    forall s: nat | Covered(g, marked, stack + [t], s)
      ensures Covered(g, marked, [target] + stack, s)
    {
      if s < |g| && g[s].kind.CustomIndex? {
        assert TargetOk(g, s);
      }
    }
  }

  /** Marking a target and pushing what it links keeps the invariant. */
  lemma Marked(g: Graph, self: nat, marked: set<nat>, stack: seq<nat>, t: nat, marked': set<nat>, stack': seq<nat>)
    requires WellFormed(g) && Invariant(g, self, marked, stack)
    requires t in stack && t !in marked && t < |g| && !g[t].kind.CustomIndex? && marked' == marked + {t}
    requires forall s :: s in stack && s != t ==> s in stack'
    requires forall s :: s in stack' ==> s in stack || Edge(g, t, s)
    requires forall s :: Edge(g, t, s) ==> s in stack' || s in marked'
    ensures Invariant(g, self, marked', stack')
  {
    forall s | s in stack' || s in marked'
      ensures s < |g| && Reachable(g, self, s)
    {
      if s !in stack && s !in marked' {
        ReachableNext(g, self, t, s);
      }
    }
  }
}
