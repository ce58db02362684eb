/**
 The construction of a target: an object whose link_with, link_whole and object lists
 grow while the libraries given to it are processed.
 */
module Construction {
  import opened Sequences
  import opened LinkGraph
  import opened AllDependencies
  import opened StaticBundle

  datatype LinkError = RustAbiInNonRust | MixedMachines | CannotBundle
  datatype Outcome = Done | Failed(error: LinkError)

  // ----- which libraries are accepted

  /** Whether two targets may be linked at all. */
  function CheckOutcome(g: Graph, decl: Target, cross: bool, t: nat): Outcome
    requires t < |g|
  {
    if g[t].UsesRustAbi() && !decl.rust then Failed(RustAbiInNonRust)
    else if decl.machine != g[t].machine && !(g[t].UsesRustAbi() && g[t].crate == ProcMacro) && cross then
      Failed(MixedMachines)
    else Done
  }

  /** A library with the Rust ABI goes only into a Rust target; and in a cross build both are for the same machine,
      unless the library is a procedural macro, which runs at build time. */
  predicate MayLink(g: Graph, decl: Target, cross: bool, t: nat) {
    && t < |g|
    && (g[t].UsesRustAbi() ==> decl.rust)
    && (cross ==> decl.machine == g[t].machine || (g[t].UsesRustAbi() && g[t].crate == ProcMacro))
  }

  predicate Bundleable(g: Graph, t: nat) { t < |g| && g[t].kind.StaticLibrary? && !g[t].rust }

  /** A static library that is installed promotes internal libraries in link_with to link_whole. */
  predicate Promoted(g: Graph, decl: Target, t: nat) {
    t < |g| && decl.kind.StaticLibrary? && decl.install && g[t].IsInternal()
  }

  ghost function WholeOutcome(g: Graph, decl: Target, cross: bool, t: nat): Outcome
    requires Layered(g) && t < |g|
  {
    if CheckOutcome(g, decl, cross, t).Failed? then CheckOutcome(g, decl, cross, t)
    else if decl.kind.StaticLibrary? && !decl.rust && !WithAllBehind(g, decl.install, t) then Failed(CannotBundle)
    else Done
  }

  /** `t` can be bundled and, for an installed library, so can every internal library behind it. */
  ghost predicate WithAllBehind(g: Graph, install: bool, t: nat)
    requires Layered(g)
  {
    Bundleable(g, t) && (install ==> forall l :: Pulls(g, t, l) ==> Bundleable(g, l))
  }

  ghost function LinkOutcome(g: Graph, decl: Target, cross: bool, t: nat): Outcome
    requires Layered(g) && t < |g|
  {
    if Promoted(g, decl, t) then WholeOutcome(g, decl, cross, t) else CheckOutcome(g, decl, cross, t)
  }

  /** The outcome of a list is that of its first failure. */
  ghost function WholesOutcome(g: Graph, decl: Target, cross: bool, targets: seq<nat>): Outcome
    requires Layered(g) && Below(targets, |g|)
  {
    if targets == [] then Done
    else
      var init := WholesOutcome(g, decl, cross, targets[..|targets| - 1]);
      if init.Failed? then init else WholeOutcome(g, decl, cross, targets[|targets| - 1])
  }

  ghost function LinksOutcome(g: Graph, decl: Target, cross: bool, targets: seq<nat>): Outcome
    requires Layered(g) && Below(targets, |g|)
  {
    if targets == [] then Done
    else
      var init := LinksOutcome(g, decl, cross, targets[..|targets| - 1]);
      if init.Failed? then init else LinkOutcome(g, decl, cross, targets[|targets| - 1])
  }

  lemma {:induction false} WholesDone(g: Graph, decl: Target, cross: bool, targets: seq<nat>)
    requires Layered(g) && Below(targets, |g|)
    ensures WholesOutcome(g, decl, cross, targets).Done?
       <==> forall i :: 0 <= i < |targets| ==> WholeOutcome(g, decl, cross, targets[i]).Done?
  {
    if targets != [] {
      WholesDone(g, decl, cross, targets[..|targets| - 1]);
    }
  }

  lemma {:induction false} LinksDone(g: Graph, decl: Target, cross: bool, targets: seq<nat>)
    requires Layered(g) && Below(targets, |g|)
    ensures LinksOutcome(g, decl, cross, targets).Done?
       <==> forall i :: 0 <= i < |targets| ==> LinkOutcome(g, decl, cross, targets[i]).Done?
  {
    if targets != [] {
      LinksDone(g, decl, cross, targets[..|targets| - 1]);
    }
  }

  lemma {:induction false} WholesFail(g: Graph, decl: Target, cross: bool, targets: seq<nat>, k: nat)
    requires Layered(g) && Below(targets, |g|) && k <= |targets| && WholesOutcome(g, decl, cross, targets[..k]).Failed?
    ensures WholesOutcome(g, decl, cross, targets) == WholesOutcome(g, decl, cross, targets[..k])
  {
    if k < |targets| {
      assert targets[..|targets| - 1][..k] == targets[..k];
      WholesFail(g, decl, cross, targets[..|targets| - 1], k);
    } else {
      assert targets[..k] == targets;
    }
  }

  lemma {:induction false} LinksFail(g: Graph, decl: Target, cross: bool, targets: seq<nat>, k: nat)
    requires Layered(g) && Below(targets, |g|) && k <= |targets| && LinksOutcome(g, decl, cross, targets[..k]).Failed?
    ensures LinksOutcome(g, decl, cross, targets) == LinksOutcome(g, decl, cross, targets[..k])
  {
    if k < |targets| {
      assert targets[..|targets| - 1][..k] == targets[..k];
      LinksFail(g, decl, cross, targets[..|targets| - 1], k);
    } else {
      assert targets[..k] == targets;
    }
  }

  /** `x` is taken in with one of the targets: it is one, or an internal library behind one when
      the library is installed. */
  ghost predicate TakenIn(g: Graph, install: bool, targets: set<nat>, x: nat)
    requires Layered(g)
  {
    exists t :: t in targets && (x == t || (install && Pulls(g, t, x)))
  }

  ghost predicate Bundles(g: Graph, decl: Target, targets: set<nat>, x: nat)
    requires Layered(g)
  {
    decl.kind.StaticLibrary? && !decl.rust && TakenIn(g, decl.install, targets, x)
  }

  ghost predicate Wholes(g: Graph, decl: Target, targets: set<nat>, x: nat)
    requires Layered(g)
  {
    x in targets || (decl.kind.StaticLibrary? && decl.rust && TakenIn(g, decl.install, targets, x))
  }

  class Builder {
    const g: Graph
    const decl: Target
    const cross: bool
    var links: seq<nat>
    var wholes: seq<nat>
    var bundled: seq<nat>

    constructor (g: Graph, decl: Target, cross: bool)
      ensures this.g == g && this.decl == decl && this.cross == cross && links == [] && wholes == [] && bundled == []
    {
      this.g, this.decl, this.cross := g, decl, cross;
      links, wholes, bundled := [], [], [];
    }

    /** Only Rust targets link libraries with the Rust ABI, and in a cross build only procedural macros cross machines.
        */
    method CheckCanLinkTogether(t: nat) returns (r: Outcome)
      requires t < |g|
      ensures r == CheckOutcome(g, decl, cross, t)
      ensures r.Done? <==> MayLink(g, decl, cross, t)
      ensures r == Failed(MixedMachines) ==> decl.machine != g[t].machine && (g[t].UsesRustAbi() ==> decl.rust)
    {
      var abi := g[t].UsesRustAbi();
      if !decl.rust && abi {
        return Failed(RustAbiInNonRust);
      }
      if decl.machine != g[t].machine && (!abi || g[t].crate != ProcMacro) && cross {
        return Failed(MixedMachines);
      }
      return Done;
    }

    method Bundle(t: nat) returns (r: Outcome)
      requires t < |g|
      modifies this`wholes, this`bundled
      ensures r == if decl.rust || Bundleable(g, t) then Done else Failed(CannotBundle)
      ensures wholes == if decl.rust then old(wholes) + [t] else old(wholes)
      ensures bundled == if !decl.rust && r.Done? then old(bundled) + [t] else old(bundled)
    {
      if decl.rust {
        wholes := wholes + [t];
      } else if !g[t].kind.StaticLibrary? || g[t].rust {
        return Failed(CannotBundle);
      } else {
        bundled := bundled + [t];
      }
      return Done;
    }

    /** Bundles the internal libraries behind `t`. */
    method BundleInternal(t: nat) returns (r: Outcome)
      requires Layered(g) && t < |g|
      modifies this`wholes, this`bundled
      ensures r == if decl.rust || (forall l :: Pulls(g, t, l) ==> Bundleable(g, l)) then Done else Failed(CannotBundle)
      ensures r.Done? ==> forall x :: x in wholes <==> x in old(wholes) || (decl.rust && Pulls(g, t, x))
      ensures r.Done? ==> forall x :: x in bundled <==> x in old(bundled) || (!decl.rust && Pulls(g, t, x))
    {
      hide Pulls, Layered;
      var libs := GetInternalStaticLibraries(g, t);
      for i := 0 to |libs|
        invariant decl.rust || forall j :: 0 <= j < i ==> Bundleable(g, libs[j])
        invariant forall x :: x in wholes <==> x in old(wholes) || (decl.rust && x in libs[..i])
        invariant forall x :: x in bundled <==> x in old(bundled) || (!decl.rust && x in libs[..i])
      {
        assert libs[..i + 1] == libs[..i] + [libs[i]];
        PullsBelow(g, t, libs[i]);
        r := Bundle(libs[i]);
        if r.Failed? {
          assert Pulls(g, t, libs[i]);
          return;
        }
      }
      assert libs[..|libs|] == libs;
      return Done;
    }

    /** Processes one link_whole target. */
    method WholeOne(t: nat) returns (r: Outcome)
      requires Layered(g) && t < |g|
      modifies this`wholes, this`bundled
      ensures r == WholeOutcome(g, decl, cross, t)
      ensures r.Done? ==> forall x :: x in wholes <==> x in old(wholes) || Wholes(g, decl, {t}, x)
      ensures r.Done? ==> forall x :: x in bundled <==> x in old(bundled) || Bundles(g, decl, {t}, x)
    {
      r := CheckCanLinkTogether(t);
      if r.Failed? {
        return;
      }
      if decl.kind.StaticLibrary? {
        r := Bundle(t);
        if r.Failed? {
          return;
        }
        if decl.install {
          r := BundleInternal(t);
          if r.Failed? {
            return;
          }
        }
      }
      wholes := wholes + [t];
      assert forall x :: TakenIn(g, decl.install, {t}, x) <==> x == t || (decl.install && Pulls(g, t, x));
    }

    method LinkWhole(targets: seq<nat>) returns (r: Outcome)
      requires Layered(g) && Below(targets, |g|)
      modifies this`wholes, this`bundled
      ensures r == WholesOutcome(g, decl, cross, targets)
      ensures r.Done? ==> forall x :: x in wholes <==> x in old(wholes) || Wholes(g, decl, Elements(targets), x)
      ensures r.Done? ==> forall x :: x in bundled <==> x in old(bundled) || Bundles(g, decl, Elements(targets), x)
    {
      for i := 0 to |targets|
        invariant WholesOutcome(g, decl, cross, targets[..i]).Done?
        invariant forall x :: x in wholes <==> x in old(wholes) || Wholes(g, decl, Elements(targets[..i]), x)
        invariant forall x :: x in bundled <==> x in old(bundled) || Bundles(g, decl, Elements(targets[..i]), x)
      {
        OneMore(g, decl, targets, i);
        assert targets[..i + 1][..i] == targets[..i];
        r := WholeOne(targets[i]);
        if r.Failed? {
          WholesFail(g, decl, cross, targets, i + 1);
          return;
        }
      }
      assert targets[..|targets|] == targets;
      return Done;
    }

    method Link(targets: seq<nat>) returns (r: Outcome)
      requires Layered(g) && Below(targets, |g|)
      modifies this
      ensures r == LinksOutcome(g, decl, cross, targets)
      ensures r.Done? ==> forall x :: x in links <==> x in old(links) || (x in targets && !Promoted(g, decl, x))
      ensures r.Done? ==>
                forall x :: x in wholes <==> x in old(wholes) || Wholes(g, decl, Promotions(g, decl, targets), x)
      ensures r.Done? ==>
                forall x :: x in bundled <==> x in old(bundled) || Bundles(g, decl, Promotions(g, decl, targets), x)
    {
      hide Wholes, Bundles, Promotions, Promoted, CheckOutcome, WholeOutcome, Layered, MayLink;
      assert targets[..0] == [];
      NoPromotions(g, decl);
      for i := 0 to |targets|
        invariant LinksOutcome(g, decl, cross, targets[..i]).Done?
        invariant forall x :: x in links <==> x in old(links) || (x in targets[..i] && !Promoted(g, decl, x))
        invariant forall x :: x in wholes <==> x in old(wholes) || Wholes(g, decl, Promotions(g, decl, targets[..i]), x)
        invariant forall x ::
                    x in bundled <==> x in old(bundled) || Bundles(g, decl, Promotions(g, decl, targets[..i]), x)
      {
        var t := targets[i];
        assert targets[..i + 1] == targets[..i] + [t] && targets[..i + 1][..i] == targets[..i];
        MorePromotions(g, decl, targets, i);
        if Promoted(g, decl, t) {
          r := WholeOne(t);
          if r.Failed? {
            LinksFail(g, decl, cross, targets, i + 1);
            return;
          }
        } else {
          r := CheckCanLinkTogether(t);
          if r.Failed? {
            LinksFail(g, decl, cross, targets, i + 1);
            return;
          }
          links := links + [t];
        }
      }
      assert targets[..|targets|] == targets;
      return Done;
    }
  }

  ghost function Promotions(g: Graph, decl: Target, targets: seq<nat>): set<nat> {
    set t | t in targets && Promoted(g, decl, t)
  }

  lemma {:induction false} PullsBelow(g: Graph, n: nat, l: nat)
    requires Layered(g) && Pulls(g, n, l)
    ensures l < n
    decreases n
  {
    if t :| t in g[n].links && t < n && g[t].IsInternal() && (l == t || Pulls(g, t, l)) {
      if l != t {
        PullsBelow(g, t, l);
      }
    } else {
      var w :| w in g[n].wholes && w < n && g[w].IsInternal() && Pulls(g, w, l);
      PullsBelow(g, w, l);
    }
  }

  /** Adding one target to a set adds what is taken in with it. */
  lemma JoinTargets(g: Graph, decl: Target, a: set<nat>, b: set<nat>)
    requires Layered(g)
    ensures forall x :: Wholes(g, decl, a + b, x) <==> Wholes(g, decl, a, x) || Wholes(g, decl, b, x)
    ensures forall x :: Bundles(g, decl, a + b, x) <==> Bundles(g, decl, a, x) || Bundles(g, decl, b, x)
  {
    forall x: nat
      ensures TakenIn(g, decl.install, a + b, x) <==> TakenIn(g, decl.install, a, x) || TakenIn(g, decl.install, b, x)
    {
    }
  }

  lemma OneMore(g: Graph, decl: Target, targets: seq<nat>, i: nat)
    requires Layered(g) && i < |targets|
    ensures forall x :: Wholes(g, decl, Elements(targets[..i + 1]), x)
                   <==> Wholes(g, decl, Elements(targets[..i]), x) || Wholes(g, decl, {targets[i]}, x)
    ensures forall x :: Bundles(g, decl, Elements(targets[..i + 1]), x)
                   <==> Bundles(g, decl, Elements(targets[..i]), x) || Bundles(g, decl, {targets[i]}, x)
  {
    assert Elements(targets[..i + 1]) == Elements(targets[..i]) + {targets[i]};
    JoinTargets(g, decl, Elements(targets[..i]), {targets[i]});
  }

  lemma NoPromotions(g: Graph, decl: Target)
    requires Layered(g)
    ensures forall x :: !Wholes(g, decl, Promotions(g, decl, []), x) && !Bundles(g, decl, Promotions(g, decl, []), x)
    ensures forall x :: !Wholes(g, decl, {}, x) && !Bundles(g, decl, {}, x)
  {
  }

  lemma MorePromotions(g: Graph, decl: Target, targets: seq<nat>, i: nat)
    requires Layered(g) && i < |targets|
    ensures var one: set<nat> := if Promoted(g, decl, targets[i]) then {targets[i]} else {};
            && (forall x :: Wholes(g, decl, Promotions(g, decl, targets[..i + 1]), x)
                       <==> Wholes(g, decl, Promotions(g, decl, targets[..i]), x) || Wholes(g, decl, one, x))
            && (forall x :: Bundles(g, decl, Promotions(g, decl, targets[..i + 1]), x)
                       <==> Bundles(g, decl, Promotions(g, decl, targets[..i]), x) || Bundles(g, decl, one, x))
  {
    var one: set<nat> := if Promoted(g, decl, targets[i]) then {targets[i]} else {};
    assert Promotions(g, decl, targets[..i + 1]) == Promotions(g, decl, targets[..i]) + one;
    JoinTargets(g, decl, Promotions(g, decl, targets[..i]), one);
  }
}
