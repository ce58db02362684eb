/**
 How a target is put together from the libraries it links: an installed static library takes in
 the objects of the internal libraries behind it.
 */
module StaticBundle {
  import opened LinkGraph
  import opened AllDependencies

  /** Targets link only to targets that were constructed before them. */
  predicate Layered(g: Graph) {
    && WellFormed(g)
    && forall n :: 0 <= n < |g| ==> Below(g[n].links, n) && Below(g[n].wholes, n) && Below(g[n].bundled, n)
  }

  // ----- internal libraries

  /** `l` is an internal library behind `n`: linked through internal libraries, the last edge being
      a link_with edge. */
  ghost predicate Pulls(g: Graph, n: nat, l: nat)
    requires Layered(g)
    decreases n
  {
    n < |g| &&
    ((exists t :: t in g[n].links && t < n && g[t].IsInternal() && (l == t || Pulls(g, t, l))) ||
     (exists w :: w in g[n].wholes && w < n && g[w].IsInternal() && Pulls(g, w, l)))
  }

  lemma {:induction false} PullsThrough(g: Graph, n: nat, l: nat, m: nat)
    requires Layered(g) && Pulls(g, n, l) && Pulls(g, l, m)
    ensures Pulls(g, n, m) && l < n
    decreases n
  {
    if t :| t in g[n].links && t < n && g[t].IsInternal() && (l == t || Pulls(g, t, l)) {
      if l != t {
        PullsThrough(g, t, l, m);
      }
      assert Pulls(g, t, m);
    } else {
      var w :| w in g[n].wholes && w < n && g[w].IsInternal() && Pulls(g, w, l);
      PullsThrough(g, w, l, m);
    }
  }

  /** What the libraries of `r` below `n` pull is in `r` too. */
  ghost predicate ClosedBelow(g: Graph, r: seq<nat>, n: nat)
    requires Layered(g)
  {
    forall x, l :: x in r && x < n && Pulls(g, x, l) ==> l in r
  }

  /** `l` is pulled by one of the first `i` link_with edges of `n`. */
  ghost predicate PulledByLinks(g: Graph, n: nat, i: nat, l: nat)
    requires Layered(g) && n < |g| && i <= |g[n].links|
  {
    exists j :: 0 <= j < i && PulledByLink(g, g[n].links[j], l)
  }

  ghost predicate PulledByLink(g: Graph, t: nat, l: nat)
    requires Layered(g)
  {
    t < |g| && g[t].IsInternal() && (l == t || Pulls(g, t, l))
  }

  ghost predicate PulledByWholes(g: Graph, n: nat, i: nat, l: nat)
    requires Layered(g) && n < |g| && i <= |g[n].wholes|
  {
    exists j :: 0 <= j < i && PulledByWhole(g, g[n].wholes[j], l)
  }

  ghost predicate PulledByWhole(g: Graph, w: nat, l: nat)
    requires Layered(g)
  {
    w < |g| && g[w].IsInternal() && Pulls(g, w, l)
  }

  lemma PullsByEdges(g: Graph, n: nat, l: nat)
    requires Layered(g) && n < |g|
    ensures Pulls(g, n, l) <==> PulledByLinks(g, n, |g[n].links|, l) || PulledByWholes(g, n, |g[n].wholes|, l)
  {
    if Pulls(g, n, l) {
      if t :| t in g[n].links && t < n && g[t].IsInternal() && (l == t || Pulls(g, t, l)) {
        var j :| 0 <= j < |g[n].links| && g[n].links[j] == t;
        assert PulledByLink(g, g[n].links[j], l);
      } else {
        var w :| w in g[n].wholes && w < n && g[w].IsInternal() && Pulls(g, w, l);
        var j :| 0 <= j < |g[n].wholes| && g[n].wholes[j] == w;
        assert PulledByWhole(g, g[n].wholes[j], l);
      }
    }
  }

  /** Adds the internal libraries behind `n` to an ordered set. */
  method InternalRecurse(g: Graph, n: nat, result: seq<nat>) returns (r: seq<nat>)
    requires Layered(g) && n < |g| && NoRepeats(result) && ClosedBelow(g, result, n)
    ensures NoRepeats(r) && forall l :: l in r <==> l in result || Pulls(g, n, l)
    decreases n, 1
  {
    r := InternalLinks(g, n, result);
    assert ClosedBelow(g, r, n);
    r := InternalWholes(g, n, r);
    forall l
      ensures l in r <==> l in result || Pulls(g, n, l)
    {
      PullsByEdges(g, n, l);
    }
  }

  method InternalLinks(g: Graph, n: nat, result: seq<nat>) returns (r: seq<nat>)
    requires Layered(g) && n < |g| && NoRepeats(result) && ClosedBelow(g, result, n)
    ensures NoRepeats(r) && ClosedBelow(g, r, n)
    ensures forall l :: l in r <==> l in result || PulledByLinks(g, n, |g[n].links|, l)
    decreases n, 0
  {
    r := result;
    var links := g[n].links;
    for i := 0 to |links|
      invariant NoRepeats(r) && ClosedBelow(g, r, n)
      invariant forall l :: l in r <==> l in result || PulledByLinks(g, n, i, l)
    {
      var t := links[i];
      ghost var was := r;
      if g[t].IsInternal() && t !in r {
        r := r + [t];
        r := InternalRecurse(g, t, r);
      }
      Extended(g, n, t, was, r);
      assert forall l :: PulledByLinks(g, n, i + 1, l) <==> PulledByLinks(g, n, i, l) || PulledByLink(g, links[i], l);
    }
  }

  /** Then `r` has gained `t` and what it pulls, and is closed again. */
  lemma Extended(g: Graph, n: nat, t: nat, was: seq<nat>, r: seq<nat>)
    requires Layered(g) && t < n && t < |g| && ClosedBelow(g, was, n)
    requires if g[t].IsInternal() && t !in was then forall l :: l in r <==> l in was || l == t || Pulls(g, t, l)
             else r == was
    ensures forall l :: l in r <==> l in was || PulledByLink(g, t, l)
    ensures ClosedBelow(g, r, n)
  {
    forall x, l | x in r && x < n && Pulls(g, x, l)
      ensures l in r
    {
      if x !in was && x != t {
        PullsThrough(g, t, x, l);
      }
    }
  }

  method InternalWholes(g: Graph, n: nat, result: seq<nat>) returns (r: seq<nat>)
    requires Layered(g) && n < |g| && NoRepeats(result) && ClosedBelow(g, result, n)
    ensures NoRepeats(r)
    ensures forall l :: l in r <==> l in result || PulledByWholes(g, n, |g[n].wholes|, l)
    decreases n, 0
  {
    r := result;
    var wholes := g[n].wholes;
    for i := 0 to |wholes|
      invariant NoRepeats(r) && ClosedBelow(g, r, n)
      invariant forall l :: l in r <==> l in result || PulledByWholes(g, n, i, l)
    {
      var w := wholes[i];
      ghost var was := r;
      if g[w].IsInternal() {
        r := InternalRecurse(g, w, r);
        Widened(g, n, w, was, r);
      }
      assert forall l ::
               PulledByWholes(g, n, i + 1, l) <==> PulledByWholes(g, n, i, l) || PulledByWhole(g, wholes[i], l);
    }
  }

  lemma Widened(g: Graph, n: nat, w: nat, was: seq<nat>, r: seq<nat>)
    requires Layered(g) && w < |g| && ClosedBelow(g, was, n) && forall l :: l in r <==> l in was || Pulls(g, w, l)
    ensures ClosedBelow(g, r, n)
  {
    forall x, l | x in r && x < n && Pulls(g, x, l)
      ensures l in r
    {
      if x !in was {
        PullsThrough(g, w, x, l);
      }
    }
  }

  /** The internal libraries behind `n`, without repeats. */
  method GetInternalStaticLibraries(g: Graph, n: nat) returns (r: seq<nat>)
    requires Layered(g) && n < |g|
    ensures NoRepeats(r) && forall l :: l in r <==> Pulls(g, n, l)
  {
    r := InternalRecurse(g, n, []);
  }
}
