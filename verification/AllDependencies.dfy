/**
 The memoised traversal behind the list of targets needed for linking.
 */
module AllDependencies {
  import opened LinkGraph

  /** What a visit remembers: the target, whether internal libraries are still to be listed, and
      whether rustc still handles the libraries. */
  datatype Key = Key(target: nat, internals: bool, rustc: bool)

  /** A listed target, and whether it came from a link_whole edge. */
  datatype Yield = Yield(target: nat, whole: bool)

  // ----- the unmemoised meaning

  /** A walk along link_with and link_whole edges; only static libraries are entered. */
  datatype Path = Root(key: Key) | Hop(init: Path, whole: bool, target: nat)

  function Start(p: Path): Key { if p.Root? then p.key else Start(p.init) }

  /** The flag of internal libraries holds while all libraries entered are internal, the
      flag of rustc while all of them have the Rust ABI. */
  function KeyOf(g: Graph, p: Path): Key {
    if p.Root? then p.key
    else if p.target < |g| then Next(g, KeyOf(g, p.init), p.target)
    else Key(p.target, false, false)
  }

  function Next(g: Graph, k: Key, t: nat): Key
    requires t < |g|
  {
    Key(t, k.internals && g[t].IsInternal(), k.rustc && g[t].UsesRustAbi())
  }

  /** Procedural macros are passed over outside of Rust. */
  predicate Skipped(g: Graph, k: Key, t: nat)
    requires t < |g|
  {
    !k.rustc && g[t].UsesRustAbi() && g[t].crate == ProcMacro
  }

  predicate Enters(g: Graph, k: Key, whole: bool, t: nat) {
    && k.target < |g| && t < |g| && g[t].kind.StaticLibrary?
    && (if whole then t in g[k.target].wholes else t in g[k.target].links && !Skipped(g, k, t))
  }

  predicate Walk(g: Graph, p: Path) {
    if p.Root? then p.key.target < |g| else Walk(g, p.init) && Enters(g, KeyOf(g, p.init), p.whole, p.target)
  }

  /** The targets listed at a visit. */
  predicate Lists(g: Graph, k: Key, y: Yield) {
    && k.target < |g| && y.target < |g|
    && (if y.whole then y.target in g[k.target].wholes
        else y.target in g[k.target].links && ListsLink(g, k, y.target))
  }

  predicate ListsLink(g: Graph, k: Key, t: nat)
    requires t < |g|
  {
    (k.rustc || !g[t].UsesRustAbi()) && (k.internals || !g[t].IsInternal())
  }

  /** Some walk from `root` ends at a visit with key `k`. */
  ghost predicate Reached(g: Graph, root: Key, k: Key) {
    exists p :: Walk(g, p) && Start(p) == root && KeyOf(g, p) == k
  }

  // ----- the traversal

  ghost function AllKeys(g: Graph): set<Key> {
    set t: nat, i: bool, r: bool | 0 <= t < |g| :: Key(t, i, r)
  }

  /** Everything that is entered from a visit `k` is in `visited`. */
  predicate Closed(g: Graph, k: Key, visited: set<Key>) {
    && k.target < |g| && Below(g[k.target].links, |g|) && Below(g[k.target].wholes, |g|)
    && ClosedLinks(g, k, visited, |g[k.target].links|) && ClosedWholes(g, k, visited, |g[k.target].wholes|)
  }

  predicate ClosedLinks(g: Graph, k: Key, visited: set<Key>, n: nat)
    requires k.target < |g| && Below(g[k.target].links, |g|) && n <= |g[k.target].links|
  {
    forall i :: 0 <= i < n && Enters(g, k, false, g[k.target].links[i]) ==> Next(g, k, g[k.target].links[i]) in visited
  }

  predicate ClosedWholes(g: Graph, k: Key, visited: set<Key>, n: nat)
    requires k.target < |g| && Below(g[k.target].wholes, |g|) && n <= |g[k.target].wholes|
  {
    forall i :: 0 <= i < n && Enters(g, k, true, g[k.target].wholes[i]) ==> Next(g, k, g[k.target].wholes[i]) in visited
  }

  /** What is listed at one of the visits in `added`. */
  ghost predicate ListedAt(g: Graph, added: set<Key>, y: Yield) {
    exists k :: k in added && Lists(g, k, y)
  }

  /** The visits in `added` were all reached from `root` and are complete: what they enter is
      visited, and `out` is what they list. */
  ghost predicate Complete(g: Graph, root: Key, added: set<Key>, visited: set<Key>, out: seq<Yield>) {
    && (forall k :: k in added ==> Reached(g, root, k) && Closed(g, k, visited))
    && (forall y :: y in out <==> ListedAt(g, added, y))
  }

  lemma CompleteUnion(g: Graph, root: Key, a: set<Key>, va: set<Key>, oa: seq<Yield>, b: set<Key>, vb: set<Key>,
                      ob: seq<Yield>)
    requires Complete(g, root, a, va, oa) && Complete(g, root, b, vb, ob) && va <= vb
    ensures Complete(g, root, a + b, vb, oa + ob)
  {
    forall y
      ensures y in oa + ob <==> ListedAt(g, a + b, y)
    {
      if k :| k in a + b && Lists(g, k, y) {
        assert ListedAt(g, a, y) || ListedAt(g, b, y);
      }
    }
  }

  /** `y` is listed at visit `k` because of one of its first `n` link_with edges. */
  predicate OwnLink(g: Graph, k: Key, n: nat, y: Yield)
    requires k.target < |g| && Below(g[k.target].links, |g|) && n <= |g[k.target].links|
  {
    !y.whole && y.target < |g| && y.target in g[k.target].links[..n] && ListsLink(g, k, y.target)
  }

  /** One link_with edge of visit `key`. */
  method FromLink(g: Graph, key: Key, t: nat, before: set<Key>, ghost p: Path)
    returns (out: seq<Yield>, visited: set<Key>, ghost inner: seq<Yield>)
    requires WellFormed(g) && Walk(g, p) && KeyOf(g, p) == key && key.target < |g| && t < |g|
    requires t in g[key.target].links && before <= AllKeys(g)
    ensures before <= visited <= AllKeys(g)
    ensures Complete(g, Start(p), visited - before, visited, inner)
    ensures Enters(g, key, false, t) ==> Next(g, key, t) in visited
    ensures forall y :: y in out <==> y in inner || (y == Yield(t, false) && ListsLink(g, key, t))
    decreases AllKeys(g) - before, 1
  {
    out, visited, inner := [], before, [];
    if !key.rustc && g[t].UsesRustAbi() {
      if g[t].crate == ProcMacro {
        return;
      }
    } else if !key.internals && g[t].IsInternal() {
    } else {
      out := [Yield(t, false)];
    }
    if g[t].kind.StaticLibrary? {
      var more;
      more, visited := Recurse(g, Next(g, key, t), visited, Hop(p, false, t));
      out, inner := out + more, more;
    }
  }

  /** One link_whole edge of visit `key`. */
  method FromWhole(g: Graph, key: Key, t: nat, before: set<Key>, ghost p: Path)
    returns (out: seq<Yield>, visited: set<Key>, ghost inner: seq<Yield>)
    requires WellFormed(g) && Walk(g, p) && KeyOf(g, p) == key && key.target < |g| && t < |g|
    requires t in g[key.target].wholes && before <= AllKeys(g)
    ensures before <= visited <= AllKeys(g)
    ensures Complete(g, Start(p), visited - before, visited, inner)
    ensures Enters(g, key, true, t) ==> Next(g, key, t) in visited
    ensures forall y :: y in out <==> y in inner || y == Yield(t, true)
    decreases AllKeys(g) - before, 1
  {
    out, visited, inner := [Yield(t, true)], before, [];
    if g[t].kind.StaticLibrary? {
      var more;
      more, visited := Recurse(g, Next(g, key, t), visited, Hop(p, true, t));
      out, inner := out + more, more;
    }
  }

  method FromLinks(g: Graph, key: Key, before: set<Key>, ghost p: Path)
    returns (out: seq<Yield>, visited: set<Key>, ghost inner: seq<Yield>)
    requires WellFormed(g) && Walk(g, p) && KeyOf(g, p) == key && key.target < |g| && before <= AllKeys(g)
    ensures before <= visited <= AllKeys(g)
    ensures Complete(g, Start(p), visited - before, visited, inner)
    ensures Below(g[key.target].links, |g|) && ClosedLinks(g, key, visited, |g[key.target].links|)
    ensures forall y :: y in out <==> y in inner || OwnLink(g, key, |g[key.target].links|, y)
    decreases AllKeys(g) - before, 2
  {
    assert TargetOk(g, key.target);
    var links := g[key.target].links;
    out, visited, inner := [], before, [];
    for n := 0 to |links|
      invariant before <= visited <= AllKeys(g)
      invariant Complete(g, Start(p), visited - before, visited, inner)
      invariant ClosedLinks(g, key, visited, n)
      invariant forall y :: y in out <==> y in inner || OwnLink(g, key, n, y)
    {
      var more, now, deeper := FromLink(g, key, links[n], visited, p);
      CompleteUnion(g, Start(p), visited - before, visited, inner, now - visited, now, deeper);
      assert (visited - before) + (now - visited) == now - before;
      assert links[..n + 1] == links[..n] + [links[n]];
      out, visited, inner := out + more, now, inner + deeper;
    }
    assert links[..|links|] == links;
  }

  method FromWholes(g: Graph, key: Key, before: set<Key>, ghost p: Path)
    returns (out: seq<Yield>, visited: set<Key>, ghost inner: seq<Yield>)
    requires WellFormed(g) && Walk(g, p) && KeyOf(g, p) == key && key.target < |g| && before <= AllKeys(g)
    ensures before <= visited <= AllKeys(g)
    ensures Complete(g, Start(p), visited - before, visited, inner)
    ensures Below(g[key.target].wholes, |g|) && ClosedWholes(g, key, visited, |g[key.target].wholes|)
    ensures forall y :: y in out <==> y in inner || (y.whole && y.target in g[key.target].wholes)
    decreases AllKeys(g) - before, 2
  {
    assert TargetOk(g, key.target);
    var wholes := g[key.target].wholes;
    out, visited, inner := [], before, [];
    for n := 0 to |wholes|
      invariant before <= visited <= AllKeys(g)
      invariant Complete(g, Start(p), visited - before, visited, inner)
      invariant ClosedWholes(g, key, visited, n)
      invariant forall y :: y in out <==> y in inner || (y.whole && y.target in wholes[..n])
    {
      var more, now, deeper := FromWhole(g, key, wholes[n], visited, p);
      CompleteUnion(g, Start(p), visited - before, visited, inner, now - visited, now, deeper);
      assert (visited - before) + (now - visited) == now - before;
      assert wholes[..n + 1] == wholes[..n] + [wholes[n]];
      out, visited, inner := out + more, now, inner + deeper;
    }
    assert wholes[..|wholes|] == wholes;
  }

  /** Visits `key`, unless it is in `seen`, and everything that is entered from it; `p` is a walk that
      leads to it. */
  method Recurse(g: Graph, key: Key, seen: set<Key>, ghost p: Path) returns (out: seq<Yield>, visited: set<Key>)
    requires WellFormed(g) && Walk(g, p) && KeyOf(g, p) == key && key.target < |g| && seen <= AllKeys(g)
    ensures seen + {key} <= visited <= AllKeys(g)
    ensures Complete(g, Start(p), visited - seen, visited, out)
    decreases AllKeys(g) - seen, 0
  {
    if key in seen {
      return [], seen;
    }
    var before := seen + {key};
    var links, afterLinks, deep1 := FromLinks(g, key, before, p);
    var wholes, afterWholes, deep2 := FromWholes(g, key, afterLinks, p);
    visited, out := afterWholes, links + wholes;
    ghost var root := Start(p);
    CompleteUnion(g, root, afterLinks - before, afterLinks, deep1, afterWholes - afterLinks, afterWholes, deep2);
    assert (afterLinks - before) + (afterWholes - afterLinks) == visited - before;
    CompleteWith(g, root, key, visited - before, visited, deep1 + deep2, out, p);
    assert {key} + (visited - before) == visited - seen;
  }

  lemma CompleteWith(g: Graph, root: Key, key: Key, added: set<Key>, visited: set<Key>, inner: seq<Yield>,
                     out: seq<Yield>, p: Path)
    requires WellFormed(g) && Walk(g, p) && Start(p) == root && KeyOf(g, p) == key && Closed(g, key, visited)
    requires Complete(g, root, added, visited, inner)
    requires forall y :: y in out <==>
               y in inner || OwnLink(g, key, |g[key.target].links|, y) || (y.whole && y.target in g[key.target].wholes)
    ensures Complete(g, root, {key} + added, visited, out)
  {
    assert TargetOk(g, key.target);
    assert g[key.target].links[..|g[key.target].links|] == g[key.target].links;
    assert Reached(g, root, key);
    forall y
      ensures y in out <==> ListedAt(g, {key} + added, y)
    {
      assert Lists(g, key, y)
        <==> OwnLink(g, key, |g[key.target].links|, y) || (y.whole && y.target in g[key.target].wholes);
      if k :| k in {key} + added && Lists(g, k, y) {
        assert k == key || ListedAt(g, added, y);
      }
    }
  }

  // ----- the main result

  lemma {:induction false} WalkVisited(g: Graph, p: Path, visited: set<Key>)
    requires Walk(g, p) && Start(p) in visited && forall k :: k in visited ==> Closed(g, k, visited)
    ensures KeyOf(g, p) in visited
    decreases p
  {
    if p.Hop? {
      WalkVisited(g, p.init, visited);
      var k := KeyOf(g, p.init);
      assert Closed(g, k, visited);
      if p.whole {
        var i :| 0 <= i < |g[k.target].wholes| && g[k.target].wholes[i] == p.target;
        assert Enters(g, k, true, g[k.target].wholes[i]);
      } else {
        var i :| 0 <= i < |g[k.target].links| && g[k.target].links[i] == p.target;
        assert Enters(g, k, false, g[k.target].links[i]);
      }
    }
  }

  /** Some walk from `root` ends at a visit that lists `y`. */
  ghost predicate ListedByWalk(g: Graph, root: Key, y: Yield) {
    exists p :: Walk(g, p) && Start(p) == root && Lists(g, KeyOf(g, p), y)
  }

  /** From a fresh start, the traversal lists exactly what the unmemoised walks list. */
  method All(g: Graph, root: Key) returns (out: seq<Yield>)
    requires WellFormed(g) && root.target < |g|
    ensures forall y :: y in out <==> ListedByWalk(g, root, y)
  {
    var visited;
    out, visited := Recurse(g, root, {}, Root(root));
    assert visited - {} == visited;
    forall y
      ensures y in out <==> ListedByWalk(g, root, y)
    {
      if y in out {
        var k :| k in visited && Lists(g, k, y);
        var p :| Walk(g, p) && Start(p) == root && KeyOf(g, p) == k;
      }
      if p :| Walk(g, p) && Start(p) == root && Lists(g, KeyOf(g, p), y) {
        WalkVisited(g, p, visited);
        assert ListedAt(g, visited, y);
      }
    }
  }

  /** The targets needed for linking `self`: its direct ones, and those listed for link_with. */
  ghost predicate Needed(g: Graph, self: nat, t: nat)
    requires self < |g|
  {
    || t in g[self].links || t in g[self].wholes
    || ListedByWalk(g, Key(self, true, true), Yield(t, false))
  }

  predicate NoRepeats(s: seq<nat>) { forall i, j :: 0 <= i < j < |s| ==> s[i] != s[j] }

  method GetDependencies(g: Graph, self: nat) returns (result: seq<nat>)
    requires WellFormed(g) && self < |g|
    ensures NoRepeats(result) && forall t :: t in result <==> Needed(g, self, t)
  {
    result := AddAll([], g[self].links);
    result := AddAll(result, g[self].wholes);
    ghost var direct := result;
    var listed := All(g, Key(self, true, true));
    for i := 0 to |listed|
      invariant NoRepeats(result)
      invariant forall t :: t in result <==> t in direct || Yield(t, false) in listed[..i]
    {
      assert listed[..i + 1] == listed[..i] + [listed[i]];
      if !listed[i].whole {
        result := AddAll(result, [listed[i].target]);
      }
    }
    assert listed[..|listed|] == listed;
  }

  /** Adds to an ordered set. */
  method AddAll(s: seq<nat>, more: seq<nat>) returns (r: seq<nat>)
    requires NoRepeats(s)
    ensures NoRepeats(r) && s <= r && forall t :: t in r <==> t in s || t in more
  {
    r := s;
    for i := 0 to |more|
      invariant NoRepeats(r) && s <= r && forall t :: t in r <==> t in s || t in more[..i]
    {
      assert more[..i + 1] == more[..i] + [more[i]];
      if more[i] !in r {
        r := r + [more[i]];
      }
    }
    assert more[..|more|] == more;
  }
}
