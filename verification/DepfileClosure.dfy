/**
 The dependency graph of a file, and its transitive closure with a shared set of visited names.
 */
module DepfileClosure {
  import opened Trails
  import opened Depfile

  // ----- the order of names

  predicate Less(a: string, b: string) {
    b != "" && (a == "" || a[0] < b[0] || (a[0] == b[0] && Less(a[1..], b[1..])))
  }

  lemma {:induction false} LessTotal(a: string, b: string)
    ensures a == b || Less(a, b) || Less(b, a)
  {
    if a != "" && b != "" && a[0] == b[0] {
      LessTotal(a[1..], b[1..]);
      assert a == [a[0]] + a[1..] && b == [b[0]] + b[1..];
    }
  }

  lemma {:induction false} LessTransitive(a: string, b: string, c: string)
    requires Less(a, b) && Less(b, c)
    ensures Less(a, c)
  {
    if a != "" && a[0] == b[0] == c[0] {
      LessTransitive(a[1..], b[1..], c[1..]);
    }
  }

  /** Sorted, and so without repeats. */
  predicate Increasing(s: seq<string>) { forall i, j :: 0 <= i < j < |s| ==> Less(s[i], s[j]) }

  method Insert(s: seq<string>, x: string) returns (r: seq<string>)
    requires Increasing(s) && x !in s
    ensures Increasing(r) && forall y :: y in r <==> y in s || y == x
  {
    var i := 0;
    while i < |s| && Less(s[i], x)
      invariant 0 <= i <= |s| && forall k :: 0 <= k < i ==> Less(s[k], x)
    {
      i := i + 1;
    }
    r := s[..i] + [x] + s[i..];
    assert s == s[..i] + s[i..];
    if i < |s| {
      LessTotal(s[i], x);
      forall k | i < k < |s|
        ensures Less(x, s[k])
      {
        LessTransitive(x, s[i], s[k]);
      }
    }
  }

  method Sorted(names: set<string>) returns (r: seq<string>)
    ensures Increasing(r) && forall y :: y in r <==> y in names
  {
    r := [];
    var todo := names;
    while todo != {}
      invariant todo <= names && Increasing(r) && forall y :: y in r <==> y in names - todo
    {
      var x :| x in todo;
      r := Insert(r, x);
      todo := todo - {x};
    }
  }

  // ----- the graph

  type Graph = map<string, set<string>>

  predicate Names(rule: Rule, n: string) { n in rule.targets }

  predicate Gives(rule: Rule, posix: string -> string, d: string) {
    exists i :: 0 <= i < |rule.deps| && posix(rule.deps[i]) == d
  }

  /** Some of the first `k` rules names `n`, or gives it the dependency `d`. */
  predicate Named(rules: seq<Rule>, k: nat, n: string)
    requires k <= |rules|
  {
    exists i :: 0 <= i < k && Names(rules[i], n)
  }

  predicate Depends(rules: seq<Rule>, k: nat, posix: string -> string, n: string, d: string)
    requires k <= |rules|
  {
    exists i :: 0 <= i < k && Names(rules[i], n) && Gives(rules[i], posix, d)
  }

  /** The graph of some rules: a target depends on what any rule naming it gives. */
  ghost predicate GraphOf(m: Graph, rules: seq<Rule>, k: nat, posix: string -> string)
    requires k <= |rules|
  {
    && (forall n :: n in m <==> Named(rules, k, n))
    && (forall n, d :: n in m ==> (d in m[n] <==> Depends(rules, k, posix, n, d)))
  }

  /** `m` after a rule has been added for its first `j` targets. */
  ghost predicate Added(m: Graph, m': Graph, rule: Rule, j: nat, posix: string -> string)
    requires j <= |rule.targets|
  {
    && (forall n :: n in m' <==> n in m || n in rule.targets[..j])
    && (forall n, d :: n in m' ==>
          (d in m'[n] <==> (n in m && d in m[n]) || (n in rule.targets[..j] && Gives(rule, posix, d))))
  }

  method Dependencies(rule: Rule, posix: string -> string) returns (deps: set<string>)
    ensures forall d :: d in deps <==> Gives(rule, posix, d)
  {
    deps := {};
    for i := 0 to |rule.deps|
      invariant forall d :: d in deps <==> exists k :: 0 <= k < i && posix(rule.deps[k]) == d
    {
      deps := deps + {posix(rule.deps[i])};
    }
  }

  method AddRule(m: Graph, rule: Rule, posix: string -> string) returns (m': Graph)
    ensures Added(m, m', rule, |rule.targets|, posix)
  {
    m' := m;
    for j := 0 to |rule.targets|
      invariant Added(m, m', rule, j, posix)
    {
      var target := rule.targets[j];
      assert rule.targets[..j + 1] == rule.targets[..j] + [target];
      var deps := Dependencies(rule, posix);
      var known := if target in m' then m'[target] else {};
      ghost var before := m';
      m' := m'[target := known + deps];
      TargetAdded(m, before, m', rule, j, posix, deps);
    }
  }

  lemma TargetAdded(m: Graph, before: Graph, after: Graph, rule: Rule, j: nat, posix: string -> string,
                    deps: set<string>)
    requires j < |rule.targets| && Added(m, before, rule, j, posix) && forall d :: d in deps <==> Gives(rule, posix, d)
    requires var t := rule.targets[j]; after == before[t := (if t in before then before[t] else {}) + deps]
    ensures Added(m, after, rule, j + 1, posix)
  {
    hide Gives;
    var t, done := rule.targets[j], rule.targets[..j];
    assert rule.targets[..j + 1] == done + [t];
    forall n, d | n in after
      ensures d in after[n] <==> (n in m && d in m[n]) || (n in done + [t] && Gives(rule, posix, d))
    {
      if n in before {
        assert d in before[n] <==> (n in m && d in m[n]) || (n in done && Gives(rule, posix, d));
      }
    }
  }

  lemma RuleAdded(m: Graph, m': Graph, rules: seq<Rule>, k: nat, posix: string -> string)
    requires k < |rules| && GraphOf(m, rules, k, posix) && Added(m, m', rules[k], |rules[k].targets|, posix)
    ensures GraphOf(m', rules, k + 1, posix)
  {
    assert rules[k].targets[..|rules[k].targets|] == rules[k].targets;
    forall n
      ensures n in m' <==> Named(rules, k + 1, n)
    {
      assert Named(rules, k + 1, n) <==> Named(rules, k, n) || Names(rules[k], n);
    }
    forall n, d | n in m'
      ensures d in m'[n] <==> Depends(rules, k + 1, posix, n, d)
    {
      assert Depends(rules, k + 1, posix, n, d) <==>
             Depends(rules, k, posix, n, d) || (Names(rules[k], n) && Gives(rules[k], posix, d));
      assert Depends(rules, k, posix, n, d) ==> Named(rules, k, n);
    }
  }

  // ----- reachability

  predicate Follows(m: Graph, t: Trail<string>) {
    t.To? ==> Follows(m, t.init) && t.init.target in m && t.target in m[t.init.target]
  }

  /** `b` is `a`, or is reached from it. */
  ghost predicate Within(m: Graph, a: string, b: string) {
    exists t: Trail<string> :: Follows(m, t) && Origin(t) == a && t.target == b
  }

  /** `b` is reached from `a` in one or more steps. */
  ghost predicate Reaches(m: Graph, a: string, b: string) {
    exists t: Trail<string> :: t.To? && Follows(m, t) && Origin(t) == a && t.target == b
  }

  lemma WithinNext(m: Graph, a: string, b: string, c: string)
    requires Within(m, a, b) && b in m && c in m[b]
    ensures Within(m, a, c) && Reaches(m, a, c)
  {
    var t: Trail<string> :| Follows(m, t) && Origin(t) == a && t.target == b;
    var u := To(t, c);
    assert Follows(m, u) && Origin(u) == a && u.target == c;
  }

  // ----- the closure

  /** `d` is a dependency of one of `names`. */
  predicate DependencyOf(m: Graph, names: set<string>, d: string) {
    exists n :: n in names && n in m && d in m[n]
  }

  /** The names in `added` were reached from `root`, everything that they depend on is visited, and
      `deps` are their dependencies. */
  ghost predicate Complete(m: Graph, root: string, added: set<string>, visited: set<string>, deps: set<string>) {
    && (forall n :: n in added ==> Within(m, root, n) && (n in m ==> m[n] <= visited))
    && (forall d :: d in deps <==> DependencyOf(m, added, d))
  }

  lemma CompleteUnion(m: Graph, root: string, a: set<string>, va: set<string>, da: set<string>,
                      b: set<string>, vb: set<string>, db: set<string>)
    requires Complete(m, root, a, va, da) && Complete(m, root, b, vb, db) && va <= vb
    ensures Complete(m, root, a + b, vb, da + db)
  {
    forall d
      ensures d in da + db <==> DependencyOf(m, a + b, d)
    {
      assert DependencyOf(m, a + b, d) <==> DependencyOf(m, a, d) || DependencyOf(m, b, d);
    }
  }

  class DepFile {
    var depfile: Graph

    /** `posix` puts a dependency into its normal form, relative to the base directory. */
    constructor (lines: seq<string>, posix: string -> string)
      ensures var rules := Lines(Start, lines).rules; GraphOf(depfile, rules, |rules|, posix)
    {
      depfile := map[];
      new;
      var rules := Parse(lines);
      for k := 0 to |rules|
        invariant GraphOf(depfile, rules, k, posix)
      {
        ghost var before := depfile;
        depfile := AddRule(depfile, rules[k], posix);
        RuleAdded(before, depfile, rules, k, posix);
      }
    }

    /** The dependencies of `name` and of what it depends on, except behind names in `seen`. */
    method Collect(name: string, seen: set<string>, ghost root: string) returns (result: seq<string>,
                                                                                 visited: set<string>)
      requires Within(depfile, root, name)
      ensures seen + {name} <= visited && Increasing(result)
      ensures Complete(depfile, root, visited - seen, visited, set d | d in result)
      decreases depfile.Keys - seen
    {
      if name in seen {
        return [], seen;
      }
      visited := seen + {name};
      if name !in depfile {
        return [], visited;
      }
      var deps, inner := depfile[name], {};
      var todo := depfile[name];
      while todo != {}
        invariant todo <= depfile[name] && seen + {name} <= visited
        invariant depfile[name] - todo <= visited
        invariant Complete(depfile, root, visited - seen - {name}, visited, inner)
        invariant deps == depfile[name] + inner
      {
        var dep :| dep in todo;
        WithinNext(depfile, root, name, dep);
        var more, now := Collect(dep, visited, root);
        var found := set d | d in more;
        CompleteUnion(depfile, root, visited - seen - {name}, visited, inner, now - visited, now, found);
        assert (visited - seen - {name}) + (now - visited) == now - seen - {name};
        deps, inner, visited, todo := deps + found, inner + found, now, todo - {dep};
      }
      result := Sorted(deps);
      assert (set d | d in result) == deps;
      CompleteWith(depfile, root, name, visited - seen - {name}, visited, inner);
      assert {name} + (visited - seen - {name}) == visited - seen;
    }

    /** All names on which `name` depends, in one or more steps. */
    method GetAllDependencies(name: string) returns (result: seq<string>)
      ensures Increasing(result) && forall d :: d in result <==> Reaches(depfile, name, d)
    {
      assert Follows(depfile, At(name)) && Origin(At(name)) == name;
      var visited;
      result, visited := Collect(name, {}, name);
      assert visited - {} == visited;
      forall d
        ensures d in result <==> Reaches(depfile, name, d)
      {
        Exact(depfile, name, visited, (set x | x in result), d);
      }
    }
  }

  lemma CompleteWith(m: Graph, root: string, name: string, added: set<string>, visited: set<string>, inner: set<string>)
    requires name in m && Within(m, root, name) && m[name] <= visited && Complete(m, root, added, visited, inner)
    ensures Complete(m, root, {name} + added, visited, m[name] + inner)
  {
    forall d
      ensures d in m[name] + inner <==> DependencyOf(m, {name} + added, d)
    {
      assert DependencyOf(m, {name} + added, d) <==> d in m[name] || DependencyOf(m, added, d);
    }
  }

  lemma {:induction false} TrailVisited(m: Graph, t: Trail<string>, visited: set<string>)
    requires Follows(m, t) && Origin(t) in visited && forall n :: n in visited && n in m ==> m[n] <= visited
    ensures t.target in visited
    decreases t
  {
    if t.To? {
      TrailVisited(m, t.init, visited);
    }
  }

  lemma Exact(m: Graph, name: string, visited: set<string>, deps: set<string>, d: string)
    requires name in visited && Complete(m, name, visited, visited, deps)
    ensures d in deps <==> Reaches(m, name, d)
  {
    if d in deps {
      var n :| n in visited && n in m && d in m[n];
      WithinNext(m, name, n, d);
    }
    if Reaches(m, name, d) {
      var t: Trail<string> :| t.To? && Follows(m, t) && Origin(t) == name && t.target == d;
      TrailVisited(m, t.init, visited);
      assert DependencyOf(m, visited, d);
    }
  }
}
