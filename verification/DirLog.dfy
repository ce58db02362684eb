/**
 The directories that an installation creates, their log, and their removal.
 */
module DirLog {
  import opened Sequences

  /** A normalised path: the names from the root down. */
  type Path = seq<string>

  function Parent(p: Path): Path
    requires p != []
  {
    p[..|p| - 1]
  }

  predicate ParentClosed(dirs: set<Path>) {
    [] in dirs && forall p :: p in dirs && p != [] ==> Parent(p) in dirs
  }

  /** The ancestors of `p`, and `p` itself, down to the root. */
  function Lineage(p: Path): set<Path> {
    if p == [] then {[]} else Lineage(Parent(p)) + {p}
  }

  lemma {:induction false} LineageClosed(p: Path, dirs: set<Path>)
    requires ParentClosed(dirs)
    ensures ParentClosed(dirs + Lineage(p))
  {
    if p != [] {
      LineageClosed(Parent(p), dirs);
      var before := dirs + Lineage(Parent(p));
      assert dirs + Lineage(p) == before + {p};
      LineageSelf(Parent(p));
    }
  }

  lemma LineageSelf(p: Path)
    ensures p in Lineage(p)
  {
  }

  // ----- what one call creates

  /** The directories that have to be created for `p`, parents first. */
  function Missing(known: set<Path>, p: Path): seq<Path> {
    if p == [] || p in known then [] else Missing(known, Parent(p)) + [p]
  }

  lemma {:induction false} MissingMembers(known: set<Path>, p: Path)
    requires ParentClosed(known)
    ensures forall q :: q in Missing(known, p) <==> q in Lineage(p) && q !in known
  {
    if p in known {
      LineageKnown(known, p);
    } else {
      MissingMembers(known, Parent(p));
    }
  }

  lemma {:induction false} LineageKnown(known: set<Path>, p: Path)
    requires ParentClosed(known) && p in known
    ensures Lineage(p) <= known
  {
    if p != [] {
      LineageKnown(known, Parent(p));
    }
  }

  // ----- the log

  /** The log of directories created one after the other, starting from `initial`: each is new, and its
      parent was there before it. */
  predicate LogOk(initial: set<Path>, log: seq<Path>) {
    forall i :: 0 <= i < |log| ==>
      log[i] != [] && log[i] !in initial && log[i] !in log[..i] && (Parent(log[i]) in initial || Parent(log[i]) in
      log[..i])
  }

  lemma LogOne(initial: set<Path>, log: seq<Path>, p: Path)
    requires LogOk(initial, log) && p != [] && p !in initial && p !in log && (Parent(p) in initial || Parent(p) in log)
    ensures LogOk(initial, log + [p])
  {
    var more := log + [p];
    forall i | 0 <= i < |more|
      ensures more[i] != [] && more[i] !in initial && more[i] !in more[..i]
      ensures Parent(more[i]) in initial || Parent(more[i]) in more[..i]
    {
      assert more[..i] == if i < |log| then log[..i] else log;
    }
  }

  /** The log stays good when the missing directories of a path are added. */
  lemma {:induction false} LogMissing(initial: set<Path>, log: seq<Path>, p: Path)
    requires ParentClosed(initial) && LogOk(initial, log) && ParentClosed(initial + Elements(log))
    ensures LogOk(initial, log + Missing(initial + Elements(log), p))
  {
    var known := initial + Elements(log);
    if p == [] || p in known {
      assert log + [] == log;
    } else {
      var before := log + Missing(known, Parent(p));
      LogMissing(initial, log, Parent(p));
      MissingMembers(known, Parent(p));
      LineageSelf(Parent(p));
      LineageShort(Parent(p), p);
      assert log + Missing(known, p) == before + [p];
      LogOne(initial, before, p);
    }
  }

  lemma {:induction false} LineageShort(p: Path, q: Path)
    requires |p| < |q|
    ensures q !in Lineage(p)
  {
    if p != [] {
      LineageShort(Parent(p), q);
    }
  }

  /** The log of a sequence of paths. */
  function Log(initial: set<Path>, paths: seq<Path>): seq<Path> {
    if paths == [] then []
    else
      var log := Log(initial, paths[..|paths| - 1]);
      log + Missing(initial + Elements(log), paths[|paths| - 1])
  }

  // ----- creating directories

  class DirMaker {
    const dryRun: bool
    /** The file system: its directories now, its directories at the start, and what else it has. */
    var tree: set<Path>
    const initial: set<Path>
    const files: set<Path>
    var dirs: seq<Path>
    var allDirs: set<Path>
    /** The paths of the successful calls so far. */
    ghost var done: seq<Path>

    /** The directories that are there, or would be in a real run. */
    ghost function Known(): set<Path>
      reads this
    {
      initial + Elements(dirs)
    }

    /** The log is that of the successful calls; a real run has created what it logged, a dry run nothing. */
    ghost predicate Valid()
      reads this
    {
      && ParentClosed(initial) && ParentClosed(Known()) && Known() !! files
      && dirs == Log(initial, done) && LogOk(initial, dirs)
      && tree == if dryRun then initial else Known()
    }

    constructor (dryRun: bool, tree: set<Path>, files: set<Path>)
      requires ParentClosed(tree) && tree !! files
      ensures Valid() && this.dryRun == dryRun && initial == tree && this.files == files && done == []
    {
      this.dryRun, this.tree, this.initial, this.files := dryRun, tree, tree, files;
      dirs, allDirs, done := [], {}, [];
      new;
      assert Known() == tree;
    }

    /** Creates a directory with its missing ancestors. It fails if an ancestor is no directory or, in a real
        run, if the directory is there and must not be. */
    method MakeDirs(path: Path, existOk: bool) returns (ok: bool)
      requires Valid()
      modifies this
      ensures Valid() && allDirs == old(allDirs) + {path}
      ensures ok <==> Lineage(path) - {[]} !! files && (dryRun || existOk || path !in old(tree))
      ensures done == if ok then old(done) + [path] else old(done)
    {
      allDirs := allDirs + {path};
      var created, clear := Walk(path);
      if !clear {
        return false;
      }
      if !dryRun && !existOk && path in tree {
        return false;
      }
      ghost var before := dirs;
      LogMissing(initial, dirs, path);
      MissingMembers(Known(), path);
      LineageClosed(path, Known());
      ghost var known := Known() + Lineage(path);
      if !dryRun {
        var above := AllAbove(path);
        tree := tree + above;
      }
      created := ReverseInPlace(created);
      dirs := dirs + created;
      done := done + [path];
      assert done[..|done| - 1] == old(done);
      assert Elements(dirs) == Elements(before) + Elements(Missing(initial + Elements(before), path));
      assert initial + Elements(dirs) == known;
      return true;
    }

    /** Walks up from `path`, collecting what is missing, and stops at a directory created earlier. */
    method Walk(path: Path) returns (missing: seq<Path>, clear: bool)
      requires Valid()
      ensures clear <==> Lineage(path) - {[]} !! files
      ensures clear ==> Reversed(missing) == Missing(Known(), path)
    {
      var dirname := path;
      missing := [];
      while dirname != []
        invariant Missing(Known(), path) == Missing(Known(), dirname) + Reversed(missing)
        invariant Lineage(dirname) <= Lineage(path) && (Lineage(path) - Lineage(dirname)) !! files
        decreases |dirname|
      {
        if dirname in dirs {
          LineageKnown(Known(), dirname);
          break;
        }
        if dirname !in tree && dirname !in files {
          ReversedAppend(missing, dirname);
          missing := missing + [dirname];
        } else if dirname !in tree {
          LineageSelf(dirname);
          return missing, false;
        }
        dirname := Parent(dirname);
      }
      if dirname == [] {
        assert Lineage(dirname) == {[]};
      }
      clear := true;
      assert Missing(Known(), dirname) == [];
    }

    /** The directories that the operating system ensures for `path`. */
    method AllAbove(path: Path) returns (above: set<Path>)
      ensures above == Lineage(path)
    {
      above := {};
      var p := path;
      while p != []
        invariant above + Lineage(p) == Lineage(path)
        decreases |p|
      {
        above := above + {p};
        p := Parent(p);
      }
      above := above + {[]};
    }

    method ReverseInPlace(s: seq<Path>) returns (r: seq<Path>)
      ensures r == Reversed(s)
    {
      r := [];
      for i := 0 to |s|
        invariant r == Reversed(s[..i])
      {
        assert s[..i + 1][..i] == s[..i];
        r := [s[i]] + r;
      }
      assert s[..|s|] == s;
    }

    /** Writes the log: the directory created last comes first. */
    method Exit() returns (log: seq<Path>)
      requires Valid()
      modifies this`dirs
      ensures log == Reversed(Log(initial, done)) && dirs == log
    {
      dirs := ReverseInPlace(dirs);
      log := dirs;
    }
  }

  // ----- removing directories

  predicate Childless(tree: set<Path>, d: Path) {
    forall c :: c in tree && c != [] ==> Parent(c) != d
  }

  /** Removes the directories of a log one by one; a directory that is not there or not empty stays. */
  method Uninstall(tree: set<Path>, log: seq<Path>) returns (left: set<Path>, failures: nat)
    ensures left == Removed(tree, log) && failures == Failures(tree, log)
  {
    left, failures := tree, 0;
    for i := 0 to |log|
      invariant Removed(tree, log) == Removed(left, log[i..])
      invariant Failures(tree, log) == failures + Failures(left, log[i..])
    {
      assert log[i..][1..] == log[i + 1..];
      if log[i] in left && Childless(left, log[i]) {
        left := left - {log[i]};
      } else {
        failures := failures + 1;
      }
    }
  }

  function Failures(tree: set<Path>, log: seq<Path>): nat {
    if log == [] then 0
    else if log[0] in tree && Childless(tree, log[0]) then Failures(tree - {log[0]}, log[1..])
    else 1 + Failures(tree, log[1..])
  }

  function Removed(tree: set<Path>, log: seq<Path>): set<Path> {
    if log == [] then tree
    else Removed(if log[0] in tree && Childless(tree, log[0]) then tree - {log[0]} else tree, log[1..])
  }

  lemma LastChildless(initial: set<Path>, log: seq<Path>)
    requires ParentClosed(initial) && log != [] && LogOk(initial, log)
    ensures Childless(initial + Elements(log), log[|log| - 1])
  {
    var d := log[|log| - 1];
    forall c | c in initial + Elements(log) && c != []
      ensures Parent(c) != d
    {
      if c !in initial {
        var i :| 0 <= i < |log| && log[i] == c;
        assert Parent(c) in initial || Parent(c) in log[..i];
        forall x | x in log[..i]
          ensures x in log[..|log| - 1]
        {
        }
      }
    }
  }

  lemma LogPrefix(initial: set<Path>, log: seq<Path>)
    requires log != [] && LogOk(initial, log)
    ensures LogOk(initial, log[..|log| - 1])
  {
    var init := log[..|log| - 1];
    forall i | 0 <= i < |init|
      ensures init[i] == log[i] && init[..i] == log[..i]
    {
    }
  }

  lemma LastElement(initial: set<Path>, log: seq<Path>)
    requires log != [] && LogOk(initial, log)
    ensures (initial + Elements(log)) - {log[|log| - 1]} == initial + Elements(log[..|log| - 1])
  {
    assert log == log[..|log| - 1] + [log[|log| - 1]];
  }

  lemma RemoveFirst(tree: set<Path>, d: Path, rest: seq<Path>)
    requires d in tree && Childless(tree, d)
    ensures Removed(tree, [d] + rest) == Removed(tree - {d}, rest)
    ensures Failures(tree, [d] + rest) == Failures(tree - {d}, rest)
  {
    assert ([d] + rest)[1..] == rest;
  }

  /** Removing the directories in the logged order always removes an empty directory that was created, and
      ends at the initial tree. */
  lemma {:induction false} UninstallRestores(initial: set<Path>, log: seq<Path>)
    requires ParentClosed(initial) && LogOk(initial, log)
    ensures Failures(initial + Elements(log), Reversed(log)) == 0
    ensures Removed(initial + Elements(log), Reversed(log)) == initial
  {
    if log == [] {
      assert initial + Elements(log) == initial;
    } else {
      var init, last := log[..|log| - 1], log[|log| - 1];
      LogPrefix(initial, log);
      UninstallRestores(initial, init);
      LastChildless(initial, log);
      LastElement(initial, log);
      RemoveFirst(initial + Elements(log), last, Reversed(init));
    }
  }

  /** `q` is one of the paths, or lies above one. */
  predicate Wanted(paths: seq<Path>, q: Path) {
    exists i :: 0 <= i < |paths| && q in Lineage(paths[i])
  }

  lemma WantedNext(paths: seq<Path>, q: Path)
    requires paths != []
    ensures Wanted(paths, q) <==> Wanted(paths[..|paths| - 1], q) || q in Lineage(paths[|paths| - 1])
  {
    var init := paths[..|paths| - 1];
    if i :| 0 <= i < |paths| && q in Lineage(paths[i]) {
      if i < |init| {
        assert q in Lineage(init[i]);
      }
    }
  }

  /** The log of any sequence of calls has no repeats, lists parents before children, and consists of exactly the
      directories that were wanted and not there. */
  lemma {:induction false} LogExact(initial: set<Path>, paths: seq<Path>)
    requires ParentClosed(initial)
    ensures LogOk(initial, Log(initial, paths)) && ParentClosed(initial + Elements(Log(initial, paths)))
    ensures forall q :: q in Log(initial, paths) <==> q !in initial && Wanted(paths, q)
  {
    if paths == [] {
      assert initial + Elements([]) == initial;
    } else {
      var init, last := paths[..|paths| - 1], paths[|paths| - 1];
      LogExact(initial, init);
      LogStep(initial, Log(initial, init), last);
      forall q
        ensures q in Log(initial, paths) <==> q !in initial && Wanted(paths, q)
      {
        WantedNext(paths, q);
      }
    }
  }

  lemma LogStep(initial: set<Path>, log: seq<Path>, p: Path)
    requires ParentClosed(initial) && LogOk(initial, log) && ParentClosed(initial + Elements(log))
    ensures var more := log + Missing(initial + Elements(log), p);
            && LogOk(initial, more) && ParentClosed(initial + Elements(more))
            && forall q :: q in more <==> q in log || (q !in initial && q in Lineage(p))
  {
    var known := initial + Elements(log);
    LogMissing(initial, log, p);
    MissingMembers(known, p);
    LineageClosed(p, known);
    assert initial + Elements(log + Missing(known, p)) == known + Lineage(p);
  }

  /** Call `i` succeeds after the calls before it: no ancestor is a file and, in a real run, the directory is not
      there already unless it may be. */
  predicate Allowed(dryRun: bool, tree: set<Path>, files: set<Path>, paths: seq<Path>, existOk: seq<bool>, i: nat)
    requires i < |paths| == |existOk|
  {
    && Lineage(paths[i]) - {[]} !! files
    && (dryRun || existOk[i] || paths[i] !in tree + Elements(Log(tree, paths[..i])))
  }

  /** As long as existing directories are allowed, a dry run makes the same calls as a real one. */
  lemma DryRunAgrees(tree: set<Path>, files: set<Path>, paths: seq<Path>, existOk: seq<bool>)
    requires |existOk| == |paths| && forall i :: 0 <= i < |existOk| ==> existOk[i]
    ensures forall i :: 0 <= i < |paths| ==>
              (Allowed(true, tree, files, paths, existOk, i) <==> Allowed(false, tree, files, paths, existOk, i))
  {
  }

  /** An installation creates directories up to the first call that fails, and writes the log in any case. Whether it
      is a dry run changes neither the log of the `n` calls that were made nor, as long as existing directories are
      allowed, how many these are. */
  method Install(dryRun: bool, tree: set<Path>, files: set<Path>, paths: seq<Path>, existOk: seq<bool>)
    returns (n: nat, log: seq<Path>, after: set<Path>)
    requires ParentClosed(tree) && tree !! files && |existOk| == |paths|
    ensures n <= |paths| && forall i :: 0 <= i < n ==> Allowed(dryRun, tree, files, paths, existOk, i)
    ensures n < |paths| ==> !Allowed(dryRun, tree, files, paths, existOk, n)
    ensures log == Reversed(Log(tree, paths[..n]))
    ensures after == if dryRun then tree else tree + Elements(Log(tree, paths[..n]))
  {
    hide Lineage, Log, LogOk, Reversed;
    var dm := new DirMaker(dryRun, tree, files);
    n := 0;
    var ok := true;
    while ok && n < |paths|
      invariant n <= |paths|
      invariant dm.Valid() && fresh(dm) && dm.done == paths[..n]
      invariant dm.dryRun == dryRun && dm.initial == tree && dm.files == files
      invariant forall i :: 0 <= i < n ==> Allowed(dryRun, tree, files, paths, existOk, i)
      invariant !ok ==> n < |paths| && !Allowed(dryRun, tree, files, paths, existOk, n)
      decreases |paths| - n, ok
    {
      assert paths[..n + 1] == paths[..n] + [paths[n]];
      ok := dm.MakeDirs(paths[n], existOk[n]);
      if ok {
        n := n + 1;
      }
    }
    after := dm.tree;
    log := dm.Exit();
  }

  /** A real installation can be undone by its own log. */
  lemma InstallUndone(tree: set<Path>, paths: seq<Path>)
    requires ParentClosed(tree)
    ensures Failures(tree + Elements(Log(tree, paths)), Reversed(Log(tree, paths))) == 0
    ensures Removed(tree + Elements(Log(tree, paths)), Reversed(Log(tree, paths))) == tree
  {
    LogExact(tree, paths);
    UninstallRestores(tree, Log(tree, paths));
  }
}
