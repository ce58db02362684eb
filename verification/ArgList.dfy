/**
 The list of compiler arguments with its pending queues, and its agreement with a list
 that merges every batch at once.
 */
module ArgList {
  import opened Wrappers
  import opened Sequences
  import opened ArgTheory
  import opened ArgMeaning

  // ----- classification of arguments

  /** The tables of one kind of compiler; `versioned` recognises shared libraries with a version in their name. */
  datatype Tables = Tables(prependPrefixes: seq<string>, dedup2Prefixes: seq<string>, dedup2Suffixes: seq<string>,
                           dedup2Args: seq<string>, dedup1Prefixes: seq<string>, dedup1Args: seq<string>,
                           versioned: string -> bool)

  const LIB_FILE_SUFFIXES := [".lib", ".dll", ".so", ".dylib", ".a"]

  predicate StartsWithAny(s: string, prefixes: seq<string>) {
    exists i :: 0 <= i < |prefixes| && prefixes[i] <= s
  }

  predicate EndsWithAny(s: string, suffixes: seq<string>) {
    exists i :: 0 <= i < |suffixes| && |suffixes[i]| <= |s| && s[|s| - |suffixes[i]|..] == suffixes[i]
  }

  predicate IsLibFilename(t: Tables, arg: string) { EndsWithAny(arg, LIB_FILE_SUFFIXES) || t.versioned(arg) }

  function CanDedup(t: Tables, arg: string): Dedup {
    if arg in t.dedup1Prefixes || arg in t.dedup2Prefixes then NoDedup
    else if arg in t.dedup2Args || StartsWithAny(arg, t.dedup2Prefixes) || EndsWithAny(arg, t.dedup2Suffixes) then
    Overridden
    else if arg in t.dedup1Args || StartsWithAny(arg, t.dedup1Prefixes) || IsLibFilename(t, arg) then Unique
    else NoDedup
  }

  function RulesOf(t: Tables): Rules {
    Rules((arg: string) => CanDedup(t, arg), (arg: string) => StartsWithAny(arg, t.prependPrefixes))
  }

  /** Every prefix that sends an argument to the front also makes it overridable. */
  predicate PrependsOverridable(t: Tables) {
    forall i :: 0 <= i < |t.prependPrefixes| ==> StartsWithAny(t.prependPrefixes[i], t.dedup2Prefixes)
  }

  /** Then no unique argument goes to the front. */
  lemma NoUniqueInFront(t: Tables, arg: string)
    requires PrependsOverridable(t)
    ensures RulesOf(t).prepend(arg) ==> RulesOf(t).kind(arg) != Unique
  {
    if StartsWithAny(arg, t.prependPrefixes) {
      var i :| 0 <= i < |t.prependPrefixes| && t.prependPrefixes[i] <= arg;
      var prefix := t.prependPrefixes[i];
      var j :| 0 <= j < |t.dedup2Prefixes| && t.dedup2Prefixes[j] <= prefix;
      assert t.dedup2Prefixes[j] <= arg;
    }
  }

  /** The prefixes for C and its relatives, and for D. */
  const C_PREPENDS := ["-I", "-L"]
  const C_DEDUPS := ["-I", "-isystem", "-L", "-D", "-U"]
  const D_PREPENDS := ["-I", "-L"]
  const D_DEDUPS := ["-I"]

  /** In a list for C, whatever its other tables, added arguments that can be deduplicated occur at most once. */
  lemma OnceForC(t: Tables, batches: seq<seq<Arg>>, arg: string)
    requires t.prependPrefixes == C_PREPENDS && t.dedup2Prefixes == C_DEDUPS && CanDedup(t, arg) != NoDedup
    ensures Count(EagerAll(RulesOf(t), batches), arg) <= 1
  {
    forall i | 0 <= i < |t.prependPrefixes|
      ensures StartsWithAny(t.prependPrefixes[i], t.dedup2Prefixes)
    {
      assert t.dedup2Prefixes[if i == 0 then 0 else 2] <= t.prependPrefixes[i];
    }
    NoUniqueInFront(t, arg);
    AddedOnce(RulesOf(t), batches, arg);
  }

  /** In a list for D, a library behind `-L` that one batch has twice occurs twice. */
  lemma TwiceForD(versioned: string -> bool)
    ensures var r := RulesOf(Tables(D_PREPENDS, D_DEDUPS, [], [], [], [], versioned));
            Count(EagerAll(r, [["-Llibfoo.a", "-Llibfoo.a"]]), "-Llibfoo.a") == 2
  {
    var t := Tables(D_PREPENDS, D_DEDUPS, [], [], [], [], versioned);
    var arg := "-Llibfoo.a";
    assert t.prependPrefixes[1] <= arg;
    assert StartsWithAny(arg, t.prependPrefixes);
    assert arg[1] != D_DEDUPS[0][1];
    assert !StartsWithAny(arg, t.dedup2Prefixes);
    assert arg[|arg| - 2..] == LIB_FILE_SUFFIXES[4];
    assert IsLibFilename(t, arg);
    FrontDoubled(RulesOf(t), arg);
  }

  class CompilerArgs {
    const rules: Rules
    var container: seq<Arg>
    var pre: seq<Arg>
    var post: seq<Arg>
    var needsOverrideCheck: bool

    ghost predicate Valid()
      reads this
    {
      && Placed(rules, pre, post)
      && (!needsOverrideCheck ==> Over(rules, pre) == {} && Over(rules, post) == {})
    }

    /** The list that the object stands for. */
    ghost function View(): seq<Arg>
      reads this
    {
      Merge(rules, container, pre, post)
    }

    constructor (rules: Rules, args: seq<Arg>)
      ensures Valid() && View() == args && this.rules == rules
    {
      this.rules := rules;
      container, pre, post, needsOverrideCheck := args, [], [], false;
      new;
      MergePlain(rules, args, [], []);
    }

    method FlushPrePost()
      requires Valid()
      modifies this
      ensures Valid() && container == old(View()) && pre == [] && post == [] && !needsOverrideCheck
      ensures View() == old(View())
    {
      if !needsOverrideCheck {
        MergePlain(rules, container, pre, post);
        container := pre + container + post;
      } else {
        var front, frontSet := FlushPre();
        var back, backSet := FlushPost();
        var middle := Kept(frontSet + backSet);
        container := front + middle + back;
      }
      pre, post, needsOverrideCheck := [], [], false;
      MergePlain(rules, container, [], []);
    }

    /** Walks `pre` from the front. */
    method FlushPre() returns (new_: seq<Arg>, flushed: set<Arg>)
      ensures new_ == Front(rules, pre) && flushed == Over(rules, pre)
    {
      new_, flushed := [], {};
      for i := 0 to |pre|
        invariant new_ == Front(rules, pre[..i]) && flushed == Over(rules, pre[..i])
      {
        var a := pre[i];
        assert pre[..i + 1][..i] == pre[..i];
        assert pre[..i + 1] == pre[..i] + [a];
        if a !in flushed {
          new_ := new_ + [a];
          if rules.kind(a) == Overridden {
            flushed := flushed + {a};
          }
        }
      }
      assert pre[..|pre|] == pre;
    }

    /** Walks `post` from the end. */
    method FlushPost() returns (new_: seq<Arg>, flushed: set<Arg>)
      ensures new_ == Back(rules, post) && flushed == Over(rules, post)
    {
      new_, flushed := [], {};
      for i := |post| downto 0
        invariant new_ == Back(rules, post[i..]) && flushed == Over(rules, post[i..])
      {
        var a := post[i];
        assert post[i..][1..] == post[i + 1..];
        assert post[i..] == [a] + post[i + 1..];
        if a !in flushed {
          new_ := [a] + new_;
          if rules.kind(a) == Overridden {
            flushed := flushed + {a};
          }
        }
      }
    }

    /** The arguments of the container that are not overridden. */
    method Kept(overridden: set<Arg>) returns (kept: seq<Arg>)
      ensures kept == Without(container, overridden)
    {
      kept := [];
      for i := 0 to |container|
        invariant kept == Without(container[..i], overridden)
      {
        assert container[..i + 1] == container[..i] + [container[i]];
        WithoutConcat(container[..i], [container[i]], overridden);
        if container[i] !in overridden {
          kept := kept + [container[i]];
        }
      }
      assert container[..|container|] == container;
    }

    /** Adds a batch; it waits in the queues until the next flush. */
    method IAdd(args: seq<Arg>)
      requires Valid()
      modifies this
      ensures Valid() && View() == EagerAdd(rules, old(View()), args)
      ensures container == old(container)
    {
      ghost var have := container + pre + post;
      AddPending(rules, container, pre, post, args);
      var tmpPre := Enqueue(args);
      pre := ExtendLeft(pre, tmpPre);
      ReversedTwice(Fronts(rules, have, args));
      BatchMembers(rules, have, args);
    }

    /** Puts a batch at the end of `post`, and what goes to the front into a queue of its own. */
    method Enqueue(args: seq<Arg>) returns (tmpPre: seq<Arg>)
      modifies this`post, this`needsOverrideCheck
      ensures tmpPre == Reversed(Fronts(rules, container + pre + old(post), args))
      ensures post == old(post) + Backs(rules, container + pre + old(post), args)
      ensures needsOverrideCheck || (!old(needsOverrideCheck) && forall a :: a in args ==> rules.kind(a) != Overridden)
    {
      hide Fronts, Backs, Reversed;
      ghost var have := container + pre + post;
      tmpPre := [];
      BatchEmpty(rules, have);
      assert args[..0] == [];
      for i := 0 to |args|
        invariant tmpPre == Reversed(Fronts(rules, have, args[..i]))
        invariant post == old(post) + Backs(rules, have, args[..i])
        invariant needsOverrideCheck || !old(needsOverrideCheck)
        invariant needsOverrideCheck || forall a :: a in args[..i] ==> rules.kind(a) != Overridden
      {
        var arg := args[i];
        BatchNext(rules, have, args, i);
        if rules.kind(arg) == Unique && (arg in container || arg in pre || arg in post) {
          continue;
        }
        if rules.kind(arg) == Overridden {
          needsOverrideCheck := true;
        }
        if rules.prepend(arg) {
          ReversedAppend(Fronts(rules, have, args[..i]), arg);
          tmpPre := [arg] + tmpPre;
        } else {
          post := post + [arg];
        }
      }
      assert args[..|args|] == args;
    }

    /** Prepends one by one, which reverses the order. */
    method ExtendLeft(queue: seq<Arg>, args: seq<Arg>) returns (r: seq<Arg>)
      ensures r == Reversed(args) + queue
    {
      r := queue;
      for i := 0 to |args|
        invariant r == Reversed(args[..i]) + queue
      {
        assert args[..i + 1][..i] == args[..i];
        r := [args[i]] + r;
      }
      assert args[..|args|] == args;
    }

    method Append(arg: Arg)
      requires Valid()
      modifies this
      ensures Valid() && View() == EagerAdd(rules, old(View()), [arg])
    {
      IAdd([arg]);
    }

    /** Appends without reordering; `isAbsolute` says that the argument is an absolute path. */
    method AppendDirect(arg: Arg, isAbsolute: bool)
      requires Valid()
      modifies this
      ensures Valid()
      ensures View() == if isAbsolute then EagerAdd(rules, old(View()), [arg]) else old(View()) + [arg]
    {
      FlushPrePost();
      if isAbsolute {
        Append(arg);
      } else {
        container := container + [arg];
        MergePlain(rules, container, [], []);
      }
    }

    /** Inserts before a position, which is counted from the end if it is negative and moved into the list if it is
        outside. */
    method Insert(index: int, value: Arg)
      requires Valid()
      modifies this
      ensures var s := old(View());
              var at := if index < 0 then |s| + index else index;
              var at := if at < 0 then 0 else if at > |s| then |s| else at;
              Valid() && View() == s[..at] + [value] + s[at..]
    {
      FlushPrePost();
      var at := if index < 0 then index + |container| else index;
      at := if at < 0 then 0 else if at > |container| then |container| else at;
      container := container[..at] + [value] + container[at..];
      MergePlain(rules, container, [], []);
    }

    /** Reads at a position, which is counted from the end if it is negative; none outside of the list. */
    method GetItem(index: int) returns (value: Option<Arg>)
      requires Valid()
      modifies this
      ensures Valid() && View() == old(View())
      ensures value == if 0 <= index < |View()| then Some(View()[index])
                       else if 0 <= |View()| + index < |View()| then Some(View()[|View()| + index]) else None
    {
      FlushPrePost();
      var at := if index < 0 then index + |container| else index;
      value := if 0 <= at < |container| then Some(container[at]) else None;
    }
  }

  lemma BatchEmpty(r: Rules, have: seq<Arg>)
    ensures Fronts(r, have, []) == [] && Backs(r, have, []) == [] && Reversed<Arg>([]) == []
  {
  }

  /** One more argument of a batch. */
  lemma BatchNext(r: Rules, have: seq<Arg>, args: seq<Arg>, i: nat)
    requires i < |args|
    ensures var fronts, backs := Fronts(r, have, args[..i]), Backs(r, have, args[..i]);
            var skip := Skips(r, have, backs, args[i]);
            && Fronts(r, have, args[..i + 1]) == (if skip || !r.prepend(args[i]) then fronts else fronts + [args[i]])
            && Backs(r, have, args[..i + 1]) == (if skip || r.prepend(args[i]) then backs else backs + [args[i]])
    ensures args[..i + 1] == args[..i] + [args[i]]
  {
    assert args[..i + 1][..i] == args[..i];
  }

  lemma {:induction false} BatchMembers(r: Rules, have: seq<Arg>, batch: seq<Arg>)
    ensures forall a :: a in Fronts(r, have, batch) || a in Backs(r, have, batch) ==> a in batch
  {
    if batch != [] {
      BatchMembers(r, have, batch[..|batch| - 1]);
      assert batch == batch[..|batch| - 1] + [batch[|batch| - 1]];
    }
  }

  // ----- whole histories

  datatype Pending = Pending(container: seq<Arg>, pre: seq<Arg>, post: seq<Arg>)

  /** What is done to a list: a batch is added, something forces a flush, or the flushed
      list is edited in place. */
  datatype Action = Add(batch: seq<Arg>) | Flush | Edit(change: seq<Arg> -> seq<Arg>)

  function Stands(r: Rules, p: Pending): seq<Arg> { Merge(r, p.container, p.pre, p.post) }

  function LazyStep(r: Rules, p: Pending, action: Action): Pending {
    match action
    case Add(batch) =>
      var have := p.container + p.pre + p.post;
      Pending(p.container, Fronts(r, have, batch) + p.pre, p.post + Backs(r, have, batch))
    case Flush => Pending(Stands(r, p), [], [])
    case Edit(change) => Pending(change(Stands(r, p)), [], [])
  }

  /** The same without any queue. */
  function EagerStep(r: Rules, s: seq<Arg>, action: Action): seq<Arg> {
    match action
    case Add(batch) => EagerAdd(r, s, batch)
    case Flush => s
    case Edit(change) => change(s)
  }

  function Lazy(r: Rules, p: Pending, actions: seq<Action>): Pending {
    if actions == [] then p else LazyStep(r, Lazy(r, p, actions[..|actions| - 1]), actions[|actions| - 1])
  }

  function Eager(r: Rules, s: seq<Arg>, actions: seq<Action>): seq<Arg> {
    if actions == [] then s else EagerStep(r, Eager(r, s, actions[..|actions| - 1]), actions[|actions| - 1])
  }

  lemma StepInvisible(r: Rules, p: Pending, action: Action)
    requires Placed(r, p.pre, p.post)
    ensures var q := LazyStep(r, p, action);
            Placed(r, q.pre, q.post) && Stands(r, q) == EagerStep(r, Stands(r, p), action)
  {
    match action
    case Add(batch) => AddPending(r, p.container, p.pre, p.post, batch);
    case Flush => MergePlain(r, Stands(r, p), [], []);
    case Edit(change) => MergePlain(r, change(Stands(r, p)), [], []);
  }

  /** When the queues are flushed cannot be observed. */
  lemma {:induction false} FlushTimingInvisible(r: Rules, p: Pending, actions: seq<Action>)
    requires Placed(r, p.pre, p.post)
    ensures var q := Lazy(r, p, actions);
            Placed(r, q.pre, q.post) && Stands(r, q) == Eager(r, Stands(r, p), actions)
  {
    if actions != [] {
      FlushTimingInvisible(r, p, actions[..|actions| - 1]);
      StepInvisible(r, Lazy(r, p, actions[..|actions| - 1]), actions[|actions| - 1]);
    }
  }
}
