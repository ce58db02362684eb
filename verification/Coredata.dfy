/**
 The files that keep the configuration of a build directory, over runs that may fail or be killed at
 any step.
 */
module Coredata {

  /** The bytes of a saved configuration. */
  type Value = string

  /** A file is absent, holds part of a value because writing it was cut short, or holds a value. */
  datatype File = Absent | Torn | Complete(value: Value)

  /** `coredata.dat`, its previous version, and the temporary file it is written to. */
  datatype Files = Files(dat: File, prev: File, tmp: File)

  /** Where saving is cut short, by an exception or by the end of the process. */
  datatype Cut = Never | AtStart | InCopy | AfterCopy | InDump | BeforeReplace

  /** How a setup run goes: it fails before it saves; saving is cut short; or it saves, and then
      succeeds, is killed, or fails and rolls back, which may be killed in turn. */
  datatype Fate = Early | Cutting(cut: Cut) | Succeeds | Killed | Fails | FailsAndKilled

  datatype Run = Setup(value: Value, fate: Fate) | Configure(value: Value, cut: Cut) | Wipe

  // ----- what the runs do to the files

  function Copied(f: Files): Files { if f.dat.Absent? then f else f.(prev := f.dat) }

  function Saved(f: Files, v: Value, cut: Cut): Files {
    match cut
    case AtStart => f
    case InCopy => if f.dat.Absent? then f else f.(prev := Torn)
    case AfterCopy => Copied(f)
    case InDump => Copied(f).(tmp := Torn)
    case BeforeReplace => Copied(f).(tmp := Complete(v))
    case Never => Copied(f).(dat := Complete(v), tmp := Absent)
  }

  function RolledBack(f: Files): Files {
    if f.prev.Absent? then f.(dat := Absent) else f.(dat := f.prev, prev := Absent)
  }

  function Generated(f: Files, v: Value, fate: Fate): Files {
    match fate
    case Early => f
    case Cutting(cut) => Saved(f, v, cut)
    case Succeeds => Saved(f, v, Never)
    case Killed => Saved(f, v, Never)
    case FailsAndKilled => Saved(f, v, Never)
    case Fails => RolledBack(Saved(f, v, Never))
  }

  function After(f: Files, run: Run): Files {
    match run
    case Setup(v, fate) => Generated(f, v, fate)
    case Configure(v, cut) => Saved(f, v, cut)
    case Wipe => Files(Absent, Absent, Absent)
  }

  function History(f: Files, runs: seq<Run>): Files {
    if runs == [] then f else After(History(f, runs[..|runs| - 1]), runs[|runs| - 1])
  }

  // ----- the code

  class BuildDir {
    var dat: File
    var prev: File
    var tmp: File

    ghost function Snapshot(): Files
      reads this
    {
      Files(dat, prev, tmp)
    }

    constructor ()
      ensures Snapshot() == Files(Absent, Absent, Absent)
    {
      dat, prev, tmp := Absent, Absent, Absent;
    }

    /** Copies the old file, writes the new one aside and moves it into place. */
    method Save(v: Value, cut: Cut) returns (done: bool)
      modifies this
      ensures Snapshot() == Saved(old(Snapshot()), v, cut) && done == (cut == Never)
    {
      if cut == AtStart {
        return false;
      }
      if dat != Absent {
        prev := Torn;
        if cut == InCopy {
          return false;
        }
        prev := dat;
      }
      if cut == InCopy || cut == AfterCopy {
        return false;
      }
      tmp := Torn;
      if cut == InDump {
        return false;
      }
      tmp := Complete(v);
      if cut == BeforeReplace {
        return false;
      }
      dat, tmp := tmp, Absent;
      return true;
    }

    /** A setup or reconfigure run, with its error handler. */
    method Generate(v: Value, fate: Fate)
      modifies this
      ensures Snapshot() == Generated(old(Snapshot()), v, fate)
    {
      if fate == Early {
        return;
      }
      var saved := Save(v, if fate.Cutting? then fate.cut else Never);
      if !saved || fate != Fails {
        return;
      }
      if prev != Absent {
        dat, prev := prev, Absent;
      } else {
        dat := Absent;
      }
    }
  }

  // ----- what always holds

  predicate Sound(f: Files) {
    !f.dat.Torn? && (!f.prev.Absent? ==> !f.dat.Absent?)
  }

  /** The value that a run would leave, if it got that far. */
  predicate OldOrNew(before: Files, run: Run, after: Files) {
    || after.dat == before.dat
    || (run.Wipe? && after.dat.Absent?)
    || (!run.Wipe? && after.dat == Complete(run.value))
  }

  lemma RunSound(f: Files, run: Run)
    requires Sound(f)
    ensures Sound(After(f, run)) && OldOrNew(f, run, After(f, run))
  {
  }

  /** Over every history that starts in an empty directory, `coredata.dat` holds the complete
      value that it had before the last run or the one of that run, and the previous version is never there alone. */
  lemma {:induction false} AlwaysSound(runs: seq<Run>)
    ensures var f := History(Files(Absent, Absent, Absent), runs);
            && Sound(f)
            && (runs != [] ==>
                  OldOrNew(History(Files(Absent, Absent, Absent), runs[..|runs| - 1]), runs[|runs| - 1], f))
  {
    if runs != [] {
      AlwaysSound(runs[..|runs| - 1]);
      RunSound(History(Files(Absent, Absent, Absent), runs[..|runs| - 1]), runs[|runs| - 1]);
    }
  }

  /** A setup run whose failure is handled puts `coredata.dat` back, whether it was there or not, exactly when a
      previous version is not there alone. */
  lemma FailureRestores(f: Files, v: Value)
    ensures After(f, Setup(v, Fails)).dat == f.dat <==> !f.dat.Absent? || f.prev.Absent?
  {
  }

  /** The whole state is put back exactly when there was no previous version, and no temporary file: a previous version
      is overwritten by the dump and then moved away. */
  lemma FailureRestoresAll(f: Files, v: Value)
    ensures After(f, Setup(v, Fails)) == f <==> f.prev.Absent? && f.tmp.Absent?
  {
  }

  /** So after two successful runs a handled failure loses the previous version. */
  lemma PreviousLost(u: Value, v: Value, w: Value)
    ensures var before := History(Files(Absent, Absent, Absent), [Setup(u, Succeeds), Setup(v, Succeeds)]);
            && before == Files(Complete(v), Complete(u), Absent)
            && After(before, Setup(w, Fails)) == Files(Complete(v), Absent, Absent)
  {
    assert [Setup(u, Succeeds), Setup(v, Succeeds)][..1] == [Setup(u, Succeeds)];
    assert [Setup(u, Succeeds)][..0] == [];
  }

  /** So in every history a handled failure leaves the value of before the run, and no previous version. */
  lemma HandledFailure(runs: seq<Run>, v: Value)
    ensures var before := History(Files(Absent, Absent, Absent), runs);
            var after := History(Files(Absent, Absent, Absent), runs + [Setup(v, Fails)]);
            after.dat == before.dat && after.prev.Absent? && after.tmp.Absent?
  {
    AlwaysSound(runs);
    assert (runs + [Setup(v, Fails)])[..|runs|] == runs;
  }

  /** A run that put `v` in place. */
  predicate Wrote(run: Run, v: Value) { !run.Wipe? && run.value == v && Lands(run) }

  predicate Lands(run: Run) {
    match run
    case Setup(_, fate) => fate == Succeeds || fate == Killed || fate == FailsAndKilled || fate == Cutting(Never)
    case Configure(_, cut) => cut == Never
    case Wipe => false
  }

  /** A value in `coredata.dat` is that of a run that put it in place, and since then no other run has put one in
      place and the directory was not wiped. */
  ghost predicate LastWritten(runs: seq<Run>, v: Value) {
    exists k :: 0 <= k < |runs| && Wrote(runs[k], v) && forall j :: k < j < |runs| ==> !Lands(runs[j]) && !runs[j].Wipe?
  }

  lemma {:induction false} ValueIsLastWritten(runs: seq<Run>, v: Value)
    ensures History(Files(Absent, Absent, Absent), runs).dat == Complete(v) <==> LastWritten(runs, v)
  {
    if runs != [] {
      var init, last := runs[..|runs| - 1], runs[|runs| - 1];
      ValueIsLastWritten(init, v);
      AlwaysSound(init);
      RunLands(History(Files(Absent, Absent, Absent), init), last);
      LastWrittenNext(init, last, v);
      assert runs == init + [last];
    }
  }

  /** One more run. */
  lemma LastWrittenNext(init: seq<Run>, last: Run, v: Value)
    ensures LastWritten(init + [last], v) <==>
              if Lands(last) then Wrote(last, v) else !last.Wipe? && LastWritten(init, v)
  {
    hide Lands;
    var runs := init + [last];
    if LastWritten(runs, v) {
      var k :| 0 <= k < |runs| && Wrote(runs[k], v) && forall j :: k < j < |runs| ==> !Lands(runs[j]) && !runs[j].Wipe?;
      if k < |init| {
        assert Wrote(init[k], v) && !Lands(runs[|init|]) && !runs[|init|].Wipe?;
        assert forall j :: k < j < |init| ==> init[j] == runs[j];
      }
    }
    if Lands(last) && Wrote(last, v) {
      assert Wrote(runs[|init|], v);
    } else if !Lands(last) && !last.Wipe? && LastWritten(init, v) {
      var k :| 0 <= k < |init| && Wrote(init[k], v) && forall j :: k < j < |init| ==> !Lands(init[j]) && !init[j].Wipe?;
      assert Wrote(runs[k], v) && forall j :: k < j < |init| ==> init[j] == runs[j];
    }
  }

  lemma RunLands(f: Files, run: Run)
    requires Sound(f)
    ensures After(f, run).dat == if Lands(run) then Complete(run.value) else if run.Wipe? then Absent else f.dat
  {
  }
}
