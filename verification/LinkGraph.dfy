/**
 Build targets and their link graph. A graph is a sequence of targets; targets are named by index.
 */
module LinkGraph {

  /** What a target builds; `archive` says that a custom target has one output and that it is a
      static library. An index target stands for one output of another target. */
  datatype Kind =
    | Executable | StaticLibrary | SharedLibrary
    | CustomTarget(archive: bool) | CustomIndex(archive: bool, target: nat)

  datatype Crate = NoCrate | Dylib | Rlib | ProcMacro | OtherCrate

  /** A target after its construction. `bundled` are the targets whose extracted objects were added to
      its own ones. An index target is installed when the target behind it is. */
  datatype Target = Target(kind: Kind, install: bool, machine: nat, rust: bool, crate: Crate,
                           links: seq<nat>, wholes: seq<nat>, bundled: seq<nat>)
  {
    predicate IsInternal() {
      match kind
      case StaticLibrary => !install
      case CustomTarget(archive) => archive && !install
      case CustomIndex(archive, _) => archive && !install
      case _ => false
    }

    predicate UsesRustAbi() { rust && (crate == Dylib || crate == Rlib || crate == ProcMacro) }

    predicate IsBuildTarget() { !kind.CustomTarget? && !kind.CustomIndex? }
  }

  type Graph = seq<Target>

  predicate Below(ids: seq<nat>, n: nat) { forall i :: 0 <= i < |ids| ==> ids[i] < n }

  /** All names are names of targets; custom targets and indices link to nothing, and an index
      stands for an output of a target that is no index. */
  predicate WellFormed(g: Graph) {
    forall n :: 0 <= n < |g| ==> TargetOk(g, n)
  }

  predicate TargetOk(g: Graph, n: nat)
    requires n < |g|
  {
    && Below(g[n].links, |g|) && Below(g[n].wholes, |g|)
    && (!g[n].IsBuildTarget() ==> g[n].links == [] && g[n].wholes == [] && !g[n].rust)
    && (g[n].kind.CustomIndex? ==> g[n].kind.target < |g| && !g[g[n].kind.target].kind.CustomIndex?)
  }
}
