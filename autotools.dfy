/** thiscli/project/autotools.py: a project configured by `configure.ac`. */
module Autotools {
  import opened Process
  import opened Engine

  const Description := "Autotools project"

  /** The file `find` looks for. */
  const Markers: seq<string> := ["configure.ac"]

  /** The step that generates `configure` when it is missing, by priority. */
  function BootstrapStep(fs: seq<Path>, root: Path): Call
  {
    if Exists(fs, Below(root, "bootstrap")) then Sh("./bootstrap")
    else if Exists(fs, Below(root, "autogen.sh")) then Sh("./autogen.sh")
    else Sh("autoreconf")
  }

  /** The commands `ensure_makefile` issues for the files at the project root. */
  function EnsureMakefilePlan(fs: seq<Path>, root: Path): seq<Call>
  {
    if Exists(fs, Below(root, "Makefile")) then []
    else if Exists(fs, Below(root, "configure")) then [Sh("./configure")]
    else [BootstrapStep(fs, root), Sh("./configure")]
  }

  /**
   * With a `Makefile` nothing is issued. Without one, `./configure` is always
   * the last command, preceded, when there is no `configure` script, by
   * exactly one of `./bootstrap`, `./autogen.sh` and `autoreconf`, the first
   * whose precondition holds.
   */
  lemma EnsureMakefileSteps(fs: seq<Path>, root: Path)
    ensures var plan := EnsureMakefilePlan(fs, root);
      && (Exists(fs, Below(root, "Makefile")) <==> plan == [])
      && (!Exists(fs, Below(root, "Makefile")) ==> plan[|plan| - 1] == Sh("./configure"))
      && (!Exists(fs, Below(root, "Makefile")) && Exists(fs, Below(root, "configure")) ==> |plan| == 1)
      && (!Exists(fs, Below(root, "Makefile")) && !Exists(fs, Below(root, "configure")) ==>
            |plan| == 2 && plan[0] in [Sh("./bootstrap"), Sh("./autogen.sh"), Sh("autoreconf")]
            && (plan[0] == Sh("./bootstrap") <==> Exists(fs, Below(root, "bootstrap")))
            && (plan[0] == Sh("./autogen.sh") <==> !Exists(fs, Below(root, "bootstrap")) && Exists(fs, Below(root, "autogen.sh"))))
  {
  }

  class Autotools {
    const root: Path

    constructor (root: Path)
      ensures this.root == root
    {
      this.root := root;
    }

    /** `ensure_makefile`. */
    method EnsureMakefile(rt: Runtime)
      requires !rt.legacy
      modifies rt
      ensures rt.Snapshot() == CmdAll(old(rt.Snapshot()), rt.host, false, root, EnsureMakefilePlan(old(rt.fs), root))
    {
      ghost var p := rt.Snapshot();
      var plan := EnsureMakefilePlan(rt.fs, root);
      if Exists(rt.fs, Below(root, "Makefile")) {
        return;
      }
      if !Exists(rt.fs, Below(root, "configure")) {
        if Exists(rt.fs, Below(root, "bootstrap")) {
          rt.Cmd(root, Sh("./bootstrap"));
        } else if Exists(rt.fs, Below(root, "autogen.sh")) {
          rt.Cmd(root, Sh("./autogen.sh"));
        } else {
          rt.Cmd(root, Sh("autoreconf"));
        }
        rt.Cmd(root, Sh("./configure"));
        CmdAllTwo(p, rt.host, false, root, plan[0], plan[1]);
      } else {
        rt.Cmd(root, Sh("./configure"));
        CmdAllOne(p, rt.host, false, root, Sh("./configure"));
      }
    }

    /** `build`. */
    method Build(rt: Runtime)
      requires !rt.legacy
      modifies rt
      ensures rt.Snapshot() == CmdAll(old(rt.Snapshot()), rt.host, false, root, EnsureMakefilePlan(old(rt.fs), root) + [Sh("make")])
    {
      ghost var p := rt.Snapshot();
      ghost var plan := EnsureMakefilePlan(rt.fs, root);
      EnsureMakefile(rt);
      rt.Cmd(root, Sh("make"));
      CmdAllSnoc(p, rt.host, false, root, plan, Sh("make"));
    }

    /** `test`. */
    method Test(rt: Runtime)
      requires !rt.legacy
      modifies rt
      ensures rt.Snapshot() == CmdAll(old(rt.Snapshot()), rt.host, false, root, EnsureMakefilePlan(old(rt.fs), root) + [Sh("make check")])
    {
      ghost var p := rt.Snapshot();
      ghost var plan := EnsureMakefilePlan(rt.fs, root);
      EnsureMakefile(rt);
      rt.Cmd(root, Sh("make check"));
      CmdAllSnoc(p, rt.host, false, root, plan, Sh("make check"));
    }
  }
}
