/** thiscli/project/meson.py: a project built by Meson into `build/`. */
module Meson {
  import opened Wrappers
  import opened Process
  import opened Engine

  const Description := "Meson"

  /** The file `find` looks for. */
  const Markers: seq<string> := ["meson.build"]

  const Setup := "meson setup build --prefix=$HOME/.local"

  /** Whether the build directory already holds a Ninja file. */
  predicate Configured(fs: seq<Path>, root: Path)
  {
    Exists(fs, Below(root, "build/build.ninja"))
  }

  /**
   * The state after the directory part of `ensure_builddir`: `os.makedirs`
   * creates `build` relative to the process's working directory, not the
   * project root.
   */
  function Prepared(p: Proc, h: Host, root: Path): Proc
  {
    if Configured(p.fs, root) then p else MakeDirsIn(p, Below(h.cwd, "build"))
  }

  /** The commands `ensure_builddir` issues. */
  function SetupPlan(fs: seq<Path>, root: Path): seq<Call>
  {
    if Configured(fs, root) then [] else [Sh(Setup)]
  }

  /**
   * `build` (whatever the environment) and `test` issue the setup command
   * exactly when the build directory is not configured, then one Ninja run.
   */
  lemma ActionPlans(fs: seq<Path>, root: Path)
    ensures Configured(fs, root) ==> SetupPlan(fs, root) + [Sh("ninja -C build")] == [Sh("ninja -C build")]
    ensures !Configured(fs, root) ==> SetupPlan(fs, root) + [Sh("ninja -C build")] == [Sh(Setup), Sh("ninja -C build")]
    ensures !Configured(fs, root) ==> SetupPlan(fs, root) + [Sh("ninja -C build test")] == [Sh(Setup), Sh("ninja -C build test")]
  {
  }

  /**
   * A lone `meson.build` at the root is an unconfigured project: `build`
   * issues the setup command, then `ninja -C build`.
   */
  lemma LoneMesonBuild(fs: seq<Path>, root: Path)
    requires fs == [Below(root, "meson.build")]
    ensures !Configured(fs, root)
    ensures SetupPlan(fs, root) + [Sh("ninja -C build")] == [Sh(Setup), Sh("ninja -C build")]
  {
    BelowInjective(root, "meson.build", "build/build.ninja");
  }

  class Meson {
    const root: Path

    constructor (root: Path)
      ensures this.root == root
    {
      this.root := root;
    }

    /** `ensure_builddir`. */
    method EnsureBuilddir(rt: Runtime)
      requires !rt.legacy
      modifies rt
      ensures rt.Snapshot() == CmdAll(Prepared(old(rt.Snapshot()), rt.host, root), rt.host, false, root, SetupPlan(old(rt.fs), root))
    {
      if Configured(rt.fs, root) {
        return;
      }
      rt.MakeDirs(Below(rt.host.cwd, "build"));
      ghost var p := rt.Snapshot();
      rt.Cmd(root, Sh(Setup));
      CmdAllOne(p, rt.host, false, root, Sh(Setup));
    }

    /** `build(env)`: the environment is not used. */
    method Build(rt: Runtime, env: Option<string>)
      requires !rt.legacy
      modifies rt
      ensures rt.Snapshot() == CmdAll(Prepared(old(rt.Snapshot()), rt.host, root), rt.host, false, root,
                                      SetupPlan(old(rt.fs), root) + [Sh("ninja -C build")])
    {
      ghost var p := Prepared(rt.Snapshot(), rt.host, root);
      ghost var plan := SetupPlan(rt.fs, root);
      EnsureBuilddir(rt);
      rt.Cmd(root, Sh("ninja -C build"));
      CmdAllSnoc(p, rt.host, false, root, plan, Sh("ninja -C build"));
    }

    /** `test`. */
    method Test(rt: Runtime)
      requires !rt.legacy
      modifies rt
      ensures rt.Snapshot() == CmdAll(Prepared(old(rt.Snapshot()), rt.host, root), rt.host, false, root,
                                      SetupPlan(old(rt.fs), root) + [Sh("ninja -C build test")])
    {
      ghost var p := Prepared(rt.Snapshot(), rt.host, root);
      ghost var plan := SetupPlan(rt.fs, root);
      EnsureBuilddir(rt);
      rt.Cmd(root, Sh("ninja -C build test"));
      CmdAllSnoc(p, rt.host, false, root, plan, Sh("ninja -C build test"));
    }
  }
}
