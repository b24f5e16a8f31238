/** thiscli/project/cmake.py: a CMake project built out of tree in `build/`. */
module CMake {
  import opened Text
  import opened Process
  import opened Util
  import opened Engine

  /** The file `find` looks for. */
  const Markers: seq<string> := ["CMakeLists.txt"]

  predicate HasMakefile(fs: seq<Path>, root: Path)
  {
    Exists(fs, Below(root, "build/Makefile"))
  }

  predicate HasNinjaFile(fs: seq<Path>, root: Path)
  {
    Exists(fs, Below(root, "build/build.ninja"))
  }

  /** `description`, extended by the constructor with the generator in use. */
  function Description(fs: seq<Path>, root: Path): string
  {
    "CMake project" + (if HasMakefile(fs, root) then " using make" else if HasNinjaFile(fs, root) then " using ninja" else "")
  }

  /** The generator command: Ninja when it is installed. */
  function ConfigureLine(h: Host): string
  {
    if HasCommand(h, "ninja") then "cmake -G Ninja .." else "cmake .."
  }

  /**
   * `ensure_builddir`: nothing when the build directory holds a Makefile or a
   * Ninja file; otherwise `build` is created (relative to the process's
   * working directory) and the generator runs inside `<root>/build`.
   */
  function BuilddirReady(p: Proc, h: Host, root: Path): Proc
  {
    if HasMakefile(p.fs, root) || HasNinjaFile(p.fs, root) then p
    else CmdStep(MakeDirsIn(p, Below(h.cwd, "build")), h, false, root, ShIn(ConfigureLine(h), "build"))
  }

  const UnknownTool := "Sorry! I don't know what build tool CMake is using"

  /** `target(t)`: the tool is chosen from the files present after `ensure_builddir`. */
  function TargetStep(p: Proc, h: Host, root: Path, t: string): Proc
  {
    var ready := BuilddirReady(p, h, root);
    if HasMakefile(ready.fs, root) then CmdStep(ready, h, false, root, ShIn("make " + t, "build"))
    else if HasNinjaFile(ready.fs, root) then CmdStep(ready, h, false, root, Sh("ninja -C build " + t))
    else Fail(ready, UnknownTool)
  }

  /**
   * In a configured build directory nothing is generated and the target runs
   * with `make` inside `build` when there is a Makefile, else with Ninja.
   */
  lemma ConfiguredTarget(p: Proc, h: Host, root: Path, t: string)
    requires HasMakefile(p.fs, root) || HasNinjaFile(p.fs, root)
    ensures BuilddirReady(p, h, root) == p
    ensures HasMakefile(p.fs, root) ==> TargetStep(p, h, root, t) == CmdStep(p, h, false, root, ShIn("make " + t, "build"))
    ensures !HasMakefile(p.fs, root) ==> TargetStep(p, h, root, t) == CmdStep(p, h, false, root, Sh("ninja -C build " + t))
  {
  }

  /**
   * In a fresh checkout the generator runs first, in `<root>/build`; when it
   * succeeds and leaves a Makefile behind, the target runs with `make`; when
   * it leaves neither file, the process fails with status 1.
   */
  lemma FreshTarget(p: Proc, h: Host, root: Path, t: string)
    requires p.status.Running? && p.capture.None? && p.exitCode.None?
    requires !HasMakefile(p.fs, root) && !HasNinjaFile(p.fs, root)
    ensures var ready := BuilddirReady(p, h, root);
      && |ready.log| == |p.log| + 1
      && ready.log[|p.log|].inv == InvocationFor(h, false, root, ShIn(ConfigureLine(h), "build"))
      && ready.log[|p.log|].inv.dir == Below(root, "build")
      && (ready.log[|p.log|].code == 0 && HasMakefile(ready.fs, root) ==>
            TargetStep(p, h, root, t) == CmdStep(ready, h, false, root, ShIn("make " + t, "build")))
      && (ready.log[|p.log|].code == 0 && !HasMakefile(ready.fs, root) && !HasNinjaFile(ready.fs, root) ==>
            TargetStep(p, h, root, t).status == Exited(1))
      && (ready.log[|p.log|].code != 0 ==> TargetStep(p, h, root, t) == ready && ready.status == Exited(ready.log[|p.log|].code))
  {
    var made := MakeDirsIn(p, Below(h.cwd, "build"));
    CmdStepBookkeeping(made, h, false, root, ShIn(ConfigureLine(h), "build"));
  }

  /** `build` asks for the empty target: the line `make ` reaches the shell as `make`. */
  lemma BuildLineIsStripped()
    ensures StripCmd(Line("make " + "")) == Line("make")
  {
    assert "make " + "" == "make" + " ";
    StripTrailingBlank("make");
  }

  class CMake {
    const root: Path
    const description: string

    constructor (rt: Runtime, root: Path)
      ensures this.root == root && description == Description(rt.fs, root)
    {
      this.root := root;
      var d := "CMake project";
      if Exists(rt.fs, Below(root, "build/Makefile")) {
        d := d + " using make";
      } else if Exists(rt.fs, Below(root, "build/build.ninja")) {
        d := d + " using ninja";
      }
      description := d;
    }

    /** `ensure_builddir`. */
    method EnsureBuilddir(rt: Runtime)
      requires !rt.legacy
      modifies rt
      ensures rt.Snapshot() == BuilddirReady(old(rt.Snapshot()), rt.host, root)
    {
      if Exists(rt.fs, Below(root, "build/Makefile")) || Exists(rt.fs, Below(root, "build/build.ninja")) {
        return;
      }
      rt.MakeDirs(Below(rt.host.cwd, "build"));
      if HasCommand(rt.host, "ninja") {
        rt.Cmd(root, ShIn("cmake -G Ninja ..", "build"));
      } else {
        rt.Cmd(root, ShIn("cmake ..", "build"));
      }
    }

    /** `target(target='')`. */
    method Target(rt: Runtime, t: string)
      requires !rt.legacy
      modifies rt
      ensures rt.Snapshot() == TargetStep(old(rt.Snapshot()), rt.host, root, t)
    {
      EnsureBuilddir(rt);
      if Exists(rt.fs, Below(root, "build/Makefile")) {
        rt.Cmd(root, ShIn("make " + t, "build"));
      } else if Exists(rt.fs, Below(root, "build/build.ninja")) {
        rt.Cmd(root, Sh("ninja -C build " + t));
      } else {
        rt.Fail(UnknownTool);
      }
    }

    /** `build`: the default target. */
    method Build(rt: Runtime)
      requires !rt.legacy
      modifies rt
      ensures rt.Snapshot() == TargetStep(old(rt.Snapshot()), rt.host, root, "")
    {
      Target(rt, "");
    }

    /** `test`: the `test` target. */
    method Test(rt: Runtime)
      requires !rt.legacy
      modifies rt
      ensures rt.Snapshot() == TargetStep(old(rt.Snapshot()), rt.host, root, "test")
    {
      Target(rt, "test");
    }
  }
}
