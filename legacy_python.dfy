/**
 * dothingy/project/python.py: the older Python project types. `PythonProject`
 * only picks one of its two subclasses; neither defines `test`, and
 * `PythonSetupProject.build` calls a method the older base class lacks.
 */
module LegacyPython {
  import opened Process
  import opened Engine

  /** The file `PythonSetupProject.find` looks for. */
  const SetupMarkers: seq<string> := ["setup.py"]

  /** The file `PythonPipenvProject.find` looks for: the literal name `Pipenv`. */
  const PipenvMarkers: seq<string> := ["Pipenv"]

  /**
   * `build` calls `self.run`, which the older `Project` does not define: an
   * AttributeError before anything runs.
   */
  function SetupBuildStep(p: Proc): (r: Proc)
    ensures r.log == p.log && r.out == p.out
    ensures p.status.Running? ==> r.status == Crashed("AttributeError")
  {
    Halt(p, Crashed("AttributeError"))
  }

  class PythonSetup {
    const root: Path

    constructor (root: Path)
      ensures this.root == root
    {
      this.root := root;
    }

    /** `build`. */
    method Build(rt: Runtime)
      requires rt.legacy
      modifies rt
      ensures rt.Snapshot() == SetupBuildStep(old(rt.Snapshot()))
    {
      rt.Crash("AttributeError");
    }

    /** `test` is the base class's: it does not know how. */
    method Test(rt: Runtime)
      requires rt.legacy
      modifies rt
      ensures rt.Snapshot() == Unsupported(old(rt.Snapshot()), "test")
    {
      rt.DontKnowHow("test");
    }
  }

  class PythonPipenv {
    const root: Path

    constructor (root: Path)
      ensures this.root == root
    {
      this.root := root;
    }

    /** `build` is the base class's. */
    method Build(rt: Runtime)
      requires rt.legacy
      modifies rt
      ensures rt.Snapshot() == Unsupported(old(rt.Snapshot()), "build")
    {
      rt.DontKnowHow("build");
    }

    /** `test` is the base class's. */
    method Test(rt: Runtime)
      requires rt.legacy
      modifies rt
      ensures rt.Snapshot() == Unsupported(old(rt.Snapshot()), "test")
    {
      rt.DontKnowHow("test");
    }
  }
}
