/**
 * dothingy/project/__init__.py: the older engine's `has_action`, `check`
 * and `find`. The older Autotools and Meson types are not part of this
 * model, so what their `find` answers is taken as given.
 */
module LegacyRegistry {
  import opened Wrappers
  import opened Process
  import opened Util
  import opened Engine
  import LegacyNodejs
  import LegacyPython

  /** The project classes of the older engine. */
  datatype Kind = AutotoolsProject | MesonProject | PythonProject | PythonSetupProject | PythonPipenvProject | NodejsProject

  /** The classes `Project.find` tries, in this order. */
  const FindOrder: seq<Kind> := [AutotoolsProject, MesonProject, PythonProject]

  /** The classes `PythonProject.find` tries, in this order. */
  const PythonOrder: seq<Kind> := [PythonSetupProject, PythonPipenvProject]

  /** What the older Autotools and Meson types' `find` answer. */
  datatype Given = Given(autotools: Option<Path>, meson: Option<Path>)

  /** `PythonProject.find` is itself a `find_one_of`, one level above the others. */
  function Rank(k: Kind): nat
  {
    if k == PythonProject then 1 else 0
  }

  function MaxRank(kinds: seq<Kind>): nat
  {
    if PythonProject in kinds then 1 else 0
  }

  function Tag(k: Kind, root: Option<Path>): Option<(Kind, Path)>
  {
    if root.Some? then Some((k, root.value)) else None
  }

  /** `cls.find()` for one class, over the levels `walk_up` yields. */
  function FindOf(levels: seq<Level>, given: Given, k: Kind): Option<(Kind, Path)>
    decreases Rank(k)
  {
    match k
    case AutotoolsProject => Tag(k, given.autotools)
    case MesonProject => Tag(k, given.meson)
    case PythonSetupProject => Tag(k, Containing(levels, LegacyPython.SetupMarkers))
    case PythonPipenvProject => Tag(k, Containing(levels, LegacyPython.PipenvMarkers))
    case NodejsProject => Tag(k, Containing(levels, ["package.json"]))
    case PythonProject =>
      var setup := FindOf(levels, given, PythonSetupProject);
      if setup.Some? then setup else FindOf(levels, given, PythonPipenvProject)
  }

  /** `find_one_of(*kinds)`: the first class whose `find` answers, with its answer. */
  function FirstOf(levels: seq<Level>, given: Given, kinds: seq<Kind>): (r: Option<(Kind, Path)>)
    ensures r.None? <==> forall i :: 0 <= i < |kinds| ==> FindOf(levels, given, kinds[i]).None?
    ensures r.Some? ==> exists i :: (0 <= i < |kinds| && FindOf(levels, given, kinds[i]) == r
      && forall j :: 0 <= j < i ==> FindOf(levels, given, kinds[j]).None?)
  {
    if kinds == [] then None
    else if FindOf(levels, given, kinds[0]).Some? then FindOf(levels, given, kinds[0])
    else
      var r := FirstOf(levels, given, kinds[1..]);
      assert r.Some? ==> exists i :: (0 <= i < |kinds| && FindOf(levels, given, kinds[i]) == r
        && forall j :: 0 <= j < i ==> FindOf(levels, given, kinds[j]).None?) by {
        if r.Some? {
          var i :| (0 <= i < |kinds[1..]| && FindOf(levels, given, kinds[1..][i]) == r
            && forall j :: 0 <= j < i ==> FindOf(levels, given, kinds[1..][j]).None?);
          assert kinds[i + 1] == kinds[1..][i];
          forall j | 0 <= j < i + 1 ensures FindOf(levels, given, kinds[j]).None? {
            if j > 0 { assert kinds[j] == kinds[1..][j - 1]; }
          }
        }
      }
      assert r.None? ==> forall i :: 0 <= i < |kinds| ==> FindOf(levels, given, kinds[i]).None? by {
        if r.None? {
          forall i | 0 < i < |kinds| ensures FindOf(levels, given, kinds[i]).None? {
            assert kinds[i] == kinds[1..][i - 1];
          }
        }
      }
      r
  }

  /**
   * `PythonProject.find` is `find_one_of` over its two subclasses, and the
   * registry's answer is the first of Autotools, Meson and that.
   */
  lemma DetectionOrder(levels: seq<Level>, given: Given)
    ensures FindOf(levels, given, PythonProject) == FirstOf(levels, given, PythonOrder)
    ensures given.autotools.Some? ==> FirstOf(levels, given, FindOrder) == Some((AutotoolsProject, given.autotools.value))
    ensures given.autotools.None? && given.meson.Some? ==> FirstOf(levels, given, FindOrder) == Some((MesonProject, given.meson.value))
    ensures given.autotools.None? && given.meson.None? ==> FirstOf(levels, given, FindOrder) == FirstOf(levels, given, PythonOrder)
  {
    assert PythonOrder[1..] == [PythonPipenvProject];
    assert FindOrder[1..] == [MesonProject, PythonProject];
    assert FindOrder[1..][1..] == [PythonProject];
    assert FindOrder[1..][1..][1..] == [];
    assert PythonOrder[1..][1..] == [];
    assert FirstOf(levels, given, [PythonProject]) == FindOf(levels, given, PythonProject) by {
      assert [PythonProject][1..] == [];
    }
  }

  /**
   * `setup.py` beats `Pipenv` whatever their distance: with `Pipenv` in the
   * working directory and `setup.py` one level up, the project is a
   * `PythonSetupProject` at the upper level.
   */
  lemma SetupBeforePipenv()
    ensures var levels := [Level(["work", "app"], ["Pipenv"]), Level(["work"], ["setup.py"])];
      && Containing(levels, LegacyPython.PipenvMarkers) == Some(["work", "app"])
      && FindOf(levels, Given(None, None), PythonProject) == Some((PythonSetupProject, ["work"]))
  {
    var levels := [Level(["work", "app"], ["Pipenv"]), Level(["work"], ["setup.py"])];
    assert levels[1..][1..] == [];
    assert HasMarker(levels[0].entries, LegacyPython.PipenvMarkers) by { assert "Pipenv" in LegacyPython.PipenvMarkers; }
    assert !HasMarker(levels[0].entries, LegacyPython.SetupMarkers);
    assert HasMarker(levels[1].entries, LegacyPython.SetupMarkers) by { assert "setup.py" in LegacyPython.SetupMarkers; }
    assert Containing(levels, LegacyPython.SetupMarkers) == Some(["work"]);
  }

  /** `cls.find()`, walking up from the process's working directory. */
  method FindClass(fs: seq<Path>, cwd: Path, given: Given, k: Kind) returns (r: Option<(Kind, Path)>)
    ensures r == FindOf(Levels(fs, cwd), given, k)
    decreases Rank(k), 1
  {
    match k
    case AutotoolsProject => r := Tag(k, given.autotools);
    case MesonProject => r := Tag(k, given.meson);
    case PythonSetupProject =>
      var root := FindContaining(fs, cwd, LegacyPython.SetupMarkers);
      r := Tag(k, root);
    case PythonPipenvProject =>
      var root := FindContaining(fs, cwd, LegacyPython.PipenvMarkers);
      r := Tag(k, root);
    case NodejsProject =>
      var root := FindContaining(fs, cwd, ["package.json"]);
      r := Tag(k, root);
    case PythonProject =>
      r := FindOneOf(fs, cwd, given, PythonOrder);
      DetectionOrder(Levels(fs, cwd), given);
  }

  /** The loop of `find_one_of`, which returns at the first class that answers. */
  method FindOneOf(fs: seq<Path>, cwd: Path, given: Given, kinds: seq<Kind>) returns (r: Option<(Kind, Path)>)
    ensures r == FirstOf(Levels(fs, cwd), given, kinds)
    decreases MaxRank(kinds), 2
  {
    var i := 0;
    while i < |kinds|
      invariant 0 <= i <= |kinds|
      invariant FirstOf(Levels(fs, cwd), given, kinds[i..]) == FirstOf(Levels(fs, cwd), given, kinds)
    {
      assert kinds[i] in kinds;
      var found := FindClass(fs, cwd, given, kinds[i]);
      if found.Some? {
        return found;
      }
      assert kinds[i..][1..] == kinds[i + 1..];
      i := i + 1;
    }
    return None;
  }

  /** The message of `find` when no class matches. */
  const Unrecognized := "Sorry! I don't recognize your project type"

  /** `Project.find()`: the first answer of the registry, or the message and exit status 1. */
  method Find(rt: Runtime, given: Given) returns (found: Option<(Kind, Path)>)
    modifies rt
    ensures found == FirstOf(Levels(old(rt.fs), rt.host.cwd), given, FindOrder)
    ensures found.None? ==> rt.Snapshot() == Halt(Process.Print(old(rt.Snapshot()), Unrecognized), Exited(1))
    ensures found.Some? ==> rt.Snapshot() == old(rt.Snapshot())
  {
    found := FindOneOf(rt.fs, rt.host.cwd, given, FindOrder);
    if found.None? {
      rt.Print(Unrecognized);
      rt.Exit(1);
    }
  }

  // ---- has_action and check ----

  /** A project object of one of the older classes this model holds. */
  datatype Instance =
    | OfSetup(setup: LegacyPython.PythonSetup)
    | OfPipenv(pipenv: LegacyPython.PythonPipenv)
    | OfNodejs(nodejs: LegacyNodejs.LegacyNodejs)

  datatype Action = Build | Test | Deploy | Lint

  /** `has_action(a)`: the methods each class defines itself. */
  predicate HasAction(inst: Instance, a: Action)
  {
    match inst
    case OfSetup(_) => a == Build
    case OfPipenv(_) => false
    case OfNodejs(_) => a == Build || a == Test || a == Lint
  }

  /** `lint(fix)` of the object. */
  function LintOf(p: Proc, h: Host, inst: Instance, fix: bool): Proc
  {
    match inst
    case OfNodejs(n) => n.ScriptStep(p, h, ["lint"], n.LintArgs(fix))
    case _ => Unsupported(p, "lint")
  }

  /** `test()` of the object. */
  function TestOf(p: Proc, h: Host, inst: Instance): Proc
  {
    match inst
    case OfNodejs(n) => n.ScriptStep(p, h, ["test"], [])
    case _ => Unsupported(p, "test")
  }

  /**
   * `check()`: the base failure unless `lint` or `test` is defined, else
   * each that is defined, `lint` first, in one scope of the older kind.
   */
  function CheckStep(p: Proc, h: Host, inst: Instance): Proc
  {
    if !(HasAction(inst, Lint) || HasAction(inst, Test)) then Unsupported(p, "check")
    else
      var (entered, already) := Enter(p, true);
      var linted := if HasAction(inst, Lint) then LintOf(entered, h, inst, false) else entered;
      var tested := if HasAction(inst, Test) then TestOf(linted, h, inst) else linted;
      Leave(tested, true, already)
  }

  /**
   * Neither Python class defines `lint` or `test`: `check` prints "don't
   * know how to check" and exits with 1 before running anything, and so
   * does `test`.
   */
  lemma PythonClassesCannotCheck(p: Proc, h: Host, inst: Instance)
    requires !inst.OfNodejs? && p.status.Running?
    ensures var q := CheckStep(p, h, inst);
      q.status == Exited(1) && q.log == p.log && q.out == p.out + ["Sorry! I don't know how to check your project"]
    ensures var q := TestOf(p, h, inst);
      q.status == Exited(1) && q.log == p.log && q.out == p.out + ["Sorry! I don't know how to test your project"]
  {
    assert "Sorry! I don't know how to " + "check" + " your project" == "Sorry! I don't know how to check your project";
    assert "Sorry! I don't know how to " + "test" + " your project" == "Sorry! I don't know how to test your project";
  }

  /**
   * Node.js defines both: `check` runs `lint` without `--fix` and then
   * `test`; the scope it opens starts from a stored code of 0 even when an
   * outer scope had stored a failure.
   */
  lemma NodejsCheck(p: Proc, h: Host, n: LegacyNodejs.LegacyNodejs)
    requires p.status.Running?
    ensures Enter(p, true).0.exitCode == Some(0)
    ensures CheckStep(p, h, OfNodejs(n)) ==
      Leave(n.ScriptStep(n.ScriptStep(Enter(p, true).0, h, ["lint"], []), h, ["test"], []), true, false)
  {
    assert n.LintArgs(false) == [];
  }

  /** `lint(fix)` on an object. */
  method LintAction(rt: Runtime, inst: Instance, fix: bool)
    requires rt.legacy
    modifies rt
    ensures rt.Snapshot() == LintOf(old(rt.Snapshot()), rt.host, inst, fix)
  {
    match inst
    case OfNodejs(n) => n.Lint(rt, fix);
    case _ => rt.DontKnowHow("lint");
  }

  /** `test()` on an object. */
  method TestAction(rt: Runtime, inst: Instance)
    requires rt.legacy
    modifies rt
    ensures rt.Snapshot() == TestOf(old(rt.Snapshot()), rt.host, inst)
  {
    match inst
    case OfSetup(s) => s.Test(rt);
    case OfPipenv(v) => v.Test(rt);
    case OfNodejs(n) => n.Test(rt);
  }

  /** `check()` on an object. */
  method CheckAction(rt: Runtime, inst: Instance)
    requires rt.legacy
    modifies rt
    ensures rt.Snapshot() == CheckStep(old(rt.Snapshot()), rt.host, inst)
  {
    if !(HasAction(inst, Lint) || HasAction(inst, Test)) {
      rt.DontKnowHow("check");
      return;
    }
    var already := rt.EnterDelayed();
    if HasAction(inst, Lint) {
      LintAction(rt, inst, false);
    }
    if HasAction(inst, Test) {
      TestAction(rt, inst);
    }
    rt.LeaveDelayed(already);
  }
}
