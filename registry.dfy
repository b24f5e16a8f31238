/**
 * thiscli/project/__init__.py: which methods each project type overrides
 * (`has_action`), the composite `check`, and `find`, which tries the
 * detectable types in a fixed order.
 */
module Registry {
  import opened Wrappers
  import opened Process
  import opened Util
  import opened Engine
  import Autotools
  import Meson
  import CMake
  import Make
  import Cargo
  import Dotnet
  import Gradle
  import Nodejs
  import Python
  import Laravel
  import Ansible

  /** The project classes of thiscli. */
  datatype Kind =
    | AutotoolsProject | MesonProject | CMakeProject | MakeProject | CargoProject | DotnetCoreProject
    | GradleProject | NodejsProject | PythonProject | LaravelProject | AnsibleProject

  /** The actions a project may define. */
  datatype Action = Build | Test | Run | Deploy | Lint | Check

  /** The methods a class defines itself instead of inheriting them from `Project`. */
  function Overrides(k: Kind): set<Action>
  {
    match k
    case AutotoolsProject => {Build, Test}
    case MesonProject => {Build, Test}
    case CMakeProject => {Build, Test}
    case MakeProject => {Build, Test}
    case CargoProject => {Build, Test}
    case DotnetCoreProject => {Build, Test, Run}
    case GradleProject => {Build, Test, Check}
    case NodejsProject => {Build, Run, Test, Lint, Deploy}
    case PythonProject => {Build, Test, Lint}
    case LaravelProject => {Run, Build, Test, Lint}
    case AnsibleProject => {Deploy}
  }

  /**
   * `has_action(a)`: the class's attribute differs from `Project`'s. It is a
   * question about the class alone, so instance flags such as `can_test`
   * play no part.
   */
  predicate HasAction(k: Kind, a: Action)
  {
    a in Overrides(k)
  }

  /** A project object of one of the instantiable classes. */
  datatype Instance =
    | OfAutotools(autotools: Autotools.Autotools)
    | OfMeson(meson: Meson.Meson)
    | OfCMake(cmake: CMake.CMake)
    | OfMake(make: Make.Make)
    | OfCargo(cargo: Cargo.Cargo)
    | OfDotnet(dotnet: Dotnet.Dotnet)
    | OfGradle(gradle: Gradle.Gradle)
    | OfNodejs(nodejs: Nodejs.Nodejs)
    | OfPython(python: Python.Python)
    | OfLaravel(laravel: Laravel.Laravel)

  function KindOf(inst: Instance): Kind
  {
    match inst
    case OfAutotools(_) => AutotoolsProject
    case OfMeson(_) => MesonProject
    case OfCMake(_) => CMakeProject
    case OfMake(_) => MakeProject
    case OfCargo(_) => CargoProject
    case OfDotnet(_) => DotnetCoreProject
    case OfGradle(_) => GradleProject
    case OfNodejs(_) => NodejsProject
    case OfPython(_) => PythonProject
    case OfLaravel(_) => LaravelProject
  }

  function RootOf(inst: Instance): Path
  {
    match inst
    case OfAutotools(x) => x.root
    case OfMeson(x) => x.root
    case OfCMake(x) => x.root
    case OfMake(x) => x.root
    case OfCargo(x) => x.root
    case OfDotnet(x) => x.root
    case OfGradle(x) => x.root
    case OfNodejs(x) => x.root
    case OfPython(x) => x.root
    case OfLaravel(x) => x.root
  }

  /**
   * Every class that can be instantiated defines `test`, so the base
   * class's "don't know how to check" is out of reach in this engine; only
   * `AnsibleProject`, which cannot be instantiated, defines neither `lint`
   * nor `test`.
   */
  lemma EveryInstanceTests(inst: Instance)
    ensures HasAction(KindOf(inst), Test)
    ensures forall k: Kind :: !HasAction(k, Lint) && !HasAction(k, Test) <==> k == AnsibleProject
  {
  }

  // ---- dispatch of `lint` and `test` ----

  /** `lint(fix)` of the object: its own, or the base class's failure. */
  function LintOf(p: Proc, h: Host, inst: Instance, fix: bool): Proc
  {
    match inst
    case OfNodejs(n) => n.ScriptStep(p, h, ["lint"], n.LintArgs(fix), None)
    case OfPython(py) => py.LintStep(p, h, fix)
    case OfLaravel(l) => l.LintStep(p, h, fix)
    case _ => Unsupported(p, "lint")
  }

  /** `test()` of the object. */
  function TestOf(p: Proc, h: Host, inst: Instance): Proc
  {
    match inst
    case OfAutotools(a) => CmdAll(p, h, false, a.root, Autotools.EnsureMakefilePlan(p.fs, a.root) + [Sh("make check")])
    case OfMeson(m) => CmdAll(Meson.Prepared(p, h, m.root), h, false, m.root, Meson.SetupPlan(p.fs, m.root) + [Sh("ninja -C build test")])
    case OfCMake(c) => CMake.TargetStep(p, h, c.root, "test")
    case OfMake(m) => Make.TargetStep(p, h, m.root, m.targets, Make.Names(["test", "check"]))
    case OfCargo(c) => CmdStep(p, h, false, c.root, Sh("cargo test"))
    case OfDotnet(d) => CmdStep(p, h, false, d.root, Sh("dotnet test"))
    case OfGradle(g) => CmdStep(p, h, false, g.root, g.GradleCall(h, "test", None))
    case OfNodejs(n) => n.ScriptStep(p, h, ["test"], [], None)
    case OfPython(py) => py.TestStep(p, h)
    case OfLaravel(l) => l.TestStep(p, h)
  }

  /**
   * `check()`: Gradle's own; otherwise the base failure when the class
   * defines neither `lint` nor `test`, else `lint(fix=False)` and then
   * `test()`, each only when defined, inside one delayed-exit scope.
   */
  function CheckStep(p: Proc, h: Host, inst: Instance): Proc
  {
    var k := KindOf(inst);
    if inst.OfGradle? then inst.gradle.CheckStep(p, h)
    else if !(HasAction(k, Lint) || HasAction(k, Test)) then Unsupported(p, "check")
    else
      var (entered, already) := Enter(p, false);
      var linted := if HasAction(k, Lint) then LintOf(entered, h, inst, false) else entered;
      var tested := if HasAction(k, Test) then TestOf(linted, h, inst) else linted;
      Leave(tested, false, already)
  }

  /**
   * A scope around one command, opened outside any other scope, adds that
   * one run to the log; the process carries on with no stored code when it
   * returned 0 and otherwise exits with its code.
   */
  lemma OneCommandScope(p: Proc, h: Host, root: Path, call: Call)
    requires p.status.Running? && p.capture.None? && p.exitCode.None?
    ensures var (entered, already) := Enter(p, false);
      var q := Leave(CmdStep(entered, h, false, root, call), false, already);
      && |q.log| == |p.log| + 1 && q.log[..|p.log|] == p.log
      && q.log[|p.log|].inv == InvocationFor(h, false, root, call)
      && (q.log[|p.log|].code == 0 ==> q.status.Running? && q.exitCode.None?)
      && (q.log[|p.log|].code != 0 ==> q.status == Exited(q.log[|p.log|].code))
  {
    var (entered, already) := Enter(p, false);
    CmdStepBookkeeping(entered, h, false, root, call);
  }

  /**
   * For a class that defines `test` but not `lint`, `check`'s scope holds
   * the test alone.
   */
  lemma CheckWithoutLint(p: Proc, h: Host, inst: Instance)
    requires inst.OfCargo? || inst.OfDotnet? || inst.OfAutotools? || inst.OfMeson? || inst.OfCMake? || inst.OfMake?
    ensures CheckStep(p, h, inst) == Leave(TestOf(Enter(p, false).0, h, inst), false, Enter(p, false).1)
  {
  }

  /** For the classes that define `lint`, `check`'s scope holds the lint and then the test. */
  lemma CheckWithLint(p: Proc, h: Host, inst: Instance)
    requires inst.OfNodejs? || inst.OfPython? || inst.OfLaravel?
    ensures CheckStep(p, h, inst) == Leave(TestOf(LintOf(Enter(p, false).0, h, inst, false), h, inst), false, Enter(p, false).1)
  {
    var k := KindOf(inst);
    assert !inst.OfGradle? && HasAction(k, Lint) && HasAction(k, Test);
  }

  /**
   * Cargo defines no `lint`: `check` runs only `cargo test`, and exits with
   * its code when it fails.
   */
  lemma CargoCheckRunsOnlyTheTest(p: Proc, h: Host, c: Cargo.Cargo)
    requires p.status.Running? && p.capture.None? && p.exitCode.None?
    ensures var q := CheckStep(p, h, OfCargo(c));
      && |q.log| == |p.log| + 1 && q.log[..|p.log|] == p.log
      && q.log[|p.log|].inv == InvocationFor(h, false, c.root, Sh("cargo test"))
      && (q.log[|p.log|].code == 0 ==> q.status.Running? && q.exitCode.None?)
      && (q.log[|p.log|].code != 0 ==> q.status == Exited(q.log[|p.log|].code))
  {
    CheckWithoutLint(p, h, OfCargo(c));
    OneCommandScope(p, h, c.root, Sh("cargo test"));
  }

  /** Likewise .NET: `check` runs only `dotnet test`. */
  lemma DotnetCheckRunsOnlyTheTest(p: Proc, h: Host, d: Dotnet.Dotnet)
    requires p.status.Running? && p.capture.None? && p.exitCode.None?
    ensures var q := CheckStep(p, h, OfDotnet(d));
      && |q.log| == |p.log| + 1 && q.log[..|p.log|] == p.log
      && q.log[|p.log|].inv == InvocationFor(h, false, d.root, Sh("dotnet test"))
      && (q.log[|p.log|].code == 0 ==> q.status.Running? && q.exitCode.None?)
      && (q.log[|p.log|].code != 0 ==> q.status == Exited(q.log[|p.log|].code))
  {
    CheckWithoutLint(p, h, OfDotnet(d));
    OneCommandScope(p, h, d.root, Sh("dotnet test"));
  }

  /**
   * Python's `lint` opens its own scope, which is nested inside `check`'s:
   * however the linters end, the process is still running with a stored
   * code afterwards, and `test()` runs next.
   */
  lemma PythonLintDoesNotStopCheck(p: Proc, h: Host, py: Python.Python)
    requires p.status.Running? && p.capture.None? && p.exitCode.None?
    ensures var (entered, already) := Enter(p, false);
      var linted := py.LintStep(entered, h, false);
      && !already && linted.status.Running? && linted.exitCode.Some?
      && |linted.log| >= |p.log| + 2
      && CheckStep(p, h, OfPython(py)) == Leave(py.TestStep(linted, h), false, false)
  {
    var e := p.(exitCode := Some(0));
    assert Enter(p, false) == (e, false);
    py.LintRunsAll(e, h);
    CheckWithLint(p, h, OfPython(py));
  }

  /**
   * Python's `check`, all cases: the linters run (with `setup.py check` when
   * `setup.py` is there after them), then `setup.py test` when `setup.py` is
   * there after the lint, and the process exits with the first failing code
   * of all of them or carries on when all succeeded. Without `setup.py` the
   * test is the base failure, which exits 1 at once and forgets any stored
   * lint failure.
   */
  lemma PythonCheckReportsFirstFailure(p: Proc, h: Host, py: Python.Python)
    requires p.status.Running? && p.capture.None? && p.exitCode.None?
    ensures var e := Enter(p, false).0;
      var lintCalls := py.Linters() + py.CheckCalls(CmdAll(e, h, false, py.root, py.Linters()).fs);
      var linted := CmdAll(e, h, false, py.root, lintCalls);
      var q := CheckStep(p, h, OfPython(py));
      && (Python.HasSetup(linted.fs, py.root) ==>
            ScopeOutcome(p, q, h, false, py.root, lintCalls + [Sh("python setup.py test")]))
      && (!Python.HasSetup(linted.fs, py.root) ==>
            && q.status == Exited(1) && q.log == linted.log && |q.log| == |p.log| + |lintCalls|
            && q.out == linted.out + ["Sorry! I don't know how to test your project"])
  {
    CheckWithLint(p, h, OfPython(py));
    py.LintThenTestInScope(p, h);
  }

  /**
   * Node.js's `check` with both scripts and installed dependencies, on a
   * host whose commands leave the files alone: the lint script and then the
   * test script run, and the process exits with the first failing code or
   * carries on when both succeeded.
   */
  lemma NodejsCheckReportsFirstFailure(p: Proc, h: Host, n: Nodejs.Nodejs)
    requires p.status.Running? && p.capture.None? && p.exitCode.None? && KeepsFiles(h)
    requires NeedsUpdate(p.fs, h, n.root + ["package.json"], n.root + ["node_modules"]) == Some(false)
    requires Nodejs.ScriptFor(n.package, ["lint"], None).Some? && Nodejs.ScriptFor(n.package, ["test"], None).Some?
    ensures ScopeOutcome(p, CheckStep(p, h, OfNodejs(n)), h, false, n.root,
      [Args([n.npmCmd, "run", Nodejs.ScriptFor(n.package, ["lint"], None).value]),
       Args([n.npmCmd, "run", Nodejs.ScriptFor(n.package, ["test"], None).value])])
  {
    var e := p.(exitCode := Some(0));
    assert Enter(p, false) == (e, false);
    var lint := Args([n.npmCmd, "run", Nodejs.ScriptFor(n.package, ["lint"], None).value]);
    var test := Args([n.npmCmd, "run", Nodejs.ScriptFor(n.package, ["test"], None).value]);
    var m := CmdStep(e, h, false, n.root, lint);
    assert n.ScriptStep(e, h, ["lint"], n.LintArgs(false), None) == m by {
      n.CurrentScriptIsOneCommand(e, h, ["lint"], [], None);
      assert lint.cmd.args + Nodejs.DashArgs(n.npmCmd, []) == lint.cmd.args;
    }
    assert n.ScriptStep(m, h, ["test"], [], None) == CmdStep(m, h, false, n.root, test) by {
      CmdStepKeepsFiles(e, h, false, n.root, lint);
      n.CurrentScriptIsOneCommand(m, h, ["test"], [], None);
      assert test.cmd.args + Nodejs.DashArgs(n.npmCmd, []) == test.cmd.args;
    }
    assert CheckStep(p, h, OfNodejs(n)) == Leave(CmdAll(e, h, false, n.root, [lint, test]), false, false) by {
      CheckWithLint(p, h, OfNodejs(n));
      CmdAllTwo(e, h, false, n.root, lint, test);
    }
    ScopeReportsFirstFailure(p, h, false, n.root, [lint, test]);
  }

  /**
   * A Node.js `check` without a `lint` script is fatal at once and runs
   * nothing; with `lint` but without `test`, the lint runs and then the
   * missing test script is fatal, whatever the lint returned.
   */
  lemma NodejsCheckMissingScript(p: Proc, h: Host, n: Nodejs.Nodejs)
    requires p.status.Running? && p.capture.None? && p.exitCode.None?
    ensures var q := CheckStep(p, h, OfNodejs(n));
      Nodejs.ScriptFor(n.package, ["lint"], None).None? ==>
        q.status == Exited(1) && q.log == p.log && q.out == p.out + ["ERROR: " + Nodejs.NotFound(["lint"])]
    ensures var q := CheckStep(p, h, OfNodejs(n));
      Nodejs.ScriptFor(n.package, ["lint"], None).Some? && Nodejs.ScriptFor(n.package, ["test"], None).None?
      && NeedsUpdate(p.fs, h, n.root + ["package.json"], n.root + ["node_modules"]) == Some(false) ==>
        && q.status == Exited(1) && |q.log| == |p.log| + 1
        && q.out[|q.out| - 1] == "ERROR: " + Nodejs.NotFound(["test"])
  {
    CheckWithLint(p, h, OfNodejs(n));
    var e := p.(exitCode := Some(0));
    assert Enter(p, false) == (e, false);
    var linted := n.ScriptStep(e, h, ["lint"], n.LintArgs(false), None);
    assert CheckStep(p, h, OfNodejs(n)) == Leave(n.ScriptStep(linted, h, ["test"], [], None), false, false);
    if Nodejs.ScriptFor(n.package, ["lint"], None).None? {
      n.MissingScriptIsFatal(e, h, ["lint"], n.LintArgs(false), None);
      n.ScriptStepHalted(linted, h, ["test"], [], None);
    } else if Nodejs.ScriptFor(n.package, ["test"], None).None?
      && NeedsUpdate(p.fs, h, n.root + ["package.json"], n.root + ["node_modules"]) == Some(false)
    {
      var lint := Args([n.npmCmd, "run", Nodejs.ScriptFor(n.package, ["lint"], None).value]);
      assert linted == CmdStep(e, h, false, n.root, lint) by {
        n.CurrentScriptIsOneCommand(e, h, ["lint"], [], None);
        assert lint.cmd.args + Nodejs.DashArgs(n.npmCmd, []) == lint.cmd.args;
      }
      CmdStepBookkeeping(e, h, false, n.root, lint);
      n.MissingScriptIsFatal(linted, h, ["test"], [], None);
    }
  }

  /**
   * Laravel's `check` with a Node.js lint and test script, a `tests`
   * directory and everything installed, on a host whose commands leave the
   * files alone: the Node.js lint, PHPUnit and the Node.js tests run in that
   * order, and the process exits with the first failing code or carries on
   * when all succeeded.
   */
  lemma LaravelCheckReportsFirstFailure(p: Proc, h: Host, l: Laravel.Laravel)
    requires p.status.Running? && p.capture.None? && p.exitCode.None? && KeepsFiles(h)
    requires l.npm != null && l.npm.canLint && l.npm.canTest && l.npm.root == l.root && l.canTest
    requires Exists(p.fs, l.root + ["tests"])
    requires NeedsUpdate(p.fs, h, l.root + ["composer.json"], l.root + ["vender"]) == Some(false)
    requires NeedsUpdate(p.fs, h, l.root + ["package.json"], l.root + ["node_modules"]) == Some(false)
    requires Nodejs.ScriptFor(l.npm.package, ["lint"], None).Some? && Nodejs.ScriptFor(l.npm.package, ["test"], None).Some?
    ensures ScopeOutcome(p, CheckStep(p, h, OfLaravel(l)), h, false, l.root,
      [Args([l.npm.npmCmd, "run", Nodejs.ScriptFor(l.npm.package, ["lint"], None).value]),
       Sh(Laravel.Phpunit),
       Args([l.npm.npmCmd, "run", Nodejs.ScriptFor(l.npm.package, ["test"], None).value])])
  {
    CheckWithLint(p, h, OfLaravel(l));
    l.LintThenTestInScope(p, h);
  }

  /**
   * Laravel defines `lint` itself, as Node.js's lint or the base failure, so
   * without a Node.js lint script `check` ends at once with the lint message
   * and exit 1, before any test runs.
   */
  lemma LaravelCheckNeedsNodeLint(p: Proc, h: Host, l: Laravel.Laravel)
    requires p.status.Running? && p.capture.None? && p.exitCode.None?
    requires l.npm == null || !l.npm.canLint
    ensures var q := CheckStep(p, h, OfLaravel(l));
      q.status == Exited(1) && q.log == p.log && q.out == p.out + ["Sorry! I don't know how to lint your project"]
  {
    CheckWithLint(p, h, OfLaravel(l));
    var e := p.(exitCode := Some(0));
    assert Enter(p, false) == (e, false);
    UnsupportedMessages();
    FailAndFatalExitOne(e, "Sorry! I don't know how to lint your project", []);
    l.TestStepHalted(Unsupported(e, "lint"), h);
  }

  /**
   * Gradle's `check` is its own: it never answers "don't know how to
   * check", and skips `lint`, which Gradle does not define.
   */
  lemma GradleCheckIsItsOwn(p: Proc, h: Host, g: Gradle.Gradle)
    requires p.status.Running?
    ensures CheckStep(p, h, OfGradle(g)) == g.CheckStep(p, h)
    ensures !HasAction(GradleProject, Lint) && HasAction(GradleProject, Check)
    ensures p.capture.None? ==> |CheckStep(p, h, OfGradle(g)).log| == |p.log| + 1
    ensures |Unsupported(p, "check").log| == |p.log|
  {
    if p.capture.None? {
      var (entered, already) := Enter(p, false);
      CmdStepBookkeeping(entered, h, false, g.root, g.GradleCall(h, "check", None));
    }
  }

  /** `lint(fix)` on an object. */
  method LintAction(rt: Runtime, inst: Instance, fix: bool)
    requires !rt.legacy
    modifies rt
    ensures rt.Snapshot() == LintOf(old(rt.Snapshot()), rt.host, inst, fix)
  {
    match inst
    case OfNodejs(n) => n.Lint(rt, fix);
    case OfPython(py) => py.Lint(rt, fix);
    case OfLaravel(l) => l.Lint(rt, fix);
    case _ => rt.DontKnowHow("lint");
  }

  /** `test()` on an object. */
  method TestAction(rt: Runtime, inst: Instance)
    requires !rt.legacy
    modifies rt
    ensures rt.Snapshot() == TestOf(old(rt.Snapshot()), rt.host, inst)
  {
    match inst
    case OfAutotools(a) => a.Test(rt);
    case OfMeson(m) => m.Test(rt);
    case OfCMake(c) => c.Test(rt);
    case OfMake(m) => m.Test(rt);
    case OfCargo(c) => c.Test(rt);
    case OfDotnet(d) => d.Test(rt);
    case OfGradle(g) => g.Test(rt);
    case OfNodejs(n) => n.Test(rt);
    case OfPython(py) => py.Test(rt);
    case OfLaravel(l) => l.Test(rt);
  }

  /** `check()` on an object. */
  method CheckAction(rt: Runtime, inst: Instance)
    requires !rt.legacy
    modifies rt
    ensures rt.Snapshot() == CheckStep(old(rt.Snapshot()), rt.host, inst)
  {
    var k := KindOf(inst);
    if inst.OfGradle? {
      inst.gradle.Check(rt);
      return;
    }
    if !(HasAction(k, Lint) || HasAction(k, Test)) {
      rt.DontKnowHow("check");
      return;
    }
    var already := rt.EnterDelayed();
    if HasAction(k, Lint) {
      LintAction(rt, inst, false);
    }
    if HasAction(k, Test) {
      TestAction(rt, inst);
    }
    rt.LeaveDelayed(already);
  }

  // ---- find ----

  /** The classes `Project.find` tries, in this order. */
  const FindOrder: seq<Kind> := [AutotoolsProject, MesonProject, CMakeProject, NodejsProject, PythonProject]

  /** The file names each class's `find` passes to `find_containing`. */
  function Markers(k: Kind): seq<string>
  {
    match k
    case AutotoolsProject => Autotools.Markers
    case MesonProject => Meson.Markers
    case CMakeProject => CMake.Markers
    case MakeProject => Make.Markers
    case CargoProject => Cargo.Markers
    case DotnetCoreProject => Dotnet.Markers
    case GradleProject => Gradle.Markers
    case NodejsProject => Nodejs.Markers
    case PythonProject => Python.Markers
    case LaravelProject => Laravel.Markers
    case AnsibleProject => Ansible.Markers
  }

  /**
   * `find_one_of` over `kinds`: each class does its own full upward scan,
   * and the first class that finds a root wins together with that root. So
   * the order of the classes decides before the distance of the marker.
   */
  function FirstFound(levels: seq<Level>, kinds: seq<Kind>): (r: Option<(Kind, Path)>)
    ensures r.None? <==> forall i :: 0 <= i < |kinds| ==> Containing(levels, Markers(kinds[i])).None?
    ensures r.Some? ==> exists i :: (0 <= i < |kinds| && kinds[i] == r.value.0
      && Containing(levels, Markers(kinds[i])) == Some(r.value.1)
      && forall j :: 0 <= j < i ==> Containing(levels, Markers(kinds[j])).None?)
  {
    if kinds == [] then None
    else match Containing(levels, Markers(kinds[0]))
      case Some(root) => Some((kinds[0], root))
      case None =>
        var r := FirstFound(levels, kinds[1..]);
        assert r.Some? ==> exists i :: (0 <= i < |kinds| && kinds[i] == r.value.0
          && Containing(levels, Markers(kinds[i])) == Some(r.value.1)
          && forall j :: 0 <= j < i ==> Containing(levels, Markers(kinds[j])).None?) by {
          if r.Some? {
            var i :| (0 <= i < |kinds[1..]| && kinds[1..][i] == r.value.0
              && Containing(levels, Markers(kinds[1..][i])) == Some(r.value.1)
              && forall j :: 0 <= j < i ==> Containing(levels, Markers(kinds[1..][j])).None?);
            assert kinds[i + 1] == kinds[1..][i];
            forall j | 0 <= j < i + 1 ensures Containing(levels, Markers(kinds[j])).None? {
              if j > 0 { assert kinds[j] == kinds[1..][j - 1]; }
            }
          }
        }
        assert r.None? ==> forall i :: 0 <= i < |kinds| ==> Containing(levels, Markers(kinds[i])).None? by {
          if r.None? {
            forall i | 0 < i < |kinds| ensures Containing(levels, Markers(kinds[i])).None? {
              assert kinds[i] == kinds[1..][i - 1];
            }
          }
        }
        r
  }

  /** What `find` settles on, for the process's working directory. */
  function Detect(fs: seq<Path>, cwd: Path): Option<(Kind, Path)>
  {
    FirstFound(Levels(fs, cwd), FindOrder)
  }

  /** Only the classes `find` tries can be detected. */
  lemma DetectedKind(fs: seq<Path>, cwd: Path)
    ensures var d := Detect(fs, cwd);
      d.Some? ==> (d.value.0.AutotoolsProject? || d.value.0.MesonProject? || d.value.0.CMakeProject?
                   || d.value.0.NodejsProject? || d.value.0.PythonProject?)
  {
    var d := Detect(fs, cwd);
    if d.Some? {
      assert d.value.0 in FindOrder;
    }
  }

  /**
   * Priority before proximity: with `meson.build` in the working directory
   * and `configure.ac` two levels up, Meson's own scan finds the nearer
   * root, yet `find` answers the Autotools project at the top.
   */
  lemma PriorityBeforeProximity()
    ensures var levels := [Level(["src", "app"], ["meson.build"]), Level(["src"], []), Level([], ["configure.ac"])];
      && Containing(levels, Markers(MesonProject)) == Some(["src", "app"])
      && FirstFound(levels, FindOrder) == Some((AutotoolsProject, []))
  {
    var levels := [Level(["src", "app"], ["meson.build"]), Level(["src"], []), Level([], ["configure.ac"])];
    assert levels[1..][1..] == [levels[2]];
    assert HasMarker(levels[0].entries, Meson.Markers) by { assert "meson.build" in Meson.Markers; }
    assert !HasMarker(levels[0].entries, Autotools.Markers);
    assert !HasMarker(levels[1].entries, Autotools.Markers);
    assert HasMarker(levels[2].entries, Autotools.Markers) by { assert "configure.ac" in Autotools.Markers; }
    assert Containing(levels, Autotools.Markers) == Some([]);
  }

  /** A directory holding only `meson.build` is detected as a Meson project rooted there. */
  lemma LoneMesonBuildDetected()
    ensures Detect([["proj", "meson.build"]], ["proj"]) == Some((MesonProject, ["proj"]))
  {
    var fs: seq<Path> := [["proj", "meson.build"]];
    assert ListDir(fs, ["proj"]) == ["meson.build"];
    assert ListDir(fs, []) == [];
    var levels := [Level(["proj"], ["meson.build"]), Level([], [])];
    assert Levels(fs, ["proj"]) == levels;
    assert Containing(levels, Autotools.Markers).None? by {
      assert Containing(levels[1..], Autotools.Markers).None?;
    }
    assert Containing(levels, Meson.Markers) == Some(["proj"]) by {
      assert "meson.build" in Meson.Markers;
    }
  }

  /** The Python test suite's tree is detected as a Python project rooted at its directory. */
  lemma SampleTreeDetected()
    ensures Detect(Python.SampleTree(["proj"]), ["proj"]) == Some((PythonProject, ["proj"]))
  {
    SampleLevels();
    SetupLevelIsPython([Level(["proj"], ["setup.py", "my_package"]), Level([], [])]);
  }

  /** What the walk up from the Python test suite's directory lists. */
  lemma SampleLevels()
    ensures Levels(Python.SampleTree(["proj"]), ["proj"]) == [Level(["proj"], ["setup.py", "my_package"]), Level([], [])]
  {
    var fs := Python.SampleTree(["proj"]);
    assert ListDir(fs[2..], ["proj"]) == [];
    assert ListDir(fs[1..], ["proj"]) == ["my_package"] by {
      assert fs[1..][1..] == fs[2..];
    }
    assert ListDir(fs, ["proj"]) == ["setup.py", "my_package"];
    assert ListDir(fs, []) == [];
    assert Parent(["proj"]) == [];
  }

  /** Of the classes `find` tries, only Python claims a directory holding `setup.py` and a package. */
  lemma SetupLevelIsPython(levels: seq<Level>)
    requires levels == [Level(["proj"], ["setup.py", "my_package"]), Level([], [])]
    ensures FirstFound(levels, FindOrder) == Some((PythonProject, ["proj"]))
  {
    forall m | m != "setup.py" && m != "my_package"
      ensures Containing(levels, [m]).None?
    {
      assert !HasMarker(levels[0].entries, [m]);
      assert Containing(levels[1..], [m]).None?;
    }
    assert Containing(levels, Python.Markers) == Some(["proj"]) by {
      assert "setup.py" in Python.Markers;
    }
    assert Containing(levels, Autotools.Markers).None? by { assert |"configure.ac"| == 12; }
    assert Containing(levels, Meson.Markers).None? by { assert |"meson.build"| == 11; }
    assert Containing(levels, CMake.Markers).None? by { assert |"CMakeLists.txt"| == 14; }
    assert Containing(levels, Nodejs.Markers).None? by { assert |"package.json"| == 12; }
    assert FirstFound(levels, [PythonProject]) == Some((PythonProject, ["proj"]));
    assert FirstFound(levels, [NodejsProject, PythonProject]) == FirstFound(levels, [PythonProject]);
    assert FirstFound(levels, [CMakeProject, NodejsProject, PythonProject]) == FirstFound(levels, [NodejsProject, PythonProject]);
    assert FirstFound(levels, [MesonProject, CMakeProject, NodejsProject, PythonProject])
      == FirstFound(levels, [CMakeProject, NodejsProject, PythonProject]);
    assert FindOrder[1..] == [MesonProject, CMakeProject, NodejsProject, PythonProject];
  }

  /** A `.git` level ends every class's scan, even if an earlier class's marker lies just above it. */
  lemma GitStopsEveryScan(levels: seq<Level>, kinds: seq<Kind>)
    requires |levels| >= 1 && ".git" in levels[0].entries
    requires forall k :: k in kinds ==> !HasMarker(levels[0].entries, Markers(k))
    ensures FirstFound(levels, kinds).None?
  {
    forall i | 0 <= i < |kinds| ensures Containing(levels, Markers(kinds[i])).None? {
      assert kinds[i] in kinds;
    }
  }

  /** The effect of each detectable class's constructor on the process. */
  function ConstructStep(p: Proc, h: Host, k: Kind, root: Path): Proc
  {
    match k
    case NodejsProject => Nodejs.InitStep(p, h, root)
    case PythonProject => Python.InitStep(p, root)
    case _ => p
  }

  /** `cls(root)` for the three build-system classes, whose constructors leave the process alone. */
  method ConstructBuildSystem(rt: Runtime, k: Kind, root: Path) returns (inst: Instance)
    requires k == AutotoolsProject || k == MesonProject || k == CMakeProject
    ensures KindOf(inst) == k && RootOf(inst) == root
  {
    if k == AutotoolsProject {
      var a := new Autotools.Autotools(root);
      inst := OfAutotools(a);
    } else if k == MesonProject {
      var m := new Meson.Meson(root);
      inst := OfMeson(m);
    } else {
      var c := new CMake.CMake(rt, root);
      inst := OfCMake(c);
    }
  }

  /** `NodejsProject(root)`. */
  method ConstructNodejs(rt: Runtime, root: Path) returns (inst: Instance)
    modifies rt
    ensures inst.OfNodejs? && inst.nodejs.root == root
    ensures rt.Snapshot() == Nodejs.InitStep(old(rt.Snapshot()), rt.host, root)
  {
    var n := new Nodejs.Nodejs(rt, root);
    inst := OfNodejs(n);
  }

  /** `PythonProject(root)`. */
  method ConstructPython(rt: Runtime, root: Path) returns (inst: Instance)
    modifies rt
    ensures inst.OfPython? && inst.python.root == root
    ensures rt.Snapshot() == Python.InitStep(old(rt.Snapshot()), root)
  {
    var py := new Python.Python(rt, root);
    inst := OfPython(py);
  }

  /** `cls(root)` for one of the classes `find` tries. */
  method Construct(rt: Runtime, k: Kind, root: Path) returns (inst: Instance)
    requires k.AutotoolsProject? || k.MesonProject? || k.CMakeProject? || k.NodejsProject? || k.PythonProject?
    modifies rt
    ensures KindOf(inst) == k && RootOf(inst) == root
    ensures rt.Snapshot() == ConstructStep(old(rt.Snapshot()), rt.host, k, root)
  {
    if k.NodejsProject? {
      inst := ConstructNodejs(rt, root);
    } else if k.PythonProject? {
      inst := ConstructPython(rt, root);
    } else {
      inst := ConstructBuildSystem(rt, k, root);
      assert ConstructStep(old(rt.Snapshot()), rt.host, k, root) == old(rt.Snapshot());
    }
  }

  /** The message of `find` when no class matches. */
  const Unrecognized := "Sorry! I don't recognize your project type"

  /**
   * `find_one_of(*classes)` as a search: each class in turn scans upwards
   * from `cwd`; the first that finds a root stops the search.
   */
  method FindOneOf(fs: seq<Path>, cwd: Path, kinds: seq<Kind>) returns (found: Option<(Kind, Path)>)
    ensures found == FirstFound(Levels(fs, cwd), kinds)
  {
    var levels := WalkUp(fs, cwd);
    var i := 0;
    while i < |kinds|
      invariant 0 <= i <= |kinds|
      invariant FirstFound(levels, kinds[i..]) == FirstFound(levels, kinds)
    {
      var root := FindContaining(fs, cwd, Markers(kinds[i]));
      if root.Some? {
        return Some((kinds[i], root.value));
      }
      assert kinds[i..][1..] == kinds[i + 1..];
      i := i + 1;
    }
    return None;
  }

  /**
   * `Project.find()`: the classes in `FindOrder`, each scanning upwards from
   * the process's working directory; the first that finds a root constructs
   * the project there and later classes are not tried. When none matches it
   * prints the message and exits with 1.
   */
  method Find(rt: Runtime) returns (project: Option<Instance>)
    modifies rt
    ensures var d := Detect(old(rt.fs), rt.host.cwd);
      && (d.None? ==> project.None? && rt.Snapshot() == Halt(Process.Print(old(rt.Snapshot()), Unrecognized), Exited(1)))
      && (d.Some? ==> project.Some? && KindOf(project.value) == d.value.0 && RootOf(project.value) == d.value.1
                      && rt.Snapshot() == ConstructStep(old(rt.Snapshot()), rt.host, d.value.0, d.value.1))
  {
    var found := FindOneOf(rt.fs, rt.host.cwd, FindOrder);
    assert found == Detect(old(rt.fs), rt.host.cwd);
    DetectedKind(rt.fs, rt.host.cwd);
    if found.Some? {
      var inst := Construct(rt, found.value.0, found.value.1);
      return Some(inst);
    }
    rt.Print(Unrecognized);
    rt.Exit(1);
    return None;
  }
}
