/**
 * thiscli/project/python.py: a Python project, its packages, the tool that
 * manages its dependencies, and `setup.py`.
 */
module Python {
  import opened Wrappers
  import opened Text
  import opened Process
  import opened Util
  import opened Engine

  /** The dependency managers, each with the description it reports. */
  datatype PyEnv = Pipenv | PipTools | Requirements

  function EnvDescription(e: PyEnv): string
  {
    match e
    case Pipenv => "Pipenv"
    case PipTools => "requirements.txt"
    case Requirements => "requirements.txt"
  }

  /** The files `find` looks for; the last is the literal `Pipenv`, not `Pipfile`. */
  const Markers: seq<string> := ["setup.py", "requirements.txt", "requirements.in", "Pipenv"]

  /** The environment, by priority: `Pipfile`, then `requirements.in`, then `requirements.txt`. */
  function ChooseEnv(fs: seq<Path>, root: Path): Option<PyEnv>
  {
    if Exists(fs, root + ["Pipfile"]) then Some(Pipenv)
    else if Exists(fs, root + ["requirements.in"]) then Some(PipTools)
    else if Exists(fs, root + ["requirements.txt"]) then Some(Requirements)
    else None
  }

  /**
   * A higher-priority file decides regardless of the others; no file, no
   * environment.
   */
  lemma EnvPriority(fs: seq<Path>, root: Path)
    ensures ChooseEnv(fs, root) == Some(Pipenv) <==> Exists(fs, root + ["Pipfile"])
    ensures ChooseEnv(fs, root) == Some(PipTools) <==>
      !Exists(fs, root + ["Pipfile"]) && Exists(fs, root + ["requirements.in"])
    ensures ChooseEnv(fs, root) == Some(Requirements) <==>
      !Exists(fs, root + ["Pipfile"]) && !Exists(fs, root + ["requirements.in"]) && Exists(fs, root + ["requirements.txt"])
    ensures ChooseEnv(fs, root).None? <==>
      !Exists(fs, root + ["Pipfile"]) && !Exists(fs, root + ["requirements.in"]) && !Exists(fs, root + ["requirements.txt"])
  {
  }

  /** The names among `names` whose directory under `root` holds `__init__.py`, in order. */
  function WithInit(fs: seq<Path>, root: Path, names: seq<string>): (r: seq<string>)
    ensures |r| <= |names|
  {
    if names == [] then []
    else (if Exists(fs, root + [names[0], "__init__.py"]) then [names[0]] else []) + WithInit(fs, root, names[1..])
  }

  /** A name is kept exactly when it is listed and its directory holds `__init__.py`. */
  lemma {:induction false} WithInitMembers(fs: seq<Path>, root: Path, names: seq<string>)
    ensures forall n :: n in WithInit(fs, root, names) <==> n in names && Exists(fs, root + [n, "__init__.py"])
  {
    if names != [] {
      WithInitMembers(fs, root, names[1..]);
      assert names == [names[0]] + names[1..];
    }
  }

  /** `packages`: the entries of the root that hold `__init__.py`, in listing order. */
  function Packages(fs: seq<Path>, root: Path): seq<string>
  {
    WithInit(fs, root, ListDir(fs, root))
  }

  /** A name is a package iff it is an entry of the root and holds `__init__.py`. */
  lemma PackagesAreInitDirs(fs: seq<Path>, root: Path, name: string)
    ensures name in Packages(fs, root) <==> root + [name] in fs && root + [name, "__init__.py"] in fs
  {
    WithInitMembers(fs, root, ListDir(fs, root));
  }

  /** `description`, for the environment and whether `setup.py` exists at the time of asking. */
  function Description(env: Option<PyEnv>, hasSetup: bool): (r: string)
    ensures |r| >= 14 && r[..14] == "Python project"
    ensures hasSetup ==> |r| >= 8 && r[|r| - 8..] == "setup.py"
    ensures !hasSetup && env.None? ==> r == "Python project"
  {
    var d := "Python project" + (if env.Some? then " using " + EnvDescription(env.value) else "");
    if hasSetup then (if Contains(d, "using") then d + " and setup.py" else d + " using setup.py") else d
  }

  /**
   * The `'using' in description` test is true exactly when an environment was
   * named, so `setup.py` joins with ` and ` after an environment and with
   * ` using ` on its own.
   */
  lemma DescriptionShape(env: Option<PyEnv>, hasSetup: bool)
    ensures env.None? && !hasSetup ==> Description(env, hasSetup) == "Python project"
    ensures env.None? && hasSetup ==> Description(env, hasSetup) == "Python project" + " using setup.py"
    ensures env.Some? && !hasSetup ==> Description(env, hasSetup) == "Python project" + " using " + EnvDescription(env.value)
    ensures env.Some? && hasSetup ==>
      Description(env, hasSetup) == "Python project" + " using " + EnvDescription(env.value) + " and setup.py"
  {
    if env.None? {
      assert !HasChar("Python project", 'u');
      assert ("Python project" + "") == "Python project";
      NotContainsWithoutFirst("Python project", "using");
    } else {
      var d := "Python project" + (" using " + EnvDescription(env.value));
      assert d[15..][..5] == "using";
      assert IsPrefix("using", d[15..]);
      assert d == "Python project" + " using " + EnvDescription(env.value);
    }
  }

  /** One step of the listing loop: the name at `i` is kept or dropped, then the rest follow. */
  lemma WithInitFrom(fs: seq<Path>, root: Path, names: seq<string>, i: nat)
    requires i < |names|
    ensures WithInit(fs, root, names[i..]) ==
      (if Exists(fs, root + [names[i], "__init__.py"]) then [names[i]] else []) + WithInit(fs, root, names[i + 1..])
  {
    assert names[i..][0] == names[i] && names[i..][1..] == names[i + 1..];
  }

  const NoPackages := "No python packages containing __init__.py found"

  /** The listing loop behind `packages`. */
  method FindPackages(fs: seq<Path>, root: Path) returns (found: seq<string>)
    ensures found == Packages(fs, root)
  {
    var names := ListDir(fs, root);
    found := [];
    var i := 0;
    while i < |names|
      invariant 0 <= i <= |names|
      invariant found + WithInit(fs, root, names[i..]) == WithInit(fs, root, names)
    {
      WithInitFrom(fs, root, names, i);
      if Exists(fs, root + [names[i], "__init__.py"]) {
        assert (found + [names[i]]) + WithInit(fs, root, names[i + 1..]) == found + ([names[i]] + WithInit(fs, root, names[i + 1..]));
        found := found + [names[i]];
      } else {
        assert [] + WithInit(fs, root, names[i + 1..]) == WithInit(fs, root, names[i + 1..]);
      }
      i := i + 1;
    }
    assert names[i..] == [];
  }

  /** The effect of the constructor on the process: fatal when there is no package. */
  function InitStep(p: Proc, root: Path): Proc
  {
    if Packages(p.fs, root) == [] then Fatal(p, NoPackages, []) else p
  }

  /** `setup.py` exists at the root. */
  predicate HasSetup(fs: seq<Path>, root: Path)
  {
    Exists(fs, root + ["setup.py"])
  }

  /** The filesystem of the Python test suite: `setup.py`, and a package `my_package` holding `__init__.py`. */
  function SampleTree(root: Path): seq<Path>
  {
    [root + ["setup.py"], root + ["my_package"], root + ["my_package", "__init__.py"]]
  }

  /** That project has exactly the package `my_package`. */
  lemma SamplePackages(root: Path)
    ensures Packages(SampleTree(root), root) == ["my_package"]
  {
    var fs := SampleTree(root);
    assert fs[1..][1..] == fs[2..];
    assert ListDir(fs[2..], root) == [];
    assert (root + ["my_package"])[..|root|] == root;
    assert ListDir(fs[1..], root) == ["my_package"];
    assert (root + ["setup.py"])[..|root|] == root;
    assert ListDir(fs, root) == ["setup.py", "my_package"];
    assert (root + ["setup.py", "__init__.py"])[|root|] == "setup.py";
    assert fs[2][|root|] == "my_package";
    assert root + ["setup.py", "__init__.py"] !in fs;
    assert ["setup.py", "my_package"][1..] == ["my_package"];
    assert WithInit(fs, root, ["my_package"]) == ["my_package"];
  }

  /** That project has `setup.py` and no dependency manager. */
  lemma SampleSetup(root: Path)
    ensures ChooseEnv(SampleTree(root), root).None? && HasSetup(SampleTree(root), root)
  {
    var fs := SampleTree(root);
    assert fs[0][|root|] == "setup.py" && fs[1][|root|] == "my_package" && |fs[2]| == |root| + 2;
    assert (root + ["Pipfile"])[|root|] == "Pipfile";
    assert (root + ["requirements.in"])[|root|] == "requirements.in";
    assert (root + ["requirements.txt"])[|root|] == "requirements.txt";
  }

  class Python {
    const root: Path
    const packages: seq<string>
    const env: Option<PyEnv>
    const canBuild: bool
    const canTest: bool

    constructor (rt: Runtime, root: Path)
      modifies rt
      ensures this.root == root && packages == Packages(old(rt.fs), root) && env == ChooseEnv(old(rt.fs), root)
      ensures canBuild == canTest == HasSetup(old(rt.fs), root)
      ensures rt.Snapshot() == InitStep(old(rt.Snapshot()), root)
    {
      this.root := root;
      var found := FindPackages(rt.fs, root);
      packages := found;
      env := ChooseEnv(rt.fs, root);
      canBuild := HasSetup(rt.fs, root);
      canTest := HasSetup(rt.fs, root);
      new;
      if found == [] {
        rt.Fatal(NoPackages, []);
      }
    }

    /** The package list as it appears on a command line. */
    function PackageArgs(): string
    {
      Join(" ", packages)
    }

    /** `build`: `python setup.py build`, or the base failure without `setup.py`. */
    function BuildStep(p: Proc, h: Host): Proc
    {
      if HasSetup(p.fs, root) then CmdStep(p, h, false, root, Sh("python setup.py build")) else Unsupported(p, "build")
    }

    /** `test`: `python setup.py test`, or the base failure without `setup.py`. */
    function TestStep(p: Proc, h: Host): Proc
    {
      if HasSetup(p.fs, root) then CmdStep(p, h, false, root, Sh("python setup.py test")) else Unsupported(p, "test")
    }

    /** The linters of `lint`, run inside its delayed-exit scope. */
    function Linters(): seq<Call>
    {
      [Sh("flake8 " + PackageArgs()), Sh("pylint " + PackageArgs())]
    }

    /** `python setup.py check`, when `setup.py` exists once the linters are done. */
    function CheckCalls(fs: seq<Path>): seq<Call>
    {
      if HasSetup(fs, root) then [Sh("python setup.py check")] else []
    }

    /**
     * `lint(fix)`: the optional `autopep8` pass runs outside the scope, so
     * its failure ends the process; the linters and the setup check run
     * inside the scope.
     */
    function LintStep(p: Proc, h: Host, fix: bool): Proc
    {
      var fixed := if fix then CmdStep(p, h, false, root, Sh("autopep8 --recursive --in-place " + PackageArgs())) else p;
      var (entered, already) := Enter(fixed, false);
      var linted := CmdAll(entered, h, false, root, Linters());
      Leave(CmdAll(linted, h, false, root, CheckCalls(linted.fs)), false, already)
    }

    /**
     * Every lint command runs whatever the others return. Called inside an
     * open scope (as `check` calls it) the process keeps running and the
     * stored code becomes the first failure; called on its own, the process
     * exits with the first failing code once all have run.
     */
    lemma LintRunsAll(p: Proc, h: Host)
      requires p.status.Running? && p.capture.None?
      ensures var q := LintStep(p, h, false);
        && |p.log| + 2 <= |q.log| <= |p.log| + 3 && q.log[..|p.log|] == p.log
        && var first := FirstNonZero(Codes(q.log[|p.log|..]));
        && (p.exitCode.Some? ==>
              q.status.Running? && q.exitCode == Some(if p.exitCode.value != 0 then p.exitCode.value else first))
        && (p.exitCode.None? && first == 0 ==> q.status.Running? && q.exitCode.None?)
        && (p.exitCode.None? && first != 0 ==> q.status == Exited(first))
    {
      var (entered, already) := Enter(p, false);
      var linted := CmdAll(entered, h, false, root, Linters());
      CmdAllAppend(entered, h, false, root, Linters(), CheckCalls(linted.fs));
      CmdAllInScope(entered, h, false, root, Linters() + CheckCalls(linted.fs));
    }

    /** Inside a scope the two linters add one log entry each, in order. */
    lemma LintersLog(e: Proc, h: Host)
      requires e.status.Running? && e.capture.None? && e.exitCode.Some?
      ensures var l := CmdAll(e, h, false, root, Linters());
        && |l.log| == |e.log| + 2 && l.status.Running? && l.capture.None? && l.exitCode.Some?
        && l.log[|e.log|].inv == InvocationFor(h, false, root, Sh("flake8 " + PackageArgs()))
        && l.log[|e.log| + 1].inv == InvocationFor(h, false, root, Sh("pylint " + PackageArgs()))
    {
      var l0 := Sh("flake8 " + PackageArgs());
      var l1 := Sh("pylint " + PackageArgs());
      CmdAllTwo(e, h, false, root, l0, l1);
      CmdStepBookkeeping(e, h, false, root, l0);
      var a1 := CmdStep(e, h, false, root, l0);
      CmdStepBookkeeping(a1, h, false, root, l1);
      assert CmdStep(a1, h, false, root, l1).log[|e.log|] == a1.log[|e.log|];
    }

    /** The first two commands `lint` runs are `flake8` and then `pylint`, over the packages. */
    lemma LintOrder(p: Proc, h: Host)
      requires p.status.Running? && p.capture.None?
      ensures var q := LintStep(p, h, false);
        && |q.log| >= |p.log| + 2
        && q.log[|p.log|].inv == InvocationFor(h, false, root, Sh("flake8 " + PackageArgs()))
        && q.log[|p.log| + 1].inv == InvocationFor(h, false, root, Sh("pylint " + PackageArgs()))
    {
      var (entered, already) := Enter(p, false);
      var linted := CmdAll(entered, h, false, root, Linters());
      ScopedPairFirst(p, h, false, root, Sh("flake8 " + PackageArgs()), Sh("pylint " + PackageArgs()), CheckCalls(linted.fs));
      assert LintStep(p, h, false) == Leave(CmdAll(linted, h, false, root, CheckCalls(linted.fs)), false, already);
    }

    /**
     * `lint` and then `test` inside one outermost scope, as `check` runs
     * them. `lint`'s own scope is nested, so it neither exits nor clears the
     * stored code; with `setup.py` the test joins the same scope, without it
     * the test is the base failure, which exits 1 at once.
     */
    lemma LintThenTestInScope(p: Proc, h: Host)
      requires p.status.Running? && p.capture.None? && p.exitCode.None?
      ensures var e := Enter(p, false).0;
        var lintCalls := Linters() + CheckCalls(CmdAll(e, h, false, root, Linters()).fs);
        var linted := CmdAll(e, h, false, root, lintCalls);
        var q := Leave(TestStep(LintStep(e, h, false), h), false, false);
        && (HasSetup(linted.fs, root) ==> ScopeOutcome(p, q, h, false, root, lintCalls + [Sh("python setup.py test")]))
        && (!HasSetup(linted.fs, root) ==>
              && q.status == Exited(1) && q.log == linted.log && |q.log| == |p.log| + |lintCalls|
              && q.out == linted.out + ["Sorry! I don't know how to test your project"])
    {
      var e := Enter(p, false).0;
      var l1 := CmdAll(e, h, false, root, Linters());
      var lintCalls := Linters() + CheckCalls(l1.fs);
      var linted := CmdAll(e, h, false, root, lintCalls);
      assert LintStep(e, h, false) == linted by {
        CmdAllAppend(e, h, false, root, Linters(), CheckCalls(l1.fs));
      }
      CmdAllInScope(e, h, false, root, lintCalls);
      var test := Sh("python setup.py test");
      if HasSetup(linted.fs, root) {
        assert TestStep(linted, h) == CmdAll(e, h, false, root, lintCalls + [test]) by {
          CmdAllSnoc(e, h, false, root, lintCalls, test);
        }
        ScopeReportsFirstFailure(p, h, false, root, lintCalls + [test]);
      } else {
        UnsupportedMessages();
        FailAndFatalExitOne(linted, "Sorry! I don't know how to test your project", []);
      }
    }

    /** The lint commands of the Python test suite's project, in order. */
    lemma SampleLint()
      requires packages == ["my_package"]
      ensures Linters() == [Sh("flake8 my_package"), Sh("pylint my_package")]
    {
      assert PackageArgs() == "my_package";
      assert "flake8 " + "my_package" == "flake8 my_package";
      assert "pylint " + "my_package" == "pylint my_package";
    }

    /** `build`. */
    method Build(rt: Runtime)
      requires !rt.legacy
      modifies rt
      ensures rt.Snapshot() == BuildStep(old(rt.Snapshot()), rt.host)
    {
      if Exists(rt.fs, root + ["setup.py"]) {
        rt.Cmd(root, Sh("python setup.py build"));
      } else {
        rt.DontKnowHow("build");
      }
    }

    /** `test`. */
    method Test(rt: Runtime)
      requires !rt.legacy
      modifies rt
      ensures rt.Snapshot() == TestStep(old(rt.Snapshot()), rt.host)
    {
      if Exists(rt.fs, root + ["setup.py"]) {
        rt.Cmd(root, Sh("python setup.py test"));
      } else {
        rt.DontKnowHow("test");
      }
    }

    /** `lint(fix)`. */
    method Lint(rt: Runtime, fix: bool)
      requires !rt.legacy
      modifies rt
      ensures rt.Snapshot() == LintStep(old(rt.Snapshot()), rt.host, fix)
    {
      var args := Join(" ", packages);
      if fix {
        rt.Cmd(root, Sh("autopep8 --recursive --in-place " + args));
      }
      var already := rt.EnterDelayed();
      ghost var entered := rt.Snapshot();
      rt.Cmd(root, Sh("flake8 " + args));
      rt.Cmd(root, Sh("pylint " + args));
      CmdAllTwo(entered, rt.host, false, root, Sh("flake8 " + args), Sh("pylint " + args));
      if Exists(rt.fs, root + ["setup.py"]) {
        ghost var linted := rt.Snapshot();
        rt.Cmd(root, Sh("python setup.py check"));
        CmdAllOne(linted, rt.host, false, root, Sh("python setup.py check"));
      }
      rt.LeaveDelayed(already);
    }
  }
}
