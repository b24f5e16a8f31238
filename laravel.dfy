/**
 * thiscli/project/laravel.py: a Laravel application, served with `artisan`,
 * with an optional Node.js front end handled by the Node.js project type.
 */
module Laravel {
  import opened Wrappers
  import opened Process
  import opened Util
  import opened Engine
  import Nodejs
  import Tmux

  const Markers: seq<string> := ["artisan"]

  /** The PHPUnit runner `test` calls. */
  const Phpunit := "./vendor/bin/phpunit"

  class Laravel {
    const root: Path
    /** The Node.js project of the same root, when it has a `package.json`. */
    const npm: Nodejs.Nodejs?
    const canBuild: bool
    const canTest: bool
    const canLint: bool

    constructor (rt: Runtime, root: Path)
      requires !rt.legacy
      modifies rt
      ensures this.root == root
      ensures npm != null <==> Exists(old(rt.fs), root + ["package.json"])
      ensures npm != null ==> npm.root == root && npm.package == rt.host.scripts(rt.host.cwd + ["package.json"])
      ensures rt.Snapshot() == if npm != null then Nodejs.InitStep(old(rt.Snapshot()), rt.host, root) else old(rt.Snapshot())
      ensures canBuild == (npm != null && npm.canBuild)
      ensures canTest == (Exists(old(rt.fs), root + ["tests"]) || (npm != null && npm.canTest))
      ensures canLint == (npm != null && npm.canLint)
    {
      this.root := root;
      var node: Nodejs.Nodejs? := null;
      if Exists(rt.fs, root + ["package.json"]) {
        node := new Nodejs.Nodejs(rt, root);
      }
      npm := node;
      canBuild := node != null && node.canBuild;
      canTest := Exists(rt.fs, root + ["tests"]) || (node != null && node.canTest);
      canLint := node != null && node.canLint;
    }

    /** `ensure_deps`: `composer install` when `vender` (sic) is missing or older than `composer.json`. */
    function DepsStep(p: Proc, h: Host): Proc
    {
      match NeedsUpdate(p.fs, h, root + ["composer.json"], root + ["vender"])
      case None => Halt(p, Crashed("FileNotFoundError"))
      case Some(stale) => if stale then CmdStep(p, h, false, root, Sh("composer install")) else p
    }

    /** The PHP side of `run`: dependencies, then `php artisan serve`. */
    function ServeStep(p: Proc, h: Host): Proc
    {
      CmdStep(DepsStep(p, h), h, false, root, Sh("php artisan serve"))
    }

    /** The panes `run` hands to tmux: each pane whose body did not end the process. */
    function PanesOf(before1: Proc, pane1: seq<string>, before2: Proc, pane2: seq<string>): seq<seq<string>>
    {
      (if before1.status.Running? then [pane1] else []) + (if before2.status.Running? then [pane2] else [])
    }

    /**
     * `run(env)`: with a Node.js `run` script, the PHP server and the Node.js
     * script are recorded into two tmux panes and tmux runs them; otherwise
     * the PHP server runs directly.
     */
    function RunStep(p: Proc, h: Host, env: Option<string>): Proc
    {
      if npm != null && npm.canRun then
        var served := ServeStep(PaneOpened(p), h);
        var (p3, pane1) := PaneClosed(served);
        var ran := npm.ScriptStep(PaneOpened(p3), h, ["watch", "start", "serve"], [], env);
        var (p6, pane2) := PaneClosed(ran);
        Tmux.SessionStep(p6, h, PanesOf(served, pane1, ran, pane2))
      else ServeStep(p, h)
    }

    /** `build(env)`: Node.js's build, or the base `build`, which takes no environment (TypeError). */
    function BuildStep(p: Proc, h: Host, env: Option<string>): Proc
    {
      if npm != null && npm.canBuild then npm.BuildStep(p, h, env) else Halt(p, Crashed("TypeError"))
    }

    /**
     * `test()`: PHPUnit when `tests` exists now, then Node.js's tests when it
     * has them, then the base failure when the project had neither.
     */
    function TestStep(p: Proc, h: Host): Proc
    {
      var php := if Exists(p.fs, root + ["tests"]) then CmdStep(DepsStep(p, h), h, false, root, Sh(Phpunit)) else p;
      var node := if npm != null && npm.canTest then npm.ScriptStep(php, h, ["test"], [], None) else php;
      if !canTest then Unsupported(node, "test") else node
    }

    /** `lint(fix)`: Node.js's lint, or the base failure. */
    function LintStep(p: Proc, h: Host, fix: bool): Proc
    {
      if npm != null && npm.canLint then npm.ScriptStep(p, h, ["lint"], npm.LintArgs(fix), None) else Unsupported(p, "lint")
    }

    /**
     * With a Node.js run script and everything installed, `run` executes
     * nothing itself: its only command is one tmux session whose first pane
     * serves PHP and whose second runs the Node.js script.
     */
    lemma RunInTmux(p: Proc, h: Host, env: Option<string>)
      requires p.status.Running? && p.capture.None?
      requires npm != null && npm.canRun && npm.root == root
      requires NeedsUpdate(p.fs, h, root + ["composer.json"], root + ["vender"]) == Some(false)
      requires NeedsUpdate(p.fs, h, root + ["package.json"], root + ["node_modules"]) == Some(false)
      requires Nodejs.ScriptFor(npm.package, ["watch", "start", "serve"], env).Some?
      ensures var s := Nodejs.ScriptFor(npm.package, ["watch", "start", "serve"], env).value;
        var panes := [[h.format(Line("php artisan serve"), None, None)], [h.format(Argv([npm.npmCmd, "run", s]), None, None)]];
        RunStep(p, h, env) == Spawned(p, h, Tmux.SessionCall(h, panes))
    {
      var s := Nodejs.ScriptFor(npm.package, ["watch", "start", "serve"], env).value;
      CaptureRecords(p, h, false, root, Sh("php artisan serve"));
      assert [npm.npmCmd, "run", s] + Nodejs.DashArgs(npm.npmCmd, []) == [npm.npmCmd, "run", s];
      CaptureRecords(p, h, false, root, Args([npm.npmCmd, "run", s]));
    }

    /**
     * With `tests`, a Node.js test script and everything installed, `test`
     * is PHPUnit followed by the Node.js test script.
     */
    lemma TestStepBoth(p: Proc, h: Host)
      requires KeepsFiles(h) && p.status.Running? && p.capture.None?
      requires Exists(p.fs, root + ["tests"]) && canTest
      requires npm != null && npm.canTest && npm.root == root
      requires NeedsUpdate(p.fs, h, root + ["composer.json"], root + ["vender"]) == Some(false)
      requires NeedsUpdate(p.fs, h, root + ["package.json"], root + ["node_modules"]) == Some(false)
      requires Nodejs.ScriptFor(npm.package, ["test"], None).Some?
      ensures TestStep(p, h) == CmdStep(CmdStep(p, h, false, root, Sh(Phpunit)), h, false, root,
        Args([npm.npmCmd, "run", Nodejs.ScriptFor(npm.package, ["test"], None).value]))
    {
      var s := Nodejs.ScriptFor(npm.package, ["test"], None).value;
      var php := CmdStep(p, h, false, root, Sh(Phpunit));
      assert php == CmdStep(DepsStep(p, h), h, false, root, Sh(Phpunit)) by {
        assert DepsStep(p, h) == p;
      }
      PhpunitKeepsNodeDeps(p, h);
      assert npm.ScriptStep(php, h, ["test"], [], None)
        == CmdStep(php, h, false, root, Args([npm.npmCmd, "run", s])) by {
        assert [npm.npmCmd, "run", s] + Nodejs.DashArgs(npm.npmCmd, []) == [npm.npmCmd, "run", s];
      }
    }

    /**
     * When commands leave the files alone, PHPUnit does too, whatever it
     * returns, so installed Node.js dependencies stay installed.
     */
    lemma PhpunitKeepsNodeDeps(p: Proc, h: Host)
      requires KeepsFiles(h) && npm != null
      requires NeedsUpdate(p.fs, h, npm.root + ["package.json"], npm.root + ["node_modules"]) == Some(false)
      ensures var php := CmdStep(p, h, false, root, Sh(Phpunit)); npm.DepsStep(php, h) == php
    {
      CmdStepKeepsFiles(p, h, false, root, Sh(Phpunit));
    }

    /**
     * With `tests`, a Node.js test script, everything installed and a quiet
     * host, `test` runs PHPUnit and then the Node.js tests, and nothing else.
     */
    lemma TestRunsBothSuites(p: Proc, h: Host)
      requires Quiet(h) && p.status.Running? && p.capture.None?
      requires Exists(p.fs, root + ["tests"]) && canTest
      requires npm != null && npm.canTest && npm.root == root
      requires NeedsUpdate(p.fs, h, root + ["composer.json"], root + ["vender"]) == Some(false)
      requires NeedsUpdate(p.fs, h, root + ["package.json"], root + ["node_modules"]) == Some(false)
      requires Nodejs.ScriptFor(npm.package, ["test"], None).Some?
      ensures Commands(TestStep(p, h).log) ==
        Commands(p.log) + [Line(Phpunit), Argv([npm.npmCmd, "run", Nodejs.ScriptFor(npm.package, ["test"], None).value])]
    {
      var b := Args([npm.npmCmd, "run", Nodejs.ScriptFor(npm.package, ["test"], None).value]);
      var c := CmdStep(CmdStep(p, h, false, root, Sh(Phpunit)), h, false, root, b);
      assert TestStep(p, h) == c by {
        assert KeepsFiles(h) by { QuietKeepsFiles(h); }
        TestStepBoth(p, h);
      }
      assert Commands(c.log) == Commands(p.log) + [Line(Phpunit), b.cmd] by {
        QuietPair(p, h, root, Sh(Phpunit), b);
        StripKeepsPhpunit();
        assert StripCmd(b.cmd) == b.cmd;
      }
    }

    /**
     * `lint` and then `test` inside one outermost scope, as `check` runs
     * them, with a Node.js lint and test script, a `tests` directory and
     * everything installed, on a host whose commands leave the files alone:
     * the Node.js lint, PHPUnit and the Node.js tests all run, in that order,
     * and closing the scope reports the first failure.
     */
    lemma LintThenTestInScope(p: Proc, h: Host)
      requires p.status.Running? && p.capture.None? && p.exitCode.None? && KeepsFiles(h)
      requires npm != null && npm.canLint && npm.canTest && npm.root == root && canTest
      requires Exists(p.fs, root + ["tests"])
      requires NeedsUpdate(p.fs, h, root + ["composer.json"], root + ["vender"]) == Some(false)
      requires NeedsUpdate(p.fs, h, root + ["package.json"], root + ["node_modules"]) == Some(false)
      requires Nodejs.ScriptFor(npm.package, ["lint"], None).Some? && Nodejs.ScriptFor(npm.package, ["test"], None).Some?
      ensures ScopeOutcome(p, Leave(TestStep(LintStep(Enter(p, false).0, h, false), h), false, Enter(p, false).1), h, false, root,
        [Args([npm.npmCmd, "run", Nodejs.ScriptFor(npm.package, ["lint"], None).value]),
         Sh(Phpunit),
         Args([npm.npmCmd, "run", Nodejs.ScriptFor(npm.package, ["test"], None).value])])
    {
      var e := p.(exitCode := Some(0));
      assert Enter(p, false) == (e, false);
      var lint := Args([npm.npmCmd, "run", Nodejs.ScriptFor(npm.package, ["lint"], None).value]);
      var test := Args([npm.npmCmd, "run", Nodejs.ScriptFor(npm.package, ["test"], None).value]);
      var m := CmdStep(e, h, false, root, lint);
      assert LintStep(e, h, false) == m by {
        npm.CurrentScriptIsOneCommand(e, h, ["lint"], [], None);
        assert lint.cmd.args + Nodejs.DashArgs(npm.npmCmd, []) == lint.cmd.args;
      }
      assert TestStep(m, h) == CmdAll(m, h, false, root, [Sh(Phpunit), test]) by {
        CmdStepKeepsFiles(e, h, false, root, lint);
        CmdStepBookkeeping(e, h, false, root, lint);
        TestStepBoth(m, h);
        CmdAllTwo(m, h, false, root, Sh(Phpunit), test);
      }
      assert CmdAll(m, h, false, root, [Sh(Phpunit), test]) == CmdAll(e, h, false, root, [lint, Sh(Phpunit), test]) by {
        CmdAllCons(e, h, false, root, lint, [Sh(Phpunit), test]);
        assert [lint] + [Sh(Phpunit), test] == [lint, Sh(Phpunit), test];
      }
      ScopeReportsFirstFailure(p, h, false, root, [lint, Sh(Phpunit), test]);
    }

    /** Once the process has ended, `test` changes nothing. */
    lemma TestStepHalted(p: Proc, h: Host)
      requires !p.status.Running?
      ensures TestStep(p, h) == p
    {
      assert DepsStep(p, h) == p;
      if npm != null {
        assert npm.DepsStep(p, h) == p;
      }
    }

    /** Neither `tests` nor Node.js tests: `test` is the base failure and runs nothing. */
    lemma NoTestsFails(p: Proc, h: Host)
      requires p.status.Running? && !canTest && !Exists(p.fs, root + ["tests"]) && (npm == null || !npm.canTest)
      ensures TestStep(p, h).status == Exited(1) && TestStep(p, h).log == p.log
    {
    }

    /** `ensure_deps`. */
    method EnsureDeps(rt: Runtime)
      requires !rt.legacy
      modifies rt
      ensures rt.Snapshot() == DepsStep(old(rt.Snapshot()), rt.host)
    {
      var stale := NeedsUpdate(rt.fs, rt.host, root + ["composer.json"], root + ["vender"]);
      if stale.None? {
        rt.Crash("FileNotFoundError");
      } else if stale.value {
        rt.Cmd(root, Sh("composer install"));
      }
    }

    method Run(rt: Runtime, env: Option<string>)
      requires !rt.legacy
      modifies rt
      ensures rt.Snapshot() == RunStep(old(rt.Snapshot()), rt.host, env)
    {
      if npm != null && npm.canRun {
        var tmux := new Tmux.Tmux(root);
        tmux.BeginPane(rt);
        EnsureDeps(rt);
        rt.Cmd(root, Sh("php artisan serve"));
        ghost var served := rt.Snapshot();
        tmux.EndPane(rt);
        tmux.BeginPane(rt);
        npm.Run(rt, env);
        ghost var ran := rt.Snapshot();
        tmux.EndPane(rt);
        assert tmux.panes == PanesOf(served, PaneClosed(served).1, ran, PaneClosed(ran).1);
        tmux.Run(rt);
      } else {
        EnsureDeps(rt);
        rt.Cmd(root, Sh("php artisan serve"));
      }
    }

    method Build(rt: Runtime, env: Option<string>)
      requires !rt.legacy
      modifies rt
      ensures rt.Snapshot() == BuildStep(old(rt.Snapshot()), rt.host, env)
    {
      if npm != null && npm.canBuild {
        npm.Build(rt, env);
      } else {
        rt.Crash("TypeError");
      }
    }

    method Test(rt: Runtime)
      requires !rt.legacy
      modifies rt
      ensures rt.Snapshot() == TestStep(old(rt.Snapshot()), rt.host)
    {
      if Exists(rt.fs, root + ["tests"]) {
        EnsureDeps(rt);
        rt.Cmd(root, Sh(Phpunit));
      }
      if npm != null && npm.canTest {
        npm.Test(rt);
      }
      if !canTest {
        rt.DontKnowHow("test");
      }
    }

    method Lint(rt: Runtime, fix: bool)
      requires !rt.legacy
      modifies rt
      ensures rt.Snapshot() == LintStep(old(rt.Snapshot()), rt.host, fix)
    {
      if npm != null && npm.canLint {
        npm.Lint(rt, fix);
      } else {
        rt.DontKnowHow("lint");
      }
    }
  }

  /** `./vendor/bin/phpunit` has no surrounding blanks, so `Project.cmd` passes it on as written. */
  lemma StripKeepsPhpunit()
    ensures Engine.StripCmd(Line(Phpunit)) == Line(Phpunit)
  {
    Text.StripKeeps(Phpunit);
  }
}
