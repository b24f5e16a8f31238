/**
 * thiscli/project/nodejs.py: a Node.js project driven through the scripts
 * of its `package.json`, with yarn or npm.
 */
module Nodejs {
  import opened Wrappers
  import opened Text
  import opened Process
  import opened Util
  import opened EnvNames
  import opened Engine

  const Markers: seq<string> := ["package.json"]

  /**
   * `get_npm_cmd`: the package manager, from whether yarn is installed and
   * which lock files exist. None is the fatal case of a `yarn.lock` without
   * yarn and without a `package-lock.json` to fall back on.
   */
  function NpmChoice(hasYarn: bool, yarnLock: bool, npmLock: bool): Option<string>
  {
    if yarnLock then (if hasYarn then Some("yarn") else if npmLock then Some("npm") else None)
    else if npmLock then Some("npm")
    else if hasYarn then Some("yarn")
    else Some("npm")
  }

  /**
   * The choice stated as rules: yarn is used exactly when it is installed and
   * either its lock exists or npm's does not; it is fatal exactly when only
   * yarn's lock exists and yarn is missing; npm is used otherwise.
   */
  lemma NpmChoiceRules(hasYarn: bool, yarnLock: bool, npmLock: bool)
    ensures NpmChoice(hasYarn, yarnLock, npmLock) == Some("yarn") <==> hasYarn && (yarnLock || !npmLock)
    ensures NpmChoice(hasYarn, yarnLock, npmLock).None? <==> yarnLock && !hasYarn && !npmLock
    ensures NpmChoice(hasYarn, yarnLock, npmLock) == Some("npm") <==>
      !(hasYarn && (yarnLock || !npmLock)) && !(yarnLock && !hasYarn && !npmLock)
  {
  }

  const BothLocks := "Both yarn.lock and package-lock.json found. This may result in out-of-sync dependencies."
  const YarnMissing := "yarn.lock found but yarn isn't installed"

  /** The lock files, looked up under the project root. */
  function LockChoice(h: Host, fs: seq<Path>, root: Path): Option<string>
  {
    NpmChoice(HasCommand(h, "yarn"), Exists(fs, root + ["yarn.lock"]), Exists(fs, root + ["package-lock.json"]))
  }

  /**
   * The constructor's effect: `package.json` is opened relative to the
   * process's working directory, so its absence there is a crash; then both
   * locks warn, and a missing yarn may be fatal.
   */
  function InitStep(p: Proc, h: Host, root: Path): Proc
  {
    var loaded := if Exists(p.fs, h.cwd + ["package.json"]) then p else Halt(p, Crashed("FileNotFoundError"));
    var warned :=
      if Exists(p.fs, root + ["yarn.lock"]) && Exists(p.fs, root + ["package-lock.json"]) then Warn(loaded, BothLocks)
      else loaded;
    if LockChoice(h, p.fs, root).None? then Fatal(warned, YarnMissing, []) else warned
  }

  /** The suffix `find_script` tries first: the short name of the environment, `dev` when none is given. */
  function EnvKey(env: Option<string>): string
  {
    ShortEnvName(if env.None? || env.value == "" then "dev" else env.value)
  }

  /**
   * The search of `find_script` for a given suffix: for each name in turn,
   * `name:suffix` and then `name` itself.
   */
  function FirstScript(scripts: set<string>, names: seq<string>, key: string): (r: Option<string>)
    ensures r.None? <==> forall i :: 0 <= i < |names| ==> names[i] + ":" + key !in scripts && names[i] !in scripts
    ensures r.Some? ==> r.value in scripts
  {
    if names == [] then None
    else if names[0] + ":" + key in scripts then Some(names[0] + ":" + key)
    else if names[0] in scripts then Some(names[0])
    else
      var r := FirstScript(scripts, names[1..], key);
      assert forall i :: 1 <= i < |names| ==> names[i] == names[1..][i - 1];
      r
  }

  /**
   * A found script belongs to the first name that has either spelling, and
   * is its suffixed spelling when that exists.
   */
  lemma {:induction false} FirstScriptAt(scripts: set<string>, names: seq<string>, key: string) returns (i: nat)
    requires FirstScript(scripts, names, key).Some?
    ensures i < |names|
    ensures forall j :: 0 <= j < i ==> names[j] + ":" + key !in scripts && names[j] !in scripts
    ensures names[i] + ":" + key in scripts ==> FirstScript(scripts, names, key) == Some(names[i] + ":" + key)
    ensures names[i] + ":" + key !in scripts ==> names[i] in scripts && FirstScript(scripts, names, key) == Some(names[i])
  {
    if names[0] + ":" + key in scripts || names[0] in scripts {
      i := 0;
    } else {
      var k := FirstScriptAt(scripts, names[1..], key);
      i := k + 1;
      assert forall j :: 1 <= j < |names| ==> names[j] == names[1..][j - 1];
    }
  }

  /** No environment and the empty one use `dev`; any other is shortened. */
  lemma EnvKeyDefault(name: string)
    ensures EnvKey(None) == "dev" && EnvKey(Some("")) == "dev"
    ensures name != "" ==> EnvKey(Some(name)) == ShortEnvName(name)
  {
    ShortNamesOfDevelopment();
  }

  /** `find_script(names, env)` over the script names of a `package.json`. */
  function ScriptFor(scripts: set<string>, names: seq<string>, env: Option<string>): Option<string>
  {
    FirstScript(scripts, names, EnvKey(env))
  }

  /**
   * No environment, an empty one and every spelling of development look for
   * the same scripts; the aliases of staging and testing agree with their
   * canonical names.
   */
  lemma EnvSpellings(scripts: set<string>, names: seq<string>)
    ensures ScriptFor(scripts, names, None) == ScriptFor(scripts, names, Some(""))
    ensures ScriptFor(scripts, names, None) == ScriptFor(scripts, names, Some("development"))
    ensures ScriptFor(scripts, names, None) == ScriptFor(scripts, names, Some("dev"))
    ensures ScriptFor(scripts, names, Some("stage")) == ScriptFor(scripts, names, Some("staging"))
    ensures ScriptFor(scripts, names, Some("qa")) == ScriptFor(scripts, names, Some("testing"))
    ensures ScriptFor(scripts, names, Some("production")) == ScriptFor(scripts, names, Some("prod"))
  {
    EnvKeyDefault("development");
    EnvKeyDefault("dev");
    EnvKeyDefault("stage");
    EnvKeyDefault("staging");
    EnvKeyDefault("qa");
    EnvKeyDefault("testing");
    EnvKeyDefault("production");
    EnvKeyDefault("prod");
    ShortNamesOfDevelopment();
    ShortNamesOfStaging();
    ShortNamesOfTesting();
    ShortNamesOfProduction();
  }

  /** One name without an environment: found exactly when `name:dev` or `name` is a script, preferring `name:dev`. */
  lemma LoneScript(scripts: set<string>, name: string)
    ensures ScriptFor(scripts, [name], None).Some? <==> name + ":dev" in scripts || name in scripts
    ensures name + ":dev" in scripts ==> ScriptFor(scripts, [name], None) == Some(name + ":dev")
  {
    EnvKeyDefault("");
    assert name + ":" + "dev" == name + ":dev";
  }

  /** `npm run` takes script arguments after `--`; yarn and an empty argument list do not need it. */
  function DashArgs(npmCmd: string, args: seq<string>): (r: seq<string>)
    ensures npmCmd != "npm" || args == [] ==> r == args
    ensures npmCmd == "npm" && args != [] ==> |r| == |args| + 1 && r[0] == "--" && r[1..] == args
  {
    if args != [] && npmCmd == "npm" then ["--"] + args else args
  }

  function NotFound(names: seq<string>): string
  {
    "NPM script not found. Looked for: " + Join(" ", names)
  }

  class Nodejs {
    const root: Path
    /** The script names of the `package.json` in the working directory. */
    const package: set<string>
    const npmCmd: string
    const using: seq<string>
    const canBuild: bool
    const canRun: bool
    const canTest: bool
    const canLint: bool
    const canDeploy: bool

    constructor (rt: Runtime, root: Path)
      modifies rt
      ensures this.root == root && package == rt.host.scripts(rt.host.cwd + ["package.json"])
      ensures LockChoice(rt.host, old(rt.fs), root).Some? ==> npmCmd == LockChoice(rt.host, old(rt.fs), root).value
      ensures using == rt.host.baseUsing + [if npmCmd == "yarn" then "Yarn" else "npm"]
      ensures canBuild == ScriptFor(package, ["build"] + rt.host.devProdNames, None).Some?
      ensures canRun == ScriptFor(package, ["watch", "start", "serve"], None).Some?
      ensures canTest == ScriptFor(package, ["test"], None).Some?
      ensures canLint == ScriptFor(package, ["lint"], None).Some?
      ensures canDeploy == (ScriptFor(package, ["deploy"], None).Some? || rt.host.baseCanDeploy)
      ensures rt.Snapshot() == InitStep(old(rt.Snapshot()), rt.host, root)
    {
      this.root := root;
      var h := rt.host;
      package := h.scripts(h.cwd + ["package.json"]);
      var choice := LockChoice(h, rt.fs, root);
      npmCmd := if choice.Some? then choice.value else "npm";
      using := h.baseUsing + [if choice.Some? && choice.value == "yarn" then "Yarn" else "npm"];
      var scripts := h.scripts(h.cwd + ["package.json"]);
      canBuild := ScriptFor(scripts, ["build"] + h.devProdNames, None).Some?;
      canRun := ScriptFor(scripts, ["watch", "start", "serve"], None).Some?;
      canTest := ScriptFor(scripts, ["test"], None).Some?;
      canLint := ScriptFor(scripts, ["lint"], None).Some?;
      canDeploy := ScriptFor(scripts, ["deploy"], None).Some? || h.baseCanDeploy;
      new;
      if !Exists(rt.fs, h.cwd + ["package.json"]) {
        rt.Crash("FileNotFoundError");
      }
      if Exists(rt.fs, root + ["yarn.lock"]) && Exists(rt.fs, root + ["package-lock.json"]) {
        rt.Warn(BothLocks);
      }
      if choice.None? {
        rt.Fatal(YarnMissing, []);
      }
    }

    /** `ensure_deps`: `install` when `node_modules` is missing or older than `package.json`. */
    function DepsStep(p: Proc, h: Host): Proc
    {
      match NeedsUpdate(p.fs, h, root + ["package.json"], root + ["node_modules"])
      case None => Halt(p, Crashed("FileNotFoundError"))
      case Some(stale) => if stale then CmdStep(p, h, false, root, Args([npmCmd, "install"])) else p
    }

    /** `npm_script(names, *args, env=env)`: fatal without a script, else dependencies and then `run`. */
    function ScriptStep(p: Proc, h: Host, names: seq<string>, args: seq<string>, env: Option<string>): Proc
    {
      match ScriptFor(package, names, env)
      case None => Fatal(p, NotFound(names), [])
      case Some(s) => CmdStep(DepsStep(p, h), h, false, root, Args([npmCmd, "run", s] + DashArgs(npmCmd, args)))
    }

    /**
     * `build(env)`: a name from the host's list of development and
     * production names makes Python add a set to a list (TypeError); no
     * environment tries `build`, `dev`, `development`; any other builds with
     * the environment's suffix.
     */
    function BuildStep(p: Proc, h: Host, env: Option<string>): Proc
    {
      if env.Some? && env.value in h.devProdNames then Halt(p, Crashed("TypeError"))
      else if env.None? then ScriptStep(p, h, ["build", "dev", "development"], [], None)
      else ScriptStep(p, h, ["build"], [], env)
    }

    function LintArgs(fix: bool): seq<string>
    {
      if fix then ["--fix"] else []
    }

    /**
     * `deploy(env)`: the `deploy` script when there is one; otherwise the
     * base `deploy`, which takes no environment, so the call is a TypeError.
     */
    function DeployStep(p: Proc, h: Host, env: Option<string>): Proc
    {
      if ScriptFor(package, ["deploy"], env).Some? then ScriptStep(p, h, ["deploy"], [], env)
      else Halt(p, Crashed("TypeError"))
    }

    /** A missing script ends the process with the names it looked for and runs nothing. */
    lemma MissingScriptIsFatal(p: Proc, h: Host, names: seq<string>, args: seq<string>, env: Option<string>)
      requires p.status.Running? && ScriptFor(package, names, env).None?
      ensures var q := ScriptStep(p, h, names, args, env);
        q.status == Exited(1) && q.log == p.log && q.out == p.out + ["ERROR: " + NotFound(names)]
    {
    }

    /**
     * With dependencies up to date, a found script is the one command run:
     * the package manager's `run` of that script, arguments after `--` for npm.
     */
    lemma FoundScriptRuns(p: Proc, h: Host, names: seq<string>, args: seq<string>, env: Option<string>)
      requires p.status.Running? && p.capture.None?
      requires ScriptFor(package, names, env).Some?
      requires NeedsUpdate(p.fs, h, root + ["package.json"], root + ["node_modules"]) == Some(false)
      ensures var q := ScriptStep(p, h, names, args, env);
        && |q.log| == |p.log| + 1 && q.log[..|p.log|] == p.log
        && q.log[|p.log|].inv.cmd == Argv([npmCmd, "run", ScriptFor(package, names, env).value] + DashArgs(npmCmd, args))
    {
      var s := ScriptFor(package, names, env).value;
      CmdStepBookkeeping(p, h, false, root, Args([npmCmd, "run", s] + DashArgs(npmCmd, args)));
    }

    /** Once the process has ended, a script step changes nothing. */
    lemma ScriptStepHalted(p: Proc, h: Host, names: seq<string>, args: seq<string>, env: Option<string>)
      requires !p.status.Running?
      ensures ScriptStep(p, h, names, args, env) == p
    {
      assert DepsStep(p, h) == p;
    }

    /** With dependencies up to date, a found script is exactly one `Project.cmd` call. */
    lemma CurrentScriptIsOneCommand(p: Proc, h: Host, names: seq<string>, args: seq<string>, env: Option<string>)
      requires ScriptFor(package, names, env).Some?
      requires NeedsUpdate(p.fs, h, root + ["package.json"], root + ["node_modules"]) == Some(false)
      ensures ScriptStep(p, h, names, args, env) ==
        CmdStep(p, h, false, root, Args([npmCmd, "run", ScriptFor(package, names, env).value] + DashArgs(npmCmd, args)))
    {
    }

    /**
     * With `node_modules` missing and a quiet host, `install` runs before the
     * script and nothing else happens.
     */
    lemma InstallFirst(p: Proc, h: Host, names: seq<string>, env: Option<string>)
      requires Quiet(h) && p.status.Running? && p.capture.None?
      requires ScriptFor(package, names, env).Some? && !Exists(p.fs, root + ["node_modules"])
      ensures Commands(ScriptStep(p, h, names, [], env).log) ==
        Commands(p.log) + [Argv([npmCmd, "install"]), Argv([npmCmd, "run", ScriptFor(package, names, env).value])]
    {
      var s := ScriptFor(package, names, env).value;
      assert DashArgs(npmCmd, []) == [];
      assert [npmCmd, "run", s] + [] == [npmCmd, "run", s];
      CmdAllTwo(p, h, false, root, Args([npmCmd, "install"]), Args([npmCmd, "run", s]));
      QuietCommands(p, h, root, [Args([npmCmd, "install"]), Args([npmCmd, "run", s])]);
    }

    /** Which names each action looks for, and the crash for a development or production name. */
    lemma BuildNames(p: Proc, h: Host, env: Option<string>)
      requires p.status.Running?
      ensures env.None? ==> BuildStep(p, h, env) == ScriptStep(p, h, ["build", "dev", "development"], [], None)
      ensures env.Some? && env.value in h.devProdNames ==> BuildStep(p, h, env).status == Crashed("TypeError")
      ensures env.Some? && env.value !in h.devProdNames ==> BuildStep(p, h, env) == ScriptStep(p, h, ["build"], [], env)
      ensures env == Some("production") && "production" !in h.devProdNames && "build:prod" in package ==>
        ScriptFor(package, ["build"], env) == Some("build:prod")
    {
      if env == Some("production") {
        EnvKeyDefault("production");
        ShortNamesOfProduction();
        assert "build" + ":" + "prod" == "build:prod";
      }
    }

    /** `npm(['install'])` when the dependencies are stale. */
    method EnsureDeps(rt: Runtime)
      requires !rt.legacy
      modifies rt
      ensures rt.Snapshot() == DepsStep(old(rt.Snapshot()), rt.host)
    {
      var stale := NeedsUpdate(rt.fs, rt.host, root + ["package.json"], root + ["node_modules"]);
      if stale.None? {
        rt.Crash("FileNotFoundError");
      } else if stale.value {
        rt.Cmd(root, Args([npmCmd, "install"]));
      }
    }

    /** The loop of `find_script`. */
    method FindScript(names: seq<string>, env: Option<string>) returns (r: Option<string>)
      ensures r == ScriptFor(package, names, env)
    {
      var key := ShortEnvName(if env.None? || env.value == "" then "dev" else env.value);
      var i := 0;
      while i < |names|
        invariant 0 <= i <= |names|
        invariant FirstScript(package, names[i..], key) == FirstScript(package, names, key)
      {
        assert names[i..][1..] == names[i + 1..];
        var suffixed := names[i] + ":" + key;
        if suffixed in package {
          return Some(suffixed);
        }
        if names[i] in package {
          return Some(names[i]);
        }
        i := i + 1;
      }
      return None;
    }

    /** `npm_script`. */
    method NpmScript(rt: Runtime, names: seq<string>, args: seq<string>, env: Option<string>)
      requires !rt.legacy
      modifies rt
      ensures rt.Snapshot() == ScriptStep(old(rt.Snapshot()), rt.host, names, args, env)
    {
      var extra := if args != [] && npmCmd == "npm" then ["--"] + args else args;
      var script := FindScript(names, env);
      if script.None? {
        rt.Fatal("NPM script not found. Looked for: " + Join(" ", names), []);
        return;
      }
      EnsureDeps(rt);
      rt.Cmd(root, Args([npmCmd, "run", script.value] + extra));
    }

    method Build(rt: Runtime, env: Option<string>)
      requires !rt.legacy
      modifies rt
      ensures rt.Snapshot() == BuildStep(old(rt.Snapshot()), rt.host, env)
    {
      if env.Some? && env.value in rt.host.devProdNames {
        rt.Crash("TypeError");
      } else if env.None? {
        NpmScript(rt, ["build", "dev", "development"], [], None);
      } else {
        NpmScript(rt, ["build"], [], env);
      }
    }

    /** `run(env)`: the first of `watch`, `start`, `serve`. */
    method Run(rt: Runtime, env: Option<string>)
      requires !rt.legacy
      modifies rt
      ensures rt.Snapshot() == ScriptStep(old(rt.Snapshot()), rt.host, ["watch", "start", "serve"], [], env)
    {
      NpmScript(rt, ["watch", "start", "serve"], [], env);
    }

    method Test(rt: Runtime)
      requires !rt.legacy
      modifies rt
      ensures rt.Snapshot() == ScriptStep(old(rt.Snapshot()), rt.host, ["test"], [], None)
    {
      NpmScript(rt, ["test"], [], None);
    }

    /** `lint(fix)`: the `lint` script, given `--fix` when fixing. */
    method Lint(rt: Runtime, fix: bool)
      requires !rt.legacy
      modifies rt
      ensures rt.Snapshot() == ScriptStep(old(rt.Snapshot()), rt.host, ["lint"], LintArgs(fix), None)
    {
      if fix {
        NpmScript(rt, ["lint"], ["--fix"], None);
      } else {
        NpmScript(rt, ["lint"], [], None);
      }
    }

    method Deploy(rt: Runtime, env: Option<string>)
      requires !rt.legacy
      modifies rt
      ensures rt.Snapshot() == DeployStep(old(rt.Snapshot()), rt.host, env)
    {
      var found := FindScript(["deploy"], env);
      if found.Some? {
        NpmScript(rt, ["deploy"], [], env);
      } else {
        rt.Crash("TypeError");
      }
    }
  }
}
