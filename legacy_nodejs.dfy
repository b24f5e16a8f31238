/**
 * dothingy/project/nodejs.py: the older Node.js project type. It chooses
 * the package manager exactly as thiscli does, but looks scripts up by their
 * plain names only, and runs under the older engine's rules.
 */
module LegacyNodejs {
  import opened Wrappers
  import opened Text
  import opened Process
  import opened Util
  import opened Engine
  import Nodejs

  /** `next(s for s in names if has_script(s))`: the first listed name that is a script. */
  function NextScript(scripts: set<string>, names: seq<string>): (r: Option<string>)
    ensures r.None? <==> forall i :: 0 <= i < |names| ==> names[i] !in scripts
    ensures r.Some? ==> r.value in scripts && r.value in names
  {
    if names == [] then None
    else if names[0] in scripts then Some(names[0])
    else
      var r := NextScript(scripts, names[1..]);
      assert r.None? ==> forall i :: 0 <= i < |names| ==> names[i] !in scripts by {
        if r.None? {
          forall i | 0 < i < |names| ensures names[i] !in scripts { assert names[i] == names[1..][i - 1]; }
        }
      }
      r
  }

  /** The answer is the first listed script: every name before it is not a script. */
  lemma {:induction false} NextScriptAt(scripts: set<string>, names: seq<string>) returns (i: nat)
    requires NextScript(scripts, names).Some?
    ensures i < |names| && names[i] == NextScript(scripts, names).value
    ensures forall j :: 0 <= j < i ==> names[j] !in scripts
  {
    if names[0] in scripts {
      i := 0;
    } else {
      var k := NextScriptAt(scripts, names[1..]);
      i := k + 1;
      forall j | 0 <= j < i ensures names[j] !in scripts {
        if j > 0 { assert names[j] == names[1..][j - 1]; }
      }
    }
  }

  /**
   * No environment variants: where thiscli's search settles for `build:dev`,
   * the older one finds nothing without a plain `build` script.
   */
  lemma NoEnvironmentVariants(scripts: set<string>)
    requires "build:dev" in scripts && "build" !in scripts
    ensures NextScript(scripts, ["build"]).None?
    ensures Nodejs.ScriptFor(scripts, ["build"], None) == Some("build:dev")
  {
    Nodejs.LoneScript(scripts, "build");
    assert "build" + ":dev" == "build:dev";
  }

  class LegacyNodejs {
    const root: Path
    /** The script names of the `package.json` in the working directory. */
    const package: set<string>
    const npmCmd: string

    constructor (rt: Runtime, root: Path)
      requires rt.legacy
      modifies rt
      ensures this.root == root && package == rt.host.scripts(rt.host.cwd + ["package.json"])
      ensures Nodejs.LockChoice(rt.host, old(rt.fs), root).Some? ==> npmCmd == Nodejs.LockChoice(rt.host, old(rt.fs), root).value
      ensures rt.Snapshot() == Nodejs.InitStep(old(rt.Snapshot()), rt.host, root)
    {
      this.root := root;
      var h := rt.host;
      package := h.scripts(h.cwd + ["package.json"]);
      var choice := Nodejs.LockChoice(h, rt.fs, root);
      npmCmd := if choice.Some? then choice.value else "npm";
      new;
      if !Exists(rt.fs, h.cwd + ["package.json"]) {
        rt.Crash("FileNotFoundError");
      }
      if Exists(rt.fs, root + ["yarn.lock"]) && Exists(rt.fs, root + ["package-lock.json"]) {
        rt.Warn(Nodejs.BothLocks);
      }
      if choice.None? {
        rt.Fatal(Nodejs.YarnMissing, []);
      }
    }

    /** `has_script(name)`: the name is among the `scripts`, which default to none. */
    predicate HasScript(name: string)
    {
      name in package
    }

    /** `ensure_deps`: `install` when `node_modules` is missing or older than `package.json`. */
    function DepsStep(p: Proc, h: Host): Proc
    {
      match NeedsUpdate(p.fs, h, root + ["package.json"], root + ["node_modules"])
      case None => Halt(p, Crashed("FileNotFoundError"))
      case Some(stale) => if stale then CmdStep(p, h, true, root, Args([npmCmd, "install"])) else p
    }

    /** `npm_script(names, *args)`: fatal without a script, else dependencies and then `run`. */
    function ScriptStep(p: Proc, h: Host, names: seq<string>, args: seq<string>): Proc
    {
      match NextScript(package, names)
      case None => Fatal(p, Nodejs.NotFound(names), [])
      case Some(s) => CmdStep(DepsStep(p, h), h, true, root, Args([npmCmd, "run", s] + Nodejs.DashArgs(npmCmd, args)))
    }

    /**
     * A found script is run with its arguments, after `--` for npm, once the
     * dependencies are up to date; a missing one is fatal with the names
     * looked for, and nothing runs.
     */
    lemma ScriptOutcomes(p: Proc, h: Host, names: seq<string>, args: seq<string>)
      requires p.status.Running? && p.capture.None?
      ensures NextScript(package, names).None? ==>
        var q := ScriptStep(p, h, names, args);
        q.status == Exited(1) && q.log == p.log && q.out == p.out + ["ERROR: " + Nodejs.NotFound(names)]
      ensures NextScript(package, names).Some? && NeedsUpdate(p.fs, h, root + ["package.json"], root + ["node_modules"]) == Some(false) ==>
        var q := ScriptStep(p, h, names, args);
        && |q.log| == |p.log| + 1 && q.log[..|p.log|] == p.log
        && q.log[|p.log|].inv.cmd == Argv([npmCmd, "run", NextScript(package, names).value] + Nodejs.DashArgs(npmCmd, args))
    {
      if NextScript(package, names).Some? {
        var s := NextScript(package, names).value;
        CmdStepBookkeeping(p, h, true, root, Args([npmCmd, "run", s] + Nodejs.DashArgs(npmCmd, args)));
      }
    }

    /** `lint(fix)` passes `--fix` exactly when asked to. */
    function LintArgs(fix: bool): (r: seq<string>)
      ensures r == [] <==> !fix
    {
      if fix then ["--fix"] else []
    }

    /** `ensure_deps`. */
    method EnsureDeps(rt: Runtime)
      requires rt.legacy
      modifies rt
      ensures rt.Snapshot() == DepsStep(old(rt.Snapshot()), rt.host)
    {
      var stale := NeedsUpdate(rt.fs, rt.host, root + ["package.json"], root + ["node_modules"]);
      if stale.None? {
        rt.Crash("FileNotFoundError");
      } else if stale.value {
        rt.Cmd(root, Args([npmCmd, "install"]));
      }
    }

    /** `npm_script`. */
    method NpmScript(rt: Runtime, names: seq<string>, args: seq<string>)
      requires rt.legacy
      modifies rt
      ensures rt.Snapshot() == ScriptStep(old(rt.Snapshot()), rt.host, names, args)
    {
      var extra := if args != [] && npmCmd == "npm" then ["--"] + args else args;
      var script := NextScript(package, names);
      if script.None? {
        rt.Fatal("NPM script not found. Looked for: " + Join(" ", names), []);
        return;
      }
      EnsureDeps(rt);
      rt.Cmd(root, Args([npmCmd, "run", script.value] + extra));
    }

    /** `build`: the `build` script. */
    method Build(rt: Runtime)
      requires rt.legacy
      modifies rt
      ensures rt.Snapshot() == ScriptStep(old(rt.Snapshot()), rt.host, ["build"], [])
    {
      NpmScript(rt, ["build"], []);
    }

    /** `test`: the `test` script. */
    method Test(rt: Runtime)
      requires rt.legacy
      modifies rt
      ensures rt.Snapshot() == ScriptStep(old(rt.Snapshot()), rt.host, ["test"], [])
    {
      NpmScript(rt, ["test"], []);
    }

    /** `lint(fix)`: the `lint` script, given `--fix` when fixing. */
    method Lint(rt: Runtime, fix: bool)
      requires rt.legacy
      modifies rt
      ensures rt.Snapshot() == ScriptStep(old(rt.Snapshot()), rt.host, ["lint"], LintArgs(fix))
    {
      if fix {
        NpmScript(rt, ["lint"], ["--fix"]);
      } else {
        NpmScript(rt, ["lint"], []);
      }
    }
  }
}
