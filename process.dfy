/**
 * Everything outside the program: the files it can see, the commands it
 * starts, its console and its exit status.
 *
 * The filesystem is the list of every path that exists, in a fixed order
 * (the order `os.listdir` reports); a path is its list of components from
 * the filesystem root, already resolved, so the root itself is `[]`.
 */
module Process {
  import opened Wrappers
  import opened Text

  type Path = seq<string>

  /** `os.path.join(root, rel)` for a slash-separated relative path. */
  function Below(root: Path, rel: string): Path
  {
    root + SplitPath(rel)
  }

  /** Different relative names under one root are different paths. */
  lemma BelowInjective(root: Path, a: string, b: string)
    ensures a != b ==> Below(root, a) != Below(root, b)
  {
    if Below(root, a) == Below(root, b) {
      assert SplitPath(a) == Below(root, a)[|root|..];
      assert SplitPath(b) == Below(root, b)[|root|..];
      SplitPathInjective(a, b);
    }
  }

  /** `os.path.exists`. */
  predicate Exists(fs: seq<Path>, p: Path)
  {
    p in fs
  }

  /** `os.path.realpath(os.path.join(p, '..'))` for a resolved `p`; the root is its own parent. */
  function Parent(p: Path): Path
  {
    if p == [] then [] else p[..|p| - 1]
  }

  /** `os.listdir(d)`: the names of the direct children of `d`, in filesystem order. */
  function ListDir(fs: seq<Path>, d: Path): (names: seq<string>)
    ensures forall n :: n in names <==> d + [n] in fs
  {
    if fs == [] then []
    else
      var here := if |fs[0]| == |d| + 1 && fs[0][..|d|] == d then [fs[0][|d|]] else [];
      assert |fs[0]| == |d| + 1 && fs[0][..|d|] == d ==> fs[0] == d + [fs[0][|d|]];
      here + ListDir(fs[1..], d)
  }

  /**
   * `os.makedirs(p, exist_ok=True)`: `p` and every missing ancestor are
   * appended; nothing that existed goes away.
   */
  function MakeDirs(fs: seq<Path>, p: Path): (r: seq<Path>)
    ensures |fs| <= |r| && r[..|fs|] == fs
    ensures forall k :: 1 <= k <= |p| ==> p[..k] in r
    ensures forall q :: q in r ==> q in fs || (1 <= |q| <= |p| && q == p[..|q|])
    decreases |p|
  {
    if p == [] then fs
    else
      var up := MakeDirs(fs, p[..|p| - 1]);
      assert forall k :: 1 <= k < |p| ==> p[..k] == p[..|p| - 1][..k];
      assert p[..|p|] == p;
      if p in up then up else up + [p]
  }

  /** The first argument of `subprocess.run`: a shell line or an argument vector. */
  datatype CmdArg = Line(line: string) | Argv(args: seq<string>)

  /** Environment overrides in the order the caller wrote them. */
  type EnvPairs = seq<(string, string)>

  /** What `subprocess.run` is asked to do: command, working directory, environment, shell mode. */
  datatype Invocation = Invocation(cmd: CmdArg, dir: Path, env: Option<map<string, string>>, shell: bool)

  /** One entry of the command log: what ran and the return code it gave. */
  datatype Ran = Ran(inv: Invocation, code: int)

  /** What the outside world answers to one subprocess: its return code and the files afterwards. */
  datatype Reply = Reply(code: int, fs: seq<Path>)

  /**
   * The process: still running, ended by `sys.exit(code)`, or ended by an
   * uncaught exception (which Python reports and turns into exit status 1).
   */
  datatype Status = Running | Exited(code: int) | Crashed(error: string)

  /**
   * One snapshot of the process: files, command log, console lines, the
   * thread-local `exit_code` attribute (absent = None), the status, and the
   * commands captured while `Project.cmd` is patched by a tmux pane.
   */
  datatype Proc = Proc(
    fs: seq<Path>,
    log: seq<Ran>,
    out: seq<string>,
    exitCode: Option<int>,
    status: Status,
    capture: Option<seq<string>>)

  /**
   * The environment the program runs in. `run` answers every subprocess;
   * `which` is the set of commands on PATH; `cwd` is `os.getcwd()` (already
   * resolved); `mtime` is `os.path.getmtime`; `scripts` gives the keys of the
   * "scripts" object of the package.json at a path. The remaining fields stand
   * for names the program uses but does not define: `format_command`,
   * `DEV_PROD_NAMES`, the base `using` list and `can_deploy` flag,
   * `is_env_release` and `env_to_release_or_debug(env, other=True)`.
   */
  datatype Host = Host(
    run: (Invocation, seq<Path>) -> Reply,
    which: set<string>,
    osName: string,
    environ: map<string, string>,
    cwd: Path,
    mtime: Path -> int,
    scripts: Path -> set<string>,
    format: (CmdArg, Option<string>, Option<EnvPairs>) -> string,
    devProdNames: seq<string>,
    baseUsing: seq<string>,
    baseCanDeploy: bool,
    isEnvRelease: Option<string> -> bool,
    releaseOrDebug: string -> string)

  /** A host that lets every command succeed without touching a file. */
  ghost predicate Quiet(h: Host)
  {
    forall inv, fs :: h.run(inv, fs) == Reply(0, fs)
  }

  /**
   * A host whose commands leave the files as they were, whatever codes they
   * return.
   */
  ghost predicate KeepsFiles(h: Host)
  {
    forall inv, fs :: h.run(inv, fs).fs == fs
  }

  /** A quiet host leaves the files alone. */
  lemma QuietKeepsFiles(h: Host)
    requires Quiet(h)
    ensures KeepsFiles(h)
  {
    forall inv, fs ensures h.run(inv, fs).fs == fs {
      assert h.run(inv, fs) == Reply(0, fs);
    }
  }

  /** Ends the process with a status; a process that has ended stays as it was. */
  function Halt(p: Proc, s: Status): (r: Proc)
    requires !s.Running?
    ensures !r.status.Running?
    ensures r.(status := p.status) == p
    ensures p.status.Running? ==> r.status == s
    ensures !p.status.Running? ==> r == p
  {
    if p.status.Running? then p.(status := s) else p
  }

  /** `print`/`click.echo`: one console line, printed only while running. */
  function Print(p: Proc, line: string): (r: Proc)
    ensures r.(out := p.out) == p
    ensures p.status.Running? ==> |r.out| == |p.out| + 1 && r.out[..|p.out|] == p.out && r.out[|p.out|] == line
    ensures !p.status.Running? ==> r == p
  {
    if p.status.Running? then p.(out := p.out + [line]) else p
  }
}
