/**
 * The engine both generations of the tool share (thiscli/project/__init__.py
 * and its older copy dothingy/project/__init__.py): how a command is echoed
 * and run, the delayed-exit scope that turns the first failure into the exit
 * status, the base "don't know how" failures, and the upward search for a
 * marker file. The older copy differs in two rules, selected by `legacy`: it
 * does not strip command lines, and every delayed-exit scope starts afresh.
 */
module Engine {
  import opened Wrappers
  import opened Text
  import opened Process
  import opened Util

  // ---- echo_command and maybe_quote_arg ----

  /** `maybe_quote_arg(arg)`: quote an argument only when it holds a space. */
  function MaybeQuoteArg(arg: string): (r: string)
    ensures !HasChar(arg, ' ') ==> r == arg
    ensures HasChar(arg, ' ') && HasChar(arg, '"') ==> r == "'" + arg + "'"
    ensures HasChar(arg, ' ') && !HasChar(arg, '"') ==> r == "\"" + arg + "\""
  {
    if !HasChar(arg, ' ') then arg
    else if HasChar(arg, '"') then "'" + arg + "'"
    else "\"" + arg + "\""
  }

  /** Taking off one pair of matching outer quotes. */
  function Unquote(s: string): string
  {
    if |s| >= 2 && s[0] == s[|s| - 1] && (s[0] == '"' || s[0] == '\'') then s[1..|s| - 1] else s
  }

  /**
   * An argument with a space is shown between a matching pair of quotes, and
   * taking them off gives the argument back; one without is shown as it is.
   */
  lemma MaybeQuoteArgRoundTrip(arg: string)
    ensures HasChar(arg, ' ') ==> Unquote(MaybeQuoteArg(arg)) == arg
    ensures HasChar(arg, ' ') ==>
      (|MaybeQuoteArg(arg)| == |arg| + 2
       && MaybeQuoteArg(arg)[0] == MaybeQuoteArg(arg)[|arg| + 1]
       && (MaybeQuoteArg(arg)[0] == '"' <==> !HasChar(arg, '"')))
  {
    var r := MaybeQuoteArg(arg);
    if HasChar(arg, ' ') {
      assert r[1..|r| - 1] == arg;
    }
  }

  function QuoteAll(args: seq<string>): (r: seq<string>)
    ensures |r| == |args| && forall i :: 0 <= i < |args| ==> r[i] == MaybeQuoteArg(args[i])
  {
    if args == [] then [] else [MaybeQuoteArg(args[0])] + QuoteAll(args[1..])
  }

  /** The command as `echo_command` shows it: lines as they are, argument lists joined by spaces. */
  function RenderCmd(c: CmdArg): string
  {
    match c
    case Line(s) => s
    case Argv(args) => Join(" ", QuoteAll(args))
  }

  /** `KEY=VALUE` pairs, space-separated, in the caller's order. */
  function EnvAssignments(env: EnvPairs): (r: seq<string>)
    ensures |r| == |env| && forall i :: 0 <= i < |env| ==> r[i] == env[i].0 + "=" + env[i].1
  {
    if env == [] then [] else [env[0].0 + "=" + env[0].1] + EnvAssignments(env[1..])
  }

  /** The console line `echo_command(cmd, cwd, env)` prints. */
  function EchoLine(c: CmdArg, cwd: Option<string>, env: Option<EnvPairs>): string
  {
    var body := RenderCmd(c);
    var withEnv := if env.Some? then Join(" ", EnvAssignments(env.value)) + " " + body else body;
    var withCd := if cwd.Some? then "cd " + cwd.value + " && " + withEnv else withEnv;
    "$ " + withCd
  }

  /**
   * The echoed line reads, left to right: `$ `, then `cd <dir> && ` for a
   * directory override (the directory as the caller wrote it), then the
   * `KEY=VALUE` pairs, then the command.
   */
  lemma EchoLineOrder(c: CmdArg, dir: string, env: EnvPairs)
    ensures EchoLine(c, Some(dir), Some(env))
      == "$ cd " + dir + " && " + Join(" ", EnvAssignments(env)) + " " + RenderCmd(c)
    ensures EchoLine(c, Some(dir), None) == "$ cd " + dir + " && " + RenderCmd(c)
    ensures EchoLine(c, None, Some(env)) == "$ " + Join(" ", EnvAssignments(env)) + " " + RenderCmd(c)
    ensures EchoLine(c, None, None) == "$ " + RenderCmd(c)
  {
    var body, a := RenderCmd(c), Join(" ", EnvAssignments(env));
    assert EchoLine(c, Some(dir), Some(env)) == "$ " + ("cd " + dir + " && " + (a + " " + body));
    assert EchoLine(c, Some(dir), None) == "$ " + ("cd " + dir + " && " + body);
    assert EchoLine(c, None, Some(env)) == "$ " + (a + " " + body);
  }

  /** An argument list without spaces is echoed as the plain space-joined list. */
  lemma {:induction false} EchoPlainArgs(args: seq<string>)
    requires forall i :: 0 <= i < |args| ==> !HasChar(args[i], ' ')
    ensures QuoteAll(args) == args
    ensures EchoLine(Argv(args), None, None) == "$ " + Join(" ", args)
  {
    if args != [] {
      EchoPlainArgs(args[1..]);
    }
  }

  // ---- Project.cmd ----

  /** The arguments of `Project.cmd(cmd, cwd=None, env=None, echo=True, shell=None)`. */
  datatype Call = Call(cmd: CmdArg, cwd: Option<string>, env: Option<EnvPairs>, echo: bool, shell: Option<bool>)

  /** `self.cmd("...")` with every other argument left at its default. */
  function Sh(line: string): Call
  {
    Call(Line(line), None, None, true, None)
  }

  /** `self.cmd("...", cwd=dir)`. */
  function ShIn(line: string, dir: string): Call
  {
    Call(Line(line), Some(dir), None, true, None)
  }

  /** `self.cmd([...])`. */
  function Args(args: seq<string>): Call
  {
    Call(Argv(args), None, None, true, None)
  }

  /** `dict(os.environ, **env)`: the pairs laid over the inherited environment, later pairs last. */
  function Overlay(base: map<string, string>, pairs: EnvPairs): map<string, string>
  {
    if pairs == [] then base
    else Overlay(base, pairs[..|pairs| - 1])[pairs[|pairs| - 1].0 := pairs[|pairs| - 1].1]
  }

  /** A key the source's pairs name. */
  predicate Names(pairs: EnvPairs, key: string)
  {
    exists i :: 0 <= i < |pairs| && pairs[i].0 == key
  }

  /**
   * The merged environment has exactly the inherited keys and the keys the
   * caller set; a key the caller set has the value of its last pair, and every
   * other key keeps its inherited value.
   */
  lemma {:induction false} OverlayWins(base: map<string, string>, pairs: EnvPairs, key: string)
    ensures key in Overlay(base, pairs) <==> key in base || Names(pairs, key)
    ensures forall i ::
      (0 <= i < |pairs| && pairs[i].0 == key && (forall j :: i < j < |pairs| ==> pairs[j].0 != key))
      ==> Overlay(base, pairs)[key] == pairs[i].1
    ensures key in base && !Names(pairs, key) ==> Overlay(base, pairs)[key] == base[key]
  {
    if pairs != [] {
      var init := pairs[..|pairs| - 1];
      OverlayWins(base, init, key);
      if Names(pairs, key) && !(pairs[|pairs| - 1].0 == key) {
        var i :| 0 <= i < |pairs| && pairs[i].0 == key;
        assert init[i] == pairs[i];
      }
      if Names(init, key) {
        var i :| 0 <= i < |init| && init[i].0 == key;
        assert pairs[i] == init[i];
      }
      forall i | 0 <= i < |pairs| - 1 && pairs[i].0 == key && (forall j :: i < j < |pairs| ==> pairs[j].0 != key)
        ensures Overlay(base, pairs)[key] == pairs[i].1
      {
        assert init[i] == pairs[i];
        assert forall j :: i < j < |init| ==> init[j].0 != key;
      }
    }
  }

  /** `' ' in cmd`: a space in a command line, or an argument that is exactly one space. */
  predicate ShellDefault(c: CmdArg)
  {
    match c
    case Line(s) => HasChar(s, ' ')
    case Argv(args) => " " in args
  }

  /** `cmd.strip()` for a command line; argument lists are left as they are. */
  function StripCmd(c: CmdArg): CmdArg
  {
    match c
    case Line(s) => Line(Strip(s))
    case Argv(args) => c
  }

  /** The subprocess `Project.cmd` starts for a project rooted at `root`. */
  function InvocationFor(h: Host, legacy: bool, root: Path, call: Call): Invocation
  {
    var c := if legacy then call.cmd else StripCmd(call.cmd);
    Invocation(
      c,
      if call.cwd.Some? then Below(root, call.cwd.value) else root,
      if call.env.Some? then Some(Overlay(h.environ, call.env.value)) else None,
      if call.shell.Some? then call.shell.value else ShellDefault(c))
  }

  /**
   * What a return code does: zero nothing; a failure inside a delayed-exit
   * scope is stored only while the stored code is still 0; a failure outside
   * any scope ends the process with that code.
   */
  function Settle(p: Proc, code: int): (r: Proc)
    ensures code == 0 ==> r == p
    ensures code != 0 && p.exitCode == Some(0) ==> r == p.(exitCode := Some(code))
    ensures code != 0 && p.exitCode.Some? && p.exitCode.value != 0 ==> r == p
    ensures code != 0 && p.exitCode.None? ==> r == Halt(p, Exited(code))
  {
    if code == 0 then p
    else match p.exitCode
      case Some(c) => if c == 0 then p.(exitCode := Some(code)) else p
      case None => Halt(p, Exited(code))
  }

  /** Running an invocation: the host answers, the run is logged and its code settled. */
  function Execute(p: Proc, h: Host, inv: Invocation): Proc
  {
    var reply := h.run(inv, p.fs);
    Settle(p.(fs := reply.fs, log := p.log + [Ran(inv, reply.code)]), reply.code)
  }

  /**
   * One `Project.cmd` call. While a tmux pane patches `Project.cmd`, the call
   * only records `format_command(cmd, cwd, env)`; otherwise the (stripped)
   * command is echoed, run, logged with its return code, and the code settled.
   */
  function CmdStep(p: Proc, h: Host, legacy: bool, root: Path, call: Call): Proc
  {
    if !p.status.Running? then p
    else if p.capture.Some? then p.(capture := Some(p.capture.value + [h.format(call.cmd, call.cwd, call.env)]))
    else
      var inv := InvocationFor(h, legacy, root, call);
      Execute(if call.echo then Print(p, EchoLine(inv.cmd, call.cwd, call.env)) else p, h, inv)
  }

  /**
   * What one command does to the bookkeeping of a running, unpatched process:
   * one log entry more, and its code settled against the stored code.
   */
  lemma CmdStepBookkeeping(p: Proc, h: Host, legacy: bool, root: Path, call: Call)
    requires p.status.Running? && p.capture.None?
    ensures var q := CmdStep(p, h, legacy, root, call);
      && |q.log| == |p.log| + 1 && q.log[..|p.log|] == p.log && q.capture.None?
      && q.log[|p.log|].inv == InvocationFor(h, legacy, root, call)
      && var code := q.log[|p.log|].code;
      && q.exitCode == (if code != 0 && p.exitCode == Some(0) then Some(code) else p.exitCode)
      && q.status == (if code != 0 && p.exitCode.None? then Exited(code) else Running)
  {
    var inv := InvocationFor(h, legacy, root, call);
    var e := if call.echo then Print(p, EchoLine(inv.cmd, call.cwd, call.env)) else p;
    assert e.log == p.log && e.exitCode == p.exitCode && e.status == p.status && e.capture == p.capture;
    assert CmdStep(p, h, legacy, root, call) == Execute(e, h, inv);
  }

  /** On a host whose commands leave the files alone, a command leaves them alone too. */
  lemma CmdStepKeepsFiles(p: Proc, h: Host, legacy: bool, root: Path, call: Call)
    requires KeepsFiles(h)
    ensures CmdStep(p, h, legacy, root, call).fs == p.fs
  {
    if p.status.Running? && p.capture.None? {
      var inv := InvocationFor(h, legacy, root, call);
      var e := if call.echo then Print(p, EchoLine(inv.cmd, call.cwd, call.env)) else p;
      assert h.run(inv, e.fs).fs == e.fs;
      assert CmdStep(p, h, legacy, root, call) == Execute(e, h, inv);
    }
  }

  /** `Project.cmd` called once per element, in order. */
  function CmdAll(p: Proc, h: Host, legacy: bool, root: Path, calls: seq<Call>): Proc
    decreases |calls|
  {
    if calls == [] then p else CmdAll(CmdStep(p, h, legacy, root, calls[0]), h, legacy, root, calls[1..])
  }

  /** One command of a running, unpatched process adds exactly one log entry and one echo line. */
  lemma CmdStepEffect(p: Proc, h: Host, legacy: bool, root: Path, call: Call)
    requires p.status.Running? && p.capture.None? && call.echo
    ensures var q := CmdStep(p, h, legacy, root, call);
      var inv := InvocationFor(h, legacy, root, call);
      && q.log == p.log + [Ran(inv, h.run(inv, p.fs).code)]
      && q.out == p.out + [EchoLine(inv.cmd, call.cwd, call.env)]
      && q.fs == h.run(inv, p.fs).fs
      && (h.run(inv, p.fs).code == 0 ==> q.status == p.status && q.exitCode == p.exitCode)
  {
    var inv := InvocationFor(h, legacy, root, call);
    var e := Print(p, EchoLine(inv.cmd, call.cwd, call.env));
    assert e.fs == p.fs && e.log == p.log && e.out == p.out + [EchoLine(inv.cmd, call.cwd, call.env)];
    assert CmdStep(p, h, legacy, root, call) == Execute(e, h, inv);
  }

  /** Running `a + b` is running `a`, then `b`. */
  lemma {:induction false} CmdAllAppend(p: Proc, h: Host, legacy: bool, root: Path, a: seq<Call>, b: seq<Call>)
    ensures CmdAll(p, h, legacy, root, a + b) == CmdAll(CmdAll(p, h, legacy, root, a), h, legacy, root, b)
    decreases |a|
  {
    if a != [] {
      var p1 := CmdStep(p, h, legacy, root, a[0]);
      assert (a + b)[0] == a[0] && (a + b)[1..] == a[1..] + b;
      assert CmdAll(p, h, legacy, root, a + b) == CmdAll(p1, h, legacy, root, a[1..] + b);
      assert CmdAll(p, h, legacy, root, a) == CmdAll(p1, h, legacy, root, a[1..]);
      CmdAllAppend(p1, h, legacy, root, a[1..], b);
    } else {
      assert a + b == b;
    }
  }

  /** Once the process has ended, no command runs and nothing changes. */
  lemma {:induction false} CmdAllHalted(p: Proc, h: Host, legacy: bool, root: Path, calls: seq<Call>)
    requires !p.status.Running?
    ensures CmdAll(p, h, legacy, root, calls) == p
    decreases |calls|
  {
    if calls != [] {
      CmdAllHalted(p, h, legacy, root, calls[1..]);
    }
  }

  /** The return codes of a stretch of the command log. */
  function Codes(rs: seq<Ran>): (r: seq<int>)
    ensures |r| == |rs| && forall i :: 0 <= i < |rs| ==> r[i] == rs[i].code
  {
    if rs == [] then [] else [rs[0].code] + Codes(rs[1..])
  }

  /** The first non-zero code, or 0 when every code is 0. */
  function FirstNonZero(codes: seq<int>): (r: int)
    ensures r == 0 <==> forall i :: 0 <= i < |codes| ==> codes[i] == 0
    ensures r != 0 ==> exists i :: 0 <= i < |codes| && codes[i] == r && forall j :: 0 <= j < i ==> codes[j] == 0
  {
    if codes == [] then 0
    else if codes[0] != 0 then codes[0]
    else
      var r := FirstNonZero(codes[1..]);
      assert r != 0 ==> exists i :: 0 <= i < |codes| && codes[i] == r && forall j :: 0 <= j < i ==> codes[j] == 0 by {
        if r != 0 {
          var i :| 0 <= i < |codes[1..]| && codes[1..][i] == r && forall j :: 0 <= j < i ==> codes[1..][j] == 0;
          assert codes[i + 1] == r;
          assert forall j :: 0 <= j < i + 1 ==> codes[j] == 0 by {
            forall j | 0 <= j < i + 1 ensures codes[j] == 0 { if j > 0 { assert codes[j] == codes[1..][j - 1]; } }
          }
        }
      }
      r
  }

  /**
   * Inside a delayed-exit scope every command runs, whatever the earlier ones
   * returned, the process keeps running, and the stored code ends up as the
   * earlier stored failure or else the first failure among these commands.
   */
  lemma {:induction false} CmdAllInScope(p: Proc, h: Host, legacy: bool, root: Path, calls: seq<Call>)
    requires p.status.Running? && p.capture.None? && p.exitCode.Some?
    ensures var q := CmdAll(p, h, legacy, root, calls);
      && q.status.Running? && q.capture.None?
      && |q.log| == |p.log| + |calls| && q.log[..|p.log|] == p.log
      && q.exitCode == Some(if p.exitCode.value != 0 then p.exitCode.value else FirstNonZero(Codes(q.log[|p.log|..])))
    decreases |calls|
  {
    if calls != [] {
      var p1 := CmdStep(p, h, legacy, root, calls[0]);
      CmdStepBookkeeping(p, h, legacy, root, calls[0]);
      CmdAllInScope(p1, h, legacy, root, calls[1..]);
      var q := CmdAll(p1, h, legacy, root, calls[1..]);
      assert CmdAll(p, h, legacy, root, calls) == q;
      assert q.log[..|p.log|] == p.log by { assert q.log[..|p.log|] == q.log[..|p1.log|][..|p.log|]; }
      assert q.log[|p.log|] == p1.log[|p.log|] by { assert q.log[|p.log|] == q.log[..|p1.log|][|p.log|]; }
      FirstNonZeroOfStretch(q.log, |p.log|);
    }
  }

  /** The first failure from position `k` on is the entry at `k` when it failed, else the first failure after it. */
  lemma FirstNonZeroOfStretch(log: seq<Ran>, k: nat)
    requires k < |log|
    ensures FirstNonZero(Codes(log[k..])) == if log[k].code != 0 then log[k].code else FirstNonZero(Codes(log[k + 1..]))
  {
    assert log[k..][1..] == log[k + 1..];
  }

  /** Inside a delayed-exit scope the log gains exactly the invocations of the commands, in order. */
  lemma {:induction false} CmdAllInScopeOrder(p: Proc, h: Host, legacy: bool, root: Path, calls: seq<Call>)
    requires p.status.Running? && p.capture.None? && p.exitCode.Some?
    ensures var q := CmdAll(p, h, legacy, root, calls);
      && |q.log| == |p.log| + |calls|
      && forall i :: 0 <= i < |calls| ==> q.log[|p.log| + i].inv == InvocationFor(h, legacy, root, calls[i])
    decreases |calls|
  {
    if calls != [] {
      var p1 := CmdStep(p, h, legacy, root, calls[0]);
      CmdStepBookkeeping(p, h, legacy, root, calls[0]);
      CmdAllInScope(p1, h, legacy, root, calls[1..]);
      CmdAllInScopeOrder(p1, h, legacy, root, calls[1..]);
      var q := CmdAll(p1, h, legacy, root, calls[1..]);
      forall i | 0 <= i < |calls| ensures q.log[|p.log| + i].inv == InvocationFor(h, legacy, root, calls[i]) {
        if i == 0 {
          assert q.log[|p.log|] == q.log[..|p1.log|][|p.log|];
        } else {
          assert q.log[|p.log| + i] == q.log[|p1.log| + (i - 1)] && calls[1..][i - 1] == calls[i];
        }
      }
    }
  }

  /**
   * Outside any scope the commands run until the first failure, which ends
   * the process with its own code; the rest never run.
   */
  lemma {:induction false} CmdAllOutsideScope(p: Proc, h: Host, legacy: bool, root: Path, calls: seq<Call>)
    requires p.status.Running? && p.capture.None? && p.exitCode.None?
    ensures var q := CmdAll(p, h, legacy, root, calls);
      && q.exitCode.None? && q.capture.None?
      && |p.log| <= |q.log| <= |p.log| + |calls| && q.log[..|p.log|] == p.log
      && (forall i :: |p.log| <= i < |q.log| - 1 ==> q.log[i].code == 0)
      && (q.status.Running? ==> |q.log| == |p.log| + |calls| && forall i :: |p.log| <= i < |q.log| ==> q.log[i].code == 0)
      && (!q.status.Running? ==> |q.log| > |p.log| && q.log[|q.log| - 1].code != 0
                                 && q.status == Exited(q.log[|q.log| - 1].code))
    decreases |calls|
  {
    if calls != [] {
      var p1 := CmdStep(p, h, legacy, root, calls[0]);
      CmdStepBookkeeping(p, h, legacy, root, calls[0]);
      if p1.status.Running? {
        CmdAllOutsideScope(p1, h, legacy, root, calls[1..]);
        var q := CmdAll(p1, h, legacy, root, calls[1..]);
        assert q.log[..|p.log|] == p.log by { assert q.log[..|p.log|] == q.log[..|p1.log|][..|p.log|]; }
      } else {
        CmdAllHalted(p1, h, legacy, root, calls[1..]);
      }
    }
  }

  /** A one-command list runs that command. */
  lemma CmdAllOne(p: Proc, h: Host, legacy: bool, root: Path, a: Call)
    ensures CmdAll(p, h, legacy, root, [a]) == CmdStep(p, h, legacy, root, a)
  {
    assert [a][1..] == [];
  }

  /** A list runs its head first. */
  lemma CmdAllCons(p: Proc, h: Host, legacy: bool, root: Path, a: Call, rest: seq<Call>)
    ensures CmdAll(p, h, legacy, root, [a] + rest) == CmdAll(CmdStep(p, h, legacy, root, a), h, legacy, root, rest)
  {
    assert ([a] + rest)[0] == a && ([a] + rest)[1..] == rest;
  }

  /** A two-command list runs the first, then the second. */
  lemma CmdAllTwo(p: Proc, h: Host, legacy: bool, root: Path, a: Call, b: Call)
    ensures CmdAll(p, h, legacy, root, [a, b]) == CmdStep(CmdStep(p, h, legacy, root, a), h, legacy, root, b)
  {
    assert [a, b] == [a] + [b];
    CmdAllCons(p, h, legacy, root, a, [b]);
    CmdAllOne(CmdStep(p, h, legacy, root, a), h, legacy, root, b);
  }

  /** Extending a list by one command runs that command last. */
  lemma CmdAllSnoc(p: Proc, h: Host, legacy: bool, root: Path, calls: seq<Call>, a: Call)
    ensures CmdAll(p, h, legacy, root, calls + [a]) == CmdStep(CmdAll(p, h, legacy, root, calls), h, legacy, root, a)
  {
    CmdAllAppend(p, h, legacy, root, calls, [a]);
    CmdAllOne(CmdAll(p, h, legacy, root, calls), h, legacy, root, a);
  }

  /** The log entries a list of commands leaves behind on a host where every command succeeds and changes nothing. */
  function QuietLog(h: Host, legacy: bool, root: Path, calls: seq<Call>): (r: seq<Ran>)
    ensures |r| == |calls| && forall i :: 0 <= i < |calls| ==> r[i] == Ran(InvocationFor(h, legacy, root, calls[i]), 0)
  {
    if calls == [] then [] else [Ran(InvocationFor(h, legacy, root, calls[0]), 0)] + QuietLog(h, legacy, root, calls[1..])
  }

  /** One command on a quiet host: logged with code 0, nothing else but the console changes. */
  lemma CmdStepQuiet(p: Proc, h: Host, legacy: bool, root: Path, call: Call)
    requires Quiet(h) && p.status.Running? && p.capture.None?
    ensures var q := CmdStep(p, h, legacy, root, call);
      q.log == p.log + [Ran(InvocationFor(h, legacy, root, call), 0)] && q == p.(log := q.log, out := q.out)
  {
    var inv := InvocationFor(h, legacy, root, call);
    var e := if call.echo then Print(p, EchoLine(inv.cmd, call.cwd, call.env)) else p;
    assert h.run(inv, e.fs) == Reply(0, e.fs);
    assert CmdStep(p, h, legacy, root, call) == Execute(e, h, inv);
  }

  /**
   * On a host where every command succeeds without touching a file, a list of
   * commands runs every one of them, in order, and ends in the same state
   * apart from the log and the console.
   */
  lemma {:induction false} CmdAllQuiet(p: Proc, h: Host, legacy: bool, root: Path, calls: seq<Call>)
    requires Quiet(h) && p.status.Running? && p.capture.None?
    ensures var q := CmdAll(p, h, legacy, root, calls);
      q.log == p.log + QuietLog(h, legacy, root, calls) && q == p.(log := q.log, out := q.out)
    decreases |calls|
  {
    if calls != [] {
      var first := Ran(InvocationFor(h, legacy, root, calls[0]), 0);
      var p1 := CmdStep(p, h, legacy, root, calls[0]);
      CmdStepQuiet(p, h, legacy, root, calls[0]);
      assert p1.log == p.log + [first];
      CmdAllQuiet(p1, h, legacy, root, calls[1..]);
      var q := CmdAll(p1, h, legacy, root, calls[1..]);
      assert CmdAll(p, h, legacy, root, calls) == q;
      assert QuietLog(h, legacy, root, calls) == [first] + QuietLog(h, legacy, root, calls[1..]);
      assert q.log == (p.log + [first]) + QuietLog(h, legacy, root, calls[1..]);
    }
  }

  /** The commands a stretch of the log ran, as `Project.cmd` passed them on. */
  function Commands(rs: seq<Ran>): (r: seq<CmdArg>)
    ensures |r| == |rs| && forall i :: 0 <= i < |rs| ==> r[i] == rs[i].inv.cmd
  {
    if rs == [] then [] else [rs[0].inv.cmd] + Commands(rs[1..])
  }

  /** The command lines of a list of calls, stripped as `Project.cmd` strips them. */
  function Lines(calls: seq<Call>): (r: seq<CmdArg>)
    ensures |r| == |calls| && forall i :: 0 <= i < |calls| ==> r[i] == StripCmd(calls[i].cmd)
  {
    if calls == [] then [] else [StripCmd(calls[0].cmd)] + Lines(calls[1..])
  }

  /** On a quiet host the log records exactly the listed command lines, in order. */
  lemma QuietCommands(p: Proc, h: Host, root: Path, calls: seq<Call>)
    requires Quiet(h) && p.status.Running? && p.capture.None?
    ensures Commands(CmdAll(p, h, false, root, calls).log) == Commands(p.log) + Lines(calls)
  {
    CmdAllQuiet(p, h, false, root, calls);
  }

  /** On a quiet host two commands in a row log their two command lines, in order. */
  lemma QuietPair(p: Proc, h: Host, root: Path, a: Call, b: Call)
    requires Quiet(h) && p.status.Running? && p.capture.None?
    ensures Commands(CmdStep(CmdStep(p, h, false, root, a), h, false, root, b).log) ==
      Commands(p.log) + [StripCmd(a.cmd), StripCmd(b.cmd)]
  {
    CmdAllTwo(p, h, false, root, a, b);
    QuietCommands(p, h, root, [a, b]);
    assert Lines([a, b]) == [StripCmd(a.cmd), StripCmd(b.cmd)];
  }

  /** `os.makedirs(path, exist_ok=True)` while the process runs. */
  function MakeDirsIn(p: Proc, path: Path): Proc
  {
    if p.status.Running? then p.(fs := MakeDirs(p.fs, path)) else p
  }

  /** A subprocess started directly rather than through `Project.cmd`: logged, its code ignored. */
  function Spawned(p: Proc, h: Host, inv: Invocation): Proc
  {
    if !p.status.Running? then p
    else
      var reply := h.run(inv, p.fs);
      p.(fs := reply.fs, log := p.log + [Ran(inv, reply.code)])
  }

  /** Entering a tmux pane: from here on `Project.cmd` only records its commands. */
  function PaneOpened(p: Proc): Proc
  {
    if p.status.Running? then p.(capture := Some([])) else p
  }

  /** Leaving the pane: `Project.cmd` runs commands again; the recorded commands are handed back. */
  function PaneClosed(p: Proc): (Proc, seq<string>)
  {
    if p.status.Running? && p.capture.Some? then (p.(capture := None), p.capture.value) else (p, [])
  }

  /** While a pane is open, each command adds `format_command(cmd, cwd, env)` to the pane and nothing else. */
  lemma CaptureRecords(p: Proc, h: Host, legacy: bool, root: Path, call: Call)
    requires p.status.Running?
    ensures var q := CmdStep(PaneOpened(p), h, legacy, root, call);
      PaneClosed(q) == (p.(capture := None), [h.format(call.cmd, call.cwd, call.env)])
  {
    var f := h.format(call.cmd, call.cwd, call.env);
    assert [] + [f] == [f];
  }

  // ---- delayed_exit ----

  /**
   * Entering `with delayed_exit():`. Returns the new state and whether a scope
   * was already open (then this one is nested and will not act on exit). The
   * older engine always starts afresh: it resets the stored code and acts.
   */
  function Enter(p: Proc, legacy: bool): (Proc, bool)
  {
    var already := !legacy && p.exitCode.Some?;
    (if p.status.Running? && !already then p.(exitCode := Some(0)) else p, already)
  }

  /**
   * Leaving the scope. Only the outermost scope acts: it exits with the stored
   * code when that is non-zero and otherwise removes the attribute. Removing
   * an attribute an inner scope already removed is Python's AttributeError.
   */
  function Leave(p: Proc, legacy: bool, already: bool): Proc
  {
    if !p.status.Running? || already then p
    else match p.exitCode
      case None => Halt(p, Crashed("AttributeError"))
      case Some(c) => if c != 0 then Halt(p, Exited(c)) else p.(exitCode := None)
  }

  /** Entering: a first scope stores 0, a nested one leaves the stored code alone. */
  lemma EnterRules(p: Proc)
    requires p.status.Running?
    ensures p.exitCode.None? ==> Enter(p, false) == (p.(exitCode := Some(0)), false)
    ensures p.exitCode.Some? ==> Enter(p, false) == (p, true)
    ensures Enter(p, true) == (p.(exitCode := Some(0)), false)
  {
  }

  /**
   * Leaving: a nested scope never ends the process and changes nothing; the
   * outermost exits with the stored code iff it is non-zero, else clears it.
   */
  lemma LeaveRules(p: Proc, legacy: bool, c: int)
    requires p.status.Running? && p.exitCode == Some(c)
    ensures Leave(p, legacy, true) == p
    ensures c != 0 ==> Leave(p, legacy, false) == p.(status := Exited(c))
    ensures c == 0 ==> Leave(p, legacy, false) == p.(exitCode := None)
  {
  }

  /**
   * What a scope opened outside any other scope leaves behind once closed,
   * from `p` to `q`: every one of `calls` ran, in order, after what `p` had
   * already run; the process exits with the FIRST failing code among them,
   * or carries on with no stored code when all succeeded.
   */
  ghost predicate ScopeOutcome(p: Proc, q: Proc, h: Host, legacy: bool, root: Path, calls: seq<Call>)
  {
    && |q.log| == |p.log| + |calls| && q.log[..|p.log|] == p.log
    && (forall i :: 0 <= i < |calls| ==> q.log[|p.log| + i].inv == InvocationFor(h, legacy, root, calls[i]))
    && (FirstNonZero(Codes(q.log[|p.log|..])) != 0 ==> q.status == Exited(FirstNonZero(Codes(q.log[|p.log|..]))))
    && (FirstNonZero(Codes(q.log[|p.log|..])) == 0 ==> q.status.Running? && q.exitCode.None?)
  }

  /**
   * A scope around commands, opened outside any other scope: every command
   * runs, and on closing the process exits with the FIRST failing code, or
   * carries on with no stored code when all succeeded.
   */
  lemma ScopeReportsFirstFailure(p: Proc, h: Host, legacy: bool, root: Path, calls: seq<Call>)
    requires p.status.Running? && p.capture.None? && p.exitCode.None?
    ensures var (p1, already) := Enter(p, legacy);
      ScopeOutcome(p, Leave(CmdAll(p1, h, legacy, root, calls), legacy, already), h, legacy, root, calls)
  {
    var p1 := p.(exitCode := Some(0));
    assert Enter(p, legacy) == (p1, false);
    CmdAllInScope(p1, h, legacy, root, calls);
    CmdAllInScopeOrder(p1, h, legacy, root, calls);
    var q := CmdAll(p1, h, legacy, root, calls);
    LeaveRules(q, legacy, q.exitCode.value);
  }

  /**
   * A scope whose first two commands are `a` and `b` logs them first, in that
   * order, whatever runs after them inside the scope and however it closes.
   */
  lemma ScopedPairFirst(p: Proc, h: Host, legacy: bool, root: Path, a: Call, b: Call, rest: seq<Call>)
    requires p.status.Running? && p.capture.None?
    ensures var (e, already) := Enter(p, legacy);
      var q := Leave(CmdAll(CmdAll(e, h, legacy, root, [a, b]), h, legacy, root, rest), legacy, already);
      && |q.log| >= |p.log| + 2
      && q.log[|p.log|].inv == InvocationFor(h, legacy, root, a)
      && q.log[|p.log| + 1].inv == InvocationFor(h, legacy, root, b)
  {
    var (e, already) := Enter(p, legacy);
    CmdAllTwo(e, h, legacy, root, a, b);
    CmdStepBookkeeping(e, h, legacy, root, a);
    var e1 := CmdStep(e, h, legacy, root, a);
    CmdStepBookkeeping(e1, h, legacy, root, b);
    var e2 := CmdStep(e1, h, legacy, root, b);
    assert e2.log[|p.log|] == e1.log[|p.log|];
    CmdAllInScope(e2, h, legacy, root, rest);
    var c := CmdAll(e2, h, legacy, root, rest);
    assert c.log[|p.log|] == c.log[..|e2.log|][|p.log|];
    assert c.log[|p.log| + 1] == c.log[..|e2.log|][|p.log| + 1];
    assert Leave(c, legacy, already).log == c.log;
  }

  /**
   * The older engine does not nest: entering an inner scope forgets a failure
   * the outer scope had stored, and an inner scope's exit acts at once.
   */
  lemma LegacyScopesDoNotNest(p: Proc)
    requires p.status.Running? && p.exitCode == Some(2)
    ensures Enter(p, true).0.exitCode == Some(0)
    ensures Enter(p, false).0.exitCode == Some(2)
    ensures var (inner, already) := Enter(p, true);
      Leave(Leave(inner, true, already), true, false).status == Crashed("AttributeError")
    ensures var (inner, already) := Enter(p, false);
      Leave(Leave(inner, false, already), false, false).status == Exited(2)
  {
  }

  /** The base class's answer to an action a project type does not implement. */
  function Unsupported(p: Proc, verb: string): Proc
  {
    Fail(p, "Sorry! I don't know how to " + verb + " your project")
  }

  /** Proof aid: the base class's messages for `lint` and `test`, spelled out. */
  lemma UnsupportedMessages()
    ensures "Sorry! I don't know how to " + "lint" + " your project" == "Sorry! I don't know how to lint your project"
    ensures "Sorry! I don't know how to " + "test" + " your project" == "Sorry! I don't know how to test your project"
  {
  }

  // ---- the process as an object ----

  /**
   * The running program: the files it sees, everything `Project.cmd` ran,
   * the console, the thread-local `exit_code` and the process status. `legacy`
   * selects the rules of the older engine.
   */
  class Runtime {
    const host: Host
    const legacy: bool
    var fs: seq<Path>
    var log: seq<Ran>
    var out: seq<string>
    var exitCode: Option<int>
    var status: Status
    var capture: Option<seq<string>>

    function Snapshot(): Proc
      reads this
    {
      Proc(fs, log, out, exitCode, status, capture)
    }

    constructor (host: Host, legacy: bool, fs: seq<Path>)
      ensures this.host == host && this.legacy == legacy
      ensures Snapshot() == Proc(fs, [], [], None, Running, None)
    {
      this.host := host;
      this.legacy := legacy;
      this.fs := fs;
      log := [];
      out := [];
      exitCode := None;
      status := Running;
      capture := None;
    }

    /** `Project.cmd` for a project rooted at `root`. */
    method Cmd(root: Path, call: Call)
      modifies this
      ensures Snapshot() == CmdStep(old(Snapshot()), host, legacy, root, call)
    {
      if !status.Running? {
        return;
      }
      if capture.Some? {
        capture := Some(capture.value + [host.format(call.cmd, call.cwd, call.env)]);
        return;
      }
      var cmd := call.cmd;
      if !legacy && cmd.Line? {
        cmd := Line(Strip(cmd.line));
      }
      if call.echo {
        out := out + [EchoLine(cmd, call.cwd, call.env)];
      }
      var dir := root;
      if call.cwd.Some? {
        dir := Below(root, call.cwd.value);
      }
      var env := None;
      if call.env.Some? {
        env := Some(Overlay(host.environ, call.env.value));
      }
      var shell := ShellDefault(cmd);
      if call.shell.Some? {
        shell := call.shell.value;
      }
      var inv := Invocation(cmd, dir, env, shell);
      assert inv == InvocationFor(host, legacy, root, call);
      ghost var echoed := if call.echo then Process.Print(old(Snapshot()), EchoLine(cmd, call.cwd, call.env)) else old(Snapshot());
      assert Snapshot() == echoed;
      RunInvocation(inv);
    }

    /** The `subprocess.run` call of `Project.cmd` and the handling of its return code. */
    method RunInvocation(inv: Invocation)
      requires status.Running?
      modifies this
      ensures Snapshot() == Execute(old(Snapshot()), host, inv)
    {
      var reply := host.run(inv, fs);
      fs := reply.fs;
      log := log + [Ran(inv, reply.code)];
      if reply.code != 0 {
        if exitCode.Some? {
          if exitCode.value == 0 {
            exitCode := Some(reply.code);
          }
        } else {
          status := Exited(reply.code);
        }
      }
    }

    /** Entering `with delayed_exit():`; `already` tells the matching exit whether to act. */
    method EnterDelayed() returns (already: bool)
      modifies this
      ensures (Snapshot(), already) == Enter(old(Snapshot()), legacy)
    {
      already := !legacy && exitCode.Some?;
      if status.Running? && !already {
        exitCode := Some(0);
      }
    }

    /** Leaving the `with delayed_exit():` block entered with the given `already`. */
    method LeaveDelayed(already: bool)
      modifies this
      ensures Snapshot() == Leave(old(Snapshot()), legacy, already)
    {
      if !status.Running? || already {
        return;
      }
      if exitCode.None? {
        status := Crashed("AttributeError");
      } else if exitCode.value != 0 {
        status := Exited(exitCode.value);
      } else {
        exitCode := None;
      }
    }

    /** `fail(message)`. */
    method Fail(message: string)
      modifies this
      ensures Snapshot() == Util.Fail(old(Snapshot()), message)
    {
      if status.Running? {
        out := out + [message];
        status := Exited(1);
      }
    }

    /** `fatal(message, *args)`. */
    method Fatal(message: string, args: seq<string>)
      modifies this
      ensures Snapshot() == Util.Fatal(old(Snapshot()), message, args)
    {
      if !status.Running? {
        return;
      }
      var text := if args == [] then Some(message) else Format(message, args);
      if text.None? {
        status := Crashed("IndexError");
      } else {
        out := out + ["ERROR: " + text.value];
        status := Exited(1);
      }
    }

    /** `warn(message)`. */
    method Warn(message: string)
      modifies this
      ensures Snapshot() == Util.Warn(old(Snapshot()), message)
    {
      if status.Running? {
        out := out + ["WARNING: " + message];
      }
    }

    /** `print(line)`. */
    method Print(line: string)
      modifies this
      ensures Snapshot() == Process.Print(old(Snapshot()), line)
    {
      if status.Running? {
        out := out + [line];
      }
    }

    /** An uncaught exception ends the program. */
    method Crash(error: string)
      modifies this
      ensures Snapshot() == Halt(old(Snapshot()), Crashed(error))
    {
      if status.Running? {
        status := Crashed(error);
      }
    }

    /** `sys.exit(code)`. */
    method Exit(code: int)
      modifies this
      ensures Snapshot() == Halt(old(Snapshot()), Exited(code))
    {
      if status.Running? {
        status := Exited(code);
      }
    }

    /** `os.makedirs(path, exist_ok=True)`. */
    method MakeDirs(path: Path)
      modifies this
      ensures Snapshot() == MakeDirsIn(old(Snapshot()), path)
    {
      if status.Running? {
        fs := Process.MakeDirs(fs, path);
      }
    }

    /** `subprocess.run` called directly: the run is logged and its return code ignored. */
    method Spawn(inv: Invocation)
      modifies this
      ensures Snapshot() == Spawned(old(Snapshot()), host, inv)
    {
      if status.Running? {
        var reply := host.run(inv, fs);
        fs := reply.fs;
        log := log + [Ran(inv, reply.code)];
      }
    }

    /** Patching `Project.cmd` for a tmux pane. */
    method OpenCapture()
      modifies this
      ensures Snapshot() == PaneOpened(old(Snapshot()))
    {
      if status.Running? {
        capture := Some([]);
      }
    }

    /** Removing the patch; returns the commands recorded meanwhile. */
    method CloseCapture() returns (commands: seq<string>)
      modifies this
      ensures (Snapshot(), commands) == PaneClosed(old(Snapshot()))
    {
      commands := [];
      if status.Running? && capture.Some? {
        commands := capture.value;
        capture := None;
      }
    }

    /** The base class's failure for an action the project type does not implement. */
    method DontKnowHow(verb: string)
      modifies this
      ensures Snapshot() == Unsupported(old(Snapshot()), verb)
    {
      Fail("Sorry! I don't know how to " + verb + " your project");
    }
  }

  // ---- find_containing ----

  /** `any(filename in files for filename in filenames)`. */
  predicate HasMarker(entries: seq<string>, markers: seq<string>)
  {
    exists m :: m in markers && m in entries
  }

  /** The loop of `find_containing` over what `walk_up` yields. */
  function Containing(levels: seq<Level>, markers: seq<string>): Option<Path>
  {
    if levels == [] then None
    else if HasMarker(levels[0].entries, markers) then Some(levels[0].dir)
    else if ".git" in levels[0].entries then None
    else Containing(levels[1..], markers)
  }

  /** Level `i` holds a marker, and no level before it holds a marker or `.git`. */
  ghost predicate FoundAt(levels: seq<Level>, markers: seq<string>, i: int)
  {
    0 <= i < |levels| && HasMarker(levels[i].entries, markers)
    && forall j :: 0 <= j < i ==> !HasMarker(levels[j].entries, markers) && ".git" !in levels[j].entries
  }

  /**
   * `find_containing` answers the nearest level holding a marker, testing a
   * level's markers before its `.git` stop, and answers nothing when every
   * marker lies beyond a `.git` level or there is none up to the root.
   */
  lemma {:induction false} ContainingNearest(levels: seq<Level>, markers: seq<string>)
    ensures forall i :: FoundAt(levels, markers, i) ==> Containing(levels, markers) == Some(levels[i].dir)
    ensures Containing(levels, markers).Some? ==> exists i :: FoundAt(levels, markers, i)
  {
    if levels != [] && !HasMarker(levels[0].entries, markers) && ".git" !in levels[0].entries {
      ContainingNearest(levels[1..], markers);
      forall i | FoundAt(levels, markers, i) ensures Containing(levels, markers) == Some(levels[i].dir) {
        assert i > 0;
        assert FoundAt(levels[1..], markers, i - 1) by {
          forall j | 0 <= j < i - 1
            ensures !HasMarker(levels[1..][j].entries, markers) && ".git" !in levels[1..][j].entries
          {
            assert levels[1..][j] == levels[j + 1];
          }
        }
      }
      if Containing(levels, markers).Some? {
        var k :| FoundAt(levels[1..], markers, k);
        assert FoundAt(levels, markers, k + 1) by {
          forall j | 0 <= j < k + 1 ensures !HasMarker(levels[j].entries, markers) && ".git" !in levels[j].entries {
            if j > 0 { assert levels[j] == levels[1..][j - 1]; }
          }
        }
      }
    } else if levels != [] && HasMarker(levels[0].entries, markers) {
      assert FoundAt(levels, markers, 0);
      forall i | FoundAt(levels, markers, i) ensures i == 0 {
      }
    } else if levels != [] {
      forall i | 0 < i < |levels| ensures !FoundAt(levels, markers, i) {
        assert ".git" in levels[0].entries;
      }
    }
  }

  /** `find_containing(*filenames)`, walking up from the process's working directory. */
  method FindContaining(fs: seq<Path>, cwd: Path, markers: seq<string>) returns (root: Option<Path>)
    ensures root == Containing(Levels(fs, cwd), markers)
  {
    var levels := WalkUp(fs, cwd);
    var i := 0;
    while i < |levels|
      invariant 0 <= i <= |levels|
      invariant Containing(levels[i..], markers) == Containing(levels, markers)
    {
      if HasMarker(levels[i].entries, markers) {
        return Some(levels[i].dir);
      }
      if ".git" in levels[i].entries {
        break;
      }
      assert levels[i..][1..] == levels[i + 1..];
      i := i + 1;
    }
    return None;
  }
}
