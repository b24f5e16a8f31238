/**
 * thiscli/tmux.py: commands recorded pane by pane, then one `tmux` session
 * that runs each pane's commands side by side.
 */
module Tmux {
  import opened Wrappers
  import opened Text
  import opened Process
  import opened Engine

  /** `echo(command)`: a shell `echo` that shows the command in bold white after `$ `. */
  function Echo(command: string): string
  {
    "echo -e \"\\e[1;97m$ " + command + "\\e[0m\""
  }

  /** Every command preceded by its echo. */
  function Interleaved(commands: seq<string>): (r: seq<string>)
    ensures |r| == 2 * |commands|
    ensures forall i :: 0 <= i < |commands| ==> r[2 * i] == Echo(commands[i]) && r[2 * i + 1] == commands[i]
  {
    if commands == [] then []
    else
      var rest := Interleaved(commands[1..]);
      assert forall i :: 1 <= i < |commands| ==> commands[i] == commands[1..][i - 1];
      [Echo(commands[0]), commands[0]] + rest
  }

  /** `tmux_line(commands)`: the shell line of one pane, which ends the whole session when done. */
  function TmuxLine(commands: seq<string>): string
  {
    Join("; ", Interleaved(commands) + ["tmux kill-session"])
  }

  /** An empty pane only ends the session; one command is echoed, run, and then the session ends. */
  lemma TmuxLineShapes(c: string)
    ensures TmuxLine([]) == "tmux kill-session"
    ensures TmuxLine([c]) == Echo(c) + "; " + (c + "; " + "tmux kill-session")
  {
    assert Interleaved([]) + ["tmux kill-session"] == ["tmux kill-session"];
    var parts := Interleaved([c]) + ["tmux kill-session"];
    assert parts == [Echo(c), c, "tmux kill-session"];
    assert parts[1..] == [c, "tmux kill-session"];
    assert parts[1..][1..] == ["tmux kill-session"];
    assert Join("; ", parts[1..][1..]) == "tmux kill-session";
    assert Join("; ", parts[1..]) == c + "; " + "tmux kill-session";
  }

  /** Appending a command to a pane adds its echo and itself just before the session ends. */
  lemma {:induction false} TmuxLineSnoc(commands: seq<string>, c: string)
    ensures Interleaved(commands + [c]) == Interleaved(commands) + [Echo(c), c]
    decreases |commands|
  {
    if commands == [] {
      assert [] + [c] == [c];
    } else {
      assert (commands + [c])[1..] == commands[1..] + [c];
      TmuxLineSnoc(commands[1..], c);
    }
  }

  /** The fixed start of the session: Ctrl-C ends it, and the mouse is on. */
  const Prelude: seq<string> := ["tmux", "bind-key", "-n", "C-c", "kill-session", ";", "set", "-g", "mouse", "on", ";"]

  /** `split-window` for each later pane, given the panes' lines. */
  function Splits(lines: seq<string>): (r: seq<string>)
    ensures |r| == 3 * |lines|
  {
    if lines == [] then [] else ["split-window", lines[0], ";"] + Splits(lines[1..])
  }

  /** The three arguments of the `k`-th later pane. */
  lemma {:induction false} SplitsAt(lines: seq<string>, k: nat)
    requires k < |lines|
    ensures Splits(lines)[3 * k..3 * k + 3] == ["split-window", lines[k], ";"]
    decreases k
  {
    if k > 0 {
      SplitsAt(lines[1..], k - 1);
      var rest := Splits(lines[1..]);
      assert Splits(lines) == ["split-window", lines[0], ";"] + rest;
      assert Splits(lines)[3 * k..3 * k + 3] == rest[3 * (k - 1)..3 * (k - 1) + 3];
    }
  }

  /** Each pane's shell line. */
  function PaneLines(panes: seq<seq<string>>): (r: seq<string>)
    ensures |r| == |panes| && forall i :: 0 <= i < |panes| ==> r[i] == TmuxLine(panes[i])
  {
    seq(|panes|, i requires 0 <= i < |panes| => TmuxLine(panes[i]))
  }

  /** The argument list of the `tmux` call for non-empty `panes`. */
  function TmuxArgs(panes: seq<seq<string>>): seq<string>
    requires panes != []
  {
    Prelude + ["new-session", TmuxLine(panes[0]), ";"] + Splits(PaneLines(panes[1..])) + ["select-layout", "even-horizontal"]
  }

  /**
   * The layout: after the prelude, the first pane opens the session, each
   * later pane splits the window, three arguments per pane in pane order,
   * and the panes are spread out evenly at the end.
   */
  lemma PaneLayout(panes: seq<seq<string>>, k: nat)
    requires 0 < k < |panes|
    ensures var args := TmuxArgs(panes);
      && |args| == |Prelude| + 3 * |panes| + 2
      && args[..|Prelude|] == Prelude
      && args[|Prelude|..|Prelude| + 3] == ["new-session", TmuxLine(panes[0]), ";"]
      && args[|Prelude| + 3 * k..|Prelude| + 3 * k + 3] == ["split-window", TmuxLine(panes[k]), ";"]
      && args[|args| - 2..] == ["select-layout", "even-horizontal"]
  {
    var lines := PaneLines(panes[1..]);
    SplitsAt(lines, k - 1);
    var head := Prelude + ["new-session", TmuxLine(panes[0]), ";"];
    var args := TmuxArgs(panes);
    assert args == head + Splits(lines) + ["select-layout", "even-horizontal"];
    assert args[|Prelude| + 3 * k..|Prelude| + 3 * k + 3] == Splits(lines)[3 * (k - 1)..3 * (k - 1) + 3];
  }

  /** The `format_command` lines of a list of calls. */
  function Formats(h: Host, calls: seq<Call>): (r: seq<string>)
    ensures |r| == |calls| && forall i :: 0 <= i < |calls| ==> r[i] == h.format(calls[i].cmd, calls[i].cwd, calls[i].env)
  {
    if calls == [] then [] else [h.format(calls[0].cmd, calls[0].cwd, calls[0].env)] + Formats(h, calls[1..])
  }

  /** While a pane is open, commands run nothing and are recorded in order. */
  lemma {:induction false} CapturedAll(p: Proc, h: Host, legacy: bool, root: Path, calls: seq<Call>)
    requires p.status.Running? && p.capture.Some?
    ensures CmdAll(p, h, legacy, root, calls) == p.(capture := Some(p.capture.value + Formats(h, calls)))
    decreases |calls|
  {
    if calls == [] {
      assert p.capture.value + [] == p.capture.value;
    } else {
      var f := h.format(calls[0].cmd, calls[0].cwd, calls[0].env);
      var p1 := p.(capture := Some(p.capture.value + [f]));
      assert CmdStep(p, h, legacy, root, calls[0]) == p1;
      assert CmdAll(p, h, legacy, root, calls) == CmdAll(p1, h, legacy, root, calls[1..]);
      CapturedAll(p1, h, legacy, root, calls[1..]);
      assert Formats(h, calls) == [f] + Formats(h, calls[1..]);
      assert p1.capture.value + Formats(h, calls[1..]) == p.capture.value + Formats(h, calls);
    }
  }

  /** A whole pane: the process is as before and the pane holds every command's line. */
  lemma PaneHoldsCommands(p: Proc, h: Host, legacy: bool, root: Path, calls: seq<Call>)
    requires p.status.Running?
    ensures PaneClosed(CmdAll(PaneOpened(p), h, legacy, root, calls)) == (p.(capture := None), Formats(h, calls))
  {
    CapturedAll(PaneOpened(p), h, legacy, root, calls);
    assert [] + Formats(h, calls) == Formats(h, calls);
  }

  /** The `subprocess.run` of `Tmux.run`: in the working directory, with `SHELL` set to `bash`. */
  function SessionCall(h: Host, panes: seq<seq<string>>): Invocation
    requires panes != []
  {
    Invocation(Argv(TmuxArgs(panes)), h.cwd, Some(h.environ["SHELL" := "bash"]), false)
  }

  /** `run()`: its exit code is ignored; without a pane `self.panes[0]` is an IndexError. */
  function SessionStep(p: Proc, h: Host, panes: seq<seq<string>>): (r: Proc)
    ensures !p.status.Running? ==> r == p
    ensures p.status.Running? && panes == [] ==> r.status == Crashed("IndexError") && r.log == p.log
    ensures p.status.Running? && panes != [] ==>
      && r.status.Running? && r.exitCode == p.exitCode && r.out == p.out
      && r.log == p.log + [Ran(SessionCall(h, panes), h.run(SessionCall(h, panes), p.fs).code)]
  {
    if panes == [] then Halt(p, Crashed("IndexError")) else Spawned(p, h, SessionCall(h, panes))
  }

  class Tmux {
    const cwd: Path
    var panes: seq<seq<string>>

    constructor (cwd: Path)
      ensures this.cwd == cwd && panes == []
    {
      this.cwd := cwd;
      panes := [];
    }

    /** Entering `with tmux.pane():`. */
    method BeginPane(rt: Runtime)
      modifies rt
      ensures rt.Snapshot() == PaneOpened(old(rt.Snapshot()))
    {
      rt.OpenCapture();
    }

    /** Leaving the pane: its commands become the next pane, unless the process ended inside it. */
    method EndPane(rt: Runtime)
      modifies this, rt
      ensures rt.Snapshot() == PaneClosed(old(rt.Snapshot())).0
      ensures panes == if old(rt.status).Running? then old(panes) + [PaneClosed(old(rt.Snapshot())).1] else old(panes)
    {
      var running := rt.status.Running?;
      var commands := rt.CloseCapture();
      if running {
        panes := panes + [commands];
      }
    }

    /** `run()`. */
    method Run(rt: Runtime)
      modifies rt
      ensures panes == old(panes)
      ensures rt.Snapshot() == SessionStep(old(rt.Snapshot()), rt.host, panes)
    {
      if panes == [] {
        rt.Crash("IndexError");
        return;
      }
      var args := Prelude + ["new-session", TmuxLine(panes[0]), ";"];
      var i := 1;
      while i < |panes|
        invariant 1 <= i <= |panes|
        invariant args == Prelude + ["new-session", TmuxLine(panes[0]), ";"] + Splits(PaneLines(panes[1..i]))
        invariant panes == old(panes) && rt.Snapshot() == old(rt.Snapshot())
      {
        assert PaneLines(panes[1..i + 1]) == PaneLines(panes[1..i]) + [TmuxLine(panes[i])];
        SplitsSnoc(PaneLines(panes[1..i]), TmuxLine(panes[i]));
        args := args + ["split-window", TmuxLine(panes[i]), ";"];
        i := i + 1;
      }
      assert panes[1..i] == panes[1..];
      args := args + ["select-layout", "even-horizontal"];
      assert args == TmuxArgs(panes);
      var session := Invocation(Argv(args), rt.host.cwd, Some(rt.host.environ["SHELL" := "bash"]), false);
      assert session == SessionCall(rt.host, panes);
      rt.Spawn(session);
    }
  }

  /** One more pane adds its three arguments at the end. */
  lemma {:induction false} SplitsSnoc(lines: seq<string>, line: string)
    ensures Splits(lines + [line]) == Splits(lines) + ["split-window", line, ";"]
    decreases |lines|
  {
    if lines == [] {
      assert [] + [line] == [line];
    } else {
      assert (lines + [line])[1..] == lines[1..] + [line];
      SplitsSnoc(lines[1..], line);
    }
  }
}
