/**
 * thiscli/project/make.py: a project driven by a Makefile. The list of
 * targets the constructor reads from `make -pRrq` is taken as given.
 */
module Make {
  import opened Wrappers
  import opened Text
  import opened Process
  import opened Util
  import opened Engine

  /** The file `find` looks for. */
  const Markers: seq<string> := ["Makefile"]

  /** The `targets` argument of `target`: absent, one name, or a list of candidates. */
  datatype Wanted = Default | Name(name: string) | Names(names: seq<string>)

  /** A single name is a one-element candidate list. */
  function Candidates(w: Wanted): seq<string>
  {
    match w
    case Default => []
    case Name(n) => [n]
    case Names(ns) => ns
  }

  /** `next((t for t in candidates if t in targets), None)`. */
  function FirstKnown(candidates: seq<string>, targets: seq<string>): (r: Option<string>)
    ensures r.None? <==> forall i :: 0 <= i < |candidates| ==> candidates[i] !in targets
    ensures r.Some? ==> r.value in targets && r.value in candidates
  {
    if candidates == [] then None
    else if candidates[0] in targets then Some(candidates[0])
    else FirstKnown(candidates[1..], targets)
  }

  /** The answer is the candidate at the first position holding a known target. */
  lemma {:induction false} FirstKnownIsFirst(candidates: seq<string>, targets: seq<string>, i: int)
    requires 0 <= i < |candidates| && candidates[i] in targets
    requires forall j :: 0 <= j < i ==> candidates[j] !in targets
    ensures FirstKnown(candidates, targets) == Some(candidates[i])
  {
    if i > 0 {
      FirstKnownIsFirst(candidates[1..], targets, i - 1);
    }
  }

  /** The command line `target(wanted)` runs, or None when it gives up. */
  function TargetLine(targets: seq<string>, w: Wanted): Option<string>
  {
    if w.Default? then Some("make")
    else
      var t := FirstKnown(Candidates(w), targets);
      if t.None? || t.value == "" then None else Some("make " + t.value)
  }

  /** The complaint when no candidate is a known target. */
  function GiveUpMessage(w: Wanted): string
  {
    "Not sure which Makefile target to run. Looked for: " + Join(" ", Candidates(w))
  }

  /** What `target(wanted)` does, for the given target list. */
  function TargetStep(p: Proc, h: Host, root: Path, targets: seq<string>, w: Wanted): Proc
  {
    match TargetLine(targets, w)
    case Some(line) => CmdStep(p, h, false, root, Sh(line))
    case None => Fatal(p, GiveUpMessage(w), [])
  }

  /**
   * `build` runs plain `make`. `test` asks for `test` before `check`: with
   * `test` known it runs `make test`, else with `check` known `make check`,
   * and with neither it gives up.
   */
  lemma ActionTargets(targets: seq<string>)
    ensures TargetLine(targets, Default) == Some("make")
    ensures "test" in targets ==> TargetLine(targets, Names(["test", "check"])) == Some("make test")
    ensures "test" !in targets && "check" in targets ==> TargetLine(targets, Names(["test", "check"])) == Some("make check")
    ensures "test" !in targets && "check" !in targets ==> TargetLine(targets, Names(["test", "check"])) == None
  {
    if "test" in targets {
      FirstKnownIsFirst(["test", "check"], targets, 0);
      assert "make " + "test" == "make test";
    } else if "check" in targets {
      FirstKnownIsFirst(["test", "check"], targets, 1);
      assert "test" != "check";
      assert "make " + "check" == "make check";
    }
  }

  /**
   * Giving up prints the candidates and ends the process with status 1
   * before anything runs. The check is `if not target`, so an empty name
   * counts as no target even when `""` is a known one.
   */
  lemma GivingUpIsFatal(p: Proc, h: Host, root: Path, targets: seq<string>, w: Wanted)
    requires p.status.Running? && TargetLine(targets, w).None?
    ensures var q := TargetStep(p, h, root, targets, w);
      q.status == Exited(1) && q.log == p.log
      && q.out == p.out + ["ERROR: " + GiveUpMessage(w)]
    ensures TargetLine([""], Name("")).None?
  {
  }

  class Make {
    const root: Path
    const targets: seq<string>

    constructor (root: Path, targets: seq<string>)
      ensures this.root == root && this.targets == targets
    {
      this.root := root;
      this.targets := targets;
    }

    /** `target(targets=None)`. */
    method Target(rt: Runtime, w: Wanted)
      requires !rt.legacy
      modifies rt
      ensures rt.Snapshot() == TargetStep(old(rt.Snapshot()), rt.host, root, targets, w)
    {
      if w.Default? {
        rt.Cmd(root, Sh("make"));
        return;
      }
      var candidates := Candidates(w);
      var t := FirstKnown(candidates, targets);
      if t.None? || t.value == "" {
        rt.Fatal(GiveUpMessage(w), []);
        return;
      }
      rt.Cmd(root, Sh("make " + t.value));
    }

    /** `build`: plain `make`. */
    method Build(rt: Runtime)
      requires !rt.legacy
      modifies rt
      ensures rt.Snapshot() == TargetStep(old(rt.Snapshot()), rt.host, root, targets, Default)
    {
      Target(rt, Default);
    }

    /** `test`. */
    method Test(rt: Runtime)
      requires !rt.legacy
      modifies rt
      ensures rt.Snapshot() == TargetStep(old(rt.Snapshot()), rt.host, root, targets, Names(["test", "check"]))
    {
      Target(rt, Names(["test", "check"]));
    }
  }
}
