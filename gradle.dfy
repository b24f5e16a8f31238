/** thiscli/project/gradle.py: a Gradle project, preferring the project's own wrapper script. */
module Gradle {
  import opened Wrappers
  import opened Text
  import opened Process
  import opened Engine

  const Description := "Gradle"

  /** The file `find` looks for. */
  const Markers: seq<string> := ["build.gradle"]

  /** `gradle_cmd`: the wrapper for the platform when the project has one, else `gradle`. */
  function GradleCmd(osName: string, fs: seq<Path>, root: Path): string
  {
    if osName == "nt" then (if Exists(fs, Below(root, "gradlew.bat")) then "./gradlew.bat" else "gradle")
    else if Exists(fs, Below(root, "gradlew")) then "./gradlew" else "gradle"
  }

  /**
   * On Windows only `gradlew.bat` is used, elsewhere only `gradlew`; with no
   * wrapper for the platform the command is `gradle`.
   */
  lemma GradleCmdChoice(osName: string, fs: seq<Path>, root: Path)
    ensures GradleCmd(osName, fs, root) in ["gradle", "./gradlew", "./gradlew.bat"]
    ensures GradleCmd(osName, fs, root) == "./gradlew.bat" <==> osName == "nt" && Exists(fs, Below(root, "gradlew.bat"))
    ensures GradleCmd(osName, fs, root) == "./gradlew" <==> osName != "nt" && Exists(fs, Below(root, "gradlew"))
  {
    assert "./gradlew" != "./gradlew.bat" && "gradle" != "./gradlew" && "gradle" != "./gradlew.bat" by {
      assert |"./gradlew"| != |"./gradlew.bat"| && "gradle"[0] != "./gradlew"[0];
    }
  }

  /** The task name `gradle(task, env)` passes: unchanged for a missing or empty environment. */
  function TaskName(h: Host, task: string, env: Option<string>): string
  {
    if env.None? || env.value == "" then task else task + Capitalize(h.releaseOrDebug(env.value))
  }

  /**
   * A non-empty environment adds its release/debug name, capitalised, to the
   * task: `assemble` becomes `assembleRelease` when the mapping gives `release`.
   */
  lemma TaskNaming(h: Host, task: string, env: Option<string>)
    ensures env.None? || env == Some("") ==> TaskName(h, task, env) == task
    ensures env.Some? && env.value != "" ==>
      var suffix := TaskName(h, task, env)[|task|..];
      && TaskName(h, task, env)[..|task|] == task
      && |suffix| == |h.releaseOrDebug(env.value)|
      && (|suffix| > 0 ==> suffix[0] == UpperAscii(h.releaseOrDebug(env.value)[0]))
    ensures env.Some? && h.releaseOrDebug(env.value) == "release" && env.value != "" ==>
      TaskName(h, task, env) == task + "Release"
  {
    if env.Some? && h.releaseOrDebug(env.value) == "release" && env.value != "" {
      assert Capitalize("release") == "Release";
    }
  }

  class Gradle {
    const root: Path
    const gradleCmd: string

    constructor (rt: Runtime, root: Path)
      ensures this.root == root && gradleCmd == GradleCmd(rt.host.osName, rt.fs, root)
    {
      this.root := root;
      var cmd := "gradle";
      if rt.host.osName == "nt" {
        if Exists(rt.fs, Below(root, "gradlew.bat")) {
          cmd := "./gradlew.bat";
        }
      } else {
        if Exists(rt.fs, Below(root, "gradlew")) {
          cmd := "./gradlew";
        }
      }
      gradleCmd := cmd;
    }

    /** The command `gradle(task, env)` issues. */
    function GradleCall(h: Host, task: string, env: Option<string>): Call
    {
      Sh(gradleCmd + " " + TaskName(h, task, env))
    }

    /** The overridden `check`: Gradle has no `lint` of its own, so the scope holds only `<gradle> check`. */
    function CheckStep(p: Proc, h: Host): (r: Proc)
      ensures !p.status.Running? ==> r == p
      ensures p.status.Running? && p.capture.None? ==>
        && |r.log| == |p.log| + 1 && r.log[..|p.log|] == p.log
        && r.log[|p.log|].inv == InvocationFor(h, false, root, GradleCall(h, "check", None))
    {
      var (entered, already) := Enter(p, false);
      var ran := CmdStep(entered, h, false, root, GradleCall(h, "check", None));
      assert p.status.Running? && p.capture.None? ==>
        (|ran.log| == |p.log| + 1 && ran.log[..|p.log|] == p.log
         && ran.log[|p.log|].inv == InvocationFor(h, false, root, GradleCall(h, "check", None))) by {
        if p.status.Running? && p.capture.None? {
          CmdStepBookkeeping(entered, h, false, root, GradleCall(h, "check", None));
        }
      }
      Leave(ran, false, already)
    }

    /**
     * `check` never reports "don't know how to check": it always issues
     * `<gradle> check`, and outside any other scope the process keeps running
     * iff that command succeeds, else exits with its code.
     */
    lemma CheckOutcome(p: Proc, h: Host)
      requires p.status.Running? && p.capture.None? && p.exitCode.None?
      ensures var q := CheckStep(p, h);
        && |q.log| == |p.log| + 1 && q.log[..|p.log|] == p.log
        && q.log[|p.log|].inv == InvocationFor(h, false, root, GradleCall(h, "check", None))
        && (q.log[|p.log|].code == 0 ==> q.status.Running? && q.exitCode.None?)
        && (q.log[|p.log|].code != 0 ==> q.status == Exited(q.log[|p.log|].code))
    {
      var (entered, already) := Enter(p, false);
      CmdStepBookkeeping(entered, h, false, root, GradleCall(h, "check", None));
    }

    /** `gradle(task, env)`. */
    method Gradle(rt: Runtime, task: string, env: Option<string>)
      requires !rt.legacy
      modifies rt
      ensures rt.Snapshot() == CmdStep(old(rt.Snapshot()), rt.host, false, root, GradleCall(rt.host, task, env))
    {
      var t := task;
      if env.Some? && env.value != "" {
        t := t + Capitalize(rt.host.releaseOrDebug(env.value));
      }
      rt.Cmd(root, Sh(gradleCmd + " " + t));
    }

    /** `build(env)`: `<gradle> assemble[Env]`. */
    method Build(rt: Runtime, env: Option<string>)
      requires !rt.legacy
      modifies rt
      ensures rt.Snapshot() == CmdStep(old(rt.Snapshot()), rt.host, false, root, GradleCall(rt.host, "assemble", env))
    {
      Gradle(rt, "assemble", env);
    }

    /** `test`: `<gradle> test`. */
    method Test(rt: Runtime)
      requires !rt.legacy
      modifies rt
      ensures rt.Snapshot() == CmdStep(old(rt.Snapshot()), rt.host, false, root, GradleCall(rt.host, "test", None))
    {
      Gradle(rt, "test", None);
    }

    /** `check`, overridden. */
    method Check(rt: Runtime)
      requires !rt.legacy
      modifies rt
      ensures rt.Snapshot() == CheckStep(old(rt.Snapshot()), rt.host)
    {
      var already := rt.EnterDelayed();
      Gradle(rt, "check", None);
      rt.LeaveDelayed(already);
    }
  }
}
