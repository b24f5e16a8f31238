/** thiscli/project/dotnet.py: a .NET Core project. */
module Dotnet {
  import opened Wrappers
  import opened Process
  import opened Engine

  const Description := ".NET Core"

  /** The name `find` looks for: the literal `*.csproj`, not a pattern. */
  const Markers: seq<string> := ["*.csproj"]

  /** A directory holding `App.csproj` is not recognised; only a file literally named `*.csproj` is. */
  lemma MarkerIsLiteral(entries: seq<string>)
    ensures HasMarker(entries, Markers) <==> "*.csproj" in entries
    ensures !HasMarker(["App.csproj"], Markers)
  {
    assert "App.csproj" != "*.csproj" by { assert "App.csproj"[0] != "*.csproj"[0]; }
  }

  /** The command `build(env)` issues. */
  function BuildLine(h: Host, env: Option<string>): string
  {
    if h.isEnvRelease(env) then "dotnet build -c release" else "dotnet build"
  }

  /** The command `run(env)` issues. */
  function RunLine(h: Host, env: Option<string>): string
  {
    if h.isEnvRelease(env) then "dotnet run -c release" else "dotnet run"
  }

  /** Both choose the release configuration exactly for a release environment. */
  lemma ReleaseOnlyForReleaseEnvs(h: Host, env: Option<string>)
    ensures BuildLine(h, env) == "dotnet build -c release" <==> h.isEnvRelease(env)
    ensures RunLine(h, env) == "dotnet run -c release" <==> h.isEnvRelease(env)
  {
    if !h.isEnvRelease(env) {
      assert |"dotnet build"| != |"dotnet build -c release"|;
      assert |"dotnet run"| != |"dotnet run -c release"|;
    }
  }

  class Dotnet {
    const root: Path

    constructor (root: Path)
      ensures this.root == root
    {
      this.root := root;
    }

    /** `build(env)`. */
    method Build(rt: Runtime, env: Option<string>)
      requires !rt.legacy
      modifies rt
      ensures rt.Snapshot() == CmdStep(old(rt.Snapshot()), rt.host, false, root, Sh(BuildLine(rt.host, env)))
    {
      if rt.host.isEnvRelease(env) {
        rt.Cmd(root, Sh("dotnet build -c release"));
      } else {
        rt.Cmd(root, Sh("dotnet build"));
      }
    }

    /** `test`: `dotnet test`. */
    method Test(rt: Runtime)
      requires !rt.legacy
      modifies rt
      ensures rt.Snapshot() == CmdStep(old(rt.Snapshot()), rt.host, false, root, Sh("dotnet test"))
    {
      rt.Cmd(root, Sh("dotnet test"));
    }

    /** `run(env)`. */
    method Run(rt: Runtime, env: Option<string>)
      requires !rt.legacy
      modifies rt
      ensures rt.Snapshot() == CmdStep(old(rt.Snapshot()), rt.host, false, root, Sh(RunLine(rt.host, env)))
    {
      if rt.host.isEnvRelease(env) {
        rt.Cmd(root, Sh("dotnet run -c release"));
      } else {
        rt.Cmd(root, Sh("dotnet run"));
      }
    }
  }
}
