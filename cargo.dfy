/** thiscli/project/cargo.py: a Rust crate. */
module Cargo {
  import opened Process
  import opened Engine

  /** The file `find` looks for. */
  const Markers: seq<string> := ["Cargo.toml"]

  class Cargo {
    const root: Path

    constructor (root: Path)
      ensures this.root == root
    {
      this.root := root;
    }

    /** `build`: `cargo build`. */
    method Build(rt: Runtime)
      requires !rt.legacy
      modifies rt
      ensures rt.Snapshot() == CmdStep(old(rt.Snapshot()), rt.host, false, root, Sh("cargo build"))
    {
      rt.Cmd(root, Sh("cargo build"));
    }

    /** `test`: `cargo test`. */
    method Test(rt: Runtime)
      requires !rt.legacy
      modifies rt
      ensures rt.Snapshot() == CmdStep(old(rt.Snapshot()), rt.host, false, root, Sh("cargo test"))
    {
      rt.Cmd(root, Sh("cargo test"));
    }
  }
}
