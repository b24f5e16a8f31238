/**
 * thiscli/project/ansible.py: deployment with an Ansible playbook, an
 * inventory chosen by environment, and roles from `ansible/requirements.yml`.
 */
module Ansible {
  import opened Wrappers
  import opened Text
  import opened Process
  import opened Util
  import opened EnvNames
  import opened Engine

  const Markers: seq<string> := ["ansible"]

  /** `is_present(project)`: the project root holds an `ansible` entry. */
  predicate IsPresent(fs: seq<Path>, root: Path)
  {
    Exists(fs, Below(root, "ansible"))
  }

  /** The root `find` answers always passes `is_present`. */
  lemma FoundIsPresent(fs: seq<Path>, cwd: Path)
    requires Containing(Levels(fs, cwd), Markers).Some?
    ensures IsPresent(fs, Containing(Levels(fs, cwd), Markers).value)
  {
    var levels := Levels(fs, cwd);
    ContainingNearest(levels, Markers);
    var i :| FoundAt(levels, Markers, i);
    LevelsShape(fs, cwd);
    assert "ansible" in levels[i].entries;
    SplitPathPlain("ansible");
  }

  /** `GENERIC_INVENTORY_FILENAMES`. */
  const Generic: seq<string> := ["ansible/hosts", "ansible/inventory"]

  const Playbooks: seq<string> := ["ansible/deploy.yml", "ansible/playbook.yml"]

  const NoHosts := "Ansible hosts file not found. "
  const HintPre := NoHosts + "Did you forget to specifiy --env "
  const HintMessage := HintPre + "{}" + "?"
  const MissingPre := NoHosts + "Looked for one of: "
  const MissingMessage := MissingPre + "{}" + ""
  const NoPlaybookMessage := "Playbook not found. Looked for one of: {}"

  /** The three inventory files of one environment name. */
  function Candidates(e: string): seq<string>
  {
    ["ansible/" + e, "ansible/" + e + "/hosts", "ansible/" + e + "/inventory"]
  }

  /** The candidates of every name, name by name. */
  function EnvCandidates(order: seq<string>): (r: seq<string>)
    ensures |r| == 3 * |order|
    ensures forall f :: f in r <==> exists e :: e in order && f in Candidates(e)
  {
    if order == [] then []
    else
      var rest := EnvCandidates(order[1..]);
      assert forall e :: e in order <==> e == order[0] || e in order[1..];
      Candidates(order[0]) + rest
  }

  /**
   * `inventory_filenames_for_env(name)`: `order` is the order in which the
   * set `all_env_names(name)` is iterated; the generic names come last.
   */
  function InventoryFilenames(order: seq<string>): seq<string>
  {
    EnvCandidates(order) + Generic
  }

  /** The layout of the candidate list: three per name in iteration order, then the generic ones. */
  lemma {:induction false} InventoryLayout(order: seq<string>, k: nat)
    requires k < |order|
    ensures var r := InventoryFilenames(order);
      |r| == 3 * |order| + 2 && r[3 * k..3 * k + 3] == Candidates(order[k]) && r[|r| - 2..] == Generic
    decreases k
  {
    var r := InventoryFilenames(order);
    if k == 0 {
      assert r == Candidates(order[0]) + (EnvCandidates(order[1..]) + Generic);
    } else {
      InventoryLayout(order[1..], k - 1);
      var tail := InventoryFilenames(order[1..]);
      assert r == Candidates(order[0]) + tail;
      assert r[3 * k..3 * k + 3] == tail[3 * (k - 1)..3 * (k - 1) + 3];
    }
  }

  /** `project.find_file(*names)`: the first name that exists under the root. */
  function FindFile(fs: seq<Path>, root: Path, names: seq<string>): (r: Option<string>)
    ensures r.None? <==> forall i :: 0 <= i < |names| ==> !Exists(fs, Below(root, names[i]))
    ensures r.Some? ==> r.value in names && Exists(fs, Below(root, r.value))
  {
    if names == [] then None
    else if Exists(fs, Below(root, names[0])) then Some(names[0])
    else
      var r := FindFile(fs, root, names[1..]);
      assert forall i :: 1 <= i < |names| ==> names[i] == names[1..][i - 1];
      r
  }

  /** A found file comes before every other existing name in the list. */
  lemma {:induction false} FindFileFirst(fs: seq<Path>, root: Path, names: seq<string>) returns (i: nat)
    requires FindFile(fs, root, names).Some?
    ensures i < |names| && names[i] == FindFile(fs, root, names).value
    ensures forall j :: 0 <= j < i ==> !Exists(fs, Below(root, names[j]))
  {
    if Exists(fs, Below(root, names[0])) {
      i := 0;
    } else {
      var k := FindFileFirst(fs, root, names[1..]);
      i := k + 1;
      assert forall j :: 1 <= j < |names| ==> names[j] == names[1..][j - 1];
    }
  }

  /** Some inventory file of an environment, in any spelling, or a generic one exists. */
  predicate HasInventory(fs: seq<Path>, root: Path, env: string)
  {
    (exists a, f :: a in AllEnvNames(env) && f in Candidates(a) && Exists(fs, Below(root, f)))
    || (exists f :: f in Generic && Exists(fs, Below(root, f)))
  }

  /** Whatever order the set of spellings is iterated in, a file is found exactly when one exists. */
  lemma FoundIffHasInventory(fs: seq<Path>, root: Path, env: string, order: seq<string>)
    requires forall a :: a in order <==> a in AllEnvNames(env)
    ensures FindFile(fs, root, InventoryFilenames(order)).Some? <==> HasInventory(fs, root, env)
  {
    var names := InventoryFilenames(order);
    assert forall f :: f in names <==> f in EnvCandidates(order) || f in Generic;
    if HasInventory(fs, root, env) {
      var f :| f in names && Exists(fs, Below(root, f));
      var i :| 0 <= i < |names| && names[i] == f;
    }
  }

  /** The names among `names` with an inventory, in order. */
  function WithInventory(fs: seq<Path>, root: Path, names: seq<string>): (r: seq<string>)
    ensures |r| <= |names|
    ensures forall e :: e in r <==> e in names && HasInventory(fs, root, e)
  {
    if names == [] then []
    else (if HasInventory(fs, root, names[0]) then [names[0]] else []) + WithInventory(fs, root, names[1..])
  }

  /** `find_valid_inventory_envs`: the short environment names with an inventory, in table order. */
  function ValidEnvs(fs: seq<Path>, root: Path): seq<string>
  {
    WithInventory(fs, root, ShortEnvNames())
  }

  /**
   * `find_inventory(env)`: the first existing candidate. When there is none,
   * a missing `--env` whose environments have inventories gets a hint; any
   * other case lists the names it tried. Only a missing environment, not an
   * empty one, gets the hint, though both use the generic names.
   */
  function InventoryStep(p: Proc, root: Path, env: Option<string>, order: seq<string>): (r: (Proc, Option<string>))
    ensures FindFile(p.fs, root, InventoryNames(env, order)).Some? ==> r == (p, FindFile(p.fs, root, InventoryNames(env, order)))
    ensures FindFile(p.fs, root, InventoryNames(env, order)).None? ==>
      r.1.None? && r.0.log == p.log && (p.status.Running? ==> r.0.status == Exited(1))
  {
    var names := InventoryNames(env, order);
    match FindFile(p.fs, root, names)
    case Some(f) => (p, Some(f))
    case None =>
      MessagePrefixes();
      if env.None? && ValidEnvs(p.fs, root) != [] then
        var valid := Join(" | ", ValidEnvs(p.fs, root));
        FormatOneField(HintPre, "?", valid);
        (Fatal(p, HintMessage, [valid]), None)
      else
        FormatOneField(MissingPre, "", Join(" ", names));
        (Fatal(p, MissingMessage, [Join(" ", names)]), None)
  }

  /** The names `find_inventory` tries: a truthy environment's candidates, else the generic names. */
  function InventoryNames(env: Option<string>, order: seq<string>): seq<string>
  {
    if env.Some? && env.value != "" then InventoryFilenames(order) else Generic
  }

  /** When an inventory is found, `find_inventory` changes nothing and returns it. */
  lemma InventoryFound(p: Proc, root: Path, env: Option<string>, order: seq<string>)
    requires FindFile(p.fs, root, InventoryNames(env, order)).Some?
    ensures InventoryStep(p, root, env, order) == (p, FindFile(p.fs, root, InventoryNames(env, order)))
  {
  }

  /** `find_playbook`. */
  function PlaybookStep(p: Proc, root: Path): (Proc, Option<string>)
  {
    match FindFile(p.fs, root, Playbooks)
    case Some(f) => (p, Some(f))
    case None => (Fatal(p, NoPlaybookMessage, [Join(" ", Playbooks)]), None)
  }

  /** `install_roles`: `ansible-galaxy` when there is a requirements file. */
  function RoleCalls(fs: seq<Path>, root: Path): seq<Call>
  {
    if Exists(fs, Below(root, "ansible/requirements.yml")) then [Sh("ansible-galaxy install -r ansible/requirements.yml")] else []
  }

  function PlaybookCall(inventory: string, playbook: string): Call
  {
    Sh("ansible-playbook -i " + inventory + " " + playbook)
  }

  /** `deploy(project, env)`: roles, then the playbook against the inventory. */
  function DeployStep(p: Proc, h: Host, root: Path, env: Option<string>, order: seq<string>): Proc
  {
    var roled := CmdAll(p, h, false, root, RoleCalls(p.fs, root));
    var (p2, inventory) := InventoryStep(roled, root, env, order);
    var (p3, playbook) := PlaybookStep(p2, root);
    if inventory.Some? && playbook.Some? then CmdStep(p3, h, false, root, PlaybookCall(inventory.value, playbook.value)) else p3
  }

  /** Proof aid: the text before the field of either inventory message has no field of its own. */
  lemma MessagePrefixes()
    ensures NoField(HintPre + "{") && NoField(MissingPre + "{")
  {
    assert NoField(NoHosts);
    assert NoField("Did you forget to specifiy --env " + "{");
    assert NoField("Looked for one of: " + "{");
    NoFieldConcat(NoHosts, "Did you forget to specifiy --env " + "{");
    NoFieldConcat(NoHosts, "Looked for one of: " + "{");
    assert HintPre + "{" == NoHosts + ("Did you forget to specifiy --env " + "{");
    assert MissingPre + "{" == NoHosts + ("Looked for one of: " + "{");
  }

  /** The hint names the valid environments, separated by ` | `, and ends the process. */
  lemma HintNamesEnvs(p: Proc, root: Path, order: seq<string>)
    requires p.status.Running? && FindFile(p.fs, root, Generic).None? && ValidEnvs(p.fs, root) != []
    ensures var q := InventoryStep(p, root, None, order).0;
      && q.status == Exited(1) && q.log == p.log
      && q.out == p.out + ["ERROR: " + HintPre + Join(" | ", ValidEnvs(p.fs, root)) + "?"]
  {
    MessagePrefixes();
    FatalOneField(p, HintMessage, Join(" | ", ValidEnvs(p.fs, root)), HintPre, "?");
  }

  /**
   * Without a found inventory, every case but the hint ends the process with
   * exit code 1 and a message listing the names that were tried.
   */
  lemma MissingListsNames(p: Proc, root: Path, env: Option<string>, order: seq<string>)
    requires p.status.Running? && FindFile(p.fs, root, InventoryNames(env, order)).None?
    requires !(env.None? && ValidEnvs(p.fs, root) != [])
    ensures var q := InventoryStep(p, root, env, order);
      && q.1.None? && q.0.status == Exited(1) && q.0.log == p.log
      && q.0.out == p.out + ["ERROR: " + MissingPre + Join(" ", InventoryNames(env, order))]
  {
    var listed := Join(" ", InventoryNames(env, order));
    MessagePrefixes();
    FatalOneField(p, MissingMessage, listed, MissingPre, "");
    assert "ERROR: " + MissingPre + listed + "" == "ERROR: " + MissingPre + listed;
  }

  /** With an empty `--env` no hint is given: the message lists the generic names. */
  lemma EmptyEnvGetsNoHint(p: Proc, root: Path, order: seq<string>)
    requires p.status.Running? && FindFile(p.fs, root, Generic).None?
    ensures var q := InventoryStep(p, root, Some(""), order).0;
      && q.status == Exited(1) && q.log == p.log
      && q.out == p.out + ["ERROR: " + MissingPre + Join(" ", Generic)]
  {
    MissingListsNames(p, root, Some(""), order);
  }

  /**
   * When the inventory and the playbook are found on a quiet host, `deploy`
   * runs the roles step if there is one and then exactly the playbook.
   */
  lemma DeployCommands(p: Proc, h: Host, root: Path, env: Option<string>, order: seq<string>, inventory: string, playbook: string)
    requires Quiet(h) && p.status.Running? && p.capture.None?
    requires FindFile(p.fs, root, InventoryNames(env, order)) == Some(inventory)
    requires FindFile(p.fs, root, Playbooks) == Some(playbook)
    ensures Commands(DeployStep(p, h, root, env, order).log) ==
      Commands(p.log) + Lines(RoleCalls(p.fs, root) + [PlaybookCall(inventory, playbook)])
  {
    var calls := RoleCalls(p.fs, root);
    CmdAllQuiet(p, h, false, root, calls);
    var roled := CmdAll(p, h, false, root, calls);
    assert roled.fs == p.fs && roled.status.Running?;
    InventoryFound(roled, root, env, order);
    assert PlaybookStep(roled, root) == (roled, Some(playbook));
    assert DeployStep(p, h, root, env, order) == CmdStep(roled, h, false, root, PlaybookCall(inventory, playbook));
    CmdAllSnoc(p, h, false, root, calls, PlaybookCall(inventory, playbook));
    QuietCommands(p, h, root, calls + [PlaybookCall(inventory, playbook)]);
  }

  /** `install_roles`. */
  method InstallRoles(rt: Runtime, root: Path)
    requires !rt.legacy
    modifies rt
    ensures rt.Snapshot() == CmdAll(old(rt.Snapshot()), rt.host, false, root, RoleCalls(old(rt.fs), root))
  {
    if Exists(rt.fs, Below(root, "ansible/requirements.yml")) {
      ghost var before := rt.Snapshot();
      rt.Cmd(root, Sh("ansible-galaxy install -r ansible/requirements.yml"));
      CmdAllOne(before, rt.host, false, root, Sh("ansible-galaxy install -r ansible/requirements.yml"));
    }
  }

  /** The search loop of `find_file`. */
  method FindFirstFile(fs: seq<Path>, root: Path, names: seq<string>) returns (r: Option<string>)
    ensures r == FindFile(fs, root, names)
  {
    var i := 0;
    while i < |names|
      invariant 0 <= i <= |names|
      invariant FindFile(fs, root, names[i..]) == FindFile(fs, root, names)
    {
      assert names[i..][1..] == names[i + 1..];
      if Exists(fs, Below(root, names[i])) {
        return Some(names[i]);
      }
      i := i + 1;
    }
    return None;
  }

  /** `find_inventory`. */
  method FindInventory(rt: Runtime, root: Path, env: Option<string>, order: seq<string>) returns (inventory: Option<string>)
    requires !rt.legacy
    modifies rt
    ensures (rt.Snapshot(), inventory) == InventoryStep(old(rt.Snapshot()), root, env, order)
  {
    var names := InventoryNames(env, order);
    inventory := FindFirstFile(rt.fs, root, names);
    if inventory.None? {
      var valid := WithInventory(rt.fs, root, ShortEnvNames());
      if env.None? && valid != [] {
        rt.Fatal(HintMessage, [Join(" | ", valid)]);
      } else {
        rt.Fatal(MissingMessage, [Join(" ", names)]);
      }
    }
  }

  /** `find_playbook`. */
  method FindPlaybook(rt: Runtime, root: Path) returns (playbook: Option<string>)
    requires !rt.legacy
    modifies rt
    ensures (rt.Snapshot(), playbook) == PlaybookStep(old(rt.Snapshot()), root)
  {
    playbook := FindFirstFile(rt.fs, root, Playbooks);
    if playbook.None? {
      rt.Fatal(NoPlaybookMessage, [Join(" ", Playbooks)]);
    }
  }

  /** `deploy(project, env)`, with `run_playbook` inlined. */
  method Deploy(rt: Runtime, root: Path, env: Option<string>, order: seq<string>)
    requires !rt.legacy
    modifies rt
    ensures rt.Snapshot() == DeployStep(old(rt.Snapshot()), rt.host, root, env, order)
  {
    InstallRoles(rt, root);
    var inventory := FindInventory(rt, root, env, order);
    var playbook := FindPlaybook(rt, root);
    if inventory.Some? && playbook.Some? {
      rt.Cmd(root, PlaybookCall(inventory.value, playbook.value));
    }
  }
}
