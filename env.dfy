/** thiscli/env.py: the table of deployment environments and the alias lookups over it. */
module EnvNames {
  import opened Wrappers

  /** `Env(name, short, other)`: canonical name, short name, further aliases. */
  datatype EnvEntry = EnvEntry(name: string, short: string, other: seq<string>)

  const Environments: seq<EnvEntry> := [
    EnvEntry("development", "dev", []),
    EnvEntry("staging", "staging", ["stage"]),
    EnvEntry("production", "prod", []),
    EnvEntry("testing", "test", ["qa"])
  ]

  /** `STANDARD_ENV_NAMES`: the canonical names in table order. */
  function StandardEnvNames(): (r: seq<string>)
    ensures |r| == |Environments| && forall i :: 0 <= i < |r| ==> r[i] == Environments[i].name
  {
    seq(|Environments|, i requires 0 <= i < |Environments| => Environments[i].name)
  }

  /** `SHORT_ENV_NAMES`: the short names in table order. */
  function ShortEnvNames(): (r: seq<string>)
    ensures |r| == |Environments| && forall i :: 0 <= i < |r| ==> r[i] == Environments[i].short
  {
    seq(|Environments|, i requires 0 <= i < |Environments| => Environments[i].short)
  }

  /** Whether `name` is one of the entry's names. */
  predicate Names(e: EnvEntry, name: string)
  {
    e.name == name || e.short == name || name in e.other
  }

  /** The search loop of `get_env` from table position `k` on: the first position that knows the name. */
  function FirstNamed(name: string, k: nat): (r: nat)
    requires k <= |Environments|
    ensures k <= r <= |Environments|
    ensures forall j :: k <= j < r ==> !Names(Environments[j], name)
    ensures r < |Environments| ==> Names(Environments[r], name)
    decreases |Environments| - k
  {
    if k == |Environments| then k
    else if Names(Environments[k], name) then k
    else FirstNamed(name, k + 1)
  }

  /** `get_env(name)`: the first entry, in table order, that knows the name. */
  function GetEnv(name: string): (r: Option<EnvEntry>)
    ensures r.Some? <==> exists e :: e in Environments && Names(e, name)
  {
    var i := FirstNamed(name, 0);
    if i < |Environments| then Some(Environments[i]) else None
  }

  /** `short_env_name(name)`. */
  function ShortEnvName(name: string): string
  {
    match GetEnv(name)
    case Some(e) => e.short
    case None => name
  }

  /** `all_env_names(name)`; for an unknown name `set(name)` is the set of its characters. */
  function AllEnvNames(name: string): set<string>
  {
    match GetEnv(name)
    case Some(e) => {e.name, e.short} + (set o | o in e.other)
    case None => set c | c in name :: [c]
  }

  /** Both spellings of development shorten to `dev`. */
  lemma ShortNamesOfDevelopment()
    ensures ShortEnvName("development") == "dev" && ShortEnvName("dev") == "dev"
  {
    assert Names(Environments[0], "development") && Names(Environments[0], "dev");
  }

  /** Every spelling of staging shortens to `staging`. */
  lemma ShortNamesOfStaging()
    ensures ShortEnvName("staging") == "staging" && ShortEnvName("stage") == "staging"
  {
    assert !Names(Environments[0], "staging") && Names(Environments[1], "staging");
    assert !Names(Environments[0], "stage") && Names(Environments[1], "stage");
  }

  /** Both spellings of production shorten to `prod`. */
  lemma ShortNamesOfProduction()
    ensures ShortEnvName("production") == "prod" && ShortEnvName("prod") == "prod"
  {
    assert !Names(Environments[0], "production") && !Names(Environments[1], "production");
    assert !Names(Environments[0], "prod") && !Names(Environments[1], "prod");
  }

  /** Every spelling of testing shortens to `test`. */
  lemma ShortNamesOfTesting()
    ensures ShortEnvName("testing") == "test" && ShortEnvName("test") == "test" && ShortEnvName("qa") == "test"
  {
    assert !Names(Environments[0], "testing") && !Names(Environments[1], "testing") && !Names(Environments[2], "testing");
    assert !Names(Environments[0], "test") && !Names(Environments[1], "test") && !Names(Environments[2], "test");
    assert !Names(Environments[0], "qa") && !Names(Environments[1], "qa") && !Names(Environments[2], "qa");
  }

  /** A name no entry knows is its own short name. */
  lemma ShortNameOfUnknown(name: string)
    requires forall e :: e in Environments ==> !Names(e, name)
    ensures ShortEnvName(name) == name
  {
  }

  /** Every entry's short name is found again by its own entry, so short names are fixed points. */
  lemma ShortEnvNameIdempotent(name: string)
    ensures ShortEnvName(ShortEnvName(name)) == ShortEnvName(name)
  {
    match GetEnv(name)
    case None =>
    case Some(e) =>
      ShortNamesOfDevelopment();
      ShortNamesOfStaging();
      ShortNamesOfProduction();
      ShortNamesOfTesting();
  }

  /** For a known name the alias set is exactly canonical, short and other names. */
  lemma AllEnvNamesKnown(name: string)
    ensures AllEnvNames("qa") == {"testing", "test", "qa"}
    ensures AllEnvNames("stage") == {"staging", "stage"}
    ensures AllEnvNames("prod") == {"production", "prod"}
    ensures AllEnvNames("development") == {"development", "dev"}
    ensures GetEnv(name).Some? ==> name in AllEnvNames(name)
  {
    assert GetEnv("qa") == Some(Environments[3]);
    assert GetEnv("stage") == Some(Environments[1]);
    assert GetEnv("prod") == Some(Environments[2]);
    assert GetEnv("development") == Some(Environments[0]);
    assert (set o | o in Environments[3].other) == {"qa"};
    assert (set o | o in Environments[1].other) == {"stage"};
  }

  /** For an unknown name the alias set is the name's characters, each as a string. */
  lemma AllEnvNamesUnknown(name: string)
    requires GetEnv(name).None?
    ensures forall s :: s in AllEnvNames(name) <==> |s| == 1 && s[0] in name
  {
    forall s ensures s in AllEnvNames(name) <==> |s| == 1 && s[0] in name {
      if |s| == 1 && s[0] in name { assert s == [s[0]]; }
    }
  }

  /** `all_env_names("foo")` is `{"f", "o"}`, not `{"foo"}`. */
  lemma AllEnvNamesOfUnknownWord()
    ensures AllEnvNames("foo") == {"f", "o"}
  {
    assert !Names(Environments[0], "foo") && !Names(Environments[1], "foo");
    assert !Names(Environments[2], "foo") && !Names(Environments[3], "foo");
    AllEnvNamesUnknown("foo");
    assert "f"[0] in "foo" && "o"[0] in "foo";
  }

  /** Neither name list repeats a name. */
  lemma EnvNamesDistinct()
    ensures forall i, j :: 0 <= i < j < |StandardEnvNames()| ==> StandardEnvNames()[i] != StandardEnvNames()[j]
    ensures forall i, j :: 0 <= i < j < |ShortEnvNames()| ==> ShortEnvNames()[i] != ShortEnvNames()[j]
  {
    EnvNameLists();
  }

  /** The short names are exactly the known names that are their own short name. */
  lemma ShortListMeaning(x: string)
    ensures x in ShortEnvNames() <==> GetEnv(x).Some? && ShortEnvName(x) == x
  {
    EnvNameLists();
    if GetEnv(x).Some? && ShortEnvName(x) == x {
      var i := FirstNamed(x, 0);
      assert ShortEnvNames()[i] == x;
    }
    if x == "dev" { ShortNamesOfDevelopment(); }
    if x == "staging" { ShortNamesOfStaging(); }
    if x == "prod" { ShortNamesOfProduction(); }
    if x == "test" { ShortNamesOfTesting(); }
  }

  /** The canonical names are exactly the names whose entry calls them its own. */
  lemma StandardListMeaning(x: string)
    ensures x in StandardEnvNames() <==> GetEnv(x).Some? && GetEnv(x).value.name == x
  {
    EnvNameLists();
    if GetEnv(x).Some? && GetEnv(x).value.name == x {
      var i := FirstNamed(x, 0);
      assert StandardEnvNames()[i] == x;
    }
    if x == "development" { assert Names(Environments[0], x); }
    if x == "staging" { assert !Names(Environments[0], x) && Names(Environments[1], x); }
    if x == "production" { assert !Names(Environments[0], x) && !Names(Environments[1], x); }
    if x == "testing" { assert !Names(Environments[0], x) && !Names(Environments[1], x) && !Names(Environments[2], x); }
  }

  /** Each canonical name shortens to the short name at the same position. */
  lemma StandardShortensInPlace()
    ensures |StandardEnvNames()| == |ShortEnvNames()|
    ensures forall i :: 0 <= i < |StandardEnvNames()| ==> ShortEnvName(StandardEnvNames()[i]) == ShortEnvNames()[i]
  {
    EnvNameLists();
    forall i | 0 <= i < |StandardEnvNames()| ensures ShortEnvName(StandardEnvNames()[i]) == ShortEnvNames()[i] {
      if i == 0 { ShortNamesOfDevelopment(); }
      else if i == 1 { ShortNamesOfStaging(); }
      else if i == 2 { ShortNamesOfProduction(); }
      else { ShortNamesOfTesting(); }
    }
  }

  /** The name lists follow the table order. */
  lemma EnvNameLists()
    ensures StandardEnvNames() == ["development", "staging", "production", "testing"]
    ensures ShortEnvNames() == ["dev", "staging", "prod", "test"]
  {
  }
}
