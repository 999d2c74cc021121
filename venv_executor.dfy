/** The pure helpers of the virtual-environment playbook executor, and the
    decisions `run_playbook_with_venv` takes, with its effects (metadata
    lookup and save, UI output, the wrapper playbook run) recorded as a
    trace and their answers passed in. */
module VenvExecutor {
  import opened Wrappers
  import opened Strings
  import opened PyData

  // ------------------------------------------------------------- get_venv_path

  const PersistentRoot := "~/ansible-venvs/"
  const TemporaryPrefix := "/tmp/ansible-venv-"

  /** `get_venv_path(venv_name, target_host, persist)`: the host plays no part. */
  function GetVenvPath(venvName: string, targetHost: string, persist: bool): (p: string)
    ensures persist <==> StartsWith(p, "~")
    ensures |venvName| <= |p| && p[|p| - |venvName|..] == venvName
  {
    var p := if persist then PersistentRoot + venvName else TemporaryPrefix + venvName;
    assert p[0] == if persist then '~' else '/';
    p
  }

  /** Two paths agree exactly when the names and the persistence settings
      agree, whatever hosts were given. */
  lemma {:induction false} GetVenvPathInjective(a: string, hostA: string, persistA: bool,
                                                b: string, hostB: string, persistB: bool)
    ensures GetVenvPath(a, hostA, persistA) == GetVenvPath(b, hostB, persistB) <==> a == b && persistA == persistB
  {
    var p := GetVenvPath(a, hostA, persistA);
    var q := GetVenvPath(b, hostB, persistB);
    if p == q {
      assert persistA == persistB;
      var prefix := if persistA then PersistentRoot else TemporaryPrefix;
      assert p == prefix + a && q == prefix + b;
      assert a == p[|prefix|..] == q[|prefix|..] == b;
    }
  }

  // ----------------------------------------------------------- create_venv_vars

  /** A list of strings as a Python value. */
  function StrList(xs: seq<string>): Value {
    VList(seq(|xs|, i requires 0 <= i < |xs| => VStr(xs[i])))
  }

  /** `xs or default` for an optional list. */
  function OrDefault(xs: Option<seq<string>>, default: seq<string>): seq<string> {
    if xs.Some? && |xs.value| > 0 then xs.value else default
  }

  /** The seven entries every wrapper-variable dict starts with. */
  function BaseVars(venvName: string, targetHost: string, persist: bool,
                    collections: Option<seq<string>>, pythonPackages: Option<seq<string>>): Dict {
    [("venv_name", VStr(venvName)),
     ("venv_path", VStr(GetVenvPath(venvName, targetHost, persist))),
     ("persist_venv", VBool(persist)),
     ("target_host", VStr(targetHost)),
     ("collect_metadata", VBool(true)),
     ("ansible_collections", StrList(OrDefault(collections, []))),
     ("python_packages", StrList(OrDefault(pythonPackages, ["ansible-core"])))]
  }

  const BaseKeys: seq<string> := ["venv_name", "venv_path", "persist_venv", "target_host",
                                  "collect_metadata", "ansible_collections", "python_packages"]

  /** `create_venv_vars(...)`: the base entries, `playbook_to_run` for a
      non-empty playbook path, then the extra variables written over them. */
  function CreateVenvVars(venvName: string, targetHost: string, persist: bool,
                          collections: Option<seq<string>>, pythonPackages: Option<seq<string>>,
                          playbookPath: Option<string>, extraVars: Option<Dict>): Dict
  {
    var base := BaseVars(venvName, targetHost, persist, collections, pythonPackages);
    var withPlaybook :=
      if playbookPath.Some? && playbookPath.value != "" then Set(base, "playbook_to_run", VStr(playbookPath.value))
      else base;
    if extraVars.Some? && |extraVars.value| > 0 then Update(withPlaybook, extraVars.value) else withPlaybook
  }

  /** Each base key reads its own value; no other key is present. */
  lemma {:induction false} BaseVarsGet(venvName: string, targetHost: string, persist: bool,
                                       collections: Option<seq<string>>, pythonPackages: Option<seq<string>>, j: string)
    ensures var base := BaseVars(venvName, targetHost, persist, collections, pythonPackages);
      && Keys(base) == BaseKeys
      && Get(base, j) ==
        if j == "venv_name" then Some(VStr(venvName))
        else if j == "venv_path" then Some(VStr(GetVenvPath(venvName, targetHost, persist)))
        else if j == "persist_venv" then Some(VBool(persist))
        else if j == "target_host" then Some(VStr(targetHost))
        else if j == "collect_metadata" then Some(VBool(true))
        else if j == "ansible_collections" then Some(StrList(OrDefault(collections, [])))
        else if j == "python_packages" then Some(StrList(OrDefault(pythonPackages, ["ansible-core"])))
        else None
  {
    var base := BaseVars(venvName, targetHost, persist, collections, pythonPackages);
    assert Keys(base) == BaseKeys by {
      assert forall i :: 0 <= i < 7 ==> base[i].0 == BaseKeys[i];
    }
    GetFront(base, j);
    assert base[1..][1..] == base[2..] && base[2..][1..] == base[3..] && base[3..][1..] == base[4..];
    assert base[4..][1..] == base[5..] && base[5..][1..] == base[6..];
    GetFront(base[1..], j);
    GetFront(base[2..], j);
    GetFront(base[3..], j);
    GetFront(base[4..], j);
    GetFront(base[5..], j);
    GetFront(base[6..], j);
    assert base[6..][1..] == [];
  }

  /** Every key of the wrapper variables: extra variables win; otherwise the
      base entry, and `playbook_to_run` only for a non-empty playbook path. */
  lemma {:induction false} CreateVenvVarsGet(venvName: string, targetHost: string, persist: bool,
                                             collections: Option<seq<string>>, pythonPackages: Option<seq<string>>,
                                             playbookPath: Option<string>, extraVars: Option<Dict>, j: string)
    requires extraVars.Some? ==> UniqueKeys(extraVars.value)
    ensures var base := BaseVars(venvName, targetHost, persist, collections, pythonPackages);
      var extra := if extraVars.Some? then extraVars.value else [];
      Get(CreateVenvVars(venvName, targetHost, persist, collections, pythonPackages, playbookPath, extraVars), j) ==
        if j in Keys(extra) then Get(extra, j)
        else if j == "playbook_to_run" && playbookPath.Some? && playbookPath.value != "" then Some(VStr(playbookPath.value))
        else Get(base, j)
  {
    var base := BaseVars(venvName, targetHost, persist, collections, pythonPackages);
    BaseVarsGet(venvName, targetHost, persist, collections, pythonPackages, j);
    if playbookPath.Some? && playbookPath.value != "" {
      GetSet(base, "playbook_to_run", VStr(playbookPath.value), j);
    }
    var withPlaybook :=
      if playbookPath.Some? && playbookPath.value != "" then Set(base, "playbook_to_run", VStr(playbookPath.value))
      else base;
    if extraVars.Some? && |extraVars.value| > 0 {
      GetUpdate(withPlaybook, extraVars.value, j);
    }
  }

  /** The seven base keys always come first, in their order; the extra
      variables can change their values but not their places. */
  lemma {:induction false} CreateVenvVarsKeyOrder(venvName: string, targetHost: string, persist: bool,
                                                  collections: Option<seq<string>>, pythonPackages: Option<seq<string>>,
                                                  playbookPath: Option<string>, extraVars: Option<Dict>)
    ensures var vars := CreateVenvVars(venvName, targetHost, persist, collections, pythonPackages, playbookPath, extraVars);
      |vars| >= 7 && Keys(vars)[..7] == BaseKeys
  {
    var base := BaseVars(venvName, targetHost, persist, collections, pythonPackages);
    BaseVarsGet(venvName, targetHost, persist, collections, pythonPackages, "");
    var withPlaybook :=
      if playbookPath.Some? && playbookPath.value != "" then Set(base, "playbook_to_run", VStr(playbookPath.value))
      else base;
    if playbookPath.Some? && playbookPath.value != "" {
      KeysSet(base, "playbook_to_run", VStr(playbookPath.value));
    }
    assert Keys(withPlaybook)[..7] == BaseKeys;
    if extraVars.Some? && |extraVars.value| > 0 {
      KeysUpdate(withPlaybook, extraVars.value, "");
      assert Keys(Update(withPlaybook, extraVars.value))[..7] == Keys(Update(withPlaybook, extraVars.value))[..|withPlaybook|][..7];
    }
  }

  // ------------------------------------------------------- message helpers

  /** `metadata[key]`: the value, or KeyError. */
  function Subscript(d: Dict, key: string): (r: Result<Value>)
    ensures r.Ok? <==> key in Keys(d)
    ensures r.Ok? ==> Get(d, key) == Some(r.value)
    ensures r.Err? ==> r.exc == Builtin("KeyError", key)
  {
    match Get(d, key)
    case Some(v) => Ok(v)
    case None => Err(Builtin("KeyError", key))
  }

  /** `format_existing_venv_message(metadata)`: KeyError when the name or
      the creation time is missing. */
  function FormatExistingVenvMessage(metadata: Dict): (r: Result<string>)
    ensures r.Ok? <==> "venv_name" in Keys(metadata) && "created_at" in Keys(metadata)
    ensures "venv_name" !in Keys(metadata) ==> r == Err(Builtin("KeyError", "venv_name"))
  {
    match Subscript(metadata, "venv_name")
    case Err(e) => Err(e)
    case Ok(name) =>
      match Subscript(metadata, "created_at")
      case Err(e) => Err(e)
      case Ok(created) => Ok("Using existing venv '" + Str(name) + "' created at " + Str(created))
  }

  /** With text values, the message quotes the name and ends with the
      creation time. */
  lemma {:induction false} ExistingVenvMessageText(metadata: Dict, name: string, created: string)
    requires Get(metadata, "venv_name") == Some(VStr(name))
    requires Get(metadata, "created_at") == Some(VStr(created))
    ensures FormatExistingVenvMessage(metadata) == Ok("Using existing venv '" + name + "' created at " + created)
  {
  }

  /** `generate_temp_venv_name()`, with `int(time.time())` passed in. */
  function GenerateTempVenvName(now: int): (name: string)
    ensures StartsWith(name, "temp_") && |name| > 5
  {
    "temp_" + IntToString(now)
  }

  /** `extract_metadata_from_result(result)`: the captured metadata when the
      result reports success, else None. */
  function ExtractMetadataFromResult(result: Dict): (r: Value)
    ensures !Truthy(GetOr(result, "success", VNone)) ==> r == VNone
    ensures Truthy(GetOr(result, "success", VNone)) ==> r == GetOr(result, "venv_metadata", VNone)
  {
    if Truthy(GetOr(result, "success", VNone)) then GetOr(result, "venv_metadata", VNone) else VNone
  }

  /** The dict `run_venv_wrapper_playbook` returns for a playbook return
      code and the metadata its callback captured. */
  function WrapperResult(code: int, captured: Value): Dict {
    [("success", VBool(code == 0)), ("venv_metadata", captured), ("result_code", VInt(code))]
  }

  /** For a wrapper result, metadata is extracted exactly when the playbook
      returned 0. */
  lemma {:induction false} ExtractFromWrapperResult(code: int, captured: Value)
    ensures ExtractMetadataFromResult(WrapperResult(code, captured)) == if code == 0 then captured else VNone
  {
    var d := WrapperResult(code, captured);
    GetAt(d, 0);
    GetAt(d, 1);
  }

  // ------------------------------------------------------ run_playbook_with_venv

  /** The effects `run_playbook_with_venv` performs, in order. */
  datatype Effect =
    | LoadMetadata(venvName: string, targetHost: string)  // check_venv_exists
    | ShowText(text: string)                              // ui_updater.add_text_to_output
    | RunWrapper(vars: Dict)                              // run_venv_wrapper_playbook
    | SaveMetadata(venvName: string, metadata: Value)     // save_venv_metadata

  /** What the outside world answers: the clock, the stored metadata (None
      when there is no file), the playbook's return code or exception, the
      metadata its callback captured, the exception saving raises, if any,
      and whether a UI updater was given. */
  datatype World = World(now: int, existing: Option<Dict>, playbook: Result<int>, captured: Value,
                         saveError: Option<Exc>, hasUi: bool)

  /** The effects performed and the value returned or exception raised. */
  datatype Run = Run(effects: seq<Effect>, outcome: Result<bool>)

  const MetadataSavedIcon := "\U{00E2}\U{0153}\U{2026}"

  /** The venv name used: the given one, unless missing or empty. */
  function ActualVenvName(venvName: Option<string>, now: int): (name: string)
    ensures venvName.Some? && venvName.value != "" ==> name == venvName.value
    ensures !(venvName.Some? && venvName.value != "") ==> StartsWith(name, "temp_")
  {
    if venvName.Some? && venvName.value != "" then venvName.value else GenerateTempVenvName(now)
  }

  /** The lookup of an existing persistent venv and, with a UI attached and
      non-empty stored metadata, the message about it; the exception the
      message raises comes with the effects so far. */
  function ExistingVenvStep(actual: string, targetHost: string, lookup: bool, world: World): (r: (seq<Effect>, Option<Exc>))
    ensures forall k :: 0 <= k < |r.0| ==> !r.0[k].SaveMetadata? && !r.0[k].RunWrapper?
    ensures |r.0| > 0 <==> lookup
  {
    if !lookup then ([], None)
    else
      var e1 := [LoadMetadata(actual, targetHost)];
      if world.existing.Some? && |world.existing.value| > 0 && world.hasUi then
        match FormatExistingVenvMessage(world.existing.value)
        case Err(e) => (e1, Some(e))
        case Ok(m) => (e1 + [ShowText(m + "\n")], None)
      else (e1, None)
  }

  /** What follows the wrapper playbook run, whose effects so far are `e`:
      the metadata save on success and the message about it. */
  function FinishRun(e: seq<Effect>, actual: string, world: World): (r: Run)
    ensures r.outcome.Ok? ==> world.playbook.Ok? && r.outcome.value == (world.playbook.value == 0)
    ensures |e| <= |r.effects| && r.effects[..|e|] == e
  {
    match world.playbook
    case Err(x) => Run(e, Err(x))
    case Ok(code) =>
      var metadata := ExtractMetadataFromResult(WrapperResult(code, world.captured));
      if code == 0 && Truthy(metadata) then
        var e4 := e + [SaveMetadata(actual, metadata)];
        if world.saveError.Some? then Run(e4, Err(world.saveError.value))
        else if world.hasUi then
          Run(e4 + [ShowText(MetadataSavedIcon + " Metadata saved for venv '" + actual + "'\n")], Ok(true))
        else Run(e4, Ok(true))
      else Run(e, Ok(code == 0))
  }

  /** `run_playbook_with_venv(app, playbook_path, target_host, persist,
      venv_name, collections, python_packages, extra_vars, ui_updater)` */
  function RunPlaybookWithVenv(playbookPath: string, targetHost: string, persist: bool, venvName: Option<string>,
                               collections: Option<seq<string>>, pythonPackages: Option<seq<string>>,
                               extraVars: Option<Dict>, world: World): (r: Run)
    ensures r.outcome.Ok? ==> world.playbook.Ok? && r.outcome.value == (world.playbook.value == 0)
  {
    var actual := ActualVenvName(venvName, world.now);
    var (e, err) := ExistingVenvStep(actual, targetHost, persist && venvName.Some? && venvName.value != "", world);
    if err.Some? then Run(e, Err(err.value))
    else
      var vars := CreateVenvVars(actual, targetHost, persist, collections, pythonPackages, Some(playbookPath), extraVars);
      FinishRun(e + [RunWrapper(vars)], actual, world)
  }

  /** The existing-venv message raises: the stored metadata, shown because
      a UI is attached, lacks its name or creation time. */
  predicate MessageFails(persist: bool, venvName: Option<string>, world: World) {
    && persist && venvName.Some? && venvName.value != ""
    && world.existing.Some? && |world.existing.value| > 0 && world.hasUi
    && FormatExistingVenvMessage(world.existing.value).Err?
  }

  /** Some effect saves metadata. */
  predicate SavesMetadata(r: Run) {
    exists k :: 0 <= k < |r.effects| && r.effects[k].SaveMetadata?
  }

  /** After the playbook, metadata is saved exactly when it returned 0 and
      captured non-empty metadata, and what is saved is that metadata. */
  lemma {:induction false} FinishRunSaves(e: seq<Effect>, actual: string, world: World)
    requires forall k :: 0 <= k < |e| ==> !e[k].SaveMetadata?
    ensures var r := FinishRun(e, actual, world);
      && (SavesMetadata(r) <==> world.playbook == Ok(0) && Truthy(world.captured))
      && (forall k :: 0 <= k < |r.effects| && r.effects[k].SaveMetadata? ==> r.effects[k] == SaveMetadata(actual, world.captured))
  {
    var r := FinishRun(e, actual, world);
    if world.playbook.Ok? {
      ExtractFromWrapperResult(world.playbook.value, world.captured);
    }
    if world.playbook == Ok(0) && Truthy(world.captured) {
      assert r.effects[|e|] == SaveMetadata(actual, world.captured);
    } else {
      assert r.effects == e;
    }
  }

  /** Metadata is saved exactly when the playbook returned 0 and captured
      non-empty metadata (and the existing-venv message did not raise
      first); what is saved is the captured metadata, under the name used. */
  lemma {:induction false} RunSavesIff(playbookPath: string, targetHost: string, persist: bool, venvName: Option<string>,
                                       collections: Option<seq<string>>, pythonPackages: Option<seq<string>>,
                                       extraVars: Option<Dict>, world: World)
    ensures var r := RunPlaybookWithVenv(playbookPath, targetHost, persist, venvName, collections, pythonPackages, extraVars, world);
      && (SavesMetadata(r) <==> world.playbook == Ok(0) && Truthy(world.captured) && !MessageFails(persist, venvName, world))
      && (forall k :: 0 <= k < |r.effects| && r.effects[k].SaveMetadata? ==>
            r.effects[k] == SaveMetadata(ActualVenvName(venvName, world.now), world.captured))
  {
    var actual := ActualVenvName(venvName, world.now);
    var lookup := persist && venvName.Some? && venvName.value != "";
    var (e, err) := ExistingVenvStep(actual, targetHost, lookup, world);
    assert err.Some? <==> MessageFails(persist, venvName, world);
    if err.None? {
      var vars := CreateVenvVars(actual, targetHost, persist, collections, pythonPackages, Some(playbookPath), extraVars);
      var e' := e + [RunWrapper(vars)];
      assert forall k :: 0 <= k < |e'| ==> !e'[k].SaveMetadata? by {
        forall k | 0 <= k < |e'| ensures !e'[k].SaveMetadata? {
          if k < |e| { assert e'[k] == e[k]; }
        }
      }
      FinishRunSaves(e', actual, world);
      assert RunPlaybookWithVenv(playbookPath, targetHost, persist, venvName, collections, pythonPackages, extraVars, world)
          == FinishRun(e', actual, world);
    } else {
      assert RunPlaybookWithVenv(playbookPath, targetHost, persist, venvName, collections, pythonPackages, extraVars, world).effects == e;
    }
  }

  /** The run opens with the metadata lookup exactly when a persistent venv
      was named; otherwise it opens with the wrapper playbook. */
  lemma {:induction false} RunOpensWithLookup(playbookPath: string, targetHost: string, persist: bool, venvName: Option<string>,
                                              collections: Option<seq<string>>, pythonPackages: Option<seq<string>>,
                                              extraVars: Option<Dict>, world: World)
    ensures var r := RunPlaybookWithVenv(playbookPath, targetHost, persist, venvName, collections, pythonPackages, extraVars, world);
      |r.effects| > 0 && (r.effects[0].LoadMetadata? <==> persist && venvName.Some? && venvName.value != "")
  {
    var actual := ActualVenvName(venvName, world.now);
    var lookup := persist && venvName.Some? && venvName.value != "";
    var (e, err) := ExistingVenvStep(actual, targetHost, lookup, world);
    if err.None? {
      var vars := CreateVenvVars(actual, targetHost, persist, collections, pythonPackages, Some(playbookPath), extraVars);
      var pre := e + [RunWrapper(vars)];
      var r := FinishRun(pre, actual, world);
      assert r.effects[0] == r.effects[..|pre|][0] == pre[0];
    }
  }

  /** The wrapper playbook runs, with the wrapper variables of the name
      used, exactly when the existing-venv message did not raise first. */
  lemma {:induction false} RunUsesWrapperVars(playbookPath: string, targetHost: string, persist: bool, venvName: Option<string>,
                                              collections: Option<seq<string>>, pythonPackages: Option<seq<string>>,
                                              extraVars: Option<Dict>, world: World)
    ensures var r := RunPlaybookWithVenv(playbookPath, targetHost, persist, venvName, collections, pythonPackages, extraVars, world);
      var vars := CreateVenvVars(ActualVenvName(venvName, world.now), targetHost, persist, collections, pythonPackages, Some(playbookPath), extraVars);
      !MessageFails(persist, venvName, world) <==> exists k :: 0 <= k < |r.effects| && r.effects[k] == RunWrapper(vars)
  {
    var actual := ActualVenvName(venvName, world.now);
    var lookup := persist && venvName.Some? && venvName.value != "";
    var (e, err) := ExistingVenvStep(actual, targetHost, lookup, world);
    assert err.Some? <==> MessageFails(persist, venvName, world);
    var r := RunPlaybookWithVenv(playbookPath, targetHost, persist, venvName, collections, pythonPackages, extraVars, world);
    var vars := CreateVenvVars(actual, targetHost, persist, collections, pythonPackages, Some(playbookPath), extraVars);
    if err.None? {
      var pre := e + [RunWrapper(vars)];
      assert r == FinishRun(pre, actual, world);
      assert r.effects[..|pre|] == pre;
      assert r.effects[|e|] == r.effects[..|pre|][|e|] == pre[|e|];
    } else {
      assert r.effects == e;
    }
  }
}
