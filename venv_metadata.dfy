/** The dictionary shaping of the virtual-environment metadata store:
    file names, enriched metadata, index entries, the index update, the
    listing of all venvs, and the filters and the date sort over them. The
    JSON files themselves are not modelled; the clock is passed in. */
module VenvMetadata {
  import opened Wrappers
  import opened Strings
  import opened PyData

  // --------------------------------------------------- create_metadata_filename

  /** `create_metadata_filename(venv_name, target_host)` */
  function CreateMetadataFilename(venvName: string, targetHost: string): (f: string)
    ensures |f| == |venvName| + |targetHost| + 6
  {
    venvName + "_" + targetHost + ".json"
  }

  /** The name, the host and the extension can be read back from the file
      name; a name without "_" is the text before the first "_". */
  lemma {:induction false} MetadataFilenameParts(venvName: string, targetHost: string)
    ensures var f := CreateMetadataFilename(venvName, targetHost);
      && f[..|venvName|] == venvName
      && f[|venvName|] == '_'
      && f[|venvName| + 1..|f| - 5] == targetHost
      && f[|f| - 5..] == ".json"
    ensures '_' !in venvName ==> SplitOn(CreateMetadataFilename(venvName, targetHost), '_')[0] == venvName
  {
    var f := CreateMetadataFilename(venvName, targetHost);
    assert f == venvName + ['_'] + (targetHost + ".json");
    if '_' !in venvName {
      SplitOnFirst(venvName, '_', targetHost + ".json");
    }
  }

  // ------------------------------------------------------------ enrich_metadata

  const MetadataVersion := "1.0"

  /** `enrich_metadata(metadata)`, with `datetime.now().isoformat()` passed
      in as `now`. */
  function EnrichMetadata(metadata: Dict, now: string): Dict {
    Update(metadata, [("last_updated", VStr(now)), ("metadata_version", VStr(MetadataVersion))])
  }

  /** Enriching keeps every key of the input, in its place, sets
      `last_updated` and `metadata_version`, and leaves the other values. */
  lemma {:induction false} EnrichMetadataGet(metadata: Dict, now: string, j: string)
    ensures var r := EnrichMetadata(metadata, now);
      && |metadata| <= |r| && Keys(r)[..|metadata|] == Keys(metadata)
      && Get(r, j) ==
        if j == "last_updated" then Some(VStr(now))
        else if j == "metadata_version" then Some(VStr(MetadataVersion))
        else Get(metadata, j)
  {
    var extra: Dict := [("last_updated", VStr(now)), ("metadata_version", VStr(MetadataVersion))];
    assert Keys(extra) == ["last_updated", "metadata_version"];
    assert UniqueKeys(extra);
    GetUpdate(metadata, extra, j);
    KeysUpdate(metadata, extra, j);
    if j in Keys(extra) {
      GetAt(extra, 0);
      GetAt(extra, 1);
    }
  }

  // ---------------------------------------------------------- create_index_entry

  /** The keys an index entry copies from the metadata, in order. */
  const RequiredKeys: seq<string> := ["target_host", "persistent", "created_at", "last_updated", "python_version"]

  const IndexKeys: seq<string> := RequiredKeys + ["ansible_version"]

  /** `v[0] if v else "unknown"`: a list gives its first item, a string its
      first character, bytes their first byte (a pickle opens with the
      protocol opcode 0x80); a dict has no key 0; other values cannot be
      subscripted. */
  function FirstOrUnknown(v: Value): (r: Result<Value>)
    ensures !Truthy(v) ==> r == Ok(VStr("unknown"))
    ensures v.VStr? && |v.s| > 0 ==> r == Ok(VStr([v.s[0]]))
    ensures v.VList? && |v.items| > 0 ==> r == Ok(v.items[0])
  {
    if !Truthy(v) then Ok(VStr("unknown"))
    else match v
      case VList(xs) => Ok(xs[0])
      case VStr(s) => Ok(VStr([s[0]]))
      case VPickle(_) => Ok(VInt(0x80))
      case VDict(_) => Err(Exc("builtins", "KeyError", [VInt(0)], true, true, true, None))
      case _ => Err(Builtin("TypeError", "'" + TypeName(v) + "' object is not subscriptable"))
  }

  /** The value under each required key, or the KeyError for the first one
      missing. */
  function CopyRequired(metadata: Dict, keys: seq<string>): (r: Result<Dict>)
    ensures r.Ok? <==> forall k :: 0 <= k < |keys| ==> keys[k] in Keys(metadata)
    ensures r.Ok? ==> Keys(r.value) == keys && forall k :: 0 <= k < |keys| ==> r.value[k].1 == GetOr(metadata, keys[k], VNone)
    ensures r.Err? ==> exists k :: 0 <= k < |keys| && keys[k] !in Keys(metadata) && r.exc == Builtin("KeyError", keys[k])
    decreases |keys|
  {
    if |keys| == 0 then Ok([])
    else match Get(metadata, keys[0])
      case None => Err(Builtin("KeyError", keys[0]))
      case Some(v) =>
        match CopyRequired(metadata, keys[1..])
        case Err(e) => Err(e)
        case Ok(rest) =>
          var r := [(keys[0], v)] + rest;
          KeysCons(keys[0], v, rest);
          assert keys == [keys[0]] + keys[1..];
          Ok(r)
  }

  /** `create_index_entry(metadata)` */
  function CreateIndexEntry(metadata: Dict): (r: Result<Dict>)
    ensures r.Ok? ==> Keys(r.value) == IndexKeys
  {
    var ansible := GetOr(metadata, "ansible_version", VList([]));
    match CopyRequired(metadata, RequiredKeys)
    case Err(e) => Err(e)
    case Ok(entry) =>
      match FirstOrUnknown(ansible)
      case Err(e) => Err(e)
      case Ok(a) =>
        Ok(entry + [("ansible_version", a)])
  }

  /** An index entry exists exactly when every required key is present and
      the Ansible version can be subscripted. */
  lemma {:induction false} CreateIndexEntryOk(metadata: Dict)
    ensures CreateIndexEntry(metadata).Ok? <==>
      (forall k :: 0 <= k < |RequiredKeys| ==> RequiredKeys[k] in Keys(metadata))
      && FirstOrUnknown(GetOr(metadata, "ansible_version", VList([]))).Ok?
  {
  }

  /** An index entry copies the required values and holds the first Ansible
      version or "unknown", and nothing else (in particular no
      `metadata_version`). */
  lemma {:induction false} CreateIndexEntryGet(metadata: Dict, j: string)
    requires CreateIndexEntry(metadata).Ok?
    ensures Get(CreateIndexEntry(metadata).value, j) ==
      if j in RequiredKeys then Get(metadata, j)
      else if j == "ansible_version" then Some(FirstOrUnknown(GetOr(metadata, "ansible_version", VList([]))).value)
      else None
  {
    var entry := CopyRequired(metadata, RequiredKeys).value;
    var a := FirstOrUnknown(GetOr(metadata, "ansible_version", VList([]))).value;
    assert CreateIndexEntry(metadata).value == entry + [("ansible_version", a)];
    EntryGet(metadata, entry, a, j);
  }

  /** The lookups in `entry + [("ansible_version", a)]`. */
  lemma {:induction false} EntryGet(metadata: Dict, entry: Dict, a: Value, j: string)
    requires Keys(entry) == RequiredKeys
    requires forall k :: 0 <= k < |RequiredKeys| ==> RequiredKeys[k] in Keys(metadata)
    requires forall k :: 0 <= k < |RequiredKeys| ==> entry[k].1 == GetOr(metadata, RequiredKeys[k], VNone)
    ensures Get(entry + [("ansible_version", a)], j) ==
      if j in RequiredKeys then Get(metadata, j)
      else if j == "ansible_version" then Some(a)
      else None
  {
    var r := entry + [("ansible_version", a)];
    assert forall k :: 0 <= k < 5 ==> r[k].0 == RequiredKeys[k] && Get(metadata, RequiredKeys[k]) == Some(r[k].1);
    assert j in RequiredKeys <==>
      j == RequiredKeys[0] || j == RequiredKeys[1] || j == RequiredKeys[2] || j == RequiredKeys[3] || j == RequiredKeys[4];
    assert r[1..][1..] == r[2..] && r[2..][1..] == r[3..] && r[3..][1..] == r[4..];
    assert r[4..][1..] == r[5..] && r[5..][1..] == [];
    GetFront(r, j);
    GetFront(r[1..], j);
    GetFront(r[2..], j);
    GetFront(r[3..], j);
    GetFront(r[4..], j);
    GetFront(r[5..], j);
  }

  // ----------------------------------------------------------- update_venv_index

  /** The new `venvs` index of `update_venv_index(app_paths, venv_name,
      metadata)`: the entry for the name, written into the loaded index. */
  function UpdateVenvIndex(index: Dict, venvName: string, metadata: Dict): (r: Result<Dict>)
    ensures r.Ok? <==> CreateIndexEntry(metadata).Ok?
  {
    match CreateIndexEntry(metadata)
    case Err(e) => Err(e)
    case Ok(entry) => Ok(Set(index, venvName, VDict(entry)))
  }

  /** Only the entry for the name changes; every other entry, and the order
      of the names, stays as it was (a new name goes last). */
  lemma {:induction false} UpdateVenvIndexGet(index: Dict, venvName: string, metadata: Dict, j: string)
    requires CreateIndexEntry(metadata).Ok?
    ensures var r := UpdateVenvIndex(index, venvName, metadata).value;
      && Get(r, j) == (if j == venvName then Some(VDict(CreateIndexEntry(metadata).value)) else Get(index, j))
      && Keys(r) == if venvName in Keys(index) then Keys(index) else Keys(index) + [venvName]
  {
    var entry := CreateIndexEntry(metadata).value;
    GetSet(index, venvName, VDict(entry), j);
    KeysSet(index, venvName, VDict(entry));
  }

  // -------------------------------------------------------------- list_all_venvs

  /** `{"venv_name": name, **info}` */
  function ListedRecord(name: string, info: Dict): Dict {
    Update([("venv_name", VStr(name))], info)
  }

  /** The records of `list_all_venvs` for a loaded index; an entry that is
      not a dict cannot be unpacked. */
  function ListAllVenvs(index: Dict): (r: Result<seq<Dict>>)
    ensures r.Ok? <==> forall k :: 0 <= k < |index| ==> index[k].1.VDict?
    ensures r.Ok? ==> |r.value| == |index|
    ensures r.Ok? ==> forall k :: 0 <= k < |index| ==> r.value[k] == ListedRecord(index[k].0, index[k].1.entries)
    decreases |index|
  {
    if |index| == 0 then Ok([])
    else match index[0].1
      case VDict(info) =>
        (match ListAllVenvs(index[1..])
         case Err(e) => Err(e)
         case Ok(rest) => Ok([ListedRecord(index[0].0, info)] + rest))
      case v => Err(Builtin("TypeError", "'" + TypeName(v) + "' object is not a mapping"))
  }

  /** A listed record carries the entry's fields and, unless the entry has
      one of its own, the index key as `venv_name`. */
  lemma {:induction false} ListedRecordGet(name: string, info: Dict, j: string)
    requires UniqueKeys(info)
    ensures Get(ListedRecord(name, info), j) ==
      if j in Keys(info) then Get(info, j) else if j == "venv_name" then Some(VStr(name)) else None
  {
    GetUpdate([("venv_name", VStr(name))], info, j);
    GetCons("venv_name", VStr(name), [], j);
  }

  /** After saving metadata under a name, listing the index gives, at the
      name's position, a record naming it, with the entry's host and without
      a `metadata_version`. */
  lemma {:induction false} ListAfterUpdate(index: Dict, venvName: string, metadata: Dict) returns (i: int)
    requires CreateIndexEntry(metadata).Ok?
    requires ListAllVenvs(UpdateVenvIndex(index, venvName, metadata).value).Ok?
    ensures var r := UpdateVenvIndex(index, venvName, metadata).value;
      0 <= i < |r| && r[i].0 == venvName
    ensures var rec := ListAllVenvs(UpdateVenvIndex(index, venvName, metadata).value).value[i];
      && Get(rec, "venv_name") == Some(VStr(venvName))
      && Get(rec, "target_host") == Get(metadata, "target_host")
      && Get(rec, "metadata_version") == None
  {
    var entry := CreateIndexEntry(metadata).value;
    var r := UpdateVenvIndex(index, venvName, metadata).value;
    i := SetPosition(index, venvName, VDict(entry));
    var rec := ListAllVenvs(r).value[i];
    assert rec == ListedRecord(venvName, entry);
    IndexEntryFields(metadata, entry);
    ListedRecordGet(venvName, entry, "venv_name");
    ListedRecordGet(venvName, entry, "target_host");
    ListedRecordGet(venvName, entry, "metadata_version");
  }

  /** The facts about an index entry the listing needs. */
  lemma {:induction false} IndexEntryFields(metadata: Dict, entry: Dict)
    requires CreateIndexEntry(metadata) == Ok(entry)
    ensures UniqueKeys(entry)
    ensures "venv_name" !in Keys(entry) && "metadata_version" !in Keys(entry)
    ensures Get(entry, "target_host") == Get(metadata, "target_host")
  {
    var ks := Keys(entry);
    assert ks == IndexKeys;
    IndexKeysDistinct();
    forall i, j | 0 <= i < j < |entry| ensures entry[i].0 != entry[j].0 {
      assert entry[i].0 == ks[i] && entry[j].0 == ks[j];
    }
    CreateIndexEntryGet(metadata, "target_host");
  }

  /** The six index keys are distinct, and neither is `venv_name` nor
      `metadata_version`. */
  lemma {:induction false} IndexKeysDistinct()
    ensures forall i, j :: 0 <= i < j < |IndexKeys| ==> IndexKeys[i] != IndexKeys[j]
    ensures "venv_name" !in IndexKeys && "metadata_version" !in IndexKeys
  {
  }

  /** Where `d[k] = v` puts the pair. */
  lemma {:induction false} SetPosition(d: Dict, k: string, v: Value) returns (i: int)
    ensures 0 <= i < |Set(d, k, v)| && Set(d, k, v)[i] == (k, v)
    decreases |d|
  {
    if |d| == 0 || d[0].0 == k {
      i := 0;
    } else {
      var j := SetPosition(d[1..], k, v);
      i := j + 1;
    }
  }

  // ------------------------------------------------------------------ filters

  /** `[v for v in venvs if keep(v)]` */
  function KeepIf(venvs: seq<Dict>, keep: Dict -> bool): (r: seq<Dict>)
    ensures |r| <= |venvs|
    ensures forall x :: multiset(r)[x] == if keep(x) then multiset(venvs)[x] else 0
    decreases |venvs|
  {
    if |venvs| == 0 then []
    else
      var rest := KeepIf(venvs[1..], keep);
      assert venvs == [venvs[0]] + venvs[1..];
      if keep(venvs[0]) then [venvs[0]] + rest else rest
  }

  /** Filtering keeps the input order: it distributes over concatenation. */
  lemma {:induction false} KeepIfAppend(a: seq<Dict>, b: seq<Dict>, keep: Dict -> bool)
    ensures KeepIf(a + b, keep) == KeepIf(a, keep) + KeepIf(b, keep)
    decreases |a|
  {
    if |a| > 0 {
      assert (a + b)[0] == a[0];
      assert (a + b)[1..] == a[1..] + b;
      KeepIfAppend(a[1..], b, keep);
    } else {
      assert a + b == b;
    }
  }

  /** `v.get("persistent", False)` is truthy. */
  predicate IsPersistent(v: Dict) {
    Truthy(GetOr(v, "persistent", VBool(false)))
  }

  /** `v.get("target_host") == target_host` */
  predicate OnHost(v: Dict, targetHost: string) {
    Get(v, "target_host") == Some(VStr(targetHost))
  }

  /** `filter_persistent_venvs(venvs)` */
  function FilterPersistentVenvs(venvs: seq<Dict>): (r: seq<Dict>)
    ensures forall x :: multiset(r)[x] == if IsPersistent(x) then multiset(venvs)[x] else 0
  {
    KeepIf(venvs, v => IsPersistent(v))
  }

  /** `filter_venvs_by_host(venvs, target_host)` */
  function FilterVenvsByHost(venvs: seq<Dict>, targetHost: string): (r: seq<Dict>)
    ensures forall x :: multiset(r)[x] == if OnHost(x, targetHost) then multiset(venvs)[x] else 0
  {
    KeepIf(venvs, v => OnHost(v, targetHost))
  }

  /** Both filters keep the order of the records they keep. */
  lemma {:induction false} FiltersKeepOrder(a: seq<Dict>, b: seq<Dict>, targetHost: string)
    ensures FilterPersistentVenvs(a + b) == FilterPersistentVenvs(a) + FilterPersistentVenvs(b)
    ensures FilterVenvsByHost(a + b, targetHost) == FilterVenvsByHost(a, targetHost) + FilterVenvsByHost(b, targetHost)
  {
    KeepIfAppend(a, b, v => IsPersistent(v));
    KeepIfAppend(a, b, v => OnHost(v, targetHost));
  }

  // --------------------------------------------------------- sort_venvs_by_date

  /** `v.get("created_at", "")` for a record whose creation time is text. */
  function CreatedAt(v: Dict): string {
    match Get(v, "created_at")
    case Some(VStr(s)) => s
    case _ => ""
  }

  /** Every creation time is text or missing, so the sort keys compare. */
  predicate DatesAreText(venvs: seq<Dict>) {
    forall k :: 0 <= k < |venvs| ==> Get(venvs[k], "created_at").None? || Get(venvs[k], "created_at").value.VStr?
  }

  /** `a` may come before `b`: oldest first, or newest first. */
  predicate Before(a: Dict, b: Dict, newestFirst: bool) {
    if newestFirst then StrLe(CreatedAt(b), CreatedAt(a)) else StrLe(CreatedAt(a), CreatedAt(b))
  }

  /** Neighbours are in order. */
  predicate Ordered(s: seq<Dict>, newestFirst: bool) {
    forall i :: 0 <= i < |s| - 1 ==> Before(s[i], s[i + 1], newestFirst)
  }

  /** Puts `x` before the first record it may precede, so records with equal
      dates keep their order. */
  function Insert(x: Dict, s: seq<Dict>, newestFirst: bool): (r: seq<Dict>)
    ensures |r| == |s| + 1 && (r[0] == x || (|s| > 0 && r[0] == s[0]))
    decreases |s|
  {
    if |s| == 0 || Before(x, s[0], newestFirst) then [x] + s
    else [s[0]] + Insert(x, s[1..], newestFirst)
  }

  /** Inserting adds the one record and loses none. */
  lemma {:induction false} InsertPermutes(x: Dict, s: seq<Dict>, newestFirst: bool)
    ensures multiset(Insert(x, s, newestFirst)) == multiset(s) + multiset{x}
    decreases |s|
  {
    if |s| > 0 && !Before(x, s[0], newestFirst) {
      InsertPermutes(x, s[1..], newestFirst);
      assert s == [s[0]] + s[1..];
    }
  }

  /** Inserting into an ordered sequence keeps it ordered. */
  lemma {:induction false} InsertOrdered(x: Dict, s: seq<Dict>, newestFirst: bool)
    requires Ordered(s, newestFirst)
    ensures Ordered(Insert(x, s, newestFirst), newestFirst)
    decreases |s|
  {
    if |s| > 0 && !Before(x, s[0], newestFirst) {
      var rest := Insert(x, s[1..], newestFirst);
      InsertOrdered(x, s[1..], newestFirst);
      StrLeTotal(CreatedAt(x), CreatedAt(s[0]));
      assert Before(s[0], rest[0], newestFirst) by {
        if rest[0] != x {
          assert Before(s[0], s[1], newestFirst);
        }
      }
      ConsOrdered(s[0], rest, newestFirst);
    }
  }

  /** A record that may precede the head of an ordered sequence extends it. */
  lemma {:induction false} ConsOrdered(a: Dict, rest: seq<Dict>, newestFirst: bool)
    requires Ordered(rest, newestFirst)
    requires |rest| > 0 ==> Before(a, rest[0], newestFirst)
    ensures Ordered([a] + rest, newestFirst)
  {
    var r := [a] + rest;
    forall i | 0 <= i < |r| - 1 ensures Before(r[i], r[i + 1], newestFirst) {
      if i > 0 {
        assert r[i] == rest[i - 1] && r[i + 1] == rest[i];
      }
    }
  }

  /** The insertion sort that stands for Python's stable `sorted`. */
  function SortByDate(venvs: seq<Dict>, newestFirst: bool): (r: seq<Dict>)
    ensures multiset(r) == multiset(venvs)
    ensures Ordered(r, newestFirst)
    decreases |venvs|
  {
    if |venvs| == 0 then []
    else
      assert venvs == [venvs[0]] + venvs[1..];
      var sorted := SortByDate(venvs[1..], newestFirst);
      InsertOrdered(venvs[0], sorted, newestFirst);
      InsertPermutes(venvs[0], sorted, newestFirst);
      Insert(venvs[0], sorted, newestFirst)
  }

  /** `sort_venvs_by_date(venvs, newest_first)`: the same records, by
      creation time, newest first when asked. */
  function SortVenvsByDate(venvs: seq<Dict>, newestFirst: bool): (r: seq<Dict>)
    requires DatesAreText(venvs)
    ensures multiset(r) == multiset(venvs)
    ensures Ordered(r, newestFirst)
  {
    SortByDate(venvs, newestFirst)
  }

  /** In a sorted result every earlier record may precede every later one,
      not just its neighbour. */
  lemma {:induction false} OrderedPairwise(s: seq<Dict>, newestFirst: bool, i: int, j: int)
    requires Ordered(s, newestFirst)
    requires 0 <= i < j < |s|
    ensures Before(s[i], s[j], newestFirst)
    decreases j - i
  {
    if j > i + 1 {
      OrderedPairwise(s, newestFirst, i + 1, j);
      if newestFirst {
        StrLeTrans(CreatedAt(s[j]), CreatedAt(s[i + 1]), CreatedAt(s[i]));
      } else {
        StrLeTrans(CreatedAt(s[i]), CreatedAt(s[i + 1]), CreatedAt(s[j]));
      }
    }
  }
}
