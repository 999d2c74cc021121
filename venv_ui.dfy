/** The text formatters for virtual environments shown in the app: status
    lines, details, lists, metadata summaries, package and collection
    lists, and error and success messages. */
module VenvUi {
  import opened Wrappers
  import opened Strings
  import opened PyData

  const PersistentIcon := "\U{1F4BE}"
  const TemporaryIcon := "\U{23F1}\U{FE0F}"
  const ErrorIcon := "\U{274C}"
  const SuccessIcon := "\U{2705}"
  const Unknown := VStr("unknown")

  /** `venv_info.get(key, "unknown")` as text. */
  function Field(info: Dict, key: string): string {
    Str(GetOr(info, key, Unknown))
  }

  /** `venv_info.get("persistent", False)` is truthy. */
  predicate IsPersistent(info: Dict) {
    Truthy(GetOr(info, "persistent", VBool(false)))
  }

  /** The icon and word a status line opens with. */
  function StatusPrefix(persistent: bool): string {
    if persistent then PersistentIcon + " Persistent " else TemporaryIcon + " Temporary "
  }

  /** `format_venv_status_line(venv_info)` */
  function FormatVenvStatusLine(info: Dict): string {
    StatusPrefix(IsPersistent(info)) + (Field(info, "venv_name") + " @ " + Field(info, "target_host"))
  }

  /** A string starts with any prefix it was built from. */
  lemma {:induction false} PrefixStarts(p: string, rest: string)
    ensures StartsWith(p + rest, p)
  {
    assert (p + rest)[..|p|] == p;
  }

  /** A string cannot start with two prefixes whose first characters differ. */
  lemma {:induction false} FirstCharExcludes(s: string, p: string, q: string)
    requires StartsWith(s, q) && |p| > 0 && |q| > 0 && p[0] != q[0]
    ensures !StartsWith(s, p)
  {
    assert s[0] == q[0];
  }

  /** The two status prefixes differ in their first character. */
  lemma {:induction false} PrefixesDiffer()
    ensures |StatusPrefix(true)| > 0 && |StatusPrefix(false)| > 0 && StatusPrefix(true)[0] != StatusPrefix(false)[0]
  {
  }

  /** The status line opens with the persistent icon and word exactly for a
      persistent venv, and with the temporary ones otherwise. */
  lemma {:induction false} StatusLineShowsPersistence(info: Dict)
    ensures StartsWith(FormatVenvStatusLine(info), StatusPrefix(true)) <==> IsPersistent(info)
    ensures StartsWith(FormatVenvStatusLine(info), StatusPrefix(false)) <==> !IsPersistent(info)
  {
    var line := FormatVenvStatusLine(info);
    var mine := StatusPrefix(IsPersistent(info));
    var other := StatusPrefix(!IsPersistent(info));
    var rest := Field(info, "venv_name") + " @ " + Field(info, "target_host");
    PrefixesDiffer();
    PrefixStarts(mine, rest);
    FirstCharExcludes(line, other, mine);
  }

  /** A missing name or host reads "unknown". */
  lemma {:induction false} StatusLineUnknown(info: Dict)
    requires "venv_name" !in Keys(info) && "target_host" !in Keys(info)
    ensures FormatVenvStatusLine(info) == StatusPrefix(IsPersistent(info)) + "unknown @ unknown"
  {
    assert Field(info, "venv_name") == "unknown";
    assert Field(info, "target_host") == "unknown";
  }

  /** `format_venv_details(venv_info)` */
  function FormatVenvDetails(info: Dict): (lines: seq<string>)
    ensures |lines| == 3
    ensures StartsWith(lines[0], "  Created: ") && StartsWith(lines[1], "  Python: ") && StartsWith(lines[2], "  Ansible: ")
  {
    var lines := ["  Created: " + Field(info, "created_at"),
                  "  Python: " + Field(info, "python_version"),
                  "  Ansible: " + Field(info, "ansible_version")];
    assert StartsWith(lines[0], "  Created: ") && StartsWith(lines[1], "  Python: ");
    lines
  }

  /** Each detail line shows its field, or "unknown" when it is missing. */
  lemma {:induction false} DetailsDefaultToUnknown(info: Dict)
    ensures var lines := FormatVenvDetails(info);
      && lines[0][|"  Created: "|..] == (if "created_at" in Keys(info) then Str(Get(info, "created_at").value) else "unknown")
      && lines[1][|"  Python: "|..] == (if "python_version" in Keys(info) then Str(Get(info, "python_version").value) else "unknown")
      && lines[2][|"  Ansible: "|..] == (if "ansible_version" in Keys(info) then Str(Get(info, "ansible_version").value) else "unknown")
  {
  }

  /** `format_venv_entry(venv_info)`: the status line and the three details. */
  function FormatVenvEntry(info: Dict): string {
    Join("\n", [FormatVenvStatusLine(info)] + FormatVenvDetails(info))
  }

  const DefaultListTitle := "\U{1F4E6} Virtual Environments:"
  const NoVenvs := "No virtual environments found."

  /** `"-" * 50` */
  function Dashes(n: nat): (r: string)
    ensures |r| == n && forall i :: 0 <= i < n ==> r[i] == '-'
  {
    seq(n, i => '-')
  }

  /** The rule under the title. */
  const Rule := Dashes(50)

  /** The entry of each venv, in order. */
  function Entries(venvs: seq<Dict>): seq<string> {
    seq(|venvs|, i requires 0 <= i < |venvs| => FormatVenvEntry(venvs[i]))
  }

  /** The sections after the title and the rule: an empty line, then the
      entry, for each entry. */
  function Interleave(entries: seq<string>): seq<string>
    decreases |entries|
  {
    if |entries| == 0 then []
    else Interleave(entries[..|entries| - 1]) + ["", entries[|entries| - 1]]
  }

  /** Each entry contributes an empty line and then itself, in order. */
  lemma {:induction false} InterleaveAt(entries: seq<string>)
    ensures |Interleave(entries)| == 2 * |entries|
    ensures forall i :: 0 <= i < |entries| ==> Interleave(entries)[2 * i] == "" && Interleave(entries)[2 * i + 1] == entries[i]
    decreases |entries|
  {
    if |entries| > 0 {
      var last := |entries| - 1;
      var init := entries[..last];
      InterleaveAt(init);
      var prev := Interleave(init);
      var all := Interleave(entries);
      assert all == prev + ["", entries[last]];
      forall i | 0 <= i < |entries| ensures all[2 * i] == "" && all[2 * i + 1] == entries[i] {
        if i < last {
          assert init[i] == entries[i];
          assert all[2 * i] == prev[2 * i] && all[2 * i + 1] == prev[2 * i + 1];
        }
      }
    }
  }

  lemma {:induction false} SeqAssoc<T>(a: seq<T>, b: seq<T>, c: seq<T>)
    ensures (a + b) + c == a + (b + c)
  {
  }

  /** One more entry adds an empty line and the entry. */
  lemma {:induction false} InterleaveStep(entries: seq<string>, i: nat)
    requires i < |entries|
    ensures Interleave(entries[..i + 1]) == Interleave(entries[..i]) + ["", entries[i]]
  {
    assert entries[..i + 1][..i] == entries[..i];
  }

  /** What `format_venv_list(venvs, title)` returns. */
  function VenvListText(venvs: seq<Dict>, title: string): string {
    if |venvs| == 0 then title + "\n" + NoVenvs
    else Join("\n", [title, Rule] + Interleave(Entries(venvs)))
  }

  /** `format_venv_list(venvs, title)` */
  method FormatVenvList(venvs: seq<Dict>, title: string) returns (r: string)
    ensures r == VenvListText(venvs, title)
  {
    if |venvs| == 0 {
      return title + "\n" + NoVenvs;
    }
    ghost var entries := Entries(venvs);
    var sections := [title, Rule];
    var i := 0;
    while i < |venvs|
      invariant 0 <= i <= |venvs|
      invariant sections == [title, Rule] + Interleave(entries[..i])
    {
      var entry := FormatVenvEntry(venvs[i]);
      assert entry == entries[i];
      InterleaveStep(entries, i);
      ghost var before := sections;
      sections := sections + [""];
      sections := sections + [entry];
      assert sections == before + ["", entry];
      SeqAssoc([title, Rule], Interleave(entries[..i]), ["", entry]);
      i := i + 1;
    }
    assert entries[..i] == entries;
    r := Join("\n", sections);
  }

  /** The title and the rule followed by the interleaved entries. */
  lemma {:induction false} SectionsAt(title: string, rule: string, entries: seq<string>) returns (sections: seq<string>)
    ensures sections == [title, rule] + Interleave(entries)
    ensures |sections| == 2 + 2 * |entries|
    ensures forall i :: 0 <= i < |entries| ==> sections[2 + 2 * i] == "" && sections[3 + 2 * i] == entries[i]
  {
    InterleaveAt(entries);
    var inter := Interleave(entries);
    sections := [title, rule] + inter;
    forall i | 0 <= i < |entries| ensures sections[2 + 2 * i] == "" && sections[3 + 2 * i] == entries[i] {
      assert sections[2 + 2 * i] == inter[2 * i];
      assert sections[3 + 2 * i] == inter[2 * i + 1];
    }
  }

  /** An empty list gives the title and "No virtual environments found.";
      otherwise the title, the rule of 50 dashes, and each entry after an
      empty line, in order, joined by line breaks. */
  lemma {:induction false} VenvListSections(venvs: seq<Dict>, title: string) returns (sections: seq<string>)
    ensures |venvs| == 0 ==> VenvListText(venvs, title) == title + "\n" + NoVenvs
    ensures |venvs| > 0 ==> VenvListText(venvs, title) == Join("\n", sections)
    ensures |sections| == 2 + 2 * |venvs| && sections[0] == title && sections[1] == Rule
    ensures forall i :: 0 <= i < |venvs| ==> sections[2 + 2 * i] == "" && sections[3 + 2 * i] == FormatVenvEntry(venvs[i])
  {
    var entries := Entries(venvs);
    sections := SectionsAt(title, Rule, entries);
    forall i | 0 <= i < |venvs| ensures sections[3 + 2 * i] == FormatVenvEntry(venvs[i]) {
      assert sections[3 + 2 * i] == entries[i];
    }
  }

  /** `len(v)` for the values `len` accepts. The values measured here come
      from JSON metadata, which never holds bytes, so a pickle is not
      measured. */
  function Len(v: Value): Result<nat> {
    match v
    case VStr(s) => Ok(|s|)
    case VList(xs) => Ok(|xs|)
    case VDict(d) => Ok(|d|)
    case _ => Err(Builtin("TypeError", "object of type '" + TypeName(v) + "' has no len()"))
  }

  /** `format_metadata_summary(metadata)`: the name, the path and the
      numbers of packages and collections (0 when missing). */
  function FormatMetadataSummary(metadata: Dict): (r: Result<string>)
    ensures r.Ok? <==> Len(GetOr(metadata, "pip_packages", VList([]))).Ok? && Len(GetOr(metadata, "ansible_collections", VDict([]))).Ok?
  {
    match Len(GetOr(metadata, "pip_packages", VList([])))
    case Err(e) => Err(e)
    case Ok(pip) =>
      match Len(GetOr(metadata, "ansible_collections", VDict([])))
      case Err(e) => Err(e)
      case Ok(collections) =>
        Ok("Virtual Environment: " + Field(metadata, "venv_name") + "\n"
           + "Path: " + Field(metadata, "venv_path") + "\n"
           + "Python packages: " + NatToString(pip) + "\n"
           + "Ansible collections: " + NatToString(collections) + "\n")
  }

  /** The counts are the lengths of the package list and the collection
      dict, and 0 when they are missing. */
  lemma {:induction false} MetadataSummaryCounts(metadata: Dict, packages: seq<Value>, collections: Dict)
    requires GetOr(metadata, "pip_packages", VList([])) == VList(packages)
    requires GetOr(metadata, "ansible_collections", VDict([])) == VDict(collections)
    ensures FormatMetadataSummary(metadata) == Ok(
      "Virtual Environment: " + Field(metadata, "venv_name") + "\n"
      + "Path: " + Field(metadata, "venv_path") + "\n"
      + "Python packages: " + NatToString(|packages|) + "\n"
      + "Ansible collections: " + NatToString(|collections|) + "\n")
    ensures "pip_packages" !in Keys(metadata) ==> |packages| == 0
    ensures "ansible_collections" !in Keys(metadata) ==> |collections| == 0
  {
  }

  /** One "  - name" line per package. */
  function PackageLines(packages: seq<string>): seq<string> {
    seq(|packages|, i requires 0 <= i < |packages| => "  - " + packages[i])
  }

  /** `xs[:k]` for any integer `k`: a negative bound counts from the end. */
  function SliceTo<T>(xs: seq<T>, k: int): (r: seq<T>)
    ensures 0 <= k <= |xs| ==> r == xs[..k]
    ensures |r| <= |xs|
  {
    if k >= 0 then xs[..if k < |xs| then k else |xs|]
    else if |xs| + k > 0 then xs[..|xs| + k]
    else []
  }

  const NoneInstalled := "  None installed"

  /** The "... and N more" line. */
  function MoreLine(n: int): string {
    "  ... and " + IntToString(n) + " more"
  }

  /** `format_package_list(packages, max_items)` */
  function FormatPackageList(packages: seq<string>, maxItems: int): string {
    if |packages| == 0 then NoneInstalled
    else if |packages| <= maxItems then Join("\n", PackageLines(packages))
    else Join("\n", PackageLines(SliceTo(packages, maxItems))) + "\n" + MoreLine(|packages| - maxItems)
  }

  /** An empty list reads "  None installed"; up to `max_items` packages are
      all listed; past it, the first `max_items` are listed and the last
      line counts the rest, so the listed and the counted packages add up to
      all of them. */
  lemma {:induction false} FormatPackageListTruncates(packages: seq<string>, maxItems: int)
    ensures |packages| == 0 ==> FormatPackageList(packages, maxItems) == NoneInstalled
    ensures 0 < |packages| <= maxItems ==> FormatPackageList(packages, maxItems) == Join("\n", PackageLines(packages))
    ensures 0 < maxItems < |packages| ==>
      FormatPackageList(packages, maxItems) == Join("\n", PackageLines(packages[..maxItems]) + [MoreLine(|packages| - maxItems)])
      && |packages[..maxItems]| + (|packages| - maxItems) == |packages|
  {
    if 0 < maxItems < |packages| {
      var shown := PackageLines(packages[..maxItems]);
      assert |shown| == maxItems;
      JoinSnoc("\n", shown, MoreLine(|packages| - maxItems));
    }
  }

  /** With no line breaks in the names, the listed lines can be split back
      out: one per shown package, then the count line. */
  lemma {:induction false} PackageListLines(packages: seq<string>, maxItems: int)
    requires 0 < maxItems < |packages|
    requires forall k :: 0 <= k < |packages| ==> '\n' !in packages[k]
    ensures SplitOn(FormatPackageList(packages, maxItems), '\n') == PackageLines(packages[..maxItems]) + [MoreLine(|packages| - maxItems)]
  {
    FormatPackageListTruncates(packages, maxItems);
    var lines := PackageLines(packages[..maxItems]) + [MoreLine(|packages| - maxItems)];
    forall k | 0 <= k < |lines| ensures '\n' !in lines[k] {
      if k < maxItems {
        assert lines[k] == "  - " + packages[k];
      } else {
        var n := |packages| - maxItems;
        assert IntToString(n) == NatToString(n);
        assert lines[k] == "  ... and " + NatToString(n) + " more";
      }
    }
    SplitOnJoin(lines, '\n');
  }

  /** `format_collection_dict(collections)` */
  function FormatCollectionDict(collections: Dict): (r: string)
    ensures |collections| == 0 ==> r == NoneInstalled
  {
    if |collections| == 0 then NoneInstalled
    else Join("\n", seq(|collections|, i requires 0 <= i < |collections| => "  - " + collections[i].0 + ": " + Str(collections[i].1)))
  }

  /** A non-empty collection dict gives one "  - name: version" line per
      entry, in order. */
  lemma {:induction false} CollectionDictLines(collections: Dict)
    requires |collections| > 0
    requires forall k :: 0 <= k < |collections| ==> '\n' !in collections[k].0 + ": " + Str(collections[k].1)
    ensures var lines := SplitOn(FormatCollectionDict(collections), '\n');
      && |lines| == |collections|
      && forall k :: 0 <= k < |collections| ==> lines[k] == "  - " + collections[k].0 + ": " + Str(collections[k].1)
  {
    var lines := seq(|collections|, i requires 0 <= i < |collections| => "  - " + collections[i].0 + ": " + Str(collections[i].1));
    forall k | 0 <= k < |lines| ensures '\n' !in lines[k] {
      assert lines[k] == "  - " + (collections[k].0 + ": " + Str(collections[k].1));
    }
    SplitOnJoin(lines, '\n');
  }

  /** `format_error_message(operation, error)` */
  function FormatErrorMessage(operation: string, error: Exc): string {
    ErrorIcon + " " + operation + " failed: " + ExcText(error)
  }

  /** The error message names the operation and ends with `str(error)`. */
  lemma {:induction false} ErrorMessageParts(operation: string, error: Exc)
    ensures var m := FormatErrorMessage(operation, error);
      && StartsWith(m, ErrorIcon + " " + operation + " failed: ")
      && m[|m| - |ExcText(error)|..] == ExcText(error)
  {
    var m := FormatErrorMessage(operation, error);
    assert m == (ErrorIcon + " " + operation + " failed: ") + ExcText(error);
  }

  /** A missing key is reported with its quotes, as `str(KeyError(key))`
      prints it. */
  lemma {:induction false} KeyErrorMessage()
    ensures FormatErrorMessage("Load", Builtin("KeyError", "venv")) == ErrorIcon + " Load failed: 'venv'"
  {
    assert ExcText(Builtin("KeyError", "venv")) == "'venv'";
  }

  /** `format_success_message(operation, details)` */
  function FormatSuccessMessage(operation: string, details: string): string {
    var base := SuccessIcon + " " + operation + " completed successfully";
    if details != "" then base + ": " + details else base
  }

  /** The details are appended after ": " only when there are some, and can
      be read back from the message. */
  lemma {:induction false} SuccessMessageDetails(operation: string, details: string)
    ensures var base := SuccessIcon + " " + operation + " completed successfully";
      var m := FormatSuccessMessage(operation, details);
      && (details == "" ==> m == base)
      && (details != "" ==> StartsWith(m, base + ": ") && m[|base| + 2..] == details)
  {
    var base := SuccessIcon + " " + operation + " completed successfully";
    if details != "" {
      assert FormatSuccessMessage(operation, details) == (base + ": ") + details;
    }
  }
}
