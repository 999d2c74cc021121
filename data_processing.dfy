/** The pure command-string, result and log helpers of `data_processing.py`:
    parsing a shell command, pulling out Ansible's temporary directory,
    shaping Ansible results and plays, parsing public keys, classifying log
    lines and tallying test output. */
module DataProcessing {
  import opened Wrappers
  import opened Strings
  import opened PyData

  // ------------------------------------------------------- parse_command_args

  /** The argument of `parse_command_args`: a list (or tuple) of arguments,
      or a single string. */
  datatype CommandArgs = ArgList(items: seq<string>) | ArgString(text: string)

  /** The flags computed for a non-empty command. */
  datatype CommandFlags = CommandFlags(isAnsibleModule: bool, isMkdir: bool, isEcho: bool,
                                       isTest: bool, isWhich: bool, isChmod: bool)

  /** The parsed command: the command text, the argument list, and the flags,
      which are absent for empty arguments. */
  datatype ParsedCommand = ParsedCommand(command: string, args: seq<string>, flags: Option<CommandFlags>)

  predicate IsEmptyArgs(a: CommandArgs) {
    match a
    case ArgList(xs) => |xs| == 0
    case ArgString(s) => |s| == 0
  }

  /** `cmd.startswith(("echo ~", "echo $HOME", 'echo "$(pwd)"'))` */
  predicate IsEchoCommand(cmd: string) {
    StartsWith(cmd, "echo ~") || StartsWith(cmd, "echo $HOME") || StartsWith(cmd, "echo \"$(pwd)\"")
  }

  /** `any(cmd.startswith(f"test {flag}") for flag in ["-e", "-f", "-d"])` */
  predicate IsTestCommand(cmd: string) {
    StartsWith(cmd, "test -e") || StartsWith(cmd, "test -f") || StartsWith(cmd, "test -d")
  }

  /** `parse_command_args(args)` */
  function ParseCommandArgs(a: CommandArgs): (r: ParsedCommand)
    ensures IsEmptyArgs(a) <==> r.flags.None?
    ensures IsEmptyArgs(a) ==> r.command == "" && r.args == []
    ensures a.ArgList? ==> r.args == a.items && r.command == Join(" ", a.items)
    ensures a.ArgString? && !IsEmptyArgs(a) ==> r.args == [a.text] && r.command == a.text
  {
    if IsEmptyArgs(a) then ParsedCommand("", [], None)
    else
      var cmd := match a case ArgList(xs) => Join(" ", xs) case ArgString(s) => s;
      var args := match a case ArgList(xs) => xs case ArgString(s) => [s];
      ParsedCommand(cmd, args, Some(CommandFlags(
        Contains(cmd, "AnsiballZ_ping.py"),
        Contains(cmd, "mkdir -p"),
        IsEchoCommand(cmd),
        IsTestCommand(cmd),
        Contains(cmd, "which "),
        Contains(cmd, "chmod "))))
  }

  /** A list of space-free arguments is recovered by splitting the command at
      its spaces. */
  lemma {:induction false} ParseCommandArgsSplits(xs: seq<string>)
    requires |xs| > 0
    requires forall k :: 0 <= k < |xs| ==> ' ' !in xs[k]
    ensures SplitOn(ParseCommandArgs(ArgList(xs)).command, ' ') == xs
  {
    SplitOnJoin(xs, ' ');
  }

  /** The substring flags hold exactly when the text occurs somewhere in the
      command, and the prefix flags are never both set. */
  lemma {:induction false} ParseCommandFlags(a: CommandArgs)
    requires !IsEmptyArgs(a)
    ensures var r := ParseCommandArgs(a);
      && (r.flags.value.isMkdir <==> exists i :: OccursAt(r.command, "mkdir -p", i))
      && (r.flags.value.isWhich <==> exists i :: OccursAt(r.command, "which ", i))
      && (r.flags.value.isChmod <==> exists i :: OccursAt(r.command, "chmod ", i))
      && (r.flags.value.isAnsibleModule <==> exists i :: OccursAt(r.command, "AnsiballZ_ping.py", i))
      && !(r.flags.value.isEcho && r.flags.value.isTest)
  {
    var cmd := ParseCommandArgs(a).command;
    ContainsIff(cmd, "mkdir -p");
    ContainsIff(cmd, "which ");
    ContainsIff(cmd, "chmod ");
    ContainsIff(cmd, "AnsiballZ_ping.py");
    if IsEchoCommand(cmd) {
      assert cmd[0] == 'e';
    }
  }

  // ------------------------------------------------- extract_ansible_temp_dir

  const TempMarker := "ansible-tmp-"

  /** The index of the first field holding `t`, if any. */
  function FirstHolding(fields: seq<string>, t: string): (r: Option<nat>)
    ensures r.Some? ==> r.value < |fields| && Contains(fields[r.value], t)
    ensures r.Some? ==> forall k :: 0 <= k < r.value ==> !Contains(fields[k], t)
    ensures r.None? ==> forall k :: 0 <= k < |fields| ==> !Contains(fields[k], t)
    decreases |fields|
  {
    if |fields| == 0 then None
    else if Contains(fields[0], t) then Some(0)
    else match FirstHolding(fields[1..], t)
      case None => None
      case Some(k) => Some(k + 1)
  }

  /** What `extract_ansible_temp_dir` returns: the last "/"-segment of the
      first whitespace-separated token that holds the marker. */
  function TempDirOf(command: string): Option<string> {
    if !Contains(command, TempMarker) then None
    else
      var parts := SplitWhitespace(command, None);
      match FirstHolding(parts, TempMarker)
      case None => None
      case Some(k) => Some(LastField(parts[k], '/'))
  }

  /** `extract_ansible_temp_dir(command)` */
  method ExtractAnsibleTempDir(command: string) returns (r: Option<string>)
    ensures r == TempDirOf(command)
  {
    if !Contains(command, TempMarker) {
      return None;
    }
    var parts := SplitWhitespace(command, None);
    var i := 0;
    while i < |parts|
      invariant 0 <= i <= |parts|
      invariant forall k :: 0 <= k < i ==> !Contains(parts[k], TempMarker)
    {
      var part := parts[i];
      if Contains(part, TempMarker) {
        assert FirstHolding(parts, TempMarker) == Some(i);
        if '/' in part {
          var fields := SplitOn(part, '/');
          return Some(fields[|fields| - 1]);
        }
        LastFieldIsSuffix(part, '/');
        return Some(part);
      }
      i := i + 1;
    }
    return None;
  }

  /** The directory is found exactly when the command holds the marker: the
      final `return None` is never reached, because the marker holds no
      whitespace and so lies inside one token. */
  lemma {:induction false} TempDirFoundIff(command: string)
    ensures TempDirOf(command).None? <==> !Contains(command, TempMarker)
  {
    if Contains(command, TempMarker) {
      var parts := SplitWhitespace(command, None);
      ContainsIff(command, TempMarker);
      var i :| OccursAt(command, TempMarker, i);
      OccurrenceInField(command, TempMarker, i);
      var k, j :| 0 <= k < |parts| && OccursAt(parts[k], TempMarker, j);
      ContainsIff(parts[k], TempMarker);
      assert FirstHolding(parts, TempMarker).Some?;
    }
  }

  /** A found directory is the last "/"-segment of a whitespace-separated
      token holding the marker, so it holds neither "/" nor whitespace. */
  lemma {:induction false} TempDirShape(command: string)
    requires TempDirOf(command).Some?
    ensures var d := TempDirOf(command).value;
      var parts := SplitWhitespace(command, None);
      && '/' !in d
      && NoSpace(d)
      && exists k :: 0 <= k < |parts| && Contains(parts[k], TempMarker) && d == LastField(parts[k], '/')
  {
    var parts := SplitWhitespace(command, None);
    var f := FirstHolding(parts, TempMarker).value;
    var d := LastField(parts[f], '/');
    assert TempDirOf(command) == Some(d);
    FieldNoSpace(command, f);
    LastFieldIsSuffix(parts[f], '/');
    SuffixNoSpace(parts[f], d);
  }

  /** Each whitespace-separated token is free of whitespace. */
  lemma {:induction false} FieldNoSpace(command: string, f: int)
    requires 0 <= f < |SplitWhitespace(command, None)|
    ensures NoSpace(SplitWhitespace(command, None)[f])
  {
    SplitWhitespaceFields(command, None);
  }

  /** A suffix of space-free text is space-free. */
  lemma {:induction false} SuffixNoSpace(s: string, d: string)
    requires NoSpace(s)
    requires |d| <= |s| && d == s[|s| - |d|..]
    ensures NoSpace(d)
  {
    forall p | 0 <= p < |d| ensures !IsSpace(d[p]) {
      assert d[p] == s[|s| - |d| + p];
    }
  }

  // ------------------------------------------------ build_ansible_module_path

  /** The file the pattern `(/[^\s]+/AnsiballZ_ping\.py)` ends with. */
  const ModuleFile := "/AnsiballZ_ping.py"

  /** The module file starts at `q`. */
  predicate FileAt(s: string, q: int) {
    0 <= q && q + |ModuleFile| <= |s| && s[q..q + |ModuleFile|] == ModuleFile
  }

  /** The pattern matches at `p` with its file part at `q`: a "/", at least
      one non-whitespace character, then the module file. */
  ghost predicate ModuleMatch(s: string, p: int, q: int) {
    0 <= p && p + 2 <= q && FileAt(s, q) && s[p] == '/' && NoSpace(s[p + 1..q])
  }

  /** The end of the run of non-whitespace characters starting at `i`. */
  function RunEnd(s: string, i: nat): (e: nat)
    requires i <= |s|
    ensures i <= e <= |s| && NoSpace(s[i..e]) && (e < |s| ==> IsSpace(s[e]))
    decreases |s| - i
  {
    if i == |s| || IsSpace(s[i]) then i
    else
      var e := RunEnd(s, i + 1);
      assert s[i..e] == [s[i]] + s[i + 1..e];
      e
  }

  /** The last place in `lo..hi` where the module file starts. */
  function LastFileAt(s: string, lo: nat, hi: int): (r: Option<nat>)
    requires hi + |ModuleFile| <= |s|
    ensures r.Some? ==> lo <= r.value <= hi && FileAt(s, r.value)
    ensures r.Some? ==> forall q :: r.value < q <= hi ==> !FileAt(s, q)
    ensures r.None? ==> forall q :: lo <= q <= hi ==> !FileAt(s, q)
    decreases hi - lo
  {
    if hi < lo then None
    else if FileAt(s, hi) then Some(hi)
    else LastFileAt(s, lo, hi - 1)
  }

  /** The greedy file position of a match starting at `p`, if one does. */
  function MatchAt(s: string, p: nat): Option<nat>
    requires p < |s|
  {
    if s[p] == '/' && RunEnd(s, p + 1) >= p + 2 + |ModuleFile| then
      LastFileAt(s, p + 2, RunEnd(s, p + 1) - |ModuleFile|)
    else None
  }

  /** The leftmost match starting at or after `p`, with the greedy (last)
      file position, as Python's `re.search` finds it. */
  function MatchFrom(s: string, p: nat): Option<(nat, nat)>
    decreases |s| - p
  {
    if p >= |s| then None
    else match MatchAt(s, p)
      case Some(q) => Some((p, q))
      case None => MatchFrom(s, p + 1)
  }

  /** `build_ansible_module_path(command)` */
  function BuildAnsibleModulePath(command: string): Option<string> {
    match MatchFrom(command, 0)
    case Some((p, q)) => if p <= q + |ModuleFile| <= |command| then Some(command[p..q + |ModuleFile|]) else None
    case None => None
  }

  /** The module file holds no whitespace. */
  lemma {:induction false} ModuleFileNoSpace()
    ensures NoSpace(ModuleFile)
  {
  }

  /** With the file at `q`, the characters between the leading "/" and the
      file are free of whitespace exactly when the file ends within the
      non-whitespace run after the "/". */
  lemma {:induction false} MatchWithinRun(s: string, p: nat, q: int)
    requires p + 2 <= q && FileAt(s, q)
    ensures NoSpace(s[p + 1..q]) <==> q + |ModuleFile| <= RunEnd(s, p + 1)
  {
    if NoSpace(s[p + 1..q]) {
      ModuleFileNoSpace();
    }
    if q + |ModuleFile| <= RunEnd(s, p + 1) {
      PrefixNoSpace(s, p + 1, q, RunEnd(s, p + 1));
    }
  }

  /** A stretch inside a whitespace-free stretch is whitespace-free. */
  lemma {:induction false} PrefixNoSpace(s: string, i: int, j: int, e: int)
    requires 0 <= i <= j <= e <= |s|
    requires NoSpace(s[i..e])
    ensures NoSpace(s[i..j])
  {
    var u := s[i..j];
    var w := s[i..e];
    forall k | 0 <= k < |u| ensures !IsSpace(u[k]) {
      assert u[k] == s[i + k] == w[k];
    }
  }

  /** No match starts at `i`. */
  ghost predicate NoMatchAt(s: string, i: int) {
    forall q :: !ModuleMatch(s, i, q)
  }

  /** The match at `p` ending its file part at `q` is the longest one. */
  ghost predicate Greedy(s: string, p: int, q: int) {
    forall q' :: q < q' ==> !ModuleMatch(s, p, q')
  }

  /** The scan at one position finds a match there, with the greedy file
      position, exactly when there is one. */
  lemma {:induction false} MatchAtSpec(s: string, p: nat)
    requires p < |s|
    ensures MatchAt(s, p).Some? ==> ModuleMatch(s, p, MatchAt(s, p).value) && Greedy(s, p, MatchAt(s, p).value)
    ensures MatchAt(s, p).None? ==> NoMatchAt(s, p)
  {
    if MatchAt(s, p).Some? {
      var q := MatchAt(s, p).value;
      MatchWithinRun(s, p, q);
      forall q' | q < q' ensures !ModuleMatch(s, p, q') {
        if ModuleMatch(s, p, q') {
          MatchWithinRun(s, p, q');
        }
      }
    } else {
      forall q ensures !ModuleMatch(s, p, q) {
        if ModuleMatch(s, p, q) {
          MatchWithinRun(s, p, q);
        }
      }
    }
  }

  /** No match starts at or past the end of the command. */
  lemma {:induction false} NoMatchPastEnd(s: string, i: int)
    requires i >= |s|
    ensures NoMatchAt(s, i)
  {
  }

  /** The scan from `p` finds the leftmost match at or after `p`, with the
      greedy file position, and finds nothing when there is none. */
  lemma {:induction false} MatchFromSpec(s: string, p: nat)
    ensures MatchFrom(s, p).Some? ==>
      var (i, q) := MatchFrom(s, p).value;
      && p <= i && ModuleMatch(s, i, q) && Greedy(s, i, q)
      && forall j :: p <= j < i ==> NoMatchAt(s, j)
    ensures MatchFrom(s, p).None? ==> forall j :: p <= j ==> NoMatchAt(s, j)
    decreases |s| - p
  {
    if p >= |s| {
      forall j | p <= j ensures NoMatchAt(s, j) {
        NoMatchPastEnd(s, j);
      }
    } else {
      MatchAtSpec(s, p);
      if MatchAt(s, p).None? {
        MatchFromSpec(s, p + 1);
      }
    }
  }

  /** A module path is the leftmost match of the pattern, with the longest
      directory part; no path is found exactly when the pattern matches
      nowhere. */
  lemma {:induction false} BuildAnsibleModulePathSpec(command: string) returns (p: int, q: int)
    ensures BuildAnsibleModulePath(command).None? <==> forall i :: NoMatchAt(command, i)
    ensures BuildAnsibleModulePath(command).Some? ==>
      && ModuleMatch(command, p, q)
      && BuildAnsibleModulePath(command).value == command[p..q + |ModuleFile|]
      && (forall i :: i < p ==> NoMatchAt(command, i))
      && Greedy(command, p, q)
  {
    MatchFromSpec(command, 0);
    var r := MatchFrom(command, 0);
    p, q := 0, 0;
    if r.Some? {
      p, q := r.value.0, r.value.1;
      assert FileAt(command, q) && p + 2 <= q;
      assert !NoMatchAt(command, p);
    }
    forall i | i < 0 ensures NoMatchAt(command, i) {
      NoMatchBeforeStart(command, i);
    }
  }

  /** No match starts before the command. */
  lemma {:induction false} NoMatchBeforeStart(s: string, i: int)
    requires i < 0
    ensures NoMatchAt(s, i)
  {
  }

  /** A found path starts with "/", ends with the module file and holds no
      whitespace. */
  lemma {:induction false} ModulePathShape(command: string)
    requires BuildAnsibleModulePath(command).Some?
    ensures var path := BuildAnsibleModulePath(command).value;
      && |path| >= 2 + |ModuleFile| && path[0] == '/' && NoSpace(path)
      && path[|path| - |ModuleFile|..] == ModuleFile
  {
    var p, q := BuildAnsibleModulePathSpec(command);
    var path := command[p..q + |ModuleFile|];
    ModuleFileNoSpace();
    assert path[0] == command[p];
    forall i | 0 <= i < |path| ensures !IsSpace(path[i]) {
      if i == 0 {
      } else if i < q - p {
        assert path[i] == command[p + 1..q][i - 1];
      } else {
        assert path[i] == ModuleFile[i - (q - p)];
      }
    }
    assert path[|path| - |ModuleFile|..] == command[q..q + |ModuleFile|];
  }

  // ---------------------------------------------------- format_ansible_result

  /** `format_ansible_result(success, message, **kwargs)` */
  function FormatAnsibleResult(success: bool, message: string, kwargs: Dict): Dict {
    var base := [("changed", VBool(false)), ("ping", VStr(if success then "pong" else "failed"))]
      + (if success then [] else [("failed", VBool(true)), ("msg", VStr(message))]);
    Update(base, kwargs)
  }

  /** Each key of the result: keyword arguments win; otherwise `changed` is
      False, `ping` is "pong" or "failed", and `failed`/`msg` are present
      only on failure. */
  lemma {:induction false} FormatAnsibleResultGet(success: bool, message: string, kwargs: Dict, j: string)
    requires UniqueKeys(kwargs)
    ensures Get(FormatAnsibleResult(success, message, kwargs), j) ==
      if j in Keys(kwargs) then Get(kwargs, j)
      else if j == "changed" then Some(VBool(false))
      else if j == "ping" then Some(VStr(if success then "pong" else "failed"))
      else if j == "failed" && !success then Some(VBool(true))
      else if j == "msg" && !success then Some(VStr(message))
      else None
  {
    var tail: Dict := if success then [] else [("failed", VBool(true)), ("msg", VStr(message))];
    if !success {
      GetCons("msg", VStr(message), [], j);
      GetCons("failed", VBool(true), [("msg", VStr(message))], j);
      assert tail == [("failed", VBool(true))] + [("msg", VStr(message))];
    }
    assert Get(tail, j) == if j == "failed" && !success then Some(VBool(true))
      else if j == "msg" && !success then Some(VStr(message)) else None;
    var ping := VStr(if success then "pong" else "failed");
    GetCons("ping", ping, tail, j);
    GetCons("changed", VBool(false), [("ping", ping)] + tail, j);
    assert [("changed", VBool(false)), ("ping", ping)] + tail
        == [("changed", VBool(false))] + ([("ping", ping)] + tail);
    GetUpdate([("changed", VBool(false)), ("ping", ping)] + tail, kwargs, j);
  }

  // ------------------------------------------------- transform_inventory_data

  /** The structured inventory: one group, the host count and the group count. */
  datatype InventoryData = InventoryData(groups: seq<(string, seq<string>)>, totalHosts: nat, groupCount: nat)

  /** `transform_inventory_data(inventory_hosts, group_name)` */
  function TransformInventoryData(hosts: seq<string>, groupName: string): (r: InventoryData)
    ensures r.groups == [(groupName, hosts)]
    ensures r.totalHosts == |hosts|
    ensures r.groupCount == 1 <==> |hosts| > 0
    ensures r.groupCount == 0 <==> |hosts| == 0
  {
    InventoryData([(groupName, hosts)], |hosts|, if |hosts| > 0 then 1 else 0)
  }

  // -------------------------------------------------- parse_public_key_string

  /** The parts of an SSH public key line. */
  datatype PublicKey = PublicKey(algorithm: string, key: string, comment: string, isValid: bool)

  /** `parse_public_key_string(public_key_content)` */
  function ParsePublicKey(content: string): (r: PublicKey)
    ensures !r.isValid ==> r == PublicKey("", "", "", false)
    ensures r.isValid <==> |SplitWhitespace(Strip(content), Some(2))| >= 2
  {
    var parts := SplitWhitespace(Strip(content), Some(2));
    if |parts| < 2 then PublicKey("", "", "", false)
    else PublicKey(parts[0], parts[1], if |parts| > 2 then parts[2] else "", true)
  }

  /** `s.strip()` leaves text alone that begins and ends with a non-space. */
  lemma {:induction false} StripNonSpaceEnds(s: string)
    requires |s| > 0 && !IsSpace(s[0]) && !IsSpace(s[|s| - 1])
    ensures Strip(s) == s
  {
  }

  /** `s.split(None, maxsplit)` of text that, past its leading whitespace,
      is a space-free word followed by whitespace (or nothing): the word,
      then the split of the rest. */
  lemma {:induction false} SplitFirstWord(s: string, a: string, rest: string, m: nat)
    requires StripLeft(s) == a + rest
    requires |a| > 0 && NoSpace(a) && (rest == [] || IsSpace(rest[0]))
    ensures SplitWhitespace(s, Some(m + 1)) == [a] + SplitWhitespace(rest, Some(m))
  {
    WordOf(a, rest);
    assert (a + rest)[|a|..] == rest;
  }

  /** `lstrip` of one space before text that starts with a non-space. */
  lemma {:induction false} StripLeftOneSpace(r: string, s: string)
    requires r == " " + s && s != [] && !IsSpace(s[0])
    ensures StripLeft(r) == s
  {
    assert r[1..] == s;
  }

  /** The key line "algorithm key [comment]". */
  function KeyLine(algorithm: string, key: string, comment: string): string {
    algorithm + (" " + (key + (if comment == [] then [] else " " + comment)))
  }

  /** Round trip: a key line written as "algorithm key [comment]", with a
      space-free algorithm and key and a comment without surrounding
      whitespace, parses back to its parts. */
  lemma {:induction false} ParsePublicKeyRoundTrip(algorithm: string, key: string, comment: string)
    requires |algorithm| > 0 && NoSpace(algorithm)
    requires |key| > 0 && NoSpace(key)
    requires comment == [] || (!IsSpace(comment[0]) && !IsSpace(comment[|comment| - 1]))
    ensures ParsePublicKey(KeyLine(algorithm, key, comment)) == PublicKey(algorithm, key, comment, true)
  {
    KeyLineFields(algorithm, key, comment);
    ParseFromFields(KeyLine(algorithm, key, comment), algorithm, key, comment);
  }

  /** `parse_public_key_string` reads its parts off the fields. */
  lemma {:induction false} ParseFromFields(content: string, algorithm: string, key: string, comment: string)
    requires SplitWhitespace(Strip(content), Some(2)) == [algorithm, key] + (if comment == [] then [] else [comment])
    ensures ParsePublicKey(content) == PublicKey(algorithm, key, comment, true)
  {
  }

  /** The fields `split(None, 2)` finds in a stripped key line. */
  lemma {:induction false} KeyLineFields(algorithm: string, key: string, comment: string)
    requires |algorithm| > 0 && NoSpace(algorithm)
    requires |key| > 0 && NoSpace(key)
    requires comment == [] || (!IsSpace(comment[0]) && !IsSpace(comment[|comment| - 1]))
    ensures SplitWhitespace(Strip(KeyLine(algorithm, key, comment)), Some(2))
         == [algorithm, key] + (if comment == [] then [] else [comment])
  {
    var s := KeyLine(algorithm, key, comment);
    KeyLineStripped(algorithm, key, comment);
    var tail := if comment == [] then [] else " " + comment;
    SplitTwoWords(s, algorithm, key, tail);
    TailField(comment);
  }

  /** A key line has no surrounding whitespace. */
  lemma {:induction false} KeyLineStripped(algorithm: string, key: string, comment: string)
    requires |algorithm| > 0 && |key| > 0
    requires !IsSpace(algorithm[0]) && !IsSpace(key[|key| - 1])
    requires comment == [] || !IsSpace(comment[|comment| - 1])
    ensures Strip(KeyLine(algorithm, key, comment)) == KeyLine(algorithm, key, comment)
  {
    var s := KeyLine(algorithm, key, comment);
    assert s[0] == algorithm[0];
    assert s[|s| - 1] == if comment == [] then key[|key| - 1] else comment[|comment| - 1];
    StripNonSpaceEnds(s);
  }

  /** `split(None, 0)` of what follows the key: the comment, if any. */
  lemma {:induction false} TailField(comment: string)
    requires comment == [] || !IsSpace(comment[0])
    ensures SplitWhitespace(if comment == [] then [] else " " + comment, Some(0))
         == if comment == [] then [] else [comment]
  {
    if comment != [] {
      StripLeftOneSpace(" " + comment, comment);
    }
  }

  /** Two space-free words separated by one space, then a tail. */
  lemma {:induction false} SplitTwoWords(s: string, a: string, b: string, tail: string)
    requires s == a + (" " + (b + tail))
    requires |a| > 0 && NoSpace(a) && |b| > 0 && NoSpace(b)
    requires tail == [] || IsSpace(tail[0])
    ensures SplitWhitespace(s, Some(2)) == [a, b] + SplitWhitespace(tail, Some(0))
  {
    var r1 := " " + (b + tail);
    SplitLeadingWord(s, a, r1);
    SplitSecondWord(r1, b, tail);
    var x := SplitWhitespace(tail, Some(0));
    assert [a] + ([b] + x) == [a, b] + x;
  }

  lemma {:induction false} SplitLeadingWord(s: string, a: string, r1: string)
    requires s == a + r1 && r1 != [] && r1[0] == ' '
    requires |a| > 0 && NoSpace(a)
    ensures SplitWhitespace(s, Some(2)) == [a] + SplitWhitespace(r1, Some(1))
  {
    assert s[0] == a[0];
    SplitFirstWord(s, a, r1, 1);
  }

  lemma {:induction false} SplitSecondWord(r1: string, b: string, tail: string)
    requires r1 == " " + (b + tail)
    requires |b| > 0 && NoSpace(b) && (tail == [] || IsSpace(tail[0]))
    ensures SplitWhitespace(r1, Some(1)) == [b] + SplitWhitespace(tail, Some(0))
  {
    assert (b + tail)[0] == b[0];
    StripLeftOneSpace(r1, b + tail);
    SplitFirstWord(r1, b, tail, 0);
  }

  /** A space-free word is one field. */
  lemma {:induction false} SingleField(content: string)
    requires |content| > 0 && NoSpace(content)
    ensures SplitWhitespace(content, Some(2)) == [content]
  {
    WordOf(content, []);
    assert content + [] == content;
    assert StripLeft(content) == content;
    assert content[|content|..] == [];
  }

  /** Text without whitespace is a single field, hence not a valid key. */
  lemma {:induction false} ParsePublicKeySingleToken(content: string)
    requires NoSpace(content)
    ensures !ParsePublicKey(content).isValid
  {
    if content != [] {
      StripNonSpaceEnds(content);
      SingleField(content);
      assert SplitWhitespace(Strip(content), Some(2)) == [content];
    }
  }

  // ---------------------------------------------------- categorize_log_level

  datatype LogLevel = Error | Warning | Info

  /** The level's name as the source returns it. */
  function LevelName(l: LogLevel): string {
    match l
    case Error => "ERROR"
    case Warning => "WARNING"
    case Info => "INFO"
  }

  predicate HasErrorMarker(t: string) {
    Contains(t, "✗") || Contains(t, "Error:") || Contains(t, "failed:") || Contains(t, "Exception")
  }

  predicate HasWarningMarker(t: string) {
    Contains(Lower(t), "⚠") || Contains(Lower(t), "warning")
  }

  /** `categorize_log_level(text)` */
  function CategorizeLogLevel(text: string): (r: LogLevel)
    ensures r == Error <==> (HasErrorMarker(Strip(text))
      || (!HasWarningMarker(Strip(text)) && Contains(Lower(Strip(text)), "traceback")))
    ensures r == Warning <==> !HasErrorMarker(Strip(text)) && HasWarningMarker(Strip(text))
  {
    var clean := Strip(text);
    if HasErrorMarker(clean) then Error
    else if HasWarningMarker(clean) then Warning
    else if Contains(Lower(clean), "traceback") then Error
    else if StartsWith(clean, "✓") then Info
    else Info
  }

  /** Error markers take precedence over warnings, a warning marker hides a
      traceback, and a line is INFO exactly when it has none of them. */
  lemma {:induction false} CategorizePrecedence(text: string)
    ensures var clean := Strip(text);
      && (HasErrorMarker(clean) ==> CategorizeLogLevel(text) == Error)
      && (HasWarningMarker(clean) && !HasErrorMarker(clean) ==> CategorizeLogLevel(text) == Warning)
      && (CategorizeLogLevel(text) == Info <==>
            !HasErrorMarker(clean) && !HasWarningMarker(clean) && !Contains(Lower(clean), "traceback"))
      && LevelName(CategorizeLogLevel(text)) in {"ERROR", "WARNING", "INFO"}
  {
  }

  // ------------------------------------------------- build_ansible_play_dict

  /** The task of a play: its name, then the module with its arguments;
      a module called "name" overwrites the name in place. */
  function PlayTaskDict(taskModule: string, args: Dict): Dict {
    Set([("name", VStr("Execute " + taskModule))], taskModule, VDict(args))
  }

  /** `build_ansible_play_dict(hosts, task_module, task_args)`; `task_args or
      {}` gives the empty dict for None and for an empty dict alike. */
  function BuildAnsiblePlayDict(hosts: string, taskModule: string, taskArgs: Option<Dict>): Dict {
    var args := if taskArgs.Some? then taskArgs.value else [];
    [("name", VStr("Test " + taskModule + " on " + hosts)),
     ("hosts", VStr(hosts)),
     ("gather_facts", VBool(false)),
     ("tasks", VList([VDict(PlayTaskDict(taskModule, args))]))]
  }

  /** The single task of the play. */
  function PlayTask(play: Dict): Option<Dict> {
    match Get(play, "tasks")
    case Some(VList(ts)) => if |ts| == 1 && ts[0].VDict? then Some(ts[0].entries) else None
    case _ => None
  }

  /** The task calls the module with the given arguments; its name is
      "Execute <module>" unless the module is itself called "name". */
  lemma {:induction false} PlayTaskDictGet(taskModule: string, args: Dict)
    ensures Get(PlayTaskDict(taskModule, args), taskModule) == Some(VDict(args))
    ensures Get(PlayTaskDict(taskModule, args), "name") ==
      Some(if taskModule == "name" then VDict(args) else VStr("Execute " + taskModule))
  {
    GetSet([("name", VStr("Execute " + taskModule))], taskModule, VDict(args), taskModule);
    GetSet([("name", VStr("Execute " + taskModule))], taskModule, VDict(args), "name");
  }

  /** The play's keys, in order, and the values of its fixed entries. */
  lemma {:induction false} PlayEntries(name: Value, hosts: Value, tasks: Value)
    ensures var play := [("name", name), ("hosts", hosts), ("gather_facts", VBool(false)), ("tasks", tasks)];
      && Keys(play) == ["name", "hosts", "gather_facts", "tasks"]
      && Get(play, "hosts") == Some(hosts)
      && Get(play, "gather_facts") == Some(VBool(false))
      && Get(play, "tasks") == Some(tasks)
  {
    var play := [("name", name), ("hosts", hosts), ("gather_facts", VBool(false)), ("tasks", tasks)];
    assert Keys(play) == ["name", "hosts", "gather_facts", "tasks"] by {
      assert forall i :: 0 <= i < 4 ==> Keys(play)[i] == play[i].0;
    }
    assert play[1..][1..] == play[2..] && play[2..][1..] == play[3..];
    GetFront(play, "hosts");
    GetFront(play[1..], "hosts");
    GetFront(play, "gather_facts");
    GetFront(play[1..], "gather_facts");
    GetFront(play[2..], "gather_facts");
    GetFront(play, "tasks");
    GetFront(play[1..], "tasks");
    GetFront(play[2..], "tasks");
    GetFront(play[3..], "tasks");
  }

  /** The play names its hosts, skips fact gathering and runs one task,
      which calls the module with the given arguments (the empty dict when
      none are given); the task's name is "Execute <module>" unless the
      module is itself called "name", whose arguments then replace it. */
  lemma {:induction false} BuildAnsiblePlayDictShape(hosts: string, taskModule: string, taskArgs: Option<Dict>)
    ensures var play := BuildAnsiblePlayDict(hosts, taskModule, taskArgs);
      var args := if taskArgs.Some? then taskArgs.value else [];
      && Keys(play) == ["name", "hosts", "gather_facts", "tasks"]
      && Get(play, "hosts") == Some(VStr(hosts))
      && Get(play, "gather_facts") == Some(VBool(false))
      && PlayTask(play) == Some(PlayTaskDict(taskModule, args))
      && Get(PlayTaskDict(taskModule, args), taskModule) == Some(VDict(args))
      && Get(PlayTaskDict(taskModule, args), "name") ==
           Some(if taskModule == "name" then VDict(args) else VStr("Execute " + taskModule))
  {
    var args := if taskArgs.Some? then taskArgs.value else [];
    PlayEntries(VStr("Test " + taskModule + " on " + hosts), VStr(hosts), VList([VDict(PlayTaskDict(taskModule, args))]));
    PlayTaskDictGet(taskModule, args);
  }

  // ------------------------------------------------------- transform_ios_path

  /** `transform_ios_path(path, ios_base)`, with `tempfile.gettempdir()`
      passed in as `tempDir`. */
  function TransformIosPath(path: string, iosBase: string, tempDir: string): (r: string)
    ensures StartsWith(path, "~") || StartsWith(path, "$HOME") || StartsWith(path, "/home") ==> r == iosBase
    ensures !(StartsWith(path, "~") || StartsWith(path, "$HOME") || StartsWith(path, "/home")) ==>
      r == (if StartsWith(path, "/") && !KeptOnIos(path) then tempDir else path)
  {
    if StartsWith(path, "~") || StartsWith(path, "$HOME") || StartsWith(path, "/home") then iosBase
    else if StartsWith(path, "/") && !(StartsWith(path, "/var") || StartsWith(path, "/tmp") || StartsWith(path, "/private")) then tempDir
    else path
  }

  /** The absolute locations an iOS app may use. */
  predicate KeptOnIos(path: string) {
    StartsWith(path, "/var") || StartsWith(path, "/tmp") || StartsWith(path, "/private")
  }

  const DefaultIosBase := "/var/mobile/Containers/Data/Application"

  /** Transforming twice is transforming once, provided the base and the
      temporary directory are themselves left alone. */
  lemma {:induction false} TransformIosPathIdempotent(path: string, iosBase: string, tempDir: string)
    requires TransformIosPath(iosBase, iosBase, tempDir) == iosBase
    requires TransformIosPath(tempDir, iosBase, tempDir) == tempDir
    ensures TransformIosPath(TransformIosPath(path, iosBase, tempDir), iosBase, tempDir)
         == TransformIosPath(path, iosBase, tempDir)
  {
  }

  /** The default base lies under /var, so it is left alone. */
  lemma {:induction false} DefaultIosBaseKept(tempDir: string)
    ensures TransformIosPath(DefaultIosBase, DefaultIosBase, tempDir) == DefaultIosBase
  {
    var b := DefaultIosBase;
    assert b[0] == '/' && b[1] == 'v' && b[2] == 'a' && b[3] == 'r';
    assert b[..4] == "/var";
    assert b[..1] != "~" && b[..5] != "$HOME" && b[..5] != "/home" by {
      assert b[..1][0] == '/' && b[..5][0] == '/' && b[..5][1] == 'v';
    }
  }

  // ---------------------------------------------------- extract_test_results

  /** The integer part of the test summary (the float `success_rate` is not
      modelled). */
  datatype TestResults = TestResults(totalTests: nat, passed: nat, failed: nat,
                                     errors: seq<string>, warnings: seq<string>)

  /** How one line is counted. */
  function TallyLine(r: TestResults, line: string): (r': TestResults)
    ensures r'.totalTests == r.totalTests
    ensures r.passed + r.failed <= r'.passed + r'.failed <= r.passed + r.failed + 1
    ensures |r'.errors| - r'.failed == |r.errors| - r.failed
    ensures |r'.errors| + |r'.warnings| <= |r.errors| + |r.warnings| + 1
    ensures r'.passed + r'.failed + |r'.warnings| <= r.passed + r.failed + |r.warnings| + 1
  {
    if Contains(line, "✓") then r.(passed := r.passed + 1)
    else if Contains(line, "✗") || Contains(Lower(line), "failed") then
      r.(failed := r.failed + 1, errors := r.errors + [Strip(line)])
    else if Contains(line, "⚠") then r.(warnings := r.warnings + [Strip(line)])
    else r
  }

  /** The counts after the given lines, before the total is filled in. */
  function Tally(lines: seq<string>): TestResults
    decreases |lines|
  {
    if |lines| == 0 then TestResults(0, 0, 0, [], [])
    else TallyLine(Tally(lines[..|lines| - 1]), lines[|lines| - 1])
  }

  /** No line is counted twice, and each failure leaves one error line. */
  lemma {:induction false} TallyBounds(lines: seq<string>)
    ensures Tally(lines).totalTests == 0
    ensures Tally(lines).passed + Tally(lines).failed + |Tally(lines).warnings| <= |lines|
    ensures |Tally(lines).errors| == Tally(lines).failed
    decreases |lines|
  {
    if |lines| > 0 {
      TallyBounds(lines[..|lines| - 1]);
    }
  }

  /** Counting one more line. */
  lemma {:induction false} TallyStep(lines: seq<string>, i: nat)
    requires i < |lines|
    ensures Tally(lines[..i + 1]) == TallyLine(Tally(lines[..i]), lines[i])
  {
    assert lines[..i + 1][..i] == lines[..i];
  }

  /** The lines `extract_test_results` looks at. */
  function OutputLines(output: string): seq<string> {
    SplitOn(Strip(output), '\n')
  }

  /** The whole summary: the tally with `total_tests` set. */
  function TestSummary(output: string): TestResults {
    var t := Tally(OutputLines(output));
    t.(totalTests := t.passed + t.failed)
  }

  /** `extract_test_results(output)` */
  method ExtractTestResults(output: string) returns (r: TestResults)
    ensures r == TestSummary(output)
  {
    var lines := OutputLines(output);
    r := TestResults(0, 0, 0, [], []);
    var i := 0;
    while i < |lines|
      invariant 0 <= i <= |lines|
      invariant r == Tally(lines[..i])
    {
      var line := lines[i];
      TallyStep(lines, i);
      ghost var next := TallyLine(r, line);
      if Contains(line, "✓") {
        r := r.(passed := r.passed + 1);
      } else if Contains(line, "✗") || Contains(Lower(line), "failed") {
        r := r.(failed := r.failed + 1, errors := r.errors + [Strip(line)]);
      } else if Contains(line, "⚠") {
        r := r.(warnings := r.warnings + [Strip(line)]);
      }
      assert r == next == Tally(lines[..i + 1]);
      i := i + 1;
    }
    assert lines[..|lines|] == lines;
    r := r.(totalTests := r.passed + r.failed);
  }

  /** The total is passed plus failed, each failure leaves one error line,
      and no line is counted twice. */
  lemma {:induction false} TestSummaryCounts(output: string)
    ensures var r := TestSummary(output);
      && r.totalTests == r.passed + r.failed
      && |r.errors| == r.failed
      && r.totalTests <= |OutputLines(output)|
  {
    TallyBounds(OutputLines(output));
  }

  /** A further line holding "✓" counts as passed even if it also says
      "failed", and changes nothing else. */
  lemma {:induction false} TallyCheckMarkPasses(lines: seq<string>, line: string)
    requires Contains(line, "✓")
    ensures Tally(lines + [line]) == Tally(lines).(passed := Tally(lines).passed + 1)
  {
    assert (lines + [line])[..|lines|] == lines;
  }

  /** A further failing line (no "✓") counts as failed and records its
      stripped text as the last error. */
  lemma {:induction false} TallyFailureRecorded(lines: seq<string>, line: string)
    requires !Contains(line, "✓") && Contains(Lower(line), "failed")
    ensures Tally(lines + [line]).failed == Tally(lines).failed + 1
    ensures Tally(lines + [line]).errors == Tally(lines).errors + [Strip(line)]
    ensures Tally(lines + [line]).passed == Tally(lines).passed
  {
    assert (lines + [line])[..|lines|] == lines;
  }
}
