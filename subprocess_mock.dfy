/** The older `subprocess` stand-in (`subprocess_mock.py`): a `Popen` whose
    `communicate` walks an elif chain of substring tests over the command,
    runs the Ansible ping module inside the interpreter (swapping and
    restoring the interpreter's streams), and the replacements for `run`,
    `call`, `check_call` and `check_output`. Output is modelled as text,
    before `.encode()`. */
module SubprocessMock {
  import opened Wrappers
  import opened Strings
  import opened PyData
  import opened JsonText
  import opened DataProcessing
  import PopenMock

  // ----------------------------------------------------------- the command

  /** `" ".join(str(a) for a in args)` for a non-empty list, else
      `str(args)`: an empty list prints as "[]". */
  function CommandText(args: CommandArgs): string {
    match args
    case ArgList(xs) => if |xs| > 0 then Join(" ", xs) else "[]"
    case ArgString(s) => s
  }

  /** Both mocks build the same command text, except for an empty list,
      which `parse_command_args` turns into "". */
  lemma {:induction false} CommandTextAgrees(args: CommandArgs)
    ensures !IsEmptyArgs(args) ==> CommandText(args) == ParseCommandArgs(args).command
    ensures args == ArgList([]) ==> CommandText(args) == "[]" && ParseCommandArgs(args).command == ""
  {
  }

  // ------------------------------------------- the pattern ansible-tmp-[\d.-]+

  /** A character of the class `[\d.-]` (ASCII digits). */
  predicate TmpChar(c: char) {
    '0' <= c <= '9' || c == '.' || c == '-'
  }

  /** The pattern can start at `i`: the marker, then a class character. */
  predicate TmpMatchAt(s: string, i: int) {
    0 <= i && i + |TempMarker| < |s| && s[i..i + |TempMarker|] == TempMarker && TmpChar(s[i + |TempMarker|])
  }

  /** The end of the run of class characters from `j`. */
  function TmpRunEnd(s: string, j: nat): (e: nat)
    requires j <= |s|
    ensures j <= e <= |s|
    ensures forall k :: j <= k < e ==> TmpChar(s[k])
    ensures e < |s| ==> !TmpChar(s[e])
    decreases |s| - j
  {
    if j == |s| || !TmpChar(s[j]) then j else TmpRunEnd(s, j + 1)
  }

  /** The first place at or after `i` where the pattern can start. */
  function FirstTmpMatch(s: string, i: nat): (r: Option<nat>)
    ensures r.Some? ==> i <= r.value && TmpMatchAt(s, r.value)
    ensures r.Some? ==> forall k :: i <= k < r.value ==> !TmpMatchAt(s, k)
    ensures r.None? ==> forall k :: i <= k ==> !TmpMatchAt(s, k)
    decreases |s| - i
  {
    if i + |TempMarker| >= |s| then None
    else if TmpMatchAt(s, i) then Some(i)
    else FirstTmpMatch(s, i + 1)
  }

  /** `re.search(r"ansible-tmp-[\d\.-]+", cmd).group(0)`: the leftmost
      match, extended as far as the class allows. */
  function TmpDirMatch(s: string): Option<string> {
    match FirstTmpMatch(s, 0)
    case None => None
    case Some(i) => Some(s[i..TmpRunEnd(s, i + |TempMarker|)])
  }

  /** A match is the marker followed by one or more class characters, taken
      at the leftmost place the pattern fits and as long as possible; there
      is none exactly when the pattern fits nowhere. */
  lemma {:induction false} TmpDirMatchSpec(s: string) returns (i: int, e: int)
    ensures TmpDirMatch(s).None? <==> forall k :: 0 <= k ==> !TmpMatchAt(s, k)
    ensures TmpDirMatch(s).Some? ==>
      && 0 <= i < e <= |s| && TmpDirMatch(s).value == s[i..e]
      && TmpMatchAt(s, i) && (forall k :: 0 <= k < i ==> !TmpMatchAt(s, k))
      && (forall k :: i + |TempMarker| <= k < e ==> TmpChar(s[k]))
      && (e == |s| || !TmpChar(s[e]))
  {
    match FirstTmpMatch(s, 0)
    case None =>
      i, e := 0, 0;
    case Some(j) =>
      i, e := j, TmpRunEnd(s, j + |TempMarker|);
  }

  /** A match holds no "/" and contains the marker. */
  lemma {:induction false} TmpDirMatchShape(s: string)
    requires TmpDirMatch(s).Some?
    ensures '/' !in TmpDirMatch(s).value
    ensures StartsWith(TmpDirMatch(s).value, TempMarker)
    ensures Contains(s, TempMarker)
  {
    var i, e := TmpDirMatchSpec(s);
    var m := s[i..e];
    forall k | 0 <= k < |m| ensures m[k] != '/' {
      if k < |TempMarker| {
        assert m[k] == TempMarker[k];
      } else {
        assert m[k] == s[i + k];
      }
    }
    assert m[..|TempMarker|] == TempMarker;
    assert OccursAt(s, TempMarker, i);
    ContainsIff(s, TempMarker);
  }

  // ------------------------------------------------- the in-process module

  /** What the file system holds at a path: nothing, a file that cannot be
      read (the error `open`/`read` raises), or a readable file. */
  datatype FileState = Missing | Unreadable(error: Exc) | Readable(content: string)

  /** `json.dumps({"changed": False, "ping": "pong"})` */
  const PingJson := "{\"changed\": false, \"ping\": \"pong\"}"

  function ModuleNotFound(path: string): Exc {
    Builtin("FileNotFoundError", "Module file not found: " + path)
  }

  /** What `_execute_ansible_module(path)` returns or raises: the ping
      module is simulated, so a readable file always gives the ping JSON. */
  function ExecuteModule(path: string, fs: string -> FileState): Result<string> {
    match fs(path)
    case Missing => Err(ModuleNotFound(path))
    case Unreadable(e) => Err(e)
    case Readable(_) => Ok(PingJson)
  }

  /** A stream `sys.stdout`/`sys.stderr` can be bound to: the original one,
      or an in-memory buffer and its text. */
  datatype Stream = Console(name: string) | Buffer(text: string)

  /** The interpreter state `_execute_ansible_module` swaps out. */
  class Interpreter {
    var stdout: Stream
    var stderr: Stream
    var argv: seq<string>

    constructor(stdout: Stream, stderr: Stream, argv: seq<string>)
      ensures this.stdout == stdout && this.stderr == stderr && this.argv == argv
    {
      this.stdout := stdout;
      this.stderr := stderr;
      this.argv := argv;
    }
  }

  /** The ping JSON has no surrounding whitespace, so `.strip()` keeps it. */
  lemma {:induction false} PingJsonStripped()
    ensures Strip(PingJson) == PingJson && PingJson != ""
  {
    assert !IsSpace(PingJson[0]) && !IsSpace(PingJson[|PingJson| - 1]);
    StripLeftSpec(PingJson);
    StripRightSpec(StripLeft(PingJson));
  }

  /** `_execute_ansible_module(module_path)`: a missing file raises
      FileNotFoundError before anything is touched; otherwise stdout,
      stderr and argv are swapped for buffers and `[path]`, the ping result
      is written to the captured stdout, and all three are restored. */
  method ExecuteAnsibleModule(sys: Interpreter, path: string, fs: string -> FileState) returns (r: Result<string>)
    modifies sys
    ensures r == ExecuteModule(path, fs)
    ensures sys.stdout == old(sys.stdout) && sys.stderr == old(sys.stderr) && sys.argv == old(sys.argv)
  {
    if fs(path).Missing? {
      return Err(ModuleNotFound(path));
    }
    if fs(path).Unreadable? {
      return Err(fs(path).error);
    }
    var oldStdout, oldStderr, oldArgv := sys.stdout, sys.stderr, sys.argv;
    sys.stdout := Buffer("");
    sys.stderr := Buffer("");
    sys.argv := [path];
    sys.stdout := Buffer(sys.stdout.text + PingJson);
    assert sys.stdout.text == PingJson;
    var resultJson := Strip(sys.stdout.text);
    PingJsonStripped();
    if resultJson != "" {
      r := Ok(resultJson);
    } else {
      r := Ok(PingJson);
    }
    sys.stdout, sys.stderr, sys.argv := oldStdout, oldStderr, oldArgv;
  }

  // ------------------------------------------------------------ communicate

  /** The fixed name used when no temp directory can be found. */
  const FixedTmp := "ansible-tmp-123456789"

  /** `f"{temp_dir}={ios_writable_dir}/.ansible/tmp/{temp_dir}\n"` */
  function TmpAnswer(iosDir: string, tempDir: string): string {
    tempDir + "=" + PopenMock.AnsibleDir(iosDir, tempDir) + "\n"
  }

  const ParseFailure := "{\"failed\": true, \"msg\": \"Could not parse module path\"}\n"

  /** `json.dumps({"failed": True, "msg": f"Module execution failed: {e}",
      "exception": str(e)})` for `str(e) == text`. */
  function FailureJson(text: string): string {
    "{\"failed\": true, \"msg\": " + Quote("Module execution failed: " + text) + ", \"exception\": " + Quote(text) + "}"
  }

  predicate IsEchoHome(cmd: string) {
    Contains(cmd, "echo ~") || Contains(cmd, "echo $HOME")
  }

  predicate IsPwd(cmd: string) {
    Contains(cmd, "echo \"$(pwd)\"") || Contains(cmd, "pwd")
  }

  predicate IsMkdirTmp(cmd: string) {
    Contains(cmd, "mkdir -p") && Contains(cmd, PopenMock.AnsibleTmp)
  }

  predicate IsFileTest(cmd: string) {
    Contains(cmd, "test -e") || Contains(cmd, "test -f") || Contains(cmd, "test -d")
  }

  predicate IsModuleRun(cmd: string) {
    Contains(cmd, "python3") && Contains(cmd, "AnsiballZ_ping.py")
  }

  /** The stdout of the mkdir branch. */
  function MkdirStdout(cmd: string, iosDir: string): string {
    if Contains(cmd, TempMarker) then
      match TmpDirMatch(cmd)
      case Some(m) => TmpAnswer(iosDir, m)
      case None => TmpAnswer(iosDir, FixedTmp)
    else TmpAnswer(iosDir, FixedTmp)
  }

  /** The stdout of the module branch. */
  function ModuleStdout(cmd: string, fs: string -> FileState): string {
    match BuildAnsibleModulePath(cmd)
    case None => ParseFailure
    case Some(path) =>
      match ExecuteModule(path, fs)
      case Ok(result) => result + "\n"
      case Err(e) => FailureJson(ExcText(e)) + "\n"
  }

  /** The stdout `communicate` returns; its stderr is always empty. */
  function CommunicateStdout(args: CommandArgs, iosDir: string, fs: string -> FileState): string {
    var cmd := CommandText(args);
    if IsEchoHome(cmd) then iosDir + "\n"
    else if IsPwd(cmd) then iosDir + "\n"
    else if IsMkdirTmp(cmd) then MkdirStdout(cmd, iosDir)
    else if IsFileTest(cmd) then ""
    else if Contains(cmd, "which ") then PopenMock.WhichOutput
    else if Contains(cmd, "chmod ") then ""
    else if IsModuleRun(cmd) then ModuleStdout(cmd, fs)
    else PopenMock.DefaultOutput
  }

  /** `MockCompletedProcess(args, returncode, stdout, stderr)` */
  datatype CompletedProcess = CompletedProcess(args: CommandArgs, returncode: int, stdout: string, stderr: string)

  class MockPopen {
    var args: CommandArgs
    var returncode: int
    var stdout: Value
    var stderr: Value
    var stdin: Value
    var pid: int

    constructor(args: CommandArgs, stdout: Value, stderr: Value, stdin: Value)
      ensures this.args == args && this.stdout == stdout && this.stderr == stderr && this.stdin == stdin
      ensures returncode == 0 && pid == PopenMock.FakePid
    {
      this.args := args;
      returncode := 0;
      this.stdout := stdout;
      this.stderr := stderr;
      this.stdin := stdin;
      pid := PopenMock.FakePid;
    }

    /** `communicate()`: the elif chain, with `os.makedirs` failures
        swallowed and module failures turned into JSON. */
    method Communicate(sys: Interpreter, iosDir: string, fs: string -> FileState) returns (out: string, err: string)
      modifies sys
      ensures out == CommunicateStdout(args, iosDir, fs) && err == ""
      ensures sys.stdout == old(sys.stdout) && sys.stderr == old(sys.stderr) && sys.argv == old(sys.argv)
    {
      out, err := "", "";
      var cmd := CommandText(args);
      if IsEchoHome(cmd) {
        out := iosDir + "\n";
      } else if IsPwd(cmd) {
        out := iosDir + "\n";
      } else if IsMkdirTmp(cmd) {
        out := MkdirStdout(cmd, iosDir);
      } else if IsFileTest(cmd) {
        out := "";
      } else if Contains(cmd, "which ") {
        out := PopenMock.WhichOutput;
      } else if Contains(cmd, "chmod ") {
        out := "";
      } else if IsModuleRun(cmd) {
        var path := BuildAnsibleModulePath(cmd);
        if path.Some? {
          var result := ExecuteAnsibleModule(sys, path.value, fs);
          if result.Ok? {
            out := result.value + "\n";
          } else {
            out := FailureJson(ExcText(result.exc)) + "\n";
          }
        } else {
          out := ParseFailure;
        }
      } else {
        out := PopenMock.DefaultOutput;
      }
    }

    /** `wait()` */
    method Wait() returns (code: int)
      ensures code == 0
    {
      code := 0;
    }

    /** `poll()` */
    method Poll() returns (code: int)
      ensures code == 0
    {
      code := 0;
    }
  }

  /** `mock_run(args)`: a completed process with return code 0 and the
      output of `communicate`. */
  method MockRun(sys: Interpreter, args: CommandArgs, iosDir: string, fs: string -> FileState) returns (p: CompletedProcess)
    modifies sys
    ensures p == CompletedProcess(args, 0, CommunicateStdout(args, iosDir, fs), "")
    ensures sys.stdout == old(sys.stdout) && sys.stderr == old(sys.stderr) && sys.argv == old(sys.argv)
  {
    var proc := new MockPopen(args, VNone, VNone, VNone);
    var out, err := proc.Communicate(sys, iosDir, fs);
    p := CompletedProcess(args, 0, out, err);
  }

  /** `mock_call(args)` and `mock_check_call(args)` */
  method MockCall(args: CommandArgs) returns (code: int)
    ensures code == 0
  {
    code := 0;
  }

  /** `mock_check_output(args)`: the stdout of `communicate`. */
  method MockCheckOutput(sys: Interpreter, args: CommandArgs, iosDir: string, fs: string -> FileState) returns (out: string)
    modifies sys
    ensures out == CommunicateStdout(args, iosDir, fs)
    ensures sys.stdout == old(sys.stdout) && sys.stderr == old(sys.stderr) && sys.argv == old(sys.argv)
  {
    var proc := new MockPopen(args, VNone, VNone, VNone);
    var err;
    out, err := proc.Communicate(sys, iosDir, fs);
  }

  // -------------------------------------------------------------- properties

  /** Any command mentioning "pwd" answers the writable directory unless an
      earlier echo rule already did, even a mkdir or a module run. */
  lemma {:induction false} PwdAnswersDirectory(args: CommandArgs, iosDir: string, fs: string -> FileState)
    requires Contains(CommandText(args), "pwd") || IsEchoHome(CommandText(args))
    ensures CommunicateStdout(args, iosDir, fs) == iosDir + "\n"
  {
  }

  /** The mkdir rule answers the leftmost, longest `ansible-tmp-[\d.-]+`
      match m as "m=dir" with dir ending in "/.ansible/tmp/m", and the fixed
      "ansible-tmp-123456789" mapping when there is no match (the inner
      check for the marker makes no difference). */
  lemma {:induction false} MkdirAnswer(cmd: string, iosDir: string)
    ensures TmpDirMatch(cmd).Some? ==>
      var m := TmpDirMatch(cmd).value;
      && MkdirStdout(cmd, iosDir) == TmpAnswer(iosDir, m)
      && StartsWith(m, TempMarker) && LastField(PopenMock.AnsibleDir(iosDir, m), '/') == m
    ensures TmpDirMatch(cmd).None? ==> MkdirStdout(cmd, iosDir) == TmpAnswer(iosDir, FixedTmp)
  {
    if TmpDirMatch(cmd).Some? {
      var m := TmpDirMatch(cmd).value;
      TmpDirMatchShape(cmd);
      assert PopenMock.AnsibleDir(iosDir, m) == (iosDir + "/" + PopenMock.AnsibleTmp) + ['/'] + m;
      LastFieldAfter(iosDir + "/" + PopenMock.AnsibleTmp, '/', m);
    }
  }

  /** A module run never raises: a found module answers the ping JSON, a
      failure answers failure JSON whose "msg" and "exception" string
      bodies decode back to "Module execution failed: " + str(e) and str(e) (for a
      missing file, str(e) names the path), and an unparsable command
      answers the fixed parse-failure JSON. */
  lemma {:induction false} ModuleAnswer(cmd: string, fs: string -> FileState)
    ensures BuildAnsibleModulePath(cmd).None? ==> ModuleStdout(cmd, fs) == ParseFailure
    ensures BuildAnsibleModulePath(cmd).Some? ==>
      var path := BuildAnsibleModulePath(cmd).value;
      && (fs(path).Readable? ==> ModuleStdout(cmd, fs) == PingJson + "\n")
      && (fs(path).Missing? ==> ModuleStdout(cmd, fs) == FailureJson("Module file not found: " + path) + "\n")
      && (!fs(path).Readable? ==>
            var text := ExcText(ExecuteModule(path, fs).exc);
            var msg := "Module execution failed: " + text;
            && ModuleStdout(cmd, fs) == FailureJson(text) + "\n"
            && Unescape(JsonText.Escape(msg)) == Some(msg) && Unescape(JsonText.Escape(text)) == Some(text))
  {
    if BuildAnsibleModulePath(cmd).Some? {
      var path := BuildAnsibleModulePath(cmd).value;
      if !fs(path).Readable? {
        var text := ExcText(ExecuteModule(path, fs).exc);
        var msg := "Module execution failed: " + text;
        UnescapeEscape(msg);
        UnescapeEscape(text);
      }
    }
  }

  /** test, which and chmod come before the module rule: "test -e", "-f"
      and "-d" answer "", "which " answers "/usr/bin/fake\n", "chmod "
      answers "", whatever module the command names. */
  lemma {:induction false} ShellProbesAnswerFixed(args: CommandArgs, iosDir: string, fs: string -> FileState)
    requires var cmd := CommandText(args); !IsEchoHome(cmd) && !IsPwd(cmd) && !IsMkdirTmp(cmd)
    ensures var cmd := CommandText(args);
      var out := CommunicateStdout(args, iosDir, fs);
      && (IsFileTest(cmd) ==> out == "")
      && (!IsFileTest(cmd) && Contains(cmd, "which ") ==> out == PopenMock.WhichOutput)
      && (!IsFileTest(cmd) && !Contains(cmd, "which ") && Contains(cmd, "chmod ") ==> out == "")
  {
  }

  /** A command no rule recognises answers "success\n". */
  lemma {:induction false} UnknownAnswersSuccess(args: CommandArgs, iosDir: string, fs: string -> FileState)
    requires var cmd := CommandText(args);
      !IsEchoHome(cmd) && !IsPwd(cmd) && !IsMkdirTmp(cmd) && !IsFileTest(cmd)
      && !Contains(cmd, "which ") && !Contains(cmd, "chmod ") && !IsModuleRun(cmd)
    ensures CommunicateStdout(args, iosDir, fs) == PopenMock.DefaultOutput
  {
  }
}
