/** The `subprocess.Popen` stand-in of the `mocks/subprocess` package: a
    process object whose `communicate` answers the shell commands Ansible
    sends with canned output, redirecting Ansible's temporary directory into
    a writable one. Output is modelled as text, before `.encode()`. */
module PopenMock {
  import opened Wrappers
  import opened Strings
  import opened PyData
  import opened DataProcessing

  const FakePid := 12345
  const WhichOutput := "/usr/bin/fake\n"
  const DefaultOutput := "success\n"
  const AnsibleTmp := ".ansible/tmp"

  /** The (stdout, stderr) pair `communicate` returns. */
  type Output = (string, string)

  /** `f"{ios_dir}/.ansible/tmp/{temp_dir}"` */
  function AnsibleDir(iosDir: string, tempDir: string): string {
    iosDir + "/" + AnsibleTmp + "/" + tempDir
  }

  function NoTempDir(): Exc {
    Builtin("ValueError", "Could not extract temp directory from mkdir command")
  }

  function NoModulePath(): Exc {
    Builtin("ValueError", "Could not parse module path from ansible command")
  }

  /** What `communicate` returns for `args`. `iosDir` is what
      `tempfile.gettempdir()` returns, `makedirs` the error `os.makedirs`
      raises for a path (if any), and `execute` the outcome of
      `execute_ansible_module` for a module path. */
  function CommunicateOn(args: CommandArgs, iosDir: string, makedirs: string -> Option<Exc>,
                         execute: string -> Result<string>): Result<Output>
  {
    var info := ParseCommandArgs(args);
    var cmd := info.command;
    match info.flags
    case None => Err(Builtin("KeyError", "is_echo"))
    case Some(f) =>
      if f.isEcho then Ok((iosDir + "\n", ""))
      else if f.isMkdir && Contains(cmd, AnsibleTmp) then
        match TempDirOf(cmd)
        case None => Err(NoTempDir())
        case Some(t) =>
          if t == "" then Err(NoTempDir())
          else match makedirs(AnsibleDir(iosDir, t))
            case Some(e) => Err(e)
            case None => Ok((t + "=" + AnsibleDir(iosDir, t) + "\n", ""))
      else if f.isTest || f.isChmod then Ok(("", ""))
      else if f.isWhich then Ok((WhichOutput, ""))
      else if f.isAnsibleModule then
        match BuildAnsibleModulePath(cmd)
        case None => Err(NoModulePath())
        case Some(path) =>
          match execute(path)
          case Err(e) => Err(e)
          case Ok(result) => Ok((result + "\n", ""))
      else Ok((DefaultOutput, ""))
  }

  class MockPopen {
    var args: CommandArgs
    var returncode: int
    var stdout: Value
    var stderr: Value
    var stdin: Value
    var pid: int

    /** `MockPopen(args, stdout=..., stderr=..., stdin=...)`; an absent
        keyword is `VNone`. */
    constructor(args: CommandArgs, stdout: Value, stderr: Value, stdin: Value)
      ensures this.args == args && this.stdout == stdout && this.stderr == stderr && this.stdin == stdin
      ensures returncode == 0 && pid == FakePid
    {
      this.args := args;
      returncode := 0;
      this.stdout := stdout;
      this.stderr := stderr;
      this.stdin := stdin;
      pid := FakePid;
    }

    /** `communicate()` */
    function Communicate(iosDir: string, makedirs: string -> Option<Exc>, execute: string -> Result<string>): Result<Output>
      reads this
    {
      CommunicateOn(args, iosDir, makedirs, execute)
    }

    /** `wait()` */
    method Wait() returns (code: int)
      ensures code == 0
    {
      code := 0;
    }

    /** `poll()` */
    method Poll() returns (code: int)
      ensures code == 0
    {
      code := 0;
    }
  }

  /** Every answer leaves stderr empty; only empty arguments, the mkdir and
      the module branches can raise. */
  lemma {:induction false} CommunicateStderrEmpty(args: CommandArgs, iosDir: string, makedirs: string -> Option<Exc>,
                                                  execute: string -> Result<string>)
    ensures var r := CommunicateOn(args, iosDir, makedirs, execute);
      var info := ParseCommandArgs(args);
      && (r.Ok? ==> r.value.1 == "")
      && (r.Err? ==> IsEmptyArgs(args) || (info.flags.value.isMkdir && Contains(info.command, AnsibleTmp))
                     || info.flags.value.isAnsibleModule)
  {
  }

  /** Empty arguments raise `KeyError('is_echo')`: the parsed dict has no
      flags. */
  lemma {:induction false} EmptyArgsRaise(args: CommandArgs, iosDir: string, makedirs: string -> Option<Exc>,
                                          execute: string -> Result<string>)
    requires IsEmptyArgs(args)
    ensures CommunicateOn(args, iosDir, makedirs, execute) == Err(Builtin("KeyError", "is_echo"))
  {
  }

  /** An error in the mkdir or the module branch is the branch's own
      ValueError or an error raised by `os.makedirs` or by the module. */
  lemma {:induction false} ModuleErrorFrom(args: CommandArgs, iosDir: string, makedirs: string -> Option<Exc>,
                                           execute: string -> Result<string>)
    requires !IsEmptyArgs(args)
    ensures var r := CommunicateOn(args, iosDir, makedirs, execute);
      r.Err? ==> r.exc == NoTempDir() || r.exc == NoModulePath()
                 || (exists p :: makedirs(p) == Some(r.exc)) || (exists p :: execute(p) == Err(r.exc))
  {
    var r := CommunicateOn(args, iosDir, makedirs, execute);
    var info := ParseCommandArgs(args);
    var cmd := info.command;
    if r.Err? && !info.flags.value.isEcho {
      if info.flags.value.isMkdir && Contains(cmd, AnsibleTmp) {
        if TempDirOf(cmd).Some? && TempDirOf(cmd).value != "" {
          var p := AnsibleDir(iosDir, TempDirOf(cmd).value);
          assert makedirs(p) == Some(r.exc);
        }
      } else if BuildAnsibleModulePath(cmd).Some? {
        var p := BuildAnsibleModulePath(cmd).value;
        assert execute(p) == Err(r.exc);
      }
    }
  }

  /** An echo command (`echo ~`, `echo $HOME`, `echo "$(pwd)"`) answers the
      writable directory, whatever else it holds. */
  lemma {:induction false} EchoAnswersDirectory(args: CommandArgs, iosDir: string, makedirs: string -> Option<Exc>,
                                                execute: string -> Result<string>)
    requires !IsEmptyArgs(args) && IsEchoCommand(ParseCommandArgs(args).command)
    ensures CommunicateOn(args, iosDir, makedirs, execute) == Ok((iosDir + "\n", ""))
  {
  }

  /** The mkdir branch: without a non-empty temp directory it raises
      ValueError (always so when the command lacks "ansible-tmp-"); else it
      creates the redirected directory and answers "t=dir", where the last
      "/"-segment of dir is t, a word without "/" or whitespace. */
  lemma {:induction false} MkdirRedirects(args: CommandArgs, iosDir: string, makedirs: string -> Option<Exc>,
                                          execute: string -> Result<string>)
    requires !IsEmptyArgs(args)
    requires var info := ParseCommandArgs(args);
      !info.flags.value.isEcho && info.flags.value.isMkdir && Contains(info.command, AnsibleTmp)
    ensures var cmd := ParseCommandArgs(args).command;
      var r := CommunicateOn(args, iosDir, makedirs, execute);
      && (!Contains(cmd, TempMarker) ==> r == Err(NoTempDir()))
      && (TempDirOf(cmd) == None || TempDirOf(cmd) == Some("") ==> r == Err(NoTempDir()))
      && (TempDirOf(cmd).Some? && TempDirOf(cmd).value != "" ==>
            var t := TempDirOf(cmd).value;
            && '/' !in t && NoSpace(t)
            && LastField(AnsibleDir(iosDir, t), '/') == t
            && r == (match makedirs(AnsibleDir(iosDir, t))
                     case Some(e) => Err(e)
                     case None => Ok((t + "=" + AnsibleDir(iosDir, t) + "\n", ""))))
  {
    var cmd := ParseCommandArgs(args).command;
    TempDirFoundIff(cmd);
    if TempDirOf(cmd).Some? && TempDirOf(cmd).value != "" {
      var t := TempDirOf(cmd).value;
      TempDirShape(cmd);
      assert AnsibleDir(iosDir, t) == (iosDir + "/" + AnsibleTmp) + ['/'] + t;
      LastFieldAfter(iosDir + "/" + AnsibleTmp, '/', t);
    }
  }

  /** test, chmod and which come before the module branch: such a command
      answers "" (test, chmod) or "/usr/bin/fake\n" (which) even when it
      names a module. */
  lemma {:induction false} ShellProbesAnswerFixed(args: CommandArgs, iosDir: string, makedirs: string -> Option<Exc>,
                                                  execute: string -> Result<string>)
    requires !IsEmptyArgs(args)
    requires var info := ParseCommandArgs(args);
      !info.flags.value.isEcho && !(info.flags.value.isMkdir && Contains(info.command, AnsibleTmp))
    ensures var f := ParseCommandArgs(args).flags.value;
      var r := CommunicateOn(args, iosDir, makedirs, execute);
      && (f.isTest || f.isChmod ==> r == Ok(("", "")))
      && (!f.isTest && !f.isChmod && f.isWhich ==> r == Ok((WhichOutput, "")))
  {
  }

  /** The module branch: it raises ValueError exactly when the module-path
      pattern matches nowhere in the command; otherwise it runs the module
      at the leftmost match and answers its result plus a newline. */
  lemma {:induction false} ModuleBranchRuns(args: CommandArgs, iosDir: string, makedirs: string -> Option<Exc>,
                                            execute: string -> Result<string>)
    requires !IsEmptyArgs(args)
    requires var f := ParseCommandArgs(args).flags.value;
      var cmd := ParseCommandArgs(args).command;
      !f.isEcho && !(f.isMkdir && Contains(cmd, AnsibleTmp)) && !f.isTest && !f.isChmod && !f.isWhich && f.isAnsibleModule
    ensures var cmd := ParseCommandArgs(args).command;
      var r := CommunicateOn(args, iosDir, makedirs, execute);
      && ((forall i :: NoMatchAt(cmd, i)) ==> r == Err(NoModulePath()))
      && (BuildAnsibleModulePath(cmd).Some? ==>
            var path := BuildAnsibleModulePath(cmd).value;
            && |path| >= 2 + |ModuleFile| && path[0] == '/' && path[|path| - |ModuleFile|..] == ModuleFile
            && r == (match execute(path) case Err(e) => Err(e) case Ok(out) => Ok((out + "\n", ""))))
  {
    var cmd := ParseCommandArgs(args).command;
    var p, q := BuildAnsibleModulePathSpec(cmd);
    if BuildAnsibleModulePath(cmd).Some? {
      ModulePathShape(cmd);
    }
  }

  /** A command none of the rules recognise answers "success\n". */
  lemma {:induction false} UnknownAnswersSuccess(args: CommandArgs, iosDir: string, makedirs: string -> Option<Exc>,
                                                 execute: string -> Result<string>)
    requires !IsEmptyArgs(args)
    requires var f := ParseCommandArgs(args).flags.value;
      !f.isEcho && !f.isMkdir && !f.isTest && !f.isChmod && !f.isWhich && !f.isAnsibleModule
    ensures CommunicateOn(args, iosDir, makedirs, execute) == Ok((DefaultOutput, ""))
  {
  }
}
