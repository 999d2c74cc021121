/** `ThreadProcess`: a `multiprocessing.Process` look-alike that runs its body
    on one thread. The worker thread's `_run_wrapper` is the explicit step
    `RunBody`, taken some time after `Start`; a blocking `join()` is a
    precondition that the body has already run. */
module Process {
  import opened Wrappers
  import opened PyData
  import opened Strings

  /** `signal.SIGTERM` */
  const SIGTERM: int := 15

  /** What one call of the body does: return a value or raise. */
  datatype Outcome = Returns(result: Value) | Raises(exc: Exc)

  /** The `run` method of the process's class: the base no-op, or a
      subclass's override and what calling it does. */
  datatype RunMethod = BaseRun | Overridden(outcome: Outcome)

  /** The call `_run_wrapper` makes: the `target=` callable, or `self.run()`. */
  datatype Invocation = Target(outcome: Outcome) | Override(outcome: Outcome)

  /** The worker thread: not created yet, running, or returned. */
  datatype ThreadState = NoThread | Alive | Finished

  /** `_exception_info`: the exception and its formatted traceback. */
  datatype ExceptionInfo = ExceptionInfo(exc: Exc, traceback: string)

  /** What `_run_wrapper` leaves behind: `_exitcode`, the contents of the
      result queue and of the exception queue (which also is `_exception_info`). */
  datatype Completion = Completion(exitcode: Option<int>, results: seq<Value>, info: Option<ExceptionInfo>)

  /** What `self.run()` does for a class with this `run` method. */
  function RunOutcome(m: RunMethod): Outcome {
    match m
    case BaseRun => Returns(VNone)
    case Overridden(o) => o
  }

  /** `getattr(e, "code", 1)` */
  function CodeOf(e: Exc): Option<int> {
    match e.code
    case Some(c) => c
    case None => Some(1)
  }

  /** The effect of `_run_wrapper` given whether termination was requested
      before the body began, the call it dispatches, and the traceback text. */
  function Complete(terminated: bool, inv: Invocation, traceback: string): Completion {
    if terminated then Completion(Some(-SIGTERM), [], None)
    else
      match inv.outcome
      case Returns(v) => Completion(Some(0), [v], None)
      case Raises(e) =>
        if e.isException then Completion(Some(1), [], Some(ExceptionInfo(e, traceback)))
        else Completion(CodeOf(e), [], None)
  }

  /** How the body ended, read off the completion: exit code 0 exactly for a
      normal return; an `Exception` gives exit code 1 and is recorded; any
      other `BaseException` records nothing and exits with its `code`
      attribute (default 1); a termination request gives `-SIGTERM`. */
  lemma {:induction false} CompletionCases(terminated: bool, inv: Invocation, tb: string)
    ensures var c := Complete(terminated, inv, tb);
      && (terminated ==> c == Completion(Some(-15), [], None))
      && (!terminated && inv.outcome.Returns? ==> c.exitcode == Some(0) && c.results == [inv.outcome.result] && c.info.None?)
      && (!terminated && inv.outcome.Raises? && inv.outcome.exc.isException ==>
            c.exitcode == Some(1) && c.results == [] && c.info == Some(ExceptionInfo(inv.outcome.exc, tb)))
      && (!terminated && inv.outcome.Raises? && !inv.outcome.exc.isException ==>
            c.results == [] && c.info.None? &&
            c.exitcode == (if inv.outcome.exc.code.Some? then inv.outcome.exc.code.value else Some(1)))
      && (c.info.Some? <==> !terminated && inv.outcome.Raises? && inv.outcome.exc.isException)
      && (|c.results| == 1 <==> !terminated && inv.outcome.Returns?)
      && |c.results| <= 1
  {
  }

  class ThreadProcess {
    /** `self.__class__.__name__`: "ThreadProcess" or the subclass's name. */
    const className: string
    const target: Option<(seq<Value>, Dict) -> Outcome>
    const runMethod: RunMethod
    const args: seq<Value>
    const kwargs: Dict

    var name: string
    var daemon: Option<bool>
    var started: bool
    var thread: ThreadState
    var pid: Option<int>
    var exitcode: Option<int>
    var exceptionQueue: seq<ExceptionInfo>
    var resultQueue: seq<Value>
    var exceptionInfo: Option<ExceptionInfo>
    var terminateRequested: bool

    /** The object invariant: a thread exists exactly once `start` ran; while
        it runs nothing is recorded; the exception queue mirrors
        `_exception_info`; an `Exception` means exit code 1. */
    ghost predicate Valid()
      reads this
    {
      && (started <==> thread != NoThread)
      && (!started ==> !terminateRequested && pid.None?)
      && (thread != Finished ==>
            exitcode.None? && resultQueue == [] && exceptionQueue == [] && exceptionInfo.None?)
      && |resultQueue| <= 1
      && |exceptionQueue| <= 1
      && (exceptionQueue != [] ==> exceptionInfo == Some(exceptionQueue[0]))
      && (exceptionInfo.Some? ==> exitcode == Some(1) && resultQueue == [])
    }

    /** `ThreadProcess(target=..., name=..., args=..., kwargs=..., daemon=...)`;
        `objectId` stands for `id(self)`, used in the default name. */
    constructor (className: string, target: Option<(seq<Value>, Dict) -> Outcome>, runMethod: RunMethod,
                 name: Option<string>, args: seq<Value>, kwargs: Option<Dict>, daemon: Option<bool>,
                 objectId: nat)
      ensures Valid() && !started && thread == NoThread
      ensures this.className == className && this.target == target && this.runMethod == runMethod
      ensures this.args == args && this.kwargs == (if kwargs.Some? then kwargs.value else [])
      ensures this.name == (if name.Some? && name.value != "" then name.value
                            else "ThreadProcess-" + NatToString(objectId))
      ensures this.daemon == daemon && exitcode.None? && pid.None?
      ensures resultQueue == [] && exceptionQueue == [] && exceptionInfo.None? && !terminateRequested
    {
      this.className := className;
      this.target := target;
      this.runMethod := runMethod;
      this.args := args;
      this.kwargs := if kwargs.Some? then kwargs.value else [];
      this.name := if name.Some? && name.value != "" then name.value
                   else "ThreadProcess-" + NatToString(objectId);
      this.daemon := daemon;
      started := false;
      thread := NoThread;
      pid := None;
      exitcode := None;
      exceptionQueue := [];
      resultQueue := [];
      exceptionInfo := None;
      terminateRequested := false;
    }

    /** `is_alive()`: never raises; False before `start`. */
    function IsAlive(): (r: bool)
      reads this
      requires Valid()
      ensures r <==> thread == Alive
      ensures !started ==> !r
    {
      started && thread != NoThread && thread == Alive
    }

    /** The `exitcode` property. */
    function ExitCode(): (r: Option<int>)
      reads this
      requires Valid()
      ensures r.Some? ==> thread == Finished
      ensures thread != Finished ==> r.None?
      ensures thread == Finished ==> r == exitcode
    {
      if !started then None
      else if IsAlive() then None
      else exitcode
    }

    /** The call `_run_wrapper` dispatches: the target with `args` and
        `kwargs` when one was given, otherwise `self.run()`. */
    function Dispatch(): (inv: Invocation)
      reads this
      ensures inv.Target? <==> target.Some?
      ensures target.Some? ==> inv.outcome == target.value(args, kwargs)
      ensures target.None? ==> inv.outcome == RunOutcome(runMethod)
    {
      if target.Some? then Target(target.value(args, kwargs)) else Override(RunOutcome(runMethod))
    }

    /** The `daemon` setter: refused once started. */
    method SetDaemon(value: bool) returns (r: Result<()>)
      requires Valid()
      modifies this`daemon
      ensures Valid()
      ensures r.Err? <==> started
      ensures r.Err? ==> r.exc == Builtin("RuntimeError", "cannot set daemon status of active process")
      ensures daemon == if started then old(daemon) else Some(value)
    {
      if started {
        return Err(Builtin("RuntimeError", "cannot set daemon status of active process"));
      }
      daemon := Some(value);
      return Ok(());
    }

    /** The `name` setter (the thread, once it exists, is renamed too). */
    method SetName(value: string)
      requires Valid()
      modifies this`name
      ensures Valid() && name == value
    {
      name := value;
    }

    /** `start()`: only from the initial state; records the caller's thread
        ident as `pid` and launches the worker thread. */
    method Start(callerIdent: int) returns (r: Result<()>)
      requires Valid()
      modifies this
      ensures Valid()
      ensures r.Err? <==> old(started)
      ensures r.Err? ==> r.exc == Builtin("RuntimeError", "process has already started")
      ensures r.Err? ==> unchanged(this)
      ensures r.Ok? ==> started && thread == Alive && pid == Some(callerIdent)
      ensures r.Ok? ==> name == old(name) && daemon == old(daemon) && !terminateRequested
      ensures r.Ok? ==> exitcode.None? && resultQueue == [] && exceptionQueue == [] && exceptionInfo.None?
    {
      if started {
        return Err(Builtin("RuntimeError", "process has already started"));
      }
      started := true;
      pid := Some(callerIdent);
      thread := Alive;
      return Ok(());
    }

    /** The worker thread's `_run_wrapper`: checks the termination flag once,
        before the body, then runs the dispatched call and records how it
        ended; the thread then finishes. */
    method RunBody(traceback: string)
      requires Valid() && thread == Alive
      modifies this
      ensures Valid() && thread == Finished
      ensures var c := Complete(old(terminateRequested), Dispatch(), traceback);
        exitcode == c.exitcode && resultQueue == c.results && exceptionInfo == c.info
        && exceptionQueue == (if c.info.Some? then [c.info.value] else [])
      ensures started && name == old(name) && daemon == old(daemon) && pid == old(pid)
      ensures terminateRequested == old(terminateRequested)
    {
      thread := Finished;
      if terminateRequested {
        exitcode := Some(-SIGTERM);
        return;
      }
      var inv := Dispatch();
      match inv.outcome {
        case Returns(v) =>
          resultQueue := resultQueue + [v];
          exitcode := Some(0);
        case Raises(e) =>
          if e.isException {
            exceptionInfo := Some(ExceptionInfo(e, traceback));
            exceptionQueue := exceptionQueue + [exceptionInfo.value];
            exitcode := Some(1);
          } else {
            exitcode := CodeOf(e);
          }
      }
    }

    /** `_check_for_exceptions`: takes the first entry off the exception
        queue, if any, into `_exception_info`; never raises. */
    method CheckForExceptions()
      requires Valid()
      modifies this`exceptionQueue, this`exceptionInfo
      ensures Valid()
      ensures old(exceptionQueue) != [] ==>
        exceptionInfo == Some(old(exceptionQueue)[0]) && exceptionQueue == old(exceptionQueue)[1..]
      ensures old(exceptionQueue) == [] ==> exceptionInfo == old(exceptionInfo) && exceptionQueue == []
      ensures exceptionInfo == old(exceptionInfo)
    {
      var done := false;
      while !done
        invariant Valid() && exceptionInfo == old(exceptionInfo)
        invariant !done ==> exceptionQueue == old(exceptionQueue)
        invariant done ==> exceptionQueue == if old(exceptionQueue) == [] then [] else old(exceptionQueue)[1..]
        decreases if done then 0 else 1
      {
        if exceptionQueue == [] {
          // `queue.Empty`
          done := true;
        } else {
          var info := exceptionQueue[0];
          exceptionQueue := exceptionQueue[1..];
          // the entry is a 3-tuple, hence truthy: it is stored and the loop ends
          exceptionInfo := Some(info);
          done := true;
        }
      }
    }

    /** `join(timeout)`: refused before `start`; without a timeout it waits
        for the body to have run. The worker's exception is never raised. */
    method Join(timeout: Option<real>) returns (r: Result<()>)
      requires Valid()
      requires started && timeout.None? ==> thread == Finished
      modifies this`exceptionQueue, this`exceptionInfo
      ensures Valid()
      ensures r.Err? <==> !started
      ensures r.Err? ==> r.exc == Builtin("RuntimeError", "can only join a started process")
      ensures exceptionInfo == old(exceptionInfo)
      ensures ExitCode() == old(ExitCode())
    {
      if !started {
        return Err(Builtin("RuntimeError", "can only join a started process"));
      }
      CheckForExceptions();
      return Ok(());
    }

    /** `terminate()` (and `kill()`): a no-op unless alive; otherwise raises
        the flag that the body checks before it begins. */
    method Terminate()
      requires Valid()
      modifies this`terminateRequested
      ensures Valid()
      ensures terminateRequested == (old(terminateRequested) || old(IsAlive()))
    {
      if !IsAlive() {
        return;
      }
      terminateRequested := true;
    }

    /** `close()`: a live process is asked to terminate and joined with a
        one-second timeout. */
    method Close()
      requires Valid()
      modifies this`terminateRequested, this`exceptionQueue, this`exceptionInfo
      ensures Valid()
      ensures terminateRequested == (old(terminateRequested) || old(IsAlive()))
      ensures exceptionInfo == old(exceptionInfo)
    {
      if IsAlive() {
        Terminate();
        var _ := Join(Some(1.0));
      }
    }

    /** `get_result()`: refused while alive; re-raises a recorded exception;
        otherwise hands out the queued result once, then None. */
    method GetResult() returns (r: Result<Value>)
      requires Valid()
      modifies this`resultQueue
      ensures Valid()
      ensures old(IsAlive()) ==> r == Err(Builtin("RuntimeError", "Process is still running"))
      ensures !old(IsAlive()) && exceptionInfo.Some? ==> r == Err(exceptionInfo.value.exc)
      ensures !old(IsAlive()) && exceptionInfo.None? ==>
        r == Ok(if old(resultQueue) != [] then old(resultQueue)[0] else VNone)
      ensures resultQueue == if r.Ok? && old(resultQueue) != [] then old(resultQueue)[1..] else old(resultQueue)
    {
      if IsAlive() {
        return Err(Builtin("RuntimeError", "Process is still running"));
      }
      if exceptionInfo.Some? {
        return Err(exceptionInfo.value.exc);
      }
      if resultQueue == [] {
        return Ok(VNone);
      }
      r := Ok(resultQueue[0]);
      resultQueue := resultQueue[1..];
    }

    /** `repr(p)`: `<Class(name, status)>` with status "initial", "started"
        or "stopped[<exitcode>]". */
    function Repr(): (s: string)
      reads this
      requires Valid()
      ensures !started ==> s == ReprText(className, name, "initial")
      ensures IsAlive() ==> s == ReprText(className, name, "started")
      ensures thread == Finished ==> s == ReprText(className, name, "stopped[" + ExitCodeText(exitcode) + "]")
    {
      var status :=
        if !started then "initial"
        else if IsAlive() then "started"
        else "stopped[" + ExitCodeText(exitcode) + "]";
      ReprText(className, name, status)
    }
  }

  /** `f"<{cls}({name}, {status})>"` */
  function ReprText(className: string, name: string, status: string): string {
    "<" + className + "(" + name + ", " + status + ")>"
  }

  /** `str(exitcode)` */
  function ExitCodeText(code: Option<int>): string {
    match code
    case None => "None"
    case Some(c) => IntToString(c)
  }

  /** Without a target the override runs; with one, the override never does,
      even in a subclass that defines `run`. A bare process runs the base
      no-op and returns None. */
  lemma {:induction false} DispatchRule(p: ThreadProcess)
    ensures p.target.None? ==> p.Dispatch() == Override(RunOutcome(p.runMethod))
    ensures p.target.Some? ==> p.Dispatch().Target?
    ensures p.target.None? && p.runMethod == BaseRun ==> p.Dispatch() == Override(Returns(VNone))
  {
  }
}
