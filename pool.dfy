/** The pool and current-process helpers of the `multiprocessing` stand-in:
    `ThreadPool` over a thread-pool executor, `_AsyncResult` over its
    future, and `current_process`/`parent_process` over the current thread. */
module Pool {
  import opened Wrappers
  import opened Strings
  import opened PyData

  // ------------------------------------------------------------ processes

  /** `threading.current_thread()`: whether it has a `_target` attribute, its
      name and its ident. */
  datatype ThreadInfo = ThreadInfo(hasTarget: bool, name: string, ident: int)

  /** `_FakeProcess`: a process-like record (`is_alive()` is always True). */
  datatype FakeProcess = FakeProcess(name: string, pid: int, daemon: bool, ident: int)

  /** What `current_process`/`parent_process` return: the module's
      `_main_process` singleton, or a fresh fake process. */
  datatype ProcessRef = MainProcess | Fresh(process: FakeProcess)

  /** The test both helpers use to recognise a `ThreadProcess` worker thread. */
  predicate IsWorkerThread(t: ThreadInfo) {
    t.hasTarget && StartsWith(t.name, "ThreadProcess")
  }

  /** `current_process()`; `pid` stands for `os.getpid()`. */
  function CurrentProcess(t: ThreadInfo, pid: int): (r: ProcessRef)
    ensures r.Fresh? <==> IsWorkerThread(t)
    ensures r.Fresh? ==> r.process == FakeProcess(t.name, pid, false, t.ident)
  {
    if t.hasTarget && StartsWith(t.name, "ThreadProcess") then Fresh(FakeProcess(t.name, pid, false, t.ident))
    else MainProcess
  }

  /** `parent_process()`: the main singleton seen from a worker, else None. */
  function ParentProcess(t: ThreadInfo): (r: Option<ProcessRef>)
    ensures r.Some? <==> IsWorkerThread(t)
    ensures r.Some? ==> r.value == MainProcess
  {
    if t.hasTarget && StartsWith(t.name, "ThreadProcess") then Some(MainProcess) else None
  }

  /** A thread has a parent exactly when it is not the main process itself. */
  lemma {:induction false} CurrentVersusParent(t: ThreadInfo, pid: int)
    ensures ParentProcess(t).None? <==> CurrentProcess(t, pid) == MainProcess
    ensures ParentProcess(t).Some? ==> CurrentProcess(t, pid).process.name == t.name
  {
  }

  /** A worker thread named anything not starting with "ThreadProcess" is
      taken for the main process. */
  lemma {:induction false} CustomNameLooksMain(t: ThreadInfo, pid: int)
    requires t.hasTarget && |t.name| > 0 && t.name[0] != 'T'
    ensures CurrentProcess(t, pid) == MainProcess && ParentProcess(t).None?
  {
  }

  /** `cpu_count()` */
  function CpuCount(): (n: nat)
    ensures n == 1
  {
    1
  }

  /** `active_children()` */
  function ActiveChildren(): (cs: seq<ProcessRef>)
    ensures |cs| == 0
  {
    []
  }

  // ------------------------------------------------------------ callbacks

  /** A call the done-callback makes. */
  datatype CallbackCall = CallbackWith(result: Value) | ErrorCallbackWith(exc: Exc)

  /** The optional `callback`: what calling it with a result does (return
      normally: None; raise: the exception). */
  type Callback = Value -> Option<Exc>

  /** `handle_result` as written: `callback` runs inside the same `try`, so
      an `Exception` it raises also reaches `error_callback`. A task that
      raised a non-`Exception` escapes both. */
  function HandleResultAsWritten(outcome: Result<Value>, callback: Option<Callback>, hasErrorCallback: bool): (calls: seq<CallbackCall>)
    ensures outcome.Ok? && callback.Some? ==> 1 <= |calls| <= 2 && calls[0] == CallbackWith(outcome.value)
    ensures outcome.Ok? && callback.None? ==> calls == []
    ensures |calls| == 2 <==> outcome.Ok? && callback.Some? && hasErrorCallback
                              && callback.value(outcome.value).Some? && callback.value(outcome.value).value.isException
    ensures |calls| == 2 ==> calls[1] == ErrorCallbackWith(callback.value(outcome.value).value)
    ensures outcome.Err? ==> calls == (if outcome.exc.isException && hasErrorCallback then [ErrorCallbackWith(outcome.exc)] else [])
  {
    match outcome
    case Ok(v) =>
      if callback.None? then []
      else
        (match callback.value(v)
         case None => [CallbackWith(v)]
         case Some(e) =>
           if e.isException && hasErrorCallback then [CallbackWith(v), ErrorCallbackWith(e)] else [CallbackWith(v)])
    case Err(e) =>
      if e.isException && hasErrorCallback then [ErrorCallbackWith(e)] else []
  }

  /** The done-callback as `multiprocessing.Pool.apply_async` promises it:
      `callback` with the result on success, `error_callback` with the
      exception on failure, never both. */
  function HandleResult(outcome: Result<Value>, callback: Option<Callback>, hasErrorCallback: bool): (calls: seq<CallbackCall>)
    ensures |calls| <= 1
    ensures outcome.Ok? ==> calls == (if callback.Some? then [CallbackWith(outcome.value)] else [])
    ensures outcome.Err? && outcome.exc.isException ==> calls == (if hasErrorCallback then [ErrorCallbackWith(outcome.exc)] else [])
    ensures outcome.Err? && !outcome.exc.isException ==> calls == []
  {
    match outcome
    case Ok(v) => if callback.Some? then [CallbackWith(v)] else []
    case Err(e) => if e.isException && hasErrorCallback then [ErrorCallbackWith(e)] else []
  }

  /** The two agree unless `callback` itself raises an `Exception` while an
      `error_callback` is set. */
  lemma {:induction false} HandleResultAgreement(outcome: Result<Value>, callback: Option<Callback>, hasErrorCallback: bool)
    requires !(outcome.Ok? && callback.Some? && hasErrorCallback
               && callback.value(outcome.value).Some? && callback.value(outcome.value).value.isException)
    ensures HandleResultAsWritten(outcome, callback, hasErrorCallback) == HandleResult(outcome, callback, hasErrorCallback)
  {
  }

  /** As written, a successful task whose `callback` raises gets both
      callbacks called. */
  lemma {:induction false} BothCallbacksAsWritten(v: Value)
    ensures var boom := Builtin("ValueError", "boom");
      var cb: Callback := (_: Value) => Some(boom);
      HandleResultAsWritten(Ok(v), Some(cb), true) == [CallbackWith(v), ErrorCallbackWith(boom)]
  {
  }

  // ------------------------------------------------------------ futures

  /** A `concurrent.futures.Future`: still running, or done with an outcome. */
  datatype Future = Pending | Done(outcome: Result<Value>)

  /** `_AsyncResult.ready()` */
  predicate Ready(f: Future) {
    f.Done?
  }

  /** `_AsyncResult.successful()`: done, and its exception is None. */
  function Successful(f: Future): (b: bool)
    ensures b <==> Ready(f) && f.outcome.Ok?
  {
    f.Done? && f.outcome.Ok?
  }

  function TimeoutError(): Exc { Bare("concurrent.futures._base", "TimeoutError") }

  /** `_AsyncResult` wrapping the future of one submitted task; `Complete`
      is the executor running the task and then its done-callbacks. */
  class AsyncResult {
    var future: Future
    /** What the submitted call will do when the worker runs it. */
    const task: Result<Value>
    const callback: Option<Callback>
    const hasErrorCallback: bool
    /** The callbacks called so far, in order. */
    var calls: seq<CallbackCall>

    constructor (task: Result<Value>, callback: Option<Callback>, hasErrorCallback: bool)
      ensures future == Pending && calls == []
      ensures this.task == task && this.callback == callback && this.hasErrorCallback == hasErrorCallback
    {
      future := Pending;
      this.task := task;
      this.callback := callback;
      this.hasErrorCallback := hasErrorCallback;
      calls := [];
    }

    /** The worker finishes the task; the done-callback, as written, runs
        once (see `HandleResultAgreement` for when it keeps the promise of
        `HandleResult`). */
    method Complete()
      requires future == Pending
      modifies this
      ensures future == Done(task)
      ensures calls == old(calls) + HandleResultAsWritten(task, callback, hasErrorCallback)
    {
      future := Done(task);
      calls := calls + HandleResultAsWritten(task, callback, hasErrorCallback);
    }

    /** `get(timeout)`: the task's result or exception; a timed wait on a
        running task times out, an untimed one waits for it. */
    method Get(timeout: Option<real>) returns (r: Result<Value>)
      requires future.Done? || timeout.Some?
      ensures future.Done? ==> r == future.outcome
      ensures future.Pending? ==> r == Err(TimeoutError())
    {
      if future.Pending? {
        return Err(TimeoutError());
      }
      return future.outcome;
    }

    /** `wait(timeout)`: whether the task is done by the end of the wait. */
    method Wait(timeout: Option<real>) returns (done: bool)
      requires future.Done? || timeout.Some?
      ensures done <==> Ready(future)
    {
      done := future.Done?;
    }
  }

  // ------------------------------------------------------------ pool

  function PoolClosed(): Exc { Builtin("ValueError", "Pool is closed") }
  function ExecutorShutDown(): Exc { Builtin("RuntimeError", "cannot schedule new futures after shutdown") }

  /** `list(executor.map(func, items))`: every result in order, or the
      exception of the first call that raised. */
  function MapAll(f: Value -> Result<Value>, xs: seq<Value>): Result<seq<Value>>
    decreases |xs|
  {
    if |xs| == 0 then Ok([])
    else
      match f(xs[0])
      case Err(e) => Err(e)
      case Ok(v) =>
        match MapAll(f, xs[1..])
        case Ok(vs) => Ok([v] + vs)
        case Err(e) => Err(e)
  }

  /** `map` succeeds exactly when every call does, giving their results in
      order; otherwise it raises the exception of the first failing call. */
  lemma {:induction false} MapAllSpec(f: Value -> Result<Value>, xs: seq<Value>)
    ensures MapAll(f, xs).Ok? <==> forall i :: 0 <= i < |xs| ==> f(xs[i]).Ok?
    ensures MapAll(f, xs).Ok? ==>
      |MapAll(f, xs).value| == |xs| && forall i :: 0 <= i < |xs| ==> MapAll(f, xs).value[i] == f(xs[i]).value
    ensures MapAll(f, xs).Err? ==>
      exists k :: (0 <= k < |xs| && f(xs[k]).Err? && MapAll(f, xs).exc == f(xs[k]).exc
                   && forall i :: 0 <= i < k ==> f(xs[i]).Ok?)
    decreases |xs|
  {
    if |xs| > 0 {
      MapAllSpec(f, xs[1..]);
      if f(xs[0]).Ok? && MapAll(f, xs[1..]).Err? {
        var k :| 0 <= k < |xs[1..]| && f(xs[1..][k]).Err? && MapAll(f, xs[1..]).exc == f(xs[1..][k]).exc
          && forall i :: 0 <= i < k ==> f(xs[1..][i]).Ok?;
        assert f(xs[k + 1]).Err? && forall i :: 0 <= i < k + 1 ==> f(xs[i]).Ok? by {
          forall i | 0 <= i < k + 1 ensures f(xs[i]).Ok? {
            if i > 0 { assert xs[i] == xs[1..][i - 1]; }
          }
        }
      }
      if forall i :: 0 <= i < |xs| ==> f(xs[i]).Ok? {
        assert forall i :: 0 <= i < |xs[1..]| ==> f(xs[1..][i]).Ok? by {
          forall i | 0 <= i < |xs[1..]| ensures f(xs[1..][i]).Ok? { assert xs[1..][i] == xs[i + 1]; }
        }
      }
    }
  }

  /** Consuming the iterator `imap` returns, as `list()` would: stops at the
      first failure. */
  function Consume(outcomes: seq<Result<Value>>): Result<seq<Value>>
    decreases |outcomes|
  {
    if |outcomes| == 0 then Ok([])
    else
      match outcomes[0]
      case Err(e) => Err(e)
      case Ok(v) =>
        match Consume(outcomes[1..])
        case Ok(vs) => Ok([v] + vs)
        case Err(e) => Err(e)
  }

  /** Draining `imap`'s iterator gives what `map` gives. */
  lemma {:induction false} ConsumeIsMap(f: Value -> Result<Value>, xs: seq<Value>)
    ensures Consume(seq(|xs|, i requires 0 <= i < |xs| => f(xs[i]))) == MapAll(f, xs)
    decreases |xs|
  {
    var os := seq(|xs|, i requires 0 <= i < |xs| => f(xs[i]));
    if |xs| > 0 {
      ConsumeIsMap(f, xs[1..]);
      assert os[1..] == seq(|xs[1..]|, i requires 0 <= i < |xs[1..]| => f(xs[1..][i]));
    }
  }

  /** `ThreadPool`: a thread-pool executor with `max_workers` workers and a
      closed flag that every submitting method checks first. */
  class ThreadPool {
    const maxWorkers: nat
    /** How many times `initializer(*initargs)` was submitted. */
    const initializerRuns: nat
    var closed: bool
    /** Whether the executor was shut down (`terminate` or `join`). */
    var shutdown: bool

    ghost predicate Valid()
      reads this
    {
      maxWorkers > 0
    }

    /** `ThreadPool(processes, initializer)` once `processes` is known to be
        accepted; see `NewThreadPool`. */
    constructor (workers: nat, hasInitializer: bool)
      requires workers > 0
      ensures Valid() && maxWorkers == workers && !closed && !shutdown
      ensures initializerRuns == if hasInitializer then workers else 0
    {
      maxWorkers := workers;
      initializerRuns := if hasInitializer then workers else 0;
      closed := false;
      shutdown := false;
    }

    /** The error a submitting method raises, if any: the pool's own closed
        check comes first, then the executor's shutdown check. */
    function Refusal(): (r: Option<Exc>)
      reads this
      ensures closed ==> r == Some(PoolClosed())
      ensures !closed && shutdown ==> r == Some(ExecutorShutDown())
      ensures r.None? <==> !closed && !shutdown
    {
      if closed then Some(PoolClosed()) else if shutdown then Some(ExecutorShutDown()) else None
    }

    /** `apply(func, args, kwds)`: the call's result, or the exception it
        raised. */
    method Apply(task: Result<Value>) returns (r: Result<Value>)
      ensures Refusal().Some? ==> r == Err(Refusal().value)
      ensures Refusal().None? ==> r == task
    {
      if closed {
        return Err(PoolClosed());
      }
      if shutdown {
        return Err(ExecutorShutDown());
      }
      return task;
    }

    /** `apply_async(func, args, kwds, callback, error_callback)`: a pending
        result whose completion calls the callbacks. */
    method ApplyAsync(task: Result<Value>, callback: Option<Callback>, hasErrorCallback: bool)
      returns (r: Result<AsyncResult>)
      ensures Refusal().Some? ==> r == Err(Refusal().value)
      ensures Refusal().None? ==>
        (r.Ok? && fresh(r.value) && r.value.future == Pending && r.value.calls == []
        && r.value.task == task && r.value.callback == callback && r.value.hasErrorCallback == hasErrorCallback)
    {
      if closed {
        return Err(PoolClosed());
      }
      if shutdown {
        return Err(ExecutorShutDown());
      }
      var a := new AsyncResult(task, callback, hasErrorCallback);
      return Ok(a);
    }

    /** `map(func, iterable)`: the executor only refuses when there is a
        call to submit, so an empty iterable passes a shut-down executor. */
    method Map(f: Value -> Result<Value>, xs: seq<Value>) returns (r: Result<seq<Value>>)
      ensures closed ==> r == Err(PoolClosed())
      ensures !closed && shutdown && |xs| > 0 ==> r == Err(ExecutorShutDown())
      ensures Refusal().None? || (!closed && |xs| == 0) ==> r == MapAll(f, xs)
    {
      if closed {
        return Err(PoolClosed());
      }
      if shutdown && |xs| > 0 {
        return Err(ExecutorShutDown());
      }
      return MapAll(f, xs);
    }

    /** `imap(func, iterable)`: every call is submitted at once; the iterator
        yields their outcomes in order. */
    method IMap(f: Value -> Result<Value>, xs: seq<Value>) returns (r: Result<seq<Result<Value>>>)
      ensures closed ==> r == Err(PoolClosed())
      ensures !closed && shutdown && |xs| > 0 ==> r == Err(ExecutorShutDown())
      ensures Refusal().None? || (!closed && |xs| == 0) ==>
        r.Ok? && |r.value| == |xs| && forall i :: 0 <= i < |xs| ==> r.value[i] == f(xs[i])
    {
      if closed {
        return Err(PoolClosed());
      }
      if shutdown && |xs| > 0 {
        return Err(ExecutorShutDown());
      }
      return Ok(seq(|xs|, i requires 0 <= i < |xs| => f(xs[i])));
    }

    /** `close()` */
    method Close()
      modifies this`closed
      ensures closed && Refusal() == Some(PoolClosed())
    {
      closed := true;
    }

    /** `terminate()`: closed, and the executor shut down without waiting. */
    method Terminate()
      modifies this`closed, this`shutdown
      ensures closed && shutdown && Refusal() == Some(PoolClosed())
    {
      closed := true;
      shutdown := true;
    }

    /** `join()`: shuts the executor down. The pool is not closed, so later
        submissions reach the executor and are refused by it. */
    method Join()
      modifies this`shutdown
      ensures shutdown && closed == old(closed)
      ensures !closed ==> Refusal() == Some(ExecutorShutDown())
    {
      shutdown := true;
    }

    /** Leaving a `with ThreadPool(...)` block: `terminate()`, then `join()`;
        whatever the block did, the pool refuses every later submission. */
    method Exit()
      modifies this`closed, this`shutdown
      ensures closed && shutdown && Refusal() == Some(PoolClosed())
    {
      Terminate();
      Join();
    }
  }

  /** `ThreadPool(processes, initializer)`: None means one worker; the
      executor refuses a count below one. */
  method NewThreadPool(processes: Option<int>, hasInitializer: bool) returns (r: Result<ThreadPool>)
    ensures r.Err? <==> processes.Some? && processes.value <= 0
    ensures r.Err? ==> r.exc == Builtin("ValueError", "max_workers must be greater than 0")
    ensures r.Ok? ==>
      (fresh(r.value) && r.value.Valid() && !r.value.closed && !r.value.shutdown
      && r.value.maxWorkers == (if processes.None? then 1 else processes.value)
      && r.value.initializerRuns == (if hasInitializer then r.value.maxWorkers else 0))
  {
    var n := if processes.None? then 1 else processes.value;
    if n <= 0 {
      return Err(Builtin("ValueError", "max_workers must be greater than 0"));
    }
    var p := new ThreadPool(n, hasInitializer);
    return Ok(p);
  }
}
