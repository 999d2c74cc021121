# briefcase_ansible_test core, modelled in Dafny

briefcase_ansible_test runs Ansible inside an iOS app. iOS has no `fork`, so
the app ships a thread-backed stand-in for Python's `multiprocessing`:

- `ThreadProcess`, a process object whose body runs on a thread;
- `ProcessQueue`, `ProcessSimpleQueue` and `JoinableQueue`, which carry an
  exception across the "process" boundary inside an `__exception__` envelope
  and rebuild it on the way out;
- a context factory that always answers "thread";
- a `ThreadPool` over a thread-pool executor, plus `current_process`,
  `parent_process`, `cpu_count` and `active_children`.

Around that runtime sit pure helpers, and this project models those too:

- the command-string helpers in `data_processing.py`;
- the virtual-environment helpers: paths, wrapper variables, metadata files
  and the venv index, filtering, sorting and the run decision of
  `run_playbook_with_venv`;
- the UI text formatters and the `StatusReporter` message accumulator;
- the environment-variable user-name lookup;
- the two mock `subprocess.Popen` classes, which answer shell commands by
  fixed rules.

The model is sequential. The worker thread's body is an explicit step
(`Process.ThreadProcess.RunBody`, `Pool.AsyncResult.Complete`). A blocking
wait is a precondition: the caller may wait only when the wait would end. A
timed wait that cannot succeed ends at once with `queue.Full`, `queue.Empty`
or `TimeoutError`, because no other thread exists to change the state.

The following become parameters:

- clocks (`time.time()`, the `now` text);
- `tempfile.gettempdir()`;
- `os.environ`, as a map;
- `os.getpid()` and the caller's thread ident;
- the file system, as a function from path to file state;
- the modules loaded in `sys.modules`, as a registry of classes;
- callbacks and task outcomes.

Python values are modelled by `PyData.Value`. A dict is an association list,
so key order and "last assignment wins" are explicit. An exception is
`PyData.Exc`. It records the module, the class, the args, whether the class
derives from `Exception`, and whether it pickles.

The files are:

- `wrappers.dfy`: `Option` and `Result`;
- `strings.dfy`: `str` methods (`split`, `strip`, `join`, `in`, `lower`);
- `py_data.dfy`: Python values and dicts;
- `json_text.dfy`: `json.dumps` string escaping;
- one file per source module.

`utils/multiprocessing/queues.py` and `utils/_multiprocessing/queues.py` are
the same file, so they are modelled once. The same holds for
`ansible/venv_management/ui.py` and `ansible/remote_venv_manager/core/ui.py`.

Where the code and its documentation disagree, the model follows the code:

- `is_alive()` before `start()` returns False rather than raising.
- `apply_async` calls both callbacks when `callback` itself raises (see
  Findings).
- The metadata-saved message opens with the mis-encoded icon text `"âœ…"`,
  exactly as it is written in `executor.py`.

## Model

| member | source | states |
|---|---|---|
| Context.GetContext | briefcase_ansible_test/src/briefcase_ansible_test/utils/multiprocessing/context.py:129-152 | None, "thread" and any unknown name give the one default context; "spawn", "fork" and "forkserver" give a new instance of the matching subclass whose method is "thread" |
| Context.ContextGetContext | briefcase_ansible_test/src/briefcase_ansible_test/utils/multiprocessing/context.py:60-72 | `ctx.get_context` always builds a new plain ThreadContext, never the receiver; it carries the given method, or the receiver's for None |
| Context.GetStartMethod | briefcase_ansible_test/src/briefcase_ansible_test/utils/multiprocessing/context.py:74-84 | the start method reported is one of the methods `get_all_start_methods` lists |
| Context.SetStartMethod | briefcase_ansible_test/src/briefcase_ansible_test/utils/multiprocessing/context.py:86-95 | `set_start_method` is a no-op: the context keeps its class, its method and its reported start method |
| Context.GetAllStartMethods | briefcase_ansible_test/src/briefcase_ansible_test/utils/multiprocessing/context.py:97-104 | the only start method offered is "thread" |
| Context.GetContextIsThreadBased | briefcase_ansible_test/src/briefcase_ansible_test/utils/multiprocessing/context.py:34-49 | every context `get_context` returns has method "thread", reports "thread" even after `set_start_method`, and offers the same factory classes (ThreadProcess, ProcessQueue, ...) as the default context |
| Context.ContextChainKeepsMethod | briefcase_ansible_test/src/briefcase_ansible_test/utils/multiprocessing/context.py:60-72 | asking a context for a context twice without a method keeps the original method |
| Pool.CurrentProcess | briefcase_ansible_test/src/briefcase_ansible_test/utils/multiprocessing/__init__.py:117-129 | a fresh fake process, named after the thread and carrying its ident, exactly on a thread with a target whose name starts "ThreadProcess"; the main singleton otherwise |
| Pool.ParentProcess | briefcase_ansible_test/src/briefcase_ansible_test/utils/multiprocessing/__init__.py:76-94 | the main singleton exactly on a worker thread, None elsewhere |
| Pool.CurrentVersusParent | briefcase_ansible_test/src/briefcase_ansible_test/utils/multiprocessing/__init__.py:76-129 | a thread has a parent exactly when its current process is not the main singleton, and then the current process bears the thread's name |
| Pool.CustomNameLooksMain | briefcase_ansible_test/src/briefcase_ansible_test/utils/multiprocessing/__init__.py:123-125 | a thread with a target whose name starts with a letter other than "T", so not with "ThreadProcess", is taken for the main process and has no parent |
| Pool.CpuCount | briefcase_ansible_test/src/briefcase_ansible_test/utils/multiprocessing/__init__.py:133 | the CPU count is 1 |
| Pool.ActiveChildren | briefcase_ansible_test/src/briefcase_ansible_test/utils/multiprocessing/__init__.py:132 | there are never active children |
| Pool.HandleResultAsWritten | briefcase_ansible_test/src/briefcase_ansible_test/utils/multiprocessing/__init__.py:190-201 | the done-callback as written: on success `callback` first, then `error_callback` as well exactly when `callback` raised an `Exception` and an `error_callback` is set; on failure `error_callback` alone for an `Exception`, nothing for other `BaseException`s |
| Pool.HandleResult | briefcase_ansible_test/src/briefcase_ansible_test/utils/multiprocessing/__init__.py:190-201 | the corrected done-callback: `callback` with the result on success, `error_callback` with an `Exception`, nothing for other `BaseException`s; never more than one call |
| Pool.HandleResultAgreement | briefcase_ansible_test/src/briefcase_ansible_test/utils/multiprocessing/__init__.py:192-199 | the code as written and the corrected callback agree on every input except a raising `callback` with an `error_callback` set |
| Pool.BothCallbacksAsWritten | briefcase_ansible_test/src/briefcase_ansible_test/utils/multiprocessing/__init__.py:192-199 | as written, a successful task whose `callback` raises ValueError("boom") gets `callback` and then `error_callback`, two calls |
| Pool.Successful | briefcase_ansible_test/src/briefcase_ansible_test/utils/multiprocessing/__init__.py:264-266 | `successful()` holds exactly when the future is done and ended without an exception |
| Pool.AsyncResult.constructor | briefcase_ansible_test/src/briefcase_ansible_test/utils/multiprocessing/__init__.py:246-247 | a new async result is pending, with no callbacks called yet |
| Pool.AsyncResult.Complete | briefcase_ansible_test/src/briefcase_ansible_test/utils/multiprocessing/__init__.py:187-201 | finishing the task records its outcome and appends exactly the calls the done-callback as written makes |
| Pool.AsyncResult.Get | briefcase_ansible_test/src/briefcase_ansible_test/utils/multiprocessing/__init__.py:249-251 | `get` returns the task's result or raises its exception; a timed `get` on a pending task raises TimeoutError |
| Pool.AsyncResult.Wait | briefcase_ansible_test/src/briefcase_ansible_test/utils/multiprocessing/__init__.py:253-258 | `wait` reports whether the task is done |
| Pool.MapAllSpec | briefcase_ansible_test/src/briefcase_ansible_test/utils/multiprocessing/__init__.py:205-211 | `map` succeeds exactly when every call succeeds, with their results in input order; otherwise it raises the exception of a failing call |
| Pool.ConsumeIsMap | briefcase_ansible_test/src/briefcase_ansible_test/utils/multiprocessing/__init__.py:205-218 | draining the `imap` iterator gives the same outcome as `map` |
| Pool.ThreadPool.constructor | briefcase_ansible_test/src/briefcase_ansible_test/utils/multiprocessing/__init__.py:145-168 | a new pool is open, its executor running, with the given number of workers; the initializer is submitted once per worker |
| Pool.ThreadPool.Refusal | briefcase_ansible_test/src/briefcase_ansible_test/utils/multiprocessing/__init__.py:174-175 | submissions are refused with "Pool is closed" once closed, else with the executor's shutdown error once shut down, and accepted exactly when neither |
| Pool.ThreadPool.Apply | briefcase_ansible_test/src/briefcase_ansible_test/utils/multiprocessing/__init__.py:170-178 | `apply` returns the call's outcome unless the pool refuses |
| Pool.ThreadPool.ApplyAsync | briefcase_ansible_test/src/briefcase_ansible_test/utils/multiprocessing/__init__.py:180-203 | `apply_async` returns a new pending async result holding the task and its callbacks, unless the pool refuses |
| Pool.ThreadPool.Map | briefcase_ansible_test/src/briefcase_ansible_test/utils/multiprocessing/__init__.py:205-211 | a closed pool raises "Pool is closed"; a shut-down executor refuses only a non-empty iterable; otherwise the result is that of `map` |
| Pool.ThreadPool.IMap | briefcase_ansible_test/src/briefcase_ansible_test/utils/multiprocessing/__init__.py:213-218 | as `Map`, but it yields each call's outcome in input order |
| Pool.ThreadPool.Close | briefcase_ansible_test/src/briefcase_ansible_test/utils/multiprocessing/__init__.py:220-222 | after `close` every submission is refused with "Pool is closed" |
| Pool.ThreadPool.Terminate | briefcase_ansible_test/src/briefcase_ansible_test/utils/multiprocessing/__init__.py:224-227 | after `terminate` the pool is closed and the executor shut down |
| Pool.ThreadPool.Join | briefcase_ansible_test/src/briefcase_ansible_test/utils/multiprocessing/__init__.py:229-231 | `join` shuts the executor down without closing the pool, so an open pool then refuses with the executor's error |
| Pool.ThreadPool.Exit | briefcase_ansible_test/src/briefcase_ansible_test/utils/multiprocessing/__init__.py:236-238 | leaving a `with` block closes the pool and shuts the executor down |
| Pool.NewThreadPool | briefcase_ansible_test/src/briefcase_ansible_test/utils/multiprocessing/__init__.py:145-168 | a worker count of 0 or less raises ValueError("max_workers must be greater than 0"); None means one worker |
| Process.CompletionCases | briefcase_ansible_test/src/briefcase_ansible_test/utils/_multiprocessing/process.py:197-234 | how the body ends decides the record: a normal return queues the result with exit code 0; an `Exception` records it with exit code 1; another `BaseException` records nothing and exits with its `code` (default 1); a termination request gives -15 |
| Process.DispatchRule | briefcase_ansible_test/src/briefcase_ansible_test/utils/_multiprocessing/process.py:173-182 | without a target the `run` override is called; with one the override never is; a bare process runs the no-op `run` and returns None |
| Process.ThreadProcess.constructor | briefcase_ansible_test/src/briefcase_ansible_test/utils/_multiprocessing/process.py:37-73 | a new process is not started, keeps its arguments, and is named "ThreadProcess-<id>" unless given a non-empty name |
| Process.ThreadProcess.IsAlive | briefcase_ansible_test/src/briefcase_ansible_test/utils/_multiprocessing/process.py:121-125 | alive exactly while the thread runs; False before `start` |
| Process.ThreadProcess.ExitCode | briefcase_ansible_test/src/briefcase_ansible_test/utils/_multiprocessing/process.py:104-119 | None until the thread has finished, then the recorded exit code |
| Process.ThreadProcess.Dispatch | briefcase_ansible_test/src/briefcase_ansible_test/utils/_multiprocessing/process.py:207-218 | the target is called with `args` and `kwargs` exactly when one was given; otherwise `run()` is called |
| Process.ThreadProcess.SetDaemon | briefcase_ansible_test/src/briefcase_ansible_test/utils/_multiprocessing/process.py:92-97 | the daemon flag changes only before `start`; afterwards RuntimeError("cannot set daemon status of active process") |
| Process.ThreadProcess.SetName | briefcase_ansible_test/src/briefcase_ansible_test/utils/_multiprocessing/process.py:80-85 | the name becomes the given one |
| Process.ThreadProcess.Start | briefcase_ansible_test/src/briefcase_ansible_test/utils/_multiprocessing/process.py:127-140 | a second `start` raises RuntimeError and changes nothing; the first makes the process alive with the caller's ident as pid and nothing recorded yet |
| Process.ThreadProcess.RunBody | briefcase_ansible_test/src/briefcase_ansible_test/utils/_multiprocessing/process.py:197-234 | the worker step finishes the thread with exactly the exit code, result and exception record its completion determines |
| Process.ThreadProcess.CheckForExceptions | briefcase_ansible_test/src/briefcase_ansible_test/utils/_multiprocessing/process.py:236-248 | the first queued exception, if any, moves into the exception record; otherwise nothing changes |
| Process.ThreadProcess.Join | briefcase_ansible_test/src/briefcase_ansible_test/utils/_multiprocessing/process.py:142-158 | `join` before `start` raises RuntimeError; it never raises the worker's exception and changes neither the exit code nor the record |
| Process.ThreadProcess.Terminate | briefcase_ansible_test/src/briefcase_ansible_test/utils/_multiprocessing/process.py:160-171 | `terminate` and `kill` raise the termination flag only on a live process |
| Process.ThreadProcess.Close | briefcase_ansible_test/src/briefcase_ansible_test/utils/_multiprocessing/process.py:184-188 | `close` asks a live process to terminate and keeps the exception record |
| Process.ThreadProcess.GetResult | briefcase_ansible_test/src/briefcase_ansible_test/utils/_multiprocessing/process.py:250-271 | refused with RuntimeError while alive; re-raises a recorded exception; otherwise hands out the queued result once, then None |
| Process.ThreadProcess.Repr | briefcase_ansible_test/src/briefcase_ansible_test/utils/_multiprocessing/process.py:273-282 | the text shows the class, the name and "initial", "started" or "stopped[<exitcode>]" according to the life-cycle state |
| Queues.EnvelopeKeys | briefcase_ansible_test/src/briefcase_ansible_test/utils/multiprocessing/queues.py:136-143 | an envelope holds exactly the keys `__exception__`, `type`, `args`, `traceback` and `pickled`, in that order |
| Queues.Envelope | briefcase_ansible_test/src/briefcase_ansible_test/utils/multiprocessing/queues.py:136-143 | each envelope key reads back the value it was built with |
| Queues.Serialize | briefcase_ansible_test/src/briefcase_ansible_test/utils/multiprocessing/queues.py:126-152 | a picklable exception is recorded under its qualified type with its args and pickle; otherwise type "Exception", the one argument `str(exc)` and no pickle |
| Queues.SerializeKeys | briefcase_ansible_test/src/briefcase_ansible_test/utils/multiprocessing/queues.py:126-152 | a serialized exception always has exactly the five envelope keys |
| Queues.Splat | briefcase_ansible_test/src/briefcase_ansible_test/utils/multiprocessing/queues.py:173-181 | `cls(*args)` spreads a list into its items and raises TypeError exactly for values that are not iterable |
| Queues.RSplitDot | briefcase_ansible_test/src/briefcase_ansible_test/utils/multiprocessing/queues.py:173 | `rsplit(".", 1)` splits at the last dot: the parts rejoin to the name and the class part holds no dot |
| Queues.Resolve | briefcase_ansible_test/src/briefcase_ansible_test/utils/multiprocessing/queues.py:171-183 | a name resolves only to a loaded class whose module and class names rejoin to it; a name without a dot never resolves |
| Queues.RoundTrip | briefcase_ansible_test/src/briefcase_ansible_test/utils/multiprocessing/queues.py:126-186 | a picklable exception comes back from its envelope equal to itself when its pickle loads; when loading raises, it is rebuilt by name if its class takes its args, else it comes back as a plain `Exception` with those args |
| Queues.LoadFailureFallsBack | briefcase_ansible_test/src/briefcase_ansible_test/utils/multiprocessing/queues.py:164-186 | an exception that pickles but whose class raises on its own args, both in `pickle.loads` and when called by name, comes back as a plain `Exception` with its args |
| Queues.ArityMismatchComesBackPlain | briefcase_ansible_test/src/briefcase_ansible_test/utils/multiprocessing/queues.py:164-186 | `E("x", 1)` whose `__init__(a, b)` keeps only `a` in its args is handed back as `Exception("x")` |
| Queues.RoundTripFallback | briefcase_ansible_test/src/briefcase_ansible_test/utils/multiprocessing/queues.py:144-152 | an exception that does not pickle comes back as a plain `Exception` carrying its text, whatever modules are loaded |
| Queues.RebuildByName | briefcase_ansible_test/src/briefcase_ansible_test/utils/multiprocessing/queues.py:164-186 | without a pickle that loads, an envelope naming a loaded class that takes its args is rebuilt as that class with them; a class that raises on them, a name without a dot or one naming nothing loaded gives a plain `Exception` with those args |
| Queues.StoredDelivered | briefcase_ansible_test/src/briefcase_ansible_test/utils/multiprocessing/queues.py:62-91 | a value that is neither an envelope nor an unpicklable `Exception` comes out of the queue equal to what went in, except a picklable `Exception` whose pickle does not load, which comes out as a plain `Exception` with its args |
| Queues.StoredIsEnvelope | briefcase_ansible_test/src/briefcase_ansible_test/utils/multiprocessing/queues.py:62-89 | every `Exception` is stored as an envelope that `get` recognises; any other value is stored unchanged |
| Queues.PutCheck | briefcase_ansible_test/src/briefcase_ansible_test/utils/multiprocessing/queues.py:40-65 | only a bounded queue (`maxsize > 0`) can refuse a put, and only when it is full |
| Queues.GetCheck | briefcase_ansible_test/src/briefcase_ansible_test/utils/multiprocessing/queues.py:85 | a get succeeds only on a non-empty queue, and an empty queue raises `queue.Empty` |
| Queues.ProcessQueue.constructor | briefcase_ansible_test/src/briefcase_ansible_test/utils/multiprocessing/queues.py:32-44 | a new queue is open and empty with the given bound |
| Queues.ProcessQueue.Put | briefcase_ansible_test/src/briefcase_ansible_test/utils/multiprocessing/queues.py:46-65 | a closed queue raises ValueError("Queue is closed"); a full one raises `queue.Full`; otherwise the stored form of the item goes to the back |
| Queues.ProcessQueue.Get | briefcase_ansible_test/src/briefcase_ansible_test/utils/multiprocessing/queues.py:67-91 | a closed queue raises ValueError("Queue is closed"); an empty one raises `queue.Empty`; otherwise the front item is taken and an envelope is returned as its rebuilt exception |
| Queues.ProcessQueue.PutNowait | briefcase_ansible_test/src/briefcase_ansible_test/utils/multiprocessing/queues.py:93-95 | a put that never waits: refused when closed or full, otherwise appended |
| Queues.ProcessQueue.GetNowait | briefcase_ansible_test/src/briefcase_ansible_test/utils/multiprocessing/queues.py:97-99 | a get that never waits: refused when closed or empty, otherwise the delivered front item |
| Queues.ProcessQueue.IsEmpty | briefcase_ansible_test/src/briefcase_ansible_test/utils/multiprocessing/queues.py:101-103 | empty exactly when no item is queued |
| Queues.ProcessQueue.IsFull | briefcase_ansible_test/src/briefcase_ansible_test/utils/multiprocessing/queues.py:105-107 | full exactly when the queue is bounded and at its bound; an unbounded queue is never full |
| Queues.ProcessQueue.QSize | briefcase_ansible_test/src/briefcase_ansible_test/utils/multiprocessing/queues.py:109-111 | the size is the number of queued items |
| Queues.ProcessQueue.Close | briefcase_ansible_test/src/briefcase_ansible_test/utils/multiprocessing/queues.py:113-116 | after `close` the queue is closed; closing again changes nothing |
| Queues.ProcessSimpleQueue.constructor | briefcase_ansible_test/src/briefcase_ansible_test/utils/multiprocessing/queues.py:197-206 | a new simple queue is open and empty |
| Queues.ProcessSimpleQueue.Put | briefcase_ansible_test/src/briefcase_ansible_test/utils/multiprocessing/queues.py:208-222 | refused when closed; otherwise the stored form of the item goes to the back, without ever waiting |
| Queues.ProcessSimpleQueue.Get | briefcase_ansible_test/src/briefcase_ansible_test/utils/multiprocessing/queues.py:224-252 | refused when closed or empty; otherwise the front item is taken and an envelope's rebuilt exception is raised |
| Queues.ProcessSimpleQueue.IsEmpty | briefcase_ansible_test/src/briefcase_ansible_test/utils/multiprocessing/queues.py:254-256 | empty exactly when no item is queued |
| Queues.ProcessSimpleQueue.QSize | briefcase_ansible_test/src/briefcase_ansible_test/utils/multiprocessing/queues.py:258-260 | the size is the number of queued items |
| Queues.ProcessSimpleQueue.Close | briefcase_ansible_test/src/briefcase_ansible_test/utils/multiprocessing/queues.py:262-264 | after `close` the queue is closed |
| Queues.RaisedVersusDelivered | briefcase_ansible_test/src/briefcase_ansible_test/utils/multiprocessing/queues.py:248-250 | the two queues differ only in how a rebuilt exception leaves `get`: one returns it, the other raises it |
| Queues.SimpleQueueReraises | briefcase_ansible_test/src/briefcase_ansible_test/utils/multiprocessing/queues.py:248-250 | a picklable exception put on a simple queue is raised again by `get`: equal to itself when its pickle loads, else as a plain `Exception` with its args |
| Queues.JoinableQueue.constructor | briefcase_ansible_test/src/briefcase_ansible_test/utils/multiprocessing/queues.py:316-320 | a new joinable queue is open and empty, with no unfinished tasks |
| Queues.JoinableQueue.Put | briefcase_ansible_test/src/briefcase_ansible_test/utils/multiprocessing/queues.py:322-326 | the unfinished count goes up by one exactly when the inner put succeeds; a refused put changes neither the count nor the items |
| Queues.JoinableQueue.PutNowait | briefcase_ansible_test/src/briefcase_ansible_test/utils/multiprocessing/queues.py:93-95 | the inherited `put_nowait` goes through the overriding `put`, so a successful one counts a task too |
| Queues.JoinableQueue.TaskDone | briefcase_ansible_test/src/briefcase_ansible_test/utils/multiprocessing/queues.py:328-335 | at zero it raises ValueError and leaves the count at zero; otherwise one task fewer, so the count never goes negative |
| Queues.JoinableQueue.Join | briefcase_ansible_test/src/briefcase_ansible_test/utils/multiprocessing/queues.py:337-341 | `join` returns with no unfinished tasks |
| StatusReport.StatusReporter.constructor | briefcase_ansible_test/src/briefcase_ansible_test/ui/components.py:16-20 | a new reporter holds no messages |
| StatusReport.StatusReporter.Success | briefcase_ansible_test/src/briefcase_ansible_test/ui/components.py:22-34 | the message is appended to the successes only, and returned as "SUCCESS: m" |
| StatusReport.StatusReporter.Error | briefcase_ansible_test/src/briefcase_ansible_test/ui/components.py:35-47 | the message is appended to the errors only, and returned as "ERROR: m" |
| StatusReport.StatusReporter.Warning | briefcase_ansible_test/src/briefcase_ansible_test/ui/components.py:48-60 | the message is appended to the warnings only, and returned as "WARNING: m" |
| StatusReport.StatusReporter.GetSummary | briefcase_ansible_test/src/briefcase_ansible_test/ui/components.py:61-88 | the loop builds the summary: the sections for successes, warnings and errors, in that order |
| StatusReport.AppendSection | briefcase_ansible_test/src/briefcase_ansible_test/ui/components.py:70-83 | one section is added: a header with the count and "  - m" per message, only when there are messages |
| StatusReport.SummaryEmptyIff | briefcase_ansible_test/src/briefcase_ansible_test/ui/components.py:85-86 | the summary is "No messages recorded" exactly when nothing was recorded |
| StatusReport.SectionSingleLines | briefcase_ansible_test/src/briefcase_ansible_test/ui/components.py:70-83 | section lines hold no line break when the messages hold none |
| StatusReport.SummarySplitsIntoLines | briefcase_ansible_test/src/briefcase_ansible_test/ui/components.py:70-88 | splitting a non-empty summary at its line breaks gives back the header and message lines, in order |
| SystemUtils.FirstSet | briefcase_ansible_test/src/briefcase_ansible_test/utils/system_utils.py:21-24 | the value found is non-empty and belongs to one of the names; nothing is found exactly when every name is unset or empty |
| SystemUtils.SimpleGetuser | briefcase_ansible_test/src/briefcase_ansible_test/utils/system_utils.py:11-25 | the user name is never empty, and is "mobile" when none of the variables is set and non-empty |
| SystemUtils.FirstSetIsFirst | briefcase_ansible_test/src/briefcase_ansible_test/utils/system_utils.py:21-24 | the search stops at the first name that is set and non-empty |
| SystemUtils.SimpleGetuserPicksFirst | briefcase_ansible_test/src/briefcase_ansible_test/utils/system_utils.py:21-24 | the user is the value of the first of LOGNAME, USER, LNAME and USERNAME that is set and non-empty; empty values are skipped |
| DataProcessing.ParseCommandArgs | briefcase_ansible_test/src/briefcase_ansible_test/utils/data_processing.py:79-100 | empty arguments give an empty command and no flags; a list gives its space-join, a string itself |
| DataProcessing.ParseCommandArgsSplits | briefcase_ansible_test/src/briefcase_ansible_test/utils/data_processing.py:85-89 | a list of arguments without spaces is recovered by splitting the command at its spaces |
| DataProcessing.ParseCommandFlags | briefcase_ansible_test/src/briefcase_ansible_test/utils/data_processing.py:94-99 | `is_echo` and `is_test` are prefix checks, the other flags hold exactly when their text occurs in the command, and the two prefix flags are never both set |
| DataProcessing.ExtractAnsibleTempDir | briefcase_ansible_test/src/briefcase_ansible_test/utils/data_processing.py:103-117 | the loop finds the directory named by the first token holding "ansible-tmp-" |
| DataProcessing.TempDirFoundIff | briefcase_ansible_test/src/briefcase_ansible_test/utils/data_processing.py:103-117 | a directory is found exactly when the command contains "ansible-tmp-" |
| DataProcessing.TempDirShape | briefcase_ansible_test/src/briefcase_ansible_test/utils/data_processing.py:109-115 | a found directory is the last "/"-segment of a token holding the marker, so it holds neither "/" nor whitespace |
| DataProcessing.MatchFromSpec | briefcase_ansible_test/src/briefcase_ansible_test/utils/data_processing.py:124 | the scan finds the leftmost start of the module-path pattern, with the greedy file position, and nothing when there is none |
| DataProcessing.BuildAnsibleModulePathSpec | briefcase_ansible_test/src/briefcase_ansible_test/utils/data_processing.py:120-125 | the module path is the leftmost, longest match of the pattern; there is none exactly when the pattern matches nowhere |
| DataProcessing.ModulePathShape | briefcase_ansible_test/src/briefcase_ansible_test/utils/data_processing.py:120-125 | a found path starts with "/", ends with the module file name and holds no whitespace |
| DataProcessing.FormatAnsibleResultGet | briefcase_ansible_test/src/briefcase_ansible_test/utils/data_processing.py:128-142 | keyword arguments win; otherwise `changed` is False, `ping` is "pong" or "failed", and `failed` and `msg` appear only on failure |
| DataProcessing.TransformInventoryData | briefcase_ansible_test/src/briefcase_ansible_test/utils/data_processing.py:145-153 | the total is the number of hosts, and the group count is 1 exactly when there are hosts |
| DataProcessing.ParsePublicKey | briefcase_ansible_test/src/briefcase_ansible_test/utils/data_processing.py:168-180 | a key is valid exactly when the stripped text has at least two fields; an invalid key has empty parts |
| DataProcessing.ParsePublicKeyRoundTrip | briefcase_ansible_test/src/briefcase_ansible_test/utils/data_processing.py:168-180 | a line written as "algorithm key [comment]" parses back to its parts |
| DataProcessing.ParsePublicKeySingleToken | briefcase_ansible_test/src/briefcase_ansible_test/utils/data_processing.py:170-173 | text without whitespace is never a valid key |
| DataProcessing.CategorizeLogLevel | briefcase_ansible_test/src/briefcase_ansible_test/utils/data_processing.py:183-205 | ERROR exactly for an error marker, or "traceback" without a warning marker; WARNING exactly for a warning marker without an error marker |
| DataProcessing.CategorizePrecedence | briefcase_ansible_test/src/briefcase_ansible_test/utils/data_processing.py:183-205 | error markers beat warning markers, a warning marker hides a traceback, and INFO means no marker at all |
| DataProcessing.PlayTaskDictGet | briefcase_ansible_test/src/briefcase_ansible_test/utils/data_processing.py:208-217 | the task calls the module with the given arguments and is named "Execute <module>", unless the module is itself called "name" |
| DataProcessing.BuildAnsiblePlayDictShape | briefcase_ansible_test/src/briefcase_ansible_test/utils/data_processing.py:208-217 | the play names its hosts, skips fact gathering and runs the one task, with empty arguments when none are given |
| DataProcessing.TransformIosPath | briefcase_ansible_test/src/briefcase_ansible_test/utils/data_processing.py:220-236 | home paths map to the iOS base, other absolute paths outside /var, /tmp and /private map to the temporary directory, and everything else is kept |
| DataProcessing.TransformIosPathIdempotent | briefcase_ansible_test/src/briefcase_ansible_test/utils/data_processing.py:220-236 | transforming twice is transforming once, when the base and the temporary directory are themselves kept |
| DataProcessing.DefaultIosBaseKept | briefcase_ansible_test/src/briefcase_ansible_test/utils/data_processing.py:220-236 | the default base lies under /var and is kept |
| DataProcessing.TallyBounds | briefcase_ansible_test/src/briefcase_ansible_test/utils/data_processing.py:252-261 | no line is counted twice, and each failure leaves one error line |
| DataProcessing.ExtractTestResults | briefcase_ansible_test/src/briefcase_ansible_test/utils/data_processing.py:239-265 | the loop computes the counts of the whole output |
| DataProcessing.TestSummaryCounts | briefcase_ansible_test/src/briefcase_ansible_test/utils/data_processing.py:239-265 | the total is passed plus failed, each failure leaves one error line, and no line is counted twice |
| DataProcessing.TallyCheckMarkPasses | briefcase_ansible_test/src/briefcase_ansible_test/utils/data_processing.py:253-254 | a line holding "✓" counts as passed even if it says "failed", and changes nothing else |
| DataProcessing.TallyFailureRecorded | briefcase_ansible_test/src/briefcase_ansible_test/utils/data_processing.py:255-257 | a failing line without "✓" counts as failed and records its stripped text as the latest error |
| JsonText.Hex4RoundTrip | briefcase_ansible_test/src/briefcase_ansible_test/utils/mocks/subprocess_mock.py:110-118 | four hex digits read back as the number they were written from |
| JsonText.EscapeCharDecodes | briefcase_ansible_test/src/briefcase_ansible_test/utils/mocks/subprocess_mock.py:110-118 | one escaped character, a surrogate pair included, decodes back to itself |
| JsonText.UnescapeEscape | briefcase_ansible_test/src/briefcase_ansible_test/utils/mocks/subprocess_mock.py:110-118 | decoding a JSON string body undoes `json.dumps` escaping for every text |
| JsonText.EscapeIsAscii | briefcase_ansible_test/src/briefcase_ansible_test/utils/mocks/subprocess_mock.py:110-118 | the escaped text is printable ASCII whatever the input holds |
| PopenMock.MockPopen.constructor | briefcase_ansible_test/src/briefcase_ansible_test/utils/mocks/subprocess/popen.py:21-28 | a new mock process keeps its arguments and streams, with return code 0 and pid 12345 |
| PopenMock.MockPopen.Wait | briefcase_ansible_test/src/briefcase_ansible_test/utils/mocks/subprocess/popen.py:70-71 | `wait` returns 0 |
| PopenMock.MockPopen.Poll | briefcase_ansible_test/src/briefcase_ansible_test/utils/mocks/subprocess/popen.py:73-74 | `poll` returns 0 |
| PopenMock.CommunicateStderrEmpty | briefcase_ansible_test/src/briefcase_ansible_test/utils/mocks/subprocess/popen.py:30-68 | every answer has empty stderr; only empty arguments and the mkdir and module branches can raise |
| PopenMock.EmptyArgsRaise | briefcase_ansible_test/src/briefcase_ansible_test/utils/mocks/subprocess/popen.py:32-37 | empty arguments raise KeyError('is_echo'), because the parsed dict has no flags |
| PopenMock.ModuleErrorFrom | briefcase_ansible_test/src/briefcase_ansible_test/utils/mocks/subprocess/popen.py:40-65 | an error is the branch's own ValueError, or one raised by `os.makedirs` or by the module |
| PopenMock.EchoAnswersDirectory | briefcase_ansible_test/src/briefcase_ansible_test/utils/mocks/subprocess/popen.py:37-38 | an echo command answers the writable directory and a newline |
| PopenMock.MkdirRedirects | briefcase_ansible_test/src/briefcase_ansible_test/utils/mocks/subprocess/popen.py:40-47 | without a temp directory, ValueError; otherwise the redirected directory is created and the answer is "t=dir", with t the last segment of dir |
| PopenMock.ShellProbesAnswerFixed | briefcase_ansible_test/src/briefcase_ansible_test/utils/mocks/subprocess/popen.py:49-53 | test and chmod answer "", which answers "/usr/bin/fake\n", even when the command names a module |
| PopenMock.ModuleBranchRuns | briefcase_ansible_test/src/briefcase_ansible_test/utils/mocks/subprocess/popen.py:55-65 | ValueError exactly when no module path is found; otherwise the module at the leftmost match runs and its result plus a newline is the answer |
| PopenMock.UnknownAnswersSuccess | briefcase_ansible_test/src/briefcase_ansible_test/utils/mocks/subprocess/popen.py:67-68 | a command no rule recognises answers "success\n" |
| SubprocessMock.CommandTextAgrees | briefcase_ansible_test/src/briefcase_ansible_test/utils/mocks/subprocess_mock.py:39-42 | both mocks build the same command text, except for an empty list, which one writes "[]" and the other "" |
| SubprocessMock.TmpDirMatchSpec | briefcase_ansible_test/src/briefcase_ansible_test/utils/mocks/subprocess_mock.py:55-58 | `re.search(r"ansible-tmp-[\d.-]+")` finds the leftmost, longest match, and none exactly when the pattern fits nowhere |
| SubprocessMock.TmpDirMatchShape | briefcase_ansible_test/src/briefcase_ansible_test/utils/mocks/subprocess_mock.py:55-58 | a match starts with "ansible-tmp-" and holds no "/" |
| SubprocessMock.Interpreter.constructor | briefcase_ansible_test/src/briefcase_ansible_test/utils/mocks/subprocess_mock.py:151-275 | the interpreter state holds the given stdout, stderr and argv |
| SubprocessMock.PingJsonStripped | briefcase_ansible_test/src/briefcase_ansible_test/utils/mocks/subprocess_mock.py:217-263 | the ping result has no surrounding whitespace, so stripping keeps it |
| SubprocessMock.ExecuteAnsibleModule | briefcase_ansible_test/src/briefcase_ansible_test/utils/mocks/subprocess_mock.py:151-275 | a missing file raises FileNotFoundError and an unreadable one its read error; otherwise the ping result is returned; stdout, stderr and argv are restored on every exit |
| SubprocessMock.MockPopen.constructor | briefcase_ansible_test/src/briefcase_ansible_test/utils/mocks/subprocess_mock.py:25-32 | a new mock process keeps its arguments and streams, with return code 0 and pid 12345 |
| SubprocessMock.MockPopen.Communicate | briefcase_ansible_test/src/briefcase_ansible_test/utils/mocks/subprocess_mock.py:34-137 | the answer is the rule chain's output with empty stderr, and the interpreter state is left as it was |
| SubprocessMock.MockPopen.Wait | briefcase_ansible_test/src/briefcase_ansible_test/utils/mocks/subprocess_mock.py:139-140 | `wait` returns 0 |
| SubprocessMock.MockPopen.Poll | briefcase_ansible_test/src/briefcase_ansible_test/utils/mocks/subprocess_mock.py:142-143 | `poll` returns 0 |
| SubprocessMock.MockRun | briefcase_ansible_test/src/briefcase_ansible_test/utils/mocks/subprocess_mock.py:292-297 | `run` returns a completed process with return code 0, the answer of `communicate` and empty stderr |
| SubprocessMock.MockCall | briefcase_ansible_test/src/briefcase_ansible_test/utils/mocks/subprocess_mock.py:299-305 | `call` and `check_call` return 0 |
| SubprocessMock.MockCheckOutput | briefcase_ansible_test/src/briefcase_ansible_test/utils/mocks/subprocess_mock.py:307-312 | `check_output` returns the answer of `communicate` |
| SubprocessMock.PwdAnswersDirectory | briefcase_ansible_test/src/briefcase_ansible_test/utils/mocks/subprocess_mock.py:48-51 | a command mentioning "pwd" answers the writable directory, even a mkdir or a module run |
| SubprocessMock.MkdirAnswer | briefcase_ansible_test/src/briefcase_ansible_test/utils/mocks/subprocess_mock.py:52-74 | the leftmost, longest temp-dir match m answers "m=dir" with dir ending "/.ansible/tmp/m"; without a match the fixed "ansible-tmp-123456789" mapping is the answer |
| SubprocessMock.ModuleAnswer | briefcase_ansible_test/src/briefcase_ansible_test/utils/mocks/subprocess_mock.py:84-131 | a module run never raises: a found module answers the ping JSON; a failure answers JSON whose "msg" and "exception" decode back to "Module execution failed: " + str(e) and str(e) |
| SubprocessMock.ShellProbesAnswerFixed | briefcase_ansible_test/src/briefcase_ansible_test/utils/mocks/subprocess_mock.py:75-83 | test answers "", which answers "/usr/bin/fake\n" and chmod answers "", even when a module is named |
| SubprocessMock.UnknownAnswersSuccess | briefcase_ansible_test/src/briefcase_ansible_test/utils/mocks/subprocess_mock.py:132-135 | a command no rule recognises answers "success\n" |
| VenvExecutor.GetVenvPath | briefcase_ansible_test/src/briefcase_ansible_test/ansible/venv_management/executor.py:14-24 | the path starts with "~" exactly for a persistent venv and ends with the venv name |
| VenvExecutor.GetVenvPathInjective | briefcase_ansible_test/src/briefcase_ansible_test/ansible/venv_management/executor.py:14-24 | two paths agree exactly when the names and the persistence agree, whatever the hosts |
| VenvExecutor.BaseVarsGet | briefcase_ansible_test/src/briefcase_ansible_test/ansible/venv_management/executor.py:42-52 | the base variables hold exactly the seven base keys, with the venv path from `get_venv_path`, `collect_metadata` True, collections defaulting to [] and packages to ["ansible-core"] |
| VenvExecutor.CreateVenvVarsGet | briefcase_ansible_test/src/briefcase_ansible_test/ansible/venv_management/executor.py:27-60 | each key reads the extra variable when there is one, else the base entry; `playbook_to_run` appears only for a non-empty playbook path |
| VenvExecutor.CreateVenvVarsKeyOrder | briefcase_ansible_test/src/briefcase_ansible_test/ansible/venv_management/executor.py:42-58 | the seven base keys come first, in order; extra variables can change their values but not their places |
| VenvExecutor.FormatExistingVenvMessage | briefcase_ansible_test/src/briefcase_ansible_test/ansible/venv_management/executor.py:72-77 | the message exists exactly when the name and the creation time are present; a missing one raises its KeyError |
| VenvExecutor.ExistingVenvMessageText | briefcase_ansible_test/src/briefcase_ansible_test/ansible/venv_management/executor.py:72-77 | the message reads "Using existing venv '<name>' created at <created_at>" |
| VenvExecutor.GenerateTempVenvName | briefcase_ansible_test/src/briefcase_ansible_test/ansible/venv_management/executor.py:80-82 | a generated name starts with "temp_" and is longer than it |
| VenvExecutor.ExtractMetadataFromResult | briefcase_ansible_test/src/briefcase_ansible_test/ansible/venv_management/executor.py:85-87 | `venv_metadata` is returned exactly when `success` is truthy, else None |
| VenvExecutor.ExtractFromWrapperResult | briefcase_ansible_test/src/briefcase_ansible_test/ansible/venv_management/executor.py:128-132 | for a wrapper result, metadata is extracted exactly when the playbook returned 0 |
| VenvExecutor.ActualVenvName | briefcase_ansible_test/src/briefcase_ansible_test/ansible/venv_management/executor.py:153 | the given name is used unless missing or empty, and then a "temp_" name |
| VenvExecutor.ExistingVenvStep | briefcase_ansible_test/src/briefcase_ansible_test/ansible/venv_management/executor.py:156-161 | the existing-venv step looks metadata up exactly when asked to, and never saves or runs anything |
| VenvExecutor.FinishRun | briefcase_ansible_test/src/briefcase_ansible_test/ansible/venv_management/executor.py:174-187 | the outcome is whether the playbook returned 0, and the effects so far are kept |
| VenvExecutor.RunPlaybookWithVenv | briefcase_ansible_test/src/briefcase_ansible_test/ansible/venv_management/executor.py:135-187 | the run reports success exactly when the wrapper playbook returned 0 |
| VenvExecutor.FinishRunSaves | briefcase_ansible_test/src/briefcase_ansible_test/ansible/venv_management/executor.py:178-185 | after the playbook, metadata is saved exactly when it returned 0 with non-empty metadata, and the captured metadata is what is saved |
| VenvExecutor.RunSavesIff | briefcase_ansible_test/src/briefcase_ansible_test/ansible/venv_management/executor.py:153-187 | metadata is saved, under the name used, exactly when the playbook returned 0 with non-empty metadata and the existing-venv message did not raise first |
| VenvExecutor.RunOpensWithLookup | briefcase_ansible_test/src/briefcase_ansible_test/ansible/venv_management/executor.py:156-161 | the run opens with the metadata lookup exactly when a persistent venv was named |
| VenvExecutor.RunUsesWrapperVars | briefcase_ansible_test/src/briefcase_ansible_test/ansible/venv_management/executor.py:164-172 | the wrapper playbook runs with the wrapper variables of the name used, exactly when the existing-venv message did not raise first |
| VenvMetadata.CreateMetadataFilename | briefcase_ansible_test/src/briefcase_ansible_test/ansible/venv_management/metadata.py:18-20 | the file name's length is the name's plus the host's plus six |
| VenvMetadata.MetadataFilenameParts | briefcase_ansible_test/src/briefcase_ansible_test/ansible/venv_management/metadata.py:18-20 | the name, the "_", the host and ".json" can be read back from the file name |
| VenvMetadata.EnrichMetadataGet | briefcase_ansible_test/src/briefcase_ansible_test/ansible/venv_management/metadata.py:31-37 | enriching keeps every input key in place, sets `last_updated` and `metadata_version` "1.0", and leaves other values alone |
| VenvMetadata.FirstOrUnknown | briefcase_ansible_test/src/briefcase_ansible_test/ansible/venv_management/metadata.py:91 | an empty value gives "unknown"; a list gives its first item and a string its first character |
| VenvMetadata.CopyRequired | briefcase_ansible_test/src/briefcase_ansible_test/ansible/venv_management/metadata.py:84-90 | the required keys are copied in order exactly when all are present; otherwise KeyError for a missing one |
| VenvMetadata.CreateIndexEntry | briefcase_ansible_test/src/briefcase_ansible_test/ansible/venv_management/metadata.py:83-93 | an index entry has exactly the six index keys |
| VenvMetadata.CreateIndexEntryOk | briefcase_ansible_test/src/briefcase_ansible_test/ansible/venv_management/metadata.py:83-93 | an entry exists exactly when every required key is present and the Ansible version can be subscripted |
| VenvMetadata.CreateIndexEntryGet | briefcase_ansible_test/src/briefcase_ansible_test/ansible/venv_management/metadata.py:83-93 | an entry copies the required values and holds the first Ansible version or "unknown", and nothing else |
| VenvMetadata.UpdateVenvIndex | briefcase_ansible_test/src/briefcase_ansible_test/ansible/venv_management/metadata.py:96-102 | the update succeeds exactly when an index entry can be built |
| VenvMetadata.UpdateVenvIndexGet | briefcase_ansible_test/src/briefcase_ansible_test/ansible/venv_management/metadata.py:96-102 | only the entry for the name changes, and the other entries keep their values and order |
| VenvMetadata.ListAllVenvs | briefcase_ansible_test/src/briefcase_ansible_test/ansible/venv_management/metadata.py:110-120 | one record per index entry, in order; an entry that is not a dict cannot be listed |
| VenvMetadata.ListedRecordGet | briefcase_ansible_test/src/briefcase_ansible_test/ansible/venv_management/metadata.py:116-118 | a record carries the entry's fields and, unless the entry has its own, the index key as `venv_name` |
| VenvMetadata.ListAfterUpdate | briefcase_ansible_test/src/briefcase_ansible_test/ansible/venv_management/metadata.py:96-120 | after saving under a name, the listing has a record naming it, with the saved host |
| VenvMetadata.IndexEntryFields | briefcase_ansible_test/src/briefcase_ansible_test/ansible/venv_management/metadata.py:83-93 | an entry has distinct keys, none of them `venv_name` or `metadata_version`, and keeps the host |
| VenvMetadata.KeepIfAppend | briefcase_ansible_test/src/briefcase_ansible_test/ansible/venv_management/metadata.py:123-130 | filtering distributes over concatenation, so the kept records keep their order |
| VenvMetadata.FilterPersistentVenvs | briefcase_ansible_test/src/briefcase_ansible_test/ansible/venv_management/metadata.py:123-125 | a record is kept, as often as it occurs, exactly when it is persistent (missing counts as False) |
| VenvMetadata.FilterVenvsByHost | briefcase_ansible_test/src/briefcase_ansible_test/ansible/venv_management/metadata.py:128-130 | a record is kept, as often as it occurs, exactly when it is on the host |
| VenvMetadata.FiltersKeepOrder | briefcase_ansible_test/src/briefcase_ansible_test/ansible/venv_management/metadata.py:123-130 | both filters keep the order of the records they keep |
| VenvMetadata.InsertPermutes | briefcase_ansible_test/src/briefcase_ansible_test/ansible/venv_management/metadata.py:133-138 | inserting adds the one record and loses none |
| VenvMetadata.InsertOrdered | briefcase_ansible_test/src/briefcase_ansible_test/ansible/venv_management/metadata.py:133-138 | inserting into an ordered list keeps it ordered |
| VenvMetadata.SortByDate | briefcase_ansible_test/src/briefcase_ansible_test/ansible/venv_management/metadata.py:133-138 | the sort is a permutation, ordered by creation time |
| VenvMetadata.SortVenvsByDate | briefcase_ansible_test/src/briefcase_ansible_test/ansible/venv_management/metadata.py:133-138 | the same records, ordered by `created_at` (missing is ""), newest first when asked |
| VenvMetadata.OrderedPairwise | briefcase_ansible_test/src/briefcase_ansible_test/ansible/venv_management/metadata.py:133-138 | in a sorted list every earlier record may precede every later one |
| VenvUi.StatusLineShowsPersistence | briefcase_ansible_test/src/briefcase_ansible_test/ansible/venv_management/ui.py:8-16 | the line opens with "💾 Persistent" exactly for a persistent venv and with "⏱️ Temporary" otherwise |
| VenvUi.StatusLineUnknown | briefcase_ansible_test/src/briefcase_ansible_test/ansible/venv_management/ui.py:13-16 | a missing name and host read "unknown" |
| VenvUi.FormatVenvDetails | briefcase_ansible_test/src/briefcase_ansible_test/ansible/venv_management/ui.py:19-25 | exactly three lines: Created, Python, Ansible |
| VenvUi.DetailsDefaultToUnknown | briefcase_ansible_test/src/briefcase_ansible_test/ansible/venv_management/ui.py:19-25 | each detail shows its field, or "unknown" when it is missing |
| VenvUi.InterleaveAt | briefcase_ansible_test/src/briefcase_ansible_test/ansible/venv_management/ui.py:48-50 | each entry is preceded by one empty line, in order |
| VenvUi.FormatVenvList | briefcase_ansible_test/src/briefcase_ansible_test/ansible/venv_management/ui.py:35-52 | the loop builds the text of the whole venv list |
| VenvUi.SectionsAt | briefcase_ansible_test/src/briefcase_ansible_test/ansible/venv_management/ui.py:46-52 | the sections are the title, the rule, then each entry after an empty line |
| VenvUi.VenvListSections | briefcase_ansible_test/src/briefcase_ansible_test/ansible/venv_management/ui.py:35-52 | an empty list gives the title and "No virtual environments found."; otherwise the title, 50 dashes and each entry after an empty line, in order |
| VenvUi.FormatMetadataSummary | briefcase_ansible_test/src/briefcase_ansible_test/ansible/venv_management/ui.py:55-65 | the summary exists exactly when both counted values have a length |
| VenvUi.MetadataSummaryCounts | briefcase_ansible_test/src/briefcase_ansible_test/ansible/venv_management/ui.py:55-65 | the counts are the lengths of the package list and the collection dict, 0 when missing |
| VenvUi.FormatPackageListTruncates | briefcase_ansible_test/src/briefcase_ansible_test/ansible/venv_management/ui.py:68-77 | empty gives "  None installed"; up to `max_items` lists all; past it the first `max_items` plus "... and N more", and the shown and counted packages add up to all |
| VenvUi.PackageListLines | briefcase_ansible_test/src/briefcase_ansible_test/ansible/venv_management/ui.py:74-77 | the truncated list splits back into one line per shown package and the count line |
| VenvUi.FormatCollectionDict | briefcase_ansible_test/src/briefcase_ansible_test/ansible/venv_management/ui.py:80-85 | an empty dict gives "  None installed" |
| VenvUi.CollectionDictLines | briefcase_ansible_test/src/briefcase_ansible_test/ansible/venv_management/ui.py:80-85 | a non-empty dict gives one "  - name: version" line per entry, in order |
| VenvUi.KeyErrorMessage | briefcase_ansible_test/src/briefcase_ansible_test/ansible/venv_management/ui.py:100-102 | a missing key "venv" is reported as "Load failed: 'venv'", with the quotes `str(KeyError)` adds |
| VenvUi.ErrorMessageParts | briefcase_ansible_test/src/briefcase_ansible_test/ansible/venv_management/ui.py:100-102 | the message names the operation and ends with `str(error)` |
| VenvUi.SuccessMessageDetails | briefcase_ansible_test/src/briefcase_ansible_test/ansible/venv_management/ui.py:105-108 | details follow ": " only when there are some, and can be read back |

## Left out

- Real threads, scheduling and timeouts: the worker body is an explicit step and blocking waits are preconditions, so a wait that would outlast the call is not modelled.
- Process.ThreadProcess.Join: the untimed wait is a precondition (the body has run), and a timed join does not wait.
- Process.ThreadProcess.Terminate: the `time.sleep(0.01)` after raising the flag is not modelled; `kill()` is the same call.
- Process.ThreadProcess.Close: `close` is modelled with its terminate and its timed join; `__del__` is not modelled.
- Queues.ProcessQueue.Put: a blocking put on a full bounded queue is a precondition, since only another thread could make room.
- Queues.ProcessQueue.Get: a blocking get on an empty queue is a precondition; a timed one raises `queue.Empty` at once.
- Queues.ProcessSimpleQueue.Get: as `ProcessQueue.Get`.
- Queues.JoinableQueue.Join: it is called only with no unfinished tasks, because in a sequential model nothing could finish one while it waits.
- Pool.AsyncResult.Get: an untimed `get` on a pending task is a precondition.
- Pool.AsyncResult.Wait: an untimed `wait` on a pending task is a precondition.
- `join_thread` and `cancel_join_thread` of the queues are no-ops and are not modelled.
- The exception envelope's `pickle` and `traceback` internals: the pickle and the traceback text are opaque values.
- Queues.RebuildByName: whether `exc_class(*args)` raises is the class's `accepts` predicate; a class that accepts the args is taken to keep them as its `args`, so an `__init__` that rewrites them is not modelled.
- Queues.RoundTrip: whether `pickle.loads` succeeds is the exception's `rebuilds` flag, which stands for calling its class with its args; other reasons a load can fail (a `__reduce__` override, a class no longer importable) are not modelled.
- Queues.Splat: a pickle (bytes) spreads to no arguments here, where Python would spread it to its byte values.
- The synchronisation primitives (locks, semaphores, events, conditions, barriers) only forward to `threading`; only their factory names are modelled.
- `sys.modules` patching, the empty `_multiprocessing/__init__.py`, and the import shims are not part of this model.
- DataProcessing.ExtractTestResults: the float `success_rate` is not modelled; the integer counts are.
- DataProcessing.ParseCommandArgs: the arguments are strings, so the `str(arg)` of other values is not modelled, and a tuple is treated as a list.
- `\d` and `lower()` are modelled on ASCII; Unicode digits and case folding are not. Whitespace (`\s`, `strip`, `split`) follows Python's Unicode whitespace set.
- `create_button_configs` and `build_ssh_key_paths` in `data_processing.py` are not modelled.
- File I/O of the metadata files and the index (`json.load`, `json.dump`, `os.makedirs`, `save_venv_metadata`, `load_venv_metadata`) is not modelled: the loaded index and the effects of `run_playbook_with_venv` are values.
- `check_venv_exists` and `run_venv_wrapper_playbook` are modelled only through the effects and the wrapper result they produce; the Ansible run itself is an input.
- VenvMetadata.SortVenvsByDate: only text creation times are covered; integer or mixed values, which Python compares differently or refuses, are not. Stability is provided by the insertion sort but not stated.
- `format_venv_status` reads the index from disk and is not modelled; `format_venv_entry` is modelled as part of `format_venv_list`.
- StatusReporter is the only UI component modelled; the Toga widget helpers (`UIComponents`, `UIUpdater`, `BackgroundTaskRunner`) drive the GUI.
- `setup_subprocess_mock` only installs the mocks into the `subprocess` module and is not modelled.
- `module_executor.py` is not part of this model: the popen mock's module result is an input.
- The subprocess mock's outer `except` for a crash of the module branch cannot be reached in this model, because every inner failure is already turned into JSON.
- SubprocessMock.ExecuteAnsibleModule: the content of a readable file plays no part, as in the code; the JSON check of the captured output is not modelled, because the captured output is always the ping result.
- JSON escaping: lone surrogates cannot occur in Dafny strings and are not modelled.
- The `print` debugging output is not modelled.
- Pool.ThreadPool.Join: the pool does not keep the results it handed out, so the wait for every submitted task to finish is not stated; each task finishes through `Pool.AsyncResult.Complete`.
- Pool.ThreadPool.Exit: as `Pool.ThreadPool.Join`, waiting for the submitted tasks is not stated; the closed and shut-down state is.
- PyData.ExcText: `str(exc)` is modelled for `BaseException`, for `KeyError` (the repr of its one argument) and for the `OSError` family built from `(errno, strerror)`; the `filename` an `OSError` carries outside its args, `UnicodeDecodeError` and other classes that override `__str__` are not modelled.
- Queues.Serialize: the fallback text is `PyData.ExcText`, so it shares that function's gaps (an `OSError` filename, `UnicodeDecodeError`, other `__str__` overrides).
- Queues.RoundTripFallback: as `Queues.Serialize`, the carried text is `PyData.ExcText` with its gaps.
- SubprocessMock.ModuleAnswer: the failure text is `PyData.ExcText` with its gaps; the module's own `FileNotFoundError` has a single message argument and is exact.
- VenvUi.ErrorMessageParts: `str(error)` is `PyData.ExcText` with its gaps.
- PyData.QuoteString: `repr` of a string escapes only the backslash, the chosen quote, `\n`, `\r` and `\t`; the `\xNN`, `\uNNNN` and `\UNNNNNNNN` escapes Python uses for other non-printable characters are not modelled.
- Process.ThreadProcess.RunBody: the exit code is an optional integer, so a `SystemExit` whose `code` is a string or another object, which `getattr(e, "code", 1)` would store as the exit code unchanged, is not modelled.

## Findings

| source | as written | input that shows it | evidently intended | confidence | as-written member | corrected member |
|---|---|---|---|---|---|---|
| briefcase_ansible_test/src/briefcase_ansible_test/utils/multiprocessing/__init__.py:192-199 | `callback(fut.result())` runs inside the `try` whose `except Exception` calls `error_callback`, so an exception raised by `callback` also reaches `error_callback` | a task that returns normally, a `callback` that raises ValueError("boom"), and an `error_callback` | exactly one of the two callbacks per task, as `multiprocessing.Pool.apply_async` promises | not executed | Pool.BothCallbacksAsWritten | Pool.HandleResult |
