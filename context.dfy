/** Start-method contexts: every context is thread-based, whatever method
    name it was asked for, and hands out the same factory classes. */
module Context {
  import opened Wrappers

  /** `ThreadContext` and its three look-alike subclasses. */
  datatype ContextClass = ThreadContextClass | SpawnContextClass | ForkContextClass | ForkServerContextClass

  /** A context object: the module's single default instance, or a freshly
      built one of some class carrying its `_method`. */
  datatype ContextRef = DefaultContext | NewContext(cls: ContextClass, startMethod: string)

  /** The factory attributes a context exposes. */
  datatype Factory = ProcessFactory | QueueFactory | SimpleQueueFactory | JoinableQueueFactory
                   | LockFactory | RLockFactory | SemaphoreFactory | BoundedSemaphoreFactory
                   | EventFactory | ConditionFactory | BarrierFactory

  /** The class of a context object. */
  function ClassOf(c: ContextRef): ContextClass {
    match c
    case DefaultContext => ThreadContextClass
    case NewContext(cls, _) => cls
  }

  /** A context's `_method`: the default one was built with "thread". */
  function MethodOf(c: ContextRef): string {
    match c
    case DefaultContext => "thread"
    case NewContext(_, m) => m
  }

  /** The class each factory attribute names; class attributes of
      `ThreadContext`, inherited unchanged by every subclass. */
  function FactoryClass(c: ContextRef, f: Factory): string {
    match f
    case ProcessFactory => "ThreadProcess"
    case QueueFactory => "ProcessQueue"
    case SimpleQueueFactory => "ProcessSimpleQueue"
    case JoinableQueueFactory => "JoinableQueue"
    case LockFactory => "ThreadLock"
    case RLockFactory => "ThreadRLock"
    case SemaphoreFactory => "ThreadSemaphore"
    case BoundedSemaphoreFactory => "ThreadBoundedSemaphore"
    case EventFactory => "ThreadEvent"
    case ConditionFactory => "ThreadCondition"
    case BarrierFactory => "ThreadBarrier"
  }

  /** Module-level `get_context(method)`: the default instance for None,
      "thread" and any unknown name; a new subclass instance, built with
      method "thread", for "spawn", "fork" and "forkserver". */
  function GetContext(startMethod: Option<string>): (r: ContextRef)
    ensures r == DefaultContext <==> !(startMethod.Some? && startMethod.value in {"spawn", "fork", "forkserver"})
    ensures r.NewContext? ==> r.startMethod == "thread"
    ensures startMethod == Some("spawn") ==> r == NewContext(SpawnContextClass, "thread")
    ensures startMethod == Some("fork") ==> r == NewContext(ForkContextClass, "thread")
    ensures startMethod == Some("forkserver") ==> r == NewContext(ForkServerContextClass, "thread")
  {
    if startMethod.None? || startMethod.value == "thread" then DefaultContext
    else if startMethod.value == "spawn" then NewContext(SpawnContextClass, "thread")
    else if startMethod.value == "fork" then NewContext(ForkContextClass, "thread")
    else if startMethod.value == "forkserver" then NewContext(ForkServerContextClass, "thread")
    else DefaultContext
  }

  /** `ctx.get_context(method)`: always a newly built plain `ThreadContext`
      (never the receiver, nor the default instance), carrying the given
      method or, for None, the receiver's. */
  function ContextGetContext(self: ContextRef, startMethod: Option<string>): (r: ContextRef)
    ensures r.NewContext? && ClassOf(r) == ThreadContextClass
    ensures MethodOf(r) == if startMethod.Some? then startMethod.value else MethodOf(self)
  {
    NewContext(ThreadContextClass, if startMethod.Some? then startMethod.value else MethodOf(self))
  }

  /** `get_start_method(allow_none)`, module-level or on any context. */
  function GetStartMethod(c: ContextRef, allowNone: bool): (m: string)
    ensures m in GetAllStartMethods(c)
  {
    "thread"
  }

  /** `set_start_method(method, force)`: changes nothing; the context is
      returned as it was. */
  function SetStartMethod(c: ContextRef, startMethod: string, force: bool): (r: ContextRef)
    ensures GetStartMethod(r, false) == GetStartMethod(c, false)
    ensures ClassOf(r) == ClassOf(c) && MethodOf(r) == MethodOf(c)
  {
    c
  }

  /** `get_all_start_methods()` */
  function GetAllStartMethods(c: ContextRef): (ms: seq<string>)
    ensures ms == ["thread"]
  {
    ["thread"]
  }

  /** Every context `get_context` hands out runs on threads: its recorded
      method is "thread", it reports "thread" as its start method even after
      `set_start_method`, and it offers the same factories as the default
      (the factories are class attributes, so this last part holds for every
      context by construction). */
  lemma {:induction false} GetContextIsThreadBased(startMethod: Option<string>, other: string, force: bool, f: Factory)
    ensures var c := GetContext(startMethod);
      && MethodOf(c) == "thread"
      && GetStartMethod(SetStartMethod(c, other, force), false) == "thread"
      && GetAllStartMethods(c) == ["thread"]
      && FactoryClass(c, f) == FactoryClass(DefaultContext, f)
  {
  }

  /** Asking any context for a context without naming a method keeps the
      method along the chain. */
  lemma {:induction false} ContextChainKeepsMethod(c: ContextRef)
    ensures MethodOf(ContextGetContext(ContextGetContext(c, None), None)) == MethodOf(c)
  {
  }
}
