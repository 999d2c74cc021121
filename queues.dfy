/** Thread-backed replacements for `multiprocessing.Queue`, `SimpleQueue` and
    `JoinableQueue`. An `Exception` put on a queue travels as an envelope
    dictionary and is rebuilt on the way out. A blocking call with no timeout
    is a precondition that it need not wait (no other thread can run while it
    waits); a timed wait on a full or empty queue ends in `Full` or `Empty`. */
module Queues {
  import opened Wrappers
  import opened Strings
  import opened PyData

  /** A class a qualified type name can resolve to through `sys.modules`:
      what calling it produces, and for which positional arguments the call
      succeeds rather than raising. */
  datatype ExcClass = ExcClass(isException: bool, picklable: bool, accepts: seq<Value> -> bool)

  /** The loaded modules' exception classes, by (module name, class name). */
  type Registry = map<(string, string), ExcClass>

  function QueueFull(): Exc { Bare("queue", "Full") }
  function QueueEmpty(): Exc { Bare("_queue", "Empty") }
  function QueueClosed(): Exc { Builtin("ValueError", "Queue is closed") }
  function NegativeTimeout(): Exc { Builtin("ValueError", "'timeout' must be a non-negative number") }

  // ------------------------------------------------------------ envelopes

  /** An envelope holds exactly its five keys, in this order. */
  lemma {:induction false} EnvelopeKeys(excType: string, args: Value, traceback: string, pickled: Value)
    ensures Keys(Envelope(excType, args, traceback, pickled)) == ["__exception__", "type", "args", "traceback", "pickled"]
  {
    var d := Envelope(excType, args, traceback, pickled);
    KeysOfFive(d);
  }

  /** The keys of a five-entry dictionary. */
  lemma {:induction false} KeysOfFive(d: Dict)
    requires |d| == 5
    ensures Keys(d) == [d[0].0, d[1].0, d[2].0, d[3].0, d[4].0]
  {
    var ks := Keys(d);
    assert ks == [ks[0], ks[1], ks[2], ks[3], ks[4]];
  }

  /** An envelope dictionary with its five keys in order. */
  function Envelope(excType: string, args: Value, traceback: string, pickled: Value): (d: Dict)
    ensures Get(d, "__exception__") == Some(VBool(true)) && Get(d, "type") == Some(VStr(excType))
    ensures Get(d, "args") == Some(args) && Get(d, "traceback") == Some(VStr(traceback))
    ensures Get(d, "pickled") == Some(pickled)
  {
    var d := [("__exception__", VBool(true)), ("type", VStr(excType)), ("args", args),
              ("traceback", VStr(traceback)), ("pickled", pickled)];
    assert d[1..][1..] == d[2..] && d[2..][1..] == d[3..] && d[3..][1..] == d[4..];
    GetFront(d, "__exception__");
    GetFront(d, "type");
    GetFront(d[1..], "type");
    GetFront(d, "args");
    GetFront(d[1..], "args");
    GetFront(d[2..], "args");
    GetFront(d, "traceback");
    GetFront(d[1..], "traceback");
    GetFront(d[2..], "traceback");
    GetFront(d[3..], "traceback");
    GetFront(d, "pickled");
    GetFront(d[1..], "pickled");
    GetFront(d[2..], "pickled");
    GetFront(d[3..], "pickled");
    GetFront(d[4..], "pickled");
    d
  }

  /** The envelope `_serialize_exception` builds: the qualified type, the args,
      the traceback text and the pickled exception; when pickling fails, type
      "Exception", the one argument `str(exc)` and no pickle. */
  function Serialize(e: Exc, traceback: string): (d: Dict)
    ensures Get(d, "__exception__") == Some(VBool(true))
    ensures Get(d, "traceback") == Some(VStr(traceback))
    ensures e.picklable ==>
      (Get(d, "type") == Some(VStr(e.moduleName + "." + e.name))
       && Get(d, "args") == Some(VList(e.args)) && Get(d, "pickled") == Some(VPickle(e)))
    ensures !e.picklable ==>
      (Get(d, "type") == Some(VStr("Exception"))
       && Get(d, "args") == Some(VList([VStr(ExcText(e))])) && Get(d, "pickled") == Some(VNone))
  {
    if e.picklable then Envelope(e.moduleName + "." + e.name, VList(e.args), traceback, VPickle(e))
    else Envelope("Exception", VList([VStr(ExcText(e))]), traceback, VNone)
  }

  /** A serialized exception holds exactly the five envelope keys, in order. */
  lemma {:induction false} SerializeKeys(e: Exc, traceback: string)
    ensures Keys(Serialize(e, traceback)) == ["__exception__", "type", "args", "traceback", "pickled"]
  {
    if e.picklable {
      EnvelopeKeys(e.moduleName + "." + e.name, VList(e.args), traceback, VPickle(e));
    } else {
      EnvelopeKeys("Exception", VList([VStr(ExcText(e))]), traceback, VNone);
    }
  }

  /** `isinstance(item, dict) and item.get("__exception__")` */
  predicate IsEnvelope(v: Value) {
    v.VDict? && Truthy(GetOr(v.entries, "__exception__", VNone))
  }

  /** `type(v).__name__` for the values that cannot be iterated (a list
      here is the `args` tuple). */
  function ArgsTypeName(v: Value): string {
    match v
    case VNone => "NoneType"
    case VBool(_) => "bool"
    case VInt(_) => "int"
    case VStr(_) => "str"
    case VList(_) => "tuple"
    case VDict(_) => "dict"
    case VExc(e) => e.name
    case VPickle(_) => "bytes"
  }

  /** The positional arguments `f(*v)` passes, or the `TypeError` it raises. */
  function Splat(v: Value): (r: Result<seq<Value>>)
    ensures v.VList? ==> r == Ok(v.items)
    ensures r.Err? <==> v.VNone? || v.VBool? || v.VInt? || v.VExc?
  {
    match v
    case VList(xs) => Ok(xs)
    case VStr(s) => Ok(seq(|s|, i requires 0 <= i < |s| => VStr([s[i]])))
    case VDict(d) => Ok(seq(|d|, i requires 0 <= i < |d| => VStr(d[i].0)))
    case VPickle(_) => Ok([])
    case _ => Err(Builtin("TypeError", "Exception() argument after * must be an iterable, not " + ArgsTypeName(v)))
  }

  /** `exc_type.rsplit(".", 1)` for a name that holds a dot. */
  function RSplitDot(t: string): (r: (string, string))
    requires '.' in t
    ensures t == r.0 + "." + r.1 && '.' !in r.1
    ensures r.1 == LastField(t, '.')
  {
    LastFieldIsSuffix(t, '.');
    var cls := LastField(t, '.');
    var prefix := t[..|t| - |cls| - 1];
    assert t == prefix + [t[|t| - |cls| - 1]] + t[|t| - |cls|..];
    (prefix, cls)
  }

  /** The class a qualified name resolves to, if it holds a dot and names a
      loaded class. */
  function Resolve(t: string, registry: Registry): (r: Option<(string, string)>)
    ensures r.Some? ==> r.value in registry && t == r.value.0 + "." + r.value.1
    ensures '.' !in t ==> r.None?
  {
    if '.' in t && RSplitDot(t) in registry then Some(RSplitDot(t)) else None
  }

  /** `Exception(*args)` */
  function PlainException(args: seq<Value>): Exc {
    Exc("builtins", "Exception", args, true, true, true, None)
  }

  /** The pickle in an envelope that `pickle.loads` turns back into its
      exception, if there is one. */
  function Loadable(data: Dict): Option<Exc> {
    match Get(data, "pickled")
    case Some(VPickle(e)) => if e.rebuilds then Some(e) else None
    case _ => None
  }

  /** `_deserialize_exception`: unpickle when there is a pickle that loads;
      otherwise `Rebuild`. */
  function Deserialize(data: Dict, registry: Registry): (r: Result<Exc>)
    ensures Loadable(data).Some? ==> r == Ok(Loadable(data).value)
    ensures Loadable(data).None? ==> r == Rebuild(data, registry)
  {
    if Loadable(data).Some? then Ok(Loadable(data).value) else Rebuild(data, registry)
  }

  /** The fallback of `_deserialize_exception`: call the class the type name
      resolves to with the args; when there is none, or the call raises,
      `Exception(*args)`, which itself raises `TypeError` for args that
      cannot be splatted. */
  function Rebuild(data: Dict, registry: Registry): (r: Result<Exc>)
  {
    var excType := GetOr(data, "type", VStr("Exception"));
    var args := Splat(GetOr(data, "args", VList([])));
    if args.Err? then Err(args.exc)
    else if excType.VStr? && Resolve(excType.s, registry).Some?
            && registry[Resolve(excType.s, registry).value].accepts(args.value) then
      var (m, c) := Resolve(excType.s, registry).value;
      var cls := registry[(m, c)];
      Ok(Exc(m, c, args.value, cls.isException, cls.picklable, true, None))
    else Ok(PlainException(args.value))
  }

  /** The registry holds the exception's class, called with the same args,
      only as the class `pickle.loads` would call: the two calls succeed or
      fail together. */
  predicate SameClass(e: Exc, registry: Registry) {
    (e.moduleName, e.name) in registry ==> registry[(e.moduleName, e.name)].accepts(e.args) == e.rebuilds
  }

  /** An exception that pickles comes back as itself when it also loads; when
      loading raises, it is rebuilt by name from its args if its class takes
      them, else it comes back as a plain `Exception` with its args. */
  lemma {:induction false} RoundTrip(e: Exc, tb: string, registry: Registry)
    requires e.picklable
    ensures e.rebuilds ==> Deserialize(Serialize(e, tb), registry) == Ok(e)
    ensures !e.rebuilds && '.' !in e.name ==>
      Deserialize(Serialize(e, tb), registry) ==
        if (e.moduleName, e.name) in registry && registry[(e.moduleName, e.name)].accepts(e.args)
        then Ok(Exc(e.moduleName, e.name, e.args, registry[(e.moduleName, e.name)].isException,
                    registry[(e.moduleName, e.name)].picklable, true, None))
        else Ok(PlainException(e.args))
  {
    var d := Serialize(e, tb);
    assert Get(d, "pickled") == Some(VPickle(e));
    if !e.rebuilds && '.' !in e.name {
      assert Loadable(d).None?;
      RebuildByName(d, registry, e.moduleName, e.name, e.args);
    }
  }

  /** When the class `pickle.loads` calls is the one the name resolves to, an
      exception that pickles but does not load comes back as a plain
      `Exception` with its args. */
  lemma {:induction false} LoadFailureFallsBack(e: Exc, tb: string, registry: Registry)
    requires e.picklable && !e.rebuilds && '.' !in e.name && SameClass(e, registry)
    ensures Deserialize(Serialize(e, tb), registry) == Ok(PlainException(e.args))
  {
    RoundTrip(e, tb, registry);
  }

  /** `E("x", 1)` for `class E(Exception)` whose `__init__(self, a, b)`
      passes only `a` on: its args are `("x",)`, so `E(*args)` raises both
      in `pickle.loads` and by name, and `get` hands back `Exception("x")`. */
  lemma {:induction false} ArityMismatchComesBackPlain(tb: string)
    ensures var e := Exc("app", "E", [VStr("x")], true, true, false, None);
      var registry: Registry := map[("app", "E") := ExcClass(true, true, (args: seq<Value>) => |args| == 2)];
      Deserialize(Serialize(e, tb), registry) == Ok(PlainException([VStr("x")]))
  {
    var e := Exc("app", "E", [VStr("x")], true, true, false, None);
    var registry: Registry := map[("app", "E") := ExcClass(true, true, (args: seq<Value>) => |args| == 2)];
    LoadFailureFallsBack(e, tb, registry);
  }

  /** One that does not pickle comes back as a plain `Exception` carrying
      its text, whatever is loaded. */
  lemma {:induction false} RoundTripFallback(e: Exc, tb: string, registry: Registry)
    requires !e.picklable
    ensures Deserialize(Serialize(e, tb), registry) == Ok(PlainException([VStr(ExcText(e))]))
  {
    var d := Serialize(e, tb);
    assert Get(d, "pickled") == Some(VNone);
    assert GetOr(d, "type", VStr("Exception")) == VStr("Exception");
    assert Splat(GetOr(d, "args", VList([]))) == Ok([VStr(ExcText(e))]);
    assert Resolve("Exception", registry).None? by {
      assert '.' !in "Exception";
    }
  }

  /** Without a pickle that loads, an envelope naming a loaded class that
      takes the args is rebuilt as that class with them; a class that raises
      on them, a name without a dot, or one naming nothing loaded gives a
      plain `Exception`. */
  lemma {:induction false} RebuildByName(data: Dict, registry: Registry, m: string, c: string, args: seq<Value>)
    requires Loadable(data).None?
    requires Get(data, "type") == Some(VStr(m + "." + c)) && '.' !in c
    requires Get(data, "args") == Some(VList(args))
    ensures (m, c) in registry && registry[(m, c)].accepts(args) ==>
      Deserialize(data, registry) == Ok(Exc(m, c, args, registry[(m, c)].isException, registry[(m, c)].picklable, true, None))
    ensures (m, c) in registry && !registry[(m, c)].accepts(args) ==> Deserialize(data, registry) == Ok(PlainException(args))
    ensures (m, c) !in registry ==> Deserialize(data, registry) == Ok(PlainException(args))
  {
    RSplitDotOf(m, c);
    var t := m + "." + c;
    assert Resolve(t, registry) == if (m, c) in registry then Some((m, c)) else None;
    assert Splat(GetOr(data, "args", VList([]))) == Ok(args);
  }

  /** Splitting "m.c" at its last dot, for a class name without dots. */
  lemma {:induction false} RSplitDotOf(m: string, c: string)
    requires '.' !in c
    ensures '.' in m + "." + c && RSplitDot(m + "." + c) == (m, c)
  {
    var t := m + "." + c;
    assert t[|m|] == '.';
    LastFieldAfter(m, '.', c);
    assert m + "." + c == m + ['.'] + c;
    var r := RSplitDot(t);
    assert r.1 == c;
    assert r.0 == t[..|m|] == m;
  }

  /** The queued form of an item: an `Exception` becomes its envelope. */
  function Stored(item: Value, traceback: string): Value {
    if item.VExc? && item.exc.isException then VDict(Serialize(item.exc, traceback)) else item
  }

  /** What `ProcessQueue.get` hands back for a queued item: envelopes are
      rebuilt into the exception object (returned, not raised). */
  function Delivered(item: Value, registry: Registry): Result<Value> {
    if IsEnvelope(item) then
      match Deserialize(item.entries, registry)
      case Ok(e) => Ok(VExc(e))
      case Err(x) => Err(x)
    else Ok(item)
  }

  /** An item that is neither an `Exception` nor an envelope comes out of the
      queue unchanged; a picklable `Exception` comes out equal to itself when
      its pickle loads, and as a plain `Exception` with its args when loading
      it, like calling its class by name, raises. */
  lemma {:induction false} StoredDelivered(item: Value, tb: string, registry: Registry)
    requires !(item.VExc? && item.exc.isException && !item.exc.picklable)
    requires !IsEnvelope(item)
    ensures !(item.VExc? && item.exc.isException && !item.exc.rebuilds) ==> Delivered(Stored(item, tb), registry) == Ok(item)
    ensures item.VExc? && item.exc.isException && !item.exc.rebuilds && '.' !in item.exc.name && SameClass(item.exc, registry) ==>
      Delivered(Stored(item, tb), registry) == Ok(VExc(PlainException(item.exc.args)))
  {
    if item.VExc? && item.exc.isException {
      var d := Serialize(item.exc, tb);
      StoredIsEnvelope(item, tb);
      RoundTrip(item.exc, tb, registry);
      assert Stored(item, tb) == VDict(d);
      if item.exc.rebuilds {
        assert Delivered(VDict(d), registry) == Ok(VExc(item.exc));
      } else if '.' !in item.exc.name && SameClass(item.exc, registry) {
        LoadFailureFallsBack(item.exc, tb, registry);
        assert Delivered(VDict(d), registry) == Ok(VExc(PlainException(item.exc.args)));
      }
    } else {
      assert Stored(item, tb) == item;
    }
  }

  /** Every envelope the queue builds is recognised as one on the way out. */
  lemma {:induction false} StoredIsEnvelope(item: Value, tb: string)
    ensures item.VExc? && item.exc.isException ==> IsEnvelope(Stored(item, tb))
    ensures !(item.VExc? && item.exc.isException) ==> Stored(item, tb) == item
  {
  }

  // ------------------------------------------------------------ waiting rules

  /** `queue.Queue.put`'s outcome before it stores, for a queue that need not
      wait forever: only a bounded queue (`maxsize > 0`) can refuse. */
  function PutCheck(maxsize: int, size: nat, block: bool, timeout: Option<real>): (r: Option<Exc>)
    requires !(maxsize > 0 && block && timeout.None? && size >= maxsize)
    ensures maxsize <= 0 ==> r.None?
    ensures r.None? ==> maxsize <= 0 || size < maxsize
    ensures r == Some(QueueFull()) ==> maxsize > 0 && size >= maxsize
  {
    if maxsize <= 0 then None
    else if !block then (if size >= maxsize then Some(QueueFull()) else None)
    else if timeout.None? then None
    else if timeout.value < 0.0 then Some(NegativeTimeout())
    else if size >= maxsize then Some(QueueFull())
    else None
  }

  /** `get`'s outcome before it takes an item (shared by `queue.Queue` and
      `queue.SimpleQueue`). */
  function GetCheck(size: nat, block: bool, timeout: Option<real>): (r: Option<Exc>)
    requires !(block && timeout.None? && size == 0)
    ensures r.None? ==> size > 0
    ensures r == Some(QueueEmpty()) <==> size == 0 && !(block && timeout.Some? && timeout.value < 0.0)
    ensures size > 0 && (!block || timeout.None? || timeout.value >= 0.0) ==> r.None?
  {
    if !block then (if size == 0 then Some(QueueEmpty()) else None)
    else if timeout.None? then None
    else if timeout.value < 0.0 then Some(NegativeTimeout())
    else if size == 0 then Some(QueueEmpty())
    else None
  }

  // ------------------------------------------------------------ ProcessQueue

  /** `ProcessQueue`: a FIFO of stored items, an optional bound and a closed flag. */
  class ProcessQueue {
    var items: seq<Value>
    const maxsize: int
    var closed: bool
    /** The classes `sys.modules` resolves envelope type names to. */
    const registry: Registry

    /** `ProcessQueue(maxsize)`: open and empty. */
    constructor (maxsize: int, registry: Registry)
      ensures items == [] && this.maxsize == maxsize && !closed && this.registry == registry
    {
      items := [];
      this.maxsize := maxsize;
      closed := false;
      this.registry := registry;
    }

    /** `put(item, block, timeout)`: refused when closed; an `Exception` is
        stored as its envelope at the back. */
    method Put(item: Value, block: bool, timeout: Option<real>, traceback: string) returns (r: Result<()>)
      requires closed || !(maxsize > 0 && block && timeout.None? && |items| >= maxsize)
      modifies this`items
      ensures closed ==> r == Err(QueueClosed()) && items == old(items)
      ensures !closed ==> match PutCheck(maxsize, |old(items)|, block, timeout)
        case Some(x) => r == Err(x) && items == old(items)
        case None => r == Ok(()) && items == old(items) + [Stored(item, traceback)]
    {
      if closed {
        return Err(QueueClosed());
      }
      var stored := Stored(item, traceback);
      var check := PutCheck(maxsize, |items|, block, timeout);
      if check.Some? {
        return Err(check.value);
      }
      items := items + [stored];
      return Ok(());
    }

    /** `get(block, timeout)`: refused when closed; takes the front item and
        returns a rebuilt exception for an envelope. */
    method Get(block: bool, timeout: Option<real>) returns (r: Result<Value>)
      requires closed || !(block && timeout.None? && items == [])
      modifies this`items
      ensures closed ==> r == Err(QueueClosed()) && items == old(items)
      ensures !closed ==> match GetCheck(|old(items)|, block, timeout)
        case Some(x) => r == Err(x) && items == old(items)
        case None => |old(items)| > 0 && r == Delivered(old(items)[0], registry) && items == old(items)[1..]
    {
      if closed {
        return Err(QueueClosed());
      }
      var check := GetCheck(|items|, block, timeout);
      if check.Some? {
        return Err(check.value);
      }
      var item := items[0];
      items := items[1..];
      r := Delivered(item, registry);
    }

    /** `put_nowait(item)`: `put` with `block=False`. */
    method PutNowait(item: Value, traceback: string) returns (r: Result<()>)
      modifies this`items
      ensures closed ==> r == Err(QueueClosed()) && items == old(items)
      ensures !closed && maxsize > 0 && |old(items)| >= maxsize ==> r == Err(QueueFull()) && items == old(items)
      ensures !closed && (maxsize <= 0 || |old(items)| < maxsize) ==>
        r == Ok(()) && items == old(items) + [Stored(item, traceback)]
    {
      r := Put(item, false, None, traceback);
    }

    /** `get_nowait()`: `get` with `block=False`. */
    method GetNowait() returns (r: Result<Value>)
      modifies this`items
      ensures closed ==> r == Err(QueueClosed()) && items == old(items)
      ensures !closed && old(items) == [] ==> r == Err(QueueEmpty()) && items == []
      ensures !closed && old(items) != [] ==>
        r == Delivered(old(items)[0], registry) && items == old(items)[1..]
    {
      r := Get(false, None);
    }

    /** `empty()` (answers even when closed) */
    function IsEmpty(): (b: bool)
      reads this
      ensures b <==> |items| == 0
    {
      |items| == 0
    }

    /** `full()`: never, for an unbounded queue. */
    function IsFull(): (b: bool)
      reads this
      ensures maxsize <= 0 ==> !b
      ensures b <==> 0 < maxsize <= |items|
    {
      0 < maxsize <= |items|
    }

    /** `qsize()` */
    function QSize(): (n: nat)
      reads this
      ensures n == |items|
    {
      |items|
    }

    /** `close()`: idempotent; queued items stay but can no longer be read. */
    method Close()
      modifies this`closed
      ensures closed
    {
      closed := true;
    }
  }

  // ------------------------------------------------------------ ProcessSimpleQueue

  /** `ProcessSimpleQueue`: an unbounded FIFO whose `get` raises a rebuilt
      exception. */
  class ProcessSimpleQueue {
    var items: seq<Value>
    var closed: bool
    const registry: Registry

    constructor (registry: Registry)
      ensures items == [] && !closed && this.registry == registry
    {
      items := [];
      closed := false;
      this.registry := registry;
    }

    /** `put(item)`: refused when closed; never blocks. */
    method Put(item: Value, traceback: string) returns (r: Result<()>)
      modifies this`items
      ensures closed ==> r == Err(QueueClosed()) && items == old(items)
      ensures !closed ==> r == Ok(()) && items == old(items) + [Stored(item, traceback)]
    {
      if closed {
        return Err(QueueClosed());
      }
      items := items + [Stored(item, traceback)];
      return Ok(());
    }

    /** `get(block, timeout)`: an envelope is rebuilt and raised. */
    method Get(block: bool, timeout: Option<real>) returns (r: Result<Value>)
      requires closed || !(block && timeout.None? && items == [])
      modifies this`items
      ensures closed ==> r == Err(QueueClosed()) && items == old(items)
      ensures !closed ==> match GetCheck(|old(items)|, block, timeout)
        case Some(x) => r == Err(x) && items == old(items)
        case None =>
          |old(items)| > 0 && items == old(items)[1..] && r == Raised(old(items)[0], registry)
    {
      if closed {
        return Err(QueueClosed());
      }
      var check := GetCheck(|items|, block, timeout);
      if check.Some? {
        return Err(check.value);
      }
      var item := items[0];
      items := items[1..];
      r := Raised(item, registry);
    }

    function IsEmpty(): (b: bool)
      reads this
      ensures b <==> |items| == 0
    {
      |items| == 0
    }

    function QSize(): (n: nat)
      reads this
      ensures n == |items|
    {
      |items|
    }

    method Close()
      modifies this`closed
      ensures closed
    {
      closed := true;
    }
  }

  /** What `ProcessSimpleQueue.get` does with a queued item: an envelope is
      raised as the rebuilt exception. */
  function Raised(item: Value, registry: Registry): Result<Value> {
    if IsEnvelope(item) then
      match Deserialize(item.entries, registry)
      case Ok(e) => Err(e)
      case Err(x) => Err(x)
    else Ok(item)
  }

  /** The two queues differ only in how the rebuilt exception leaves `get`. */
  lemma {:induction false} RaisedVersusDelivered(item: Value, registry: Registry)
    ensures Delivered(item, registry).Ok? && Delivered(item, registry).value.VExc? && IsEnvelope(item) ==>
      Raised(item, registry) == Err(Delivered(item, registry).value.exc)
    ensures !IsEnvelope(item) ==> Raised(item, registry) == Delivered(item, registry) == Ok(item)
    ensures Delivered(item, registry).Err? ==> Raised(item, registry) == Delivered(item, registry)
  {
  }

  /** A picklable exception put on a simple queue is raised again by `get`:
      itself when its pickle loads, a plain `Exception` with its args when
      loading it, like calling its class by name, raises. */
  lemma {:induction false} SimpleQueueReraises(e: Exc, tb: string, registry: Registry)
    requires e.isException && e.picklable
    ensures e.rebuilds ==> Raised(Stored(VExc(e), tb), registry) == Err(e)
    ensures !e.rebuilds && '.' !in e.name && SameClass(e, registry) ==>
      Raised(Stored(VExc(e), tb), registry) == Err(PlainException(e.args))
  {
    var d := Serialize(e, tb);
    assert Stored(VExc(e), tb) == VDict(d);
    assert GetOr(d, "__exception__", VNone) == VBool(true);
    RoundTrip(e, tb, registry);
    if !e.rebuilds && '.' !in e.name && SameClass(e, registry) {
      LoadFailureFallsBack(e, tb, registry);
    }
  }

  // ------------------------------------------------------------ JoinableQueue

  /** `JoinableQueue`: a `ProcessQueue` (inherited `get`, `close` and friends
      are the inner queue's) with a count of unfinished tasks. Putting goes
      through `Put` and `PutNowait` only, which keep the count; the inner
      queue is reached directly only for taking items out. */
  class JoinableQueue {
    const queue: ProcessQueue
    var unfinished: int

    /** The count never goes negative. */
    ghost predicate Valid()
      reads this
    {
      unfinished >= 0
    }

    constructor (maxsize: int, registry: Registry)
      ensures Valid() && unfinished == 0 && fresh(queue)
      ensures queue.items == [] && queue.maxsize == maxsize && !queue.closed && queue.registry == registry
    {
      queue := new ProcessQueue(maxsize, registry);
      unfinished := 0;
    }

    /** `put`: counts one more task only when the inner put succeeded. */
    method Put(item: Value, block: bool, timeout: Option<real>, traceback: string) returns (r: Result<()>)
      requires Valid()
      requires queue.closed || !(queue.maxsize > 0 && block && timeout.None? && |queue.items| >= queue.maxsize)
      modifies this`unfinished, queue`items
      ensures Valid()
      ensures r.Ok? <==> !queue.closed && PutCheck(queue.maxsize, |old(queue.items)|, block, timeout).None?
      ensures queue.closed ==> r == Err(QueueClosed())
      ensures !queue.closed && PutCheck(queue.maxsize, |old(queue.items)|, block, timeout).Some? ==>
        r == Err(PutCheck(queue.maxsize, |old(queue.items)|, block, timeout).value)
      ensures r.Ok? ==> r == Ok(()) && unfinished == old(unfinished) + 1 && queue.items == old(queue.items) + [Stored(item, traceback)]
      ensures r.Err? ==> unfinished == old(unfinished) && queue.items == old(queue.items)
    {
      r := queue.Put(item, block, timeout, traceback);
      if r.Ok? {
        unfinished := unfinished + 1;
      }
    }

    /** The inherited `put_nowait(item)` calls the overriding `put`, so a
        successful one counts a task too. */
    method PutNowait(item: Value, traceback: string) returns (r: Result<()>)
      requires Valid()
      modifies this`unfinished, queue`items
      ensures Valid()
      ensures queue.closed ==> r == Err(QueueClosed()) && unfinished == old(unfinished)
      ensures !queue.closed && queue.maxsize > 0 && |old(queue.items)| >= queue.maxsize ==>
        r == Err(QueueFull()) && unfinished == old(unfinished) && queue.items == old(queue.items)
      ensures !queue.closed && (queue.maxsize <= 0 || |old(queue.items)| < queue.maxsize) ==>
        r == Ok(()) && unfinished == old(unfinished) + 1 && queue.items == old(queue.items) + [Stored(item, traceback)]
    {
      ghost var check := PutCheck(queue.maxsize, |queue.items|, false, None);
      assert queue.maxsize <= 0 || |queue.items| < queue.maxsize ==> check.None?;
      r := Put(item, false, None, traceback);
    }

    /** `task_done()`: refused at zero, otherwise one task fewer. */
    method TaskDone() returns (r: Result<()>)
      requires Valid()
      modifies this`unfinished
      ensures Valid()
      ensures old(unfinished) == 0 ==> r == Err(Builtin("ValueError", "task_done() called too many times")) && unfinished == 0
      ensures old(unfinished) > 0 ==> r == Ok(()) && unfinished == old(unfinished) - 1
    {
      if unfinished <= 0 {
        return Err(Builtin("ValueError", "task_done() called too many times"));
      }
      unfinished := unfinished - 1;
      return Ok(());
    }

    /** `join()`: returns once every task is done; nothing else can finish a
        task while it waits, so it is only called with none outstanding. */
    method Join()
      requires Valid() && unfinished == 0
      ensures unfinished == 0
    {
    }
  }
}
