/** The Python values the modelled code passes around: JSON-like data,
    insertion-ordered dictionaries, exception objects and pickled blobs. */
module PyData {
  import opened Wrappers
  import opened Strings

  /** A Python value. Tuples are represented as lists; a `dict` keeps its
      insertion order as a list of (key, value) pairs with string keys. */
  datatype Value =
    | VNone
    | VBool(b: bool)
    | VInt(i: int)
    | VStr(s: string)
    | VList(items: seq<Value>)
    | VDict(entries: Dict)
    | VExc(exc: Exc)
    | VPickle(payload: Exc)  // the bytes `pickle.dumps(payload)` produced

  /** An exception object: its class (`module.name`), its `args`, whether the
      class derives from `Exception` (rather than only `BaseException`),
      whether `pickle.dumps` succeeds on it, whether calling its class with
      its `args` succeeds (what `pickle.loads` does to rebuild it), and its
      `code` attribute when it has one (`SystemExit.code`, an int or None). */
  datatype Exc = Exc(moduleName: string, name: string, args: seq<Value>,
                     isException: bool, picklable: bool, rebuilds: bool, code: Option<Option<int>>)

  type Dict = seq<(string, Value)>

  /** The result of a Python call: its return value, or the exception it raises. */
  datatype Result<+T> = Ok(value: T) | Err(exc: Exc)

  /** A built-in exception raised with one message, e.g. `ValueError("...")`. */
  function Builtin(name: string, msg: string): (e: Exc)
    ensures e.isException && e.args == [VStr(msg)]
  {
    Exc("builtins", name, [VStr(msg)], true, true, true, None)
  }

  /** A built-in exception raised without arguments. */
  function Bare(moduleName: string, name: string): (e: Exc)
    ensures e.isException && e.args == []
  {
    Exc(moduleName, name, [], true, true, true, None)
  }

  /** `bool(v)` */
  predicate Truthy(v: Value) {
    match v
    case VNone => false
    case VBool(b) => b
    case VInt(i) => i != 0
    case VStr(s) => |s| > 0
    case VList(xs) => |xs| > 0
    case VDict(d) => |d| > 0
    case VExc(_) => true
    case VPickle(_) => true
  }

  // ---------------------------------------------------------------- dicts

  /** `list(d)`: the keys in insertion order. */
  function Keys(d: Dict): (ks: seq<string>)
    ensures |ks| == |d|
    ensures forall i :: 0 <= i < |d| ==> ks[i] == d[i].0
    decreases |d|
  {
    if |d| == 0 then [] else [d[0].0] + Keys(d[1..])
  }

  ghost predicate UniqueKeys(d: Dict) {
    forall i, j :: 0 <= i < j < |d| ==> d[i].0 != d[j].0
  }

  /** `d.get(k)`: the value stored under `k`, if any. */
  function Get(d: Dict, k: string): (r: Option<Value>)
    ensures r.Some? <==> k in Keys(d)
    decreases |d|
  {
    if |d| == 0 then None
    else if d[0].0 == k then Some(d[0].1)
    else
      assert Keys(d) == [d[0].0] + Keys(d[1..]);
      Get(d[1..], k)
  }

  /** One step of a lookup: the first pair answers for its own key. */
  lemma {:induction false} GetCons(k: string, v: Value, d: Dict, j: string)
    ensures Get([(k, v)] + d, j) == if j == k then Some(v) else Get(d, j)
  {
    assert ([(k, v)] + d)[1..] == d;
  }

  /** One step of a lookup in a non-empty dictionary. */
  lemma {:induction false} GetFront(d: Dict, j: string)
    requires |d| > 0
    ensures Get(d, j) == if j == d[0].0 then Some(d[0].1) else Get(d[1..], j)
  {
  }

  /** The keys of a dictionary with one more pair in front. */
  lemma {:induction false} KeysCons(k: string, v: Value, d: Dict)
    ensures Keys([(k, v)] + d) == [k] + Keys(d)
  {
  }

  /** A lookup finds the first pair carrying the key. */
  lemma {:induction false} GetAt(d: Dict, i: int)
    requires 0 <= i < |d|
    requires forall j :: 0 <= j < i ==> d[j].0 != d[i].0
    ensures Get(d, d[i].0) == Some(d[i].1)
    decreases i
  {
    if i > 0 {
      GetAt(d[1..], i - 1);
    }
  }

  /** `d.get(k, default)` */
  function GetOr(d: Dict, k: string, default: Value): Value {
    match Get(d, k)
    case Some(v) => v
    case None => default
  }

  /** `d[k] = v`: an existing key keeps its position, a new key goes last. */
  function Set(d: Dict, k: string, v: Value): (r: Dict)
    decreases |d|
  {
    if |d| == 0 then [(k, v)]
    else if d[0].0 == k then [(k, v)] + d[1..]
    else [d[0]] + Set(d[1..], k, v)
  }

  /** After `d[k] = v`, `k` reads `v` and every other key reads as before. */
  lemma {:induction false} GetSet(d: Dict, k: string, v: Value, j: string)
    ensures Get(Set(d, k, v), j) == if j == k then Some(v) else Get(d, j)
    decreases |d|
  {
    if |d| > 0 && d[0].0 != k {
      GetSet(d[1..], k, v, j);
      assert Set(d, k, v)[1..] == Set(d[1..], k, v);
    }
  }

  /** `d[k] = v` keeps the key order: it replaces in place or appends. */
  lemma {:induction false} KeysSet(d: Dict, k: string, v: Value)
    ensures Keys(Set(d, k, v)) == if k in Keys(d) then Keys(d) else Keys(d) + [k]
    decreases |d|
  {
    if |d| > 0 {
      assert Keys(d) == [d[0].0] + Keys(d[1..]);
      if d[0].0 != k {
        KeysSet(d[1..], k, v);
        assert Keys(Set(d, k, v)) == [d[0].0] + Keys(Set(d[1..], k, v));
      } else {
        assert Keys(Set(d, k, v)) == [k] + Keys(d[1..]);
      }
    }
  }

  /** `{**d, **e}` (equivalently `d.update(e)` on a copy): the pairs of `e`
      written into `d` in order. */
  function Update(d: Dict, e: Dict): Dict
    decreases |e|
  {
    if |e| == 0 then d else Update(Set(d, e[0].0, e[0].1), e[1..])
  }

  /** An update keeps the keys of `d`, in order and in front, and adds
      those of `e`; no other key appears. */
  lemma {:induction false} KeysUpdate(d: Dict, e: Dict, k: string)
    ensures |d| <= |Update(d, e)| && Keys(Update(d, e))[..|d|] == Keys(d)
    ensures k in Keys(Update(d, e)) <==> k in Keys(d) || k in Keys(e)
    decreases |e|
  {
    if |e| > 0 {
      var d' := Set(d, e[0].0, e[0].1);
      KeysSet(d, e[0].0, e[0].1);
      KeysUpdate(d', e[1..], k);
      assert Keys(e) == [e[0].0] + Keys(e[1..]);
      assert Keys(d')[..|d|] == Keys(d);
      assert Keys(Update(d, e))[..|d|] == Keys(Update(d', e[1..]))[..|d'|][..|d|];
    }
  }

  /** After an update, keys of `e` read from `e`, the others from `d`. */
  lemma {:induction false} GetUpdate(d: Dict, e: Dict, j: string)
    requires UniqueKeys(e)
    ensures Get(Update(d, e), j) == if j in Keys(e) then Get(e, j) else Get(d, j)
    decreases |e|
  {
    if |e| > 0 {
      assert Keys(e) == [e[0].0] + Keys(e[1..]);
      assert UniqueKeys(e[1..]);
      GetUpdate(Set(d, e[0].0, e[0].1), e[1..], j);
      GetSet(d, e[0].0, e[0].1, j);
      if j == e[0].0 {
        assert j !in Keys(e[1..]);
      }
    }
  }

  // ---------------------------------------------------------------- str()

  /** `repr(s)` for a string: single quotes unless the text holds a single
      quote and no double quote; backslash, the quote, newline, carriage
      return and tab are escaped. */
  function QuoteString(s: string): string {
    var q := if '\'' in s && '"' !in s then '"' else '\'';
    [q] + Escape(s, q) + [q]
  }

  function Escape(s: string, q: char): string
    decreases |s|
  {
    if |s| == 0 then ""
    else
      var c := s[0];
      (if c == '\\' then "\\\\"
       else if c == q then ['\\', q]
       else if c == '\n' then "\\n"
       else if c == '\r' then "\\r"
       else if c == '\t' then "\\t"
       else [c]) + Escape(s[1..], q)
  }

  /** `repr(v)` */
  function Repr(v: Value): string
    decreases v, 1
  {
    match v
    case VNone => "None"
    case VBool(b) => if b then "True" else "False"
    case VInt(i) => IntToString(i)
    case VStr(s) => QuoteString(s)
    case VList(xs) => "[" + Join(", ", ReprAll(v, xs)) + "]"
    case VDict(d) =>
      "{" + Join(", ", seq(|d|, i requires 0 <= i < |d| => QuoteString(d[i].0) + ": " + Repr(d[i].1))) + "}"
    case VExc(e) => e.name + "(" + Join(", ", ReprAll(v, e.args)) + ")"
    case VPickle(_) => "b'<pickle>'"
  }

  function ReprAll(ghost parent: Value, xs: seq<Value>): (r: seq<string>)
    requires forall i :: 0 <= i < |xs| ==> xs[i] < parent
    ensures |r| == |xs|
    decreases parent, 0
  {
    seq(|xs|, i requires 0 <= i < |xs| => Repr(xs[i]))
  }

  /** `str(v)` */
  function Str(v: Value): string {
    match v
    case VStr(s) => s
    case VExc(e) => ExcText(e)
    case _ => Repr(v)
  }

  /** The built-in `OSError` subclasses, whose `str` of `(errno, strerror)`
      reads `[Errno n] strerror`. */
  predicate IsOSError(e: Exc) {
    e.moduleName == "builtins" &&
    e.name in {"OSError", "IOError", "EnvironmentError", "FileNotFoundError", "FileExistsError",
               "PermissionError", "IsADirectoryError", "NotADirectoryError", "BlockingIOError",
               "ChildProcessError", "ConnectionError", "BrokenPipeError", "ConnectionAbortedError",
               "ConnectionRefusedError", "ConnectionResetError", "InterruptedError",
               "ProcessLookupError", "TimeoutError"}
  }

  /** `str(exc)`: `KeyError` with one argument gives that argument's repr,
      an `OSError` built from `(errno, strerror)` gives `[Errno n] strerror`;
      otherwise `BaseException.__str__`: empty for no arguments, `str` of the
      only argument, else the repr of the tuple. */
  function ExcText(e: Exc): (t: string)
    ensures |e.args| == 0 ==> t == ""
    ensures |e.args| == 1 && e.args[0].VStr? && !(e.moduleName == "builtins" && e.name == "KeyError")
            ==> t == e.args[0].s
    ensures |e.args| == 1 && e.moduleName == "builtins" && e.name == "KeyError" ==> t == Repr(e.args[0])
  {
    if |e.args| == 0 then ""
    else if |e.args| == 1 then
      if e.moduleName == "builtins" && e.name == "KeyError" then Repr(e.args[0]) else Str(e.args[0])
    else if |e.args| == 2 && IsOSError(e) then "[Errno " + Str(e.args[0]) + "] " + Str(e.args[1])
    else "(" + Join(", ", ReprAll(VExc(e), e.args)) + ")"
  }

  /** `type(v).__name__`, as `TypeError` messages print it. */
  function TypeName(v: Value): string {
    match v
    case VNone => "NoneType"
    case VBool(_) => "bool"
    case VInt(_) => "int"
    case VStr(_) => "str"
    case VList(_) => "list"
    case VDict(_) => "dict"
    case VExc(e) => e.name
    case VPickle(_) => "bytes"
  }
}
