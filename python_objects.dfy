/** The part of Python's object model that the connectors depend on: the
    exceptions they raise or wrap, the values stored in rows, dictionaries
    as ordered key/value sequences (insertion order fixes column order), and
    the Python objects a caller may pass where a list of rows is expected. */
module PyObjects {
  import Text

  /** Exceptions, by class, with `str(e)` as their message. `DriverError`
      is any exception a client library raises (pymysql, pymongo, sqlite3,
      zstandard, the Azure SDK); `BaseError` is a bare `BaseException`. */
  datatype Error =
    | AssertionError(message: string)
    | ValueError(message: string)
    | TypeError(message: string)
    | RuntimeError(message: string)
    | AttributeError(message: string)
    | IndexError(message: string)
    | KeyError(message: string)
    | UnboundLocalError(message: string)
    | DriverError(message: string)
    | BaseError(message: string)

  /** A call either returns a value or raises an exception. */
  datatype Result<+T> = Ok(value: T) | Err(error: Error) {
    predicate IsFailure() { Err? }
    function PropagateFailure<U>(): Result<U> requires Err? { Err(error) }
    function Extract(): T requires Ok? { value }
  }

  datatype Option<+T> = None | Some(value: T)

  /** Values held in a row or passed as a scalar argument. */
  datatype Value = Str(s: string) | Int(i: int) | Bool(b: bool) | Null

  /** A dict, as its items in insertion order. A row stands for a dict, so
      its keys are distinct and `|row|` is the dict's `len`. */
  type Row = seq<(string, Value)>

  /** A Python object passed where a list of dicts is expected. */
  datatype Obj = List(items: seq<Obj>) | Dict(row: Row) | Scalar(v: Value)

  /** `list(d.keys())`. */
  function KeysOf(r: Row): (ks: seq<string>)
    ensures |ks| == |r|
    ensures forall i :: 0 <= i < |r| ==> ks[i] == r[i].0
  {
    seq(|r|, i requires 0 <= i < |r| => r[i].0)
  }

  /** `list(d.values())`. */
  function ValuesOf(r: Row): (vs: seq<Value>)
    ensures |vs| == |r|
    ensures forall i :: 0 <= i < |r| ==> vs[i] == r[i].1
  {
    seq(|r|, i requires 0 <= i < |r| => r[i].1)
  }

  /** `d.keys()` compared with `==`: a set comparison, blind to order. */
  function KeySet(r: Row): set<string>
  {
    set i | 0 <= i < |r| :: r[i].0
  }

  /** `d.get(k)`: the value stored under the key, if any. */
  function Get(r: Row, k: string): Option<Value>
  {
    if r == [] then None
    else if r[0].0 == k then Some(r[0].1)
    else Get(r[1..], k)
  }

  /** The first item under a key decides `d.get(k)`. */
  lemma {:induction false} GetAt(r: Row, i: nat, k: string)
    requires i < |r| && r[i].0 == k
    requires forall j :: 0 <= j < i ==> r[j].0 != k
    ensures Get(r, k) == Some(r[i].1)
    decreases i
  {
    if i > 0 {
      GetAt(r[1..], i - 1, k);
    }
  }

  /** `d.get(k)` is `None` exactly when no item carries the key. */
  lemma {:induction false} GetNone(r: Row, k: string)
    ensures Get(r, k).None? <==> forall j :: 0 <= j < |r| ==> r[j].0 != k
    decreases |r|
  {
    if r != [] {
      GetNone(r[1..], k);
      if r[0].0 != k {
        assert forall j :: 1 <= j < |r| ==> r[j].0 == r[1..][j - 1].0;
      }
    }
  }

  predicate TruthyValue(v: Value)
  {
    match v
    case Str(s) => s != ""
    case Int(i) => i != 0
    case Bool(b) => b
    case Null => false
  }

  /** `bool(o)`. */
  predicate Truthy(o: Obj)
  {
    match o
    case List(xs) => xs != []
    case Dict(r) => r != []
    case Scalar(v) => TruthyValue(v)
  }

  /** `bool(s)` for an optional string argument (None or a str). */
  predicate Given(s: Option<string>)
  {
    s.Some? && s.value != ""
  }

  /** The name of a value's type, as Python's messages print it. */
  function TypeName(o: Obj): string
  {
    match o
    case List(_) => "list"
    case Dict(_) => "dict"
    case Scalar(Str(_)) => "str"
    case Scalar(Int(_)) => "int"
    case Scalar(Bool(_)) => "bool"
    case Scalar(Null) => "NoneType"
  }

  /** `len(o)`: numbers and None have no length. */
  function Len(o: Obj): Result<nat>
  {
    match o
    case List(xs) => Ok(|xs|)
    case Dict(r) => Ok(|r|)
    case Scalar(Str(s)) => Ok(|s|)
    case Scalar(_) => Err(TypeError("object of type '" + TypeName(o) + "' has no len()"))
  }

  /** `str(v)`. */
  function PyStr(v: Value): string
  {
    match v
    case Str(s) => s
    case Int(i) => Text.IntToString(i)
    case Bool(b) => if b then "True" else "False"
    case Null => "None"
  }

  /** `str(e)`. */
  function Message(e: Error): string
  {
    e.message
  }
}
