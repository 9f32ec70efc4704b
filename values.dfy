/**
 * The values the casting engine handles, the errors it raises, and the
 * handful of host-language (Python) operations the casts are built from:
 * truthiness, hashing, iteration, `dict(...)` conversion, index and slice
 * arithmetic, calling a zero-argument factory.
 */
module Values {
  import Order

  type byte = x: int | 0 <= x < 256

  /**
   * A host value.  The first seven constructors are the JSON-shaped values a
   * document is made of; the others are the non-document objects the engine
   * creates or meets:
   *  - Member: a member of an enumeration class;
   *  - Callable: a zero-argument callable (a `factory`) that returns `result`;
   *  - Record: a model instance that keeps a raw document `_data` and other
   *    per-instance attributes (`_compounds` of model_decorator.py, the slots
   *    of proxy_model.py);
   *  - Struct: a struct_model.py instance, whose fields live in slots only;
   *  - ListView: a list proxy with raw `_data` and typed `_view`;
   *  - ScalarListView: proxy_model.py's list proxy over scalars (`_data` only);
   *  - MapView: a mapping proxy with raw `_data` and typed `_view`.
   * A typed list or dict of multivalued.py / struct_model.py is a subclass of
   * the built-in list or dict and is represented as a List or Dict.
   */
  datatype Value =
    | Null
    | Bool(b: bool)
    | Int(i: int)
    | Str(s: string)
    | Bytes(bytes: seq<byte>)
    | List(items: seq<Value>)
    | Dict(entries: map<string, Value>)
    | Member(enumName: string, name: string, value: Value)
    | Callable(result: Value)
    | Record(model: string, doc: map<string, Value>, attrs: map<string, Value>)
    | Struct(model: string, slots: map<string, Value>)
    | ListView(data: Value, view: seq<Value>)
    | ScalarListView(data: Value)
    | MapView(raw: map<string, Value>, typed: map<string, Value>)

  /** Why a ValueError was raised. */
  datatype Reason =
    | InvalidLiteral
    | DecodeFailure
    | NotAnEnumValue
    | NotADict
    | BadSequenceLength
    | UnexpectedKeys(keys: set<string>)
    | MissingKey(field: string, model: string)

  /** The host exceptions the engine raises or lets through. */
  datatype Error =
    | ValueError(reason: Reason)
    | TypeError
    | AttributeError
    | KeyError
    | IndexError
    | NotImplementedError
    | AssertionError
    | RuntimeError

  datatype Option<+T> = None | Some(value: T)

  datatype Result<+T> = Ok(value: T) | Err(error: Error) {
    predicate IsFailure() { Err? }
    function PropagateFailure<U>(): Result<U> requires Err? { Err(error) }
    function Extract(): T requires Ok? { value }
  }

  /** The `_data` attribute of an object, if it has one. */
  function DataOf(v: Value): (r: Option<Value>)
    ensures r.Some? <==> v.Record? || v.ListView? || v.ScalarListView? || v.MapView?
  {
    match v
    case Record(_, data, _) => Some(Dict(data))
    case ListView(data, _) => Some(data)
    case ScalarListView(data) => Some(data)
    case MapView(data, _) => Some(Dict(data))
    case _ => None
  }

  predicate SameShape(a: Value, b: Value) {
    (a.List? && b.List?) || (a.Dict? && b.Dict?)
  }

  /**
   * The state an input element is left in once it has been cast to `view`.
   * A raw dict or list handed to a compound, list or mapping cast becomes the
   * new view's `_data` (the very same object, updated in place by the nested
   * casts); any other input is copied or passed through and stays as it was.
   */
  function Settle(input: Value, view: Value): (r: Value)
    ensures DataOf(view).Some? && SameShape(input, DataOf(view).value) ==> r == DataOf(view).value
    ensures !(DataOf(view).Some? && SameShape(input, DataOf(view).value)) ==> r == input
  {
    match DataOf(view)
    case Some(d) => if SameShape(input, d) then d else input
    case None => input
  }

  /** `len(v)`. */
  function Len(v: Value): (r: Result<nat>)
    ensures v.Str? ==> r == Ok(|v.s|)
    ensures v.List? ==> r == Ok(|v.items|)
    ensures v.Dict? ==> r == Ok(|v.entries|)
  {
    match v
    case Str(s) => Ok(|s|)
    case Bytes(b) => Ok(|b|)
    case List(items) => Ok(|items|)
    case Dict(entries) => Ok(|entries|)
    case ListView(data, _) => Len(data)
    case ScalarListView(data) => Len(data)
    case MapView(data, _) => Ok(|data|)
    case _ => Err(TypeError)
  }

  /** `bool(v)`: false, zero, None and empty containers are false. */
  function Truthy(v: Value): (r: Result<bool>)
    ensures v.Null? ==> r == Ok(false)
    ensures v.Bool? ==> r == Ok(v.b)
    ensures v.Int? ==> r == Ok(v.i != 0)
    ensures v.Str? ==> r == Ok(v.s != [])
    ensures v.List? ==> r == Ok(v.items != [])
  {
    match v
    case Null => Ok(false)
    case Bool(b) => Ok(b)
    case Int(i) => Ok(i != 0)
    case Str(s) => Ok(s != [])
    case Bytes(b) => Ok(b != [])
    case List(items) => Ok(items != [])
    case Dict(entries) => Ok(entries != map[])
    case MapView(raw, _) => Ok(raw != map[])
    case ListView(data, _) => var n :- Len(data); Ok(n != 0)
    case ScalarListView(data) => var n :- Len(data); Ok(n != 0)
    case _ => Ok(true)
  }

  /** Lists and dicts are unhashable; every other value can be a dict key. */
  predicate Hashable(v: Value) {
    !v.List? && !v.Dict?
  }

  /** The dict key a hashable value stands for: `True == 1` and `False == 0`. */
  function HashKey(v: Value): (k: Value)
    ensures v.Bool? ==> k == Int(if v.b then 1 else 0)
    ensures !v.Bool? ==> k == v
  {
    if v.Bool? then Int(if v.b then 1 else 0) else v
  }

  /** Calls a zero-argument callable. */
  function Call(f: Value): (r: Result<Value>)
    ensures f.Callable? <==> r.Ok?
    ensures f.Callable? ==> r.value == f.result
  {
    if f.Callable? then Ok(f.result) else Err(TypeError)
  }

  function Chars(s: string): (r: seq<Value>)
    ensures |r| == |s| && forall i :: 0 <= i < |s| ==> r[i] == Str([s[i]])
  {
    seq(|s|, i requires 0 <= i < |s| => Str([s[i]]))
  }

  function ByteInts(b: seq<byte>): (r: seq<Value>)
    ensures |r| == |b| && forall i :: 0 <= i < |b| ==> r[i] == Int(b[i])
  {
    seq(|b|, i requires 0 <= i < |b| => Int(b[i]))
  }

  function KeyStrs(ks: seq<string>): (r: seq<Value>)
    ensures |r| == |ks| && forall i :: 0 <= i < |ks| ==> r[i] == Str(ks[i])
  {
    seq(|ks|, i requires 0 <= i < |ks| => Str(ks[i]))
  }

  /**
   * The elements `for x in v` visits, i.e. `list(v)`.  A list proxy has no
   * `__iter__` and is iterated through `__getitem__` (its `_view` for the
   * compound proxy, its `_data` for the scalar one); a mapping proxy iterates
   * its `_view` keys; a dict iterates its keys.
   */
  function Iterate(v: Value): (r: Result<seq<Value>>)
    ensures v.List? ==> r == Ok(v.items)
    ensures v.ListView? ==> r == Ok(v.view)
    ensures v.Null? || v.Bool? || v.Int? || v.Member? || v.Callable? ==> r == Err(TypeError)
  {
    match v
    case List(items) => Ok(items)
    case Str(s) => Ok(Chars(s))
    case Bytes(b) => Ok(ByteInts(b))
    case Dict(entries) => Ok(KeyStrs(Order.Sorted(entries.Keys)))
    case ListView(_, view) => Ok(view)
    case ScalarListView(data) =>
      (match data
       case List(items) => Ok(items)
       case Str(s) => Ok(Chars(s))
       case Bytes(b) => Ok(ByteInts(b))
       case Dict(_) => Err(KeyError)
       case _ => Err(TypeError))
    case MapView(_, view) => Ok(KeyStrs(Order.Sorted(view.Keys)))
    case _ => Err(TypeError)
  }

  /**
   * `dict(pairs)` over the elements of an iterable: each element must itself
   * iterate to exactly two values, a key and a value; later pairs win.
   */
  function PairsToDict(pairs: seq<Value>): (r: Result<map<string, Value>>)
    ensures pairs == [] ==> r == Ok(map[])
    decreases |pairs|
  {
    if pairs == [] then Ok(map[])
    else
      var init :- PairsToDict(pairs[..|pairs| - 1]);
      var kv :- Iterate(pairs[|pairs| - 1]);
      if |kv| != 2 then Err(ValueError(BadSequenceLength))
      else if !Hashable(kv[0]) || !kv[0].Str? then Err(TypeError)
      else Ok(init[kv[0].s := kv[1]])
  }

  /** `dict(v)`, as `Mapping.cast` applies it to a value that is not a dict. */
  function AsDict(v: Value): (r: Result<map<string, Value>>)
    ensures v.Dict? ==> r == Ok(v.entries)
    ensures v.MapView? ==> r == Ok(v.typed)
  {
    match v
    case Dict(entries) => Ok(entries)
    case MapView(_, view) => Ok(view)
    case _ => var pairs :- Iterate(v); PairsToDict(pairs)
  }

  /** `v.items()`: only dicts and mapping proxies (its `_view`) have one. */
  function Items(v: Value): (r: Result<map<string, Value>>)
    ensures r.Ok? <==> v.Dict? || v.MapView?
  {
    match v
    case Dict(entries) => Ok(entries)
    case MapView(_, view) => Ok(view)
    case _ => Err(AttributeError)
  }

  /** A list index as Python resolves it: negative counts from the end. */
  function ResolveIndex(i: int, n: nat): (r: Option<nat>)
    ensures r.Some? <==> 0 <= i + n && i < n
    ensures r.Some? ==> r.value < n && (r.value == if i < 0 then i + n else i)
  {
    if 0 <= i < n then Some(i) else if 0 <= i + n && i < 0 then Some(i + n) else None
  }

  /** The position `list.insert(i, x)` inserts at: clamped into [0, n]. */
  function InsertPos(i: int, n: nat): (r: nat)
    ensures r <= n
    ensures 0 <= i <= n ==> r == i
    ensures 0 <= i + n && i < 0 ==> r == i + n
    ensures i > n ==> r == n
    ensures i + n < 0 ==> r == 0
  {
    if i < 0 then (if i + n < 0 then 0 else i + n) else if i > n then n else i
  }

  /** A slice bound (start or stop of a step-1 slice) clamped into [0, n]. */
  function SliceBound(b: Option<int>, dflt: nat, n: nat): (r: nat)
    requires dflt <= n
    ensures r <= n
    ensures b.None? ==> r == dflt
    ensures b.Some? ==> r == InsertPos(b.value, n)
  {
    if b.None? then dflt else InsertPos(b.value, n)
  }

  /** The half-open range `[lo, hi)` a step-1 slice `start:stop` selects. */
  function SliceRange(start: Option<int>, stop: Option<int>, n: nat): (r: (nat, nat))
    ensures r.0 <= r.1 <= n
    ensures r.0 == SliceBound(start, 0, n)
    ensures r.1 == if SliceBound(stop, n, n) < r.0 then r.0 else SliceBound(stop, n, n)
  {
    var lo := SliceBound(start, 0, n);
    var hi := SliceBound(stop, n, n);
    (lo, if hi < lo then lo else hi)
  }
}
