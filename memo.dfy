/**
 * The dictionary caches of util.py: `memoize` (lines 4-15) keys its memo
 * on the whole argument tuple, `memoize_on_first` (lines 18-29) on the
 * first argument only.  The wrapped function is a parameter; it may raise.
 * Primitive keys are compared as Python compares them, so `True` and `1`
 * share an entry, and an unhashable argument makes the lookup raise
 * TypeError.  Record and view arguments are compared by content, where
 * Python would compare them by identity.
 */
module Memo {
  import opened Values

  /** The memo after a call, and what the call returned or raised. */
  datatype MemoOut<K> = MemoOut(memo: map<K, Value>, result: Result<Value>)

  /** The key an argument tuple stands for, or None when some argument is unhashable. */
  function TupleKey(args: seq<Value>): (r: Option<seq<Value>>)
    ensures r.Some? <==> forall i :: 0 <= i < |args| ==> Hashable(args[i])
    ensures r.Some? ==> |r.value| == |args| && forall i :: 0 <= i < |args| ==> r.value[i] == HashKey(args[i])
  {
    if forall i :: 0 <= i < |args| ==> Hashable(args[i])
    then Some(seq(|args|, i requires 0 <= i < |args| => HashKey(args[i])))
    else None
  }

  /** The key a single argument stands for, or None when it is unhashable. */
  function FirstKey(first: Value): (r: Option<Value>)
    ensures r.Some? <==> Hashable(first)
    ensures r.Some? ==> r.value == HashKey(first)
  {
    if Hashable(first) then Some(HashKey(first)) else None
  }

  /**
   * One call of a memoized function under key `key`: a stored entry is
   * returned without calling the function; otherwise the function's result
   * is stored and returned, and an exception it raises stores nothing.
   */
  function Lookup<K>(memo: map<K, Value>, key: Option<K>, result: Result<Value>): (r: MemoOut<K>)
  {
    match key
    case None => MemoOut(memo, Err(TypeError))
    case Some(k) =>
      if k in memo then MemoOut(memo, Ok(memo[k]))
      else
        match result
        case Err(e) => MemoOut(memo, Err(e))
        case Ok(v) => MemoOut(memo[k := v], Ok(v))
  }

  /** `_memoized(*args)` of `memoize` (lines 9-13). */
  function MemoizeStep(f: seq<Value> -> Result<Value>, memo: map<seq<Value>, Value>, args: seq<Value>): (r: MemoOut<seq<Value>>)
  {
    Lookup(memo, TupleKey(args), f(args))
  }

  /** `_memoized(first, *args)` of `memoize_on_first` (lines 23-27). */
  function MemoizeOnFirstStep(f: (Value, seq<Value>) -> Result<Value>, memo: map<Value, Value>, first: Value, args: seq<Value>): (r: MemoOut<Value>)
  {
    Lookup(memo, FirstKey(first), f(first, args))
  }

  // ---------------------------------------------------------------- lemmas

  /**
   * A call never overwrites or drops an entry: the memo only grows, and by
   * at most the call's own key.
   */
  lemma LookupOnlyGrows<K>(memo: map<K, Value>, key: Option<K>, result: Result<Value>)
    ensures var r := Lookup(memo, key, result);
      && memo.Keys <= r.memo.Keys
      && (forall k :: k in memo ==> r.memo[k] == memo[k])
      && (forall k :: k in r.memo && k !in memo ==> key == Some(k))
  {
  }

  /** On a new key the function's result is returned and stored under the key. */
  lemma FirstCallStores(f: seq<Value> -> Result<Value>, memo: map<seq<Value>, Value>, args: seq<Value>)
    requires TupleKey(args).Some? && TupleKey(args).value !in memo
    ensures var r := MemoizeStep(f, memo, args);
      && r.result == f(args)
      && (f(args).Ok? ==> r.memo == memo[TupleKey(args).value := f(args).value])
      && (f(args).Err? ==> r.memo == memo)
  {
  }

  /**
   * A call with arguments equal to those of an earlier successful call
   * returns the stored value, whatever the function would now return, and
   * leaves the memo as it was.
   */
  lemma RepeatedCallReturnsStored(f: seq<Value> -> Result<Value>, g: seq<Value> -> Result<Value>,
                                  memo: map<seq<Value>, Value>, args: seq<Value>, again: seq<Value>)
    requires MemoizeStep(f, memo, args).result.Ok?
    requires TupleKey(again) == TupleKey(args)
    ensures var first := MemoizeStep(f, memo, args);
      MemoizeStep(g, first.memo, again) == MemoOut(first.memo, first.result)
  {
  }

  /** `True` and `1` are the same dict key, so they share a memo entry. */
  lemma TrueAndOneShareEntry(rest: seq<Value>)
    requires forall i :: 0 <= i < |rest| ==> Hashable(rest[i])
    ensures TupleKey([Bool(true)] + rest) == TupleKey([Int(1)] + rest)
  {
    var a, b := [Bool(true)] + rest, [Int(1)] + rest;
    assert forall i :: 0 < i < |a| ==> a[i] == b[i] == rest[i - 1];
    assert TupleKey(a).value == TupleKey(b).value;
  }

  /** An unhashable argument raises TypeError before the function is called, and stores nothing. */
  lemma UnhashableRaises(f: seq<Value> -> Result<Value>, memo: map<seq<Value>, Value>, args: seq<Value>, i: nat)
    requires i < |args| && !Hashable(args[i])
    ensures MemoizeStep(f, memo, args) == MemoOut(memo, Err(TypeError))
  {
  }

  /**
   * `memoize_on_first` answers a later call with the same first argument
   * from the memo, whatever the remaining arguments are.
   */
  lemma OnFirstIgnoresRest(f: (Value, seq<Value>) -> Result<Value>, memo: map<Value, Value>,
                           first: Value, args: seq<Value>, others: seq<Value>)
    requires MemoizeOnFirstStep(f, memo, first, args).result.Ok?
    ensures var r := MemoizeOnFirstStep(f, memo, first, args);
      MemoizeOnFirstStep(f, r.memo, first, others) == MemoOut(r.memo, r.result)
  {
  }

  // --------------------------------------------------------------- classes

  /** A function wrapped by `memoize`, with its memo. */
  class Memoized {
    const f: seq<Value> -> Result<Value>
    var memo: map<seq<Value>, Value>

    /** `memoize(function)`: an empty memo. */
    constructor (f: seq<Value> -> Result<Value>)
      ensures this.f == f && memo == map[]
    {
      this.f := f;
      memo := map[];
    }

    method Call(args: seq<Value>) returns (r: Result<Value>)
      modifies this
      ensures MemoOut(memo, r) == MemoizeStep(f, old(memo), args)
    {
      var key := TupleKey(args);
      if key.None? {
        return Err(TypeError);
      }
      if key.value in memo {
        return Ok(memo[key.value]);
      }
      r := f(args);
      if r.Ok? {
        memo := memo[key.value := r.value];
      }
    }
  }

  /** A function wrapped by `memoize_on_first`, with its memo. */
  class MemoizedOnFirst {
    const f: (Value, seq<Value>) -> Result<Value>
    var memo: map<Value, Value>

    constructor (f: (Value, seq<Value>) -> Result<Value>)
      ensures this.f == f && memo == map[]
    {
      this.f := f;
      memo := map[];
    }

    method Call(first: Value, args: seq<Value>) returns (r: Result<Value>)
      modifies this
      ensures MemoOut(memo, r) == MemoizeOnFirstStep(f, old(memo), first, args)
    {
      var key := FirstKey(first);
      if key.None? {
        return Err(TypeError);
      }
      if key.value in memo {
        return Ok(memo[key.value]);
      }
      r := f(first, args);
      if r.Ok? {
        memo := memo[key.value := r.value];
      }
    }
  }
}
