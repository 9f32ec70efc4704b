/**
 * The cast-on-write containers of multivalued.py: `TypedList` (lines
 * 4-26), a list that casts every element it admits, and `TypedDict` (lines
 * 42-51), a dict that casts every value it admits.  Each operation is a
 * transition function on the container's contents; the classes apply them
 * in place.
 */
module Multivalued {
  import opened Values
  import Proxies
  import Order

  /** The contents after an operation, and the exception it raised, if any. */
  datatype Out = Out(items: seq<Value>, raised: Option<Error>)

  /** `y` is what the cast makes of some value. */
  ghost predicate IsCast(cast: Value -> Result<Value>, y: Value) {
    exists x :: cast(x) == Ok(y)
  }

  /** Every element is a cast value: the invariant a typed list keeps. */
  ghost predicate Typed(cast: Value -> Result<Value>, xs: seq<Value>) {
    forall i :: 0 <= i < |xs| ==> IsCast(cast, xs[i])
  }

  /** The number of leading elements that cast. */
  function CastLead(cast: Value -> Result<Value>, xs: seq<Value>): (n: nat)
    ensures n <= |xs|
    ensures forall i :: 0 <= i < n ==> cast(xs[i]).Ok?
    ensures n < |xs| ==> cast(xs[n]).Err?
  {
    if xs == [] || cast(xs[0]).Err? then 0 else 1 + CastLead(cast, xs[1..])
  }

  /** The casts of the first `n` elements. */
  function Casts(cast: Value -> Result<Value>, xs: seq<Value>, n: nat): (r: seq<Value>)
    requires n <= |xs| && forall i :: 0 <= i < n ==> cast(xs[i]).Ok?
    ensures |r| == n && forall i :: 0 <= i < n ==> cast(xs[i]) == Ok(r[i])
  {
    seq(n, i requires 0 <= i < n && cast(xs[i]).Ok? => cast(xs[i]).value)
  }

  // ---------------------------------------------------------- typed list

  /** `TypedList(data, cast)` (lines 5-7): the list of every element's cast. */
  function ListCreate(cast: Value -> Result<Value>, data: Value): (r: Result<seq<Value>>)
  {
    var xs :- Iterate(data);
    Proxies.CastEach(cast, xs)
  }

  /** `append` (lines 9-10). */
  function ListAppend(cast: Value -> Result<Value>, xs: seq<Value>, item: Value): (r: Out)
  {
    match cast(item)
    case Err(e) => Out(xs, Some(e))
    case Ok(c) => Out(xs + [c], None)
  }

  /**
   * `extend` and `+=` as written (lines 12-13, 24-26): `list.extend` pulls
   * casts from a generator one at a time, so the casts before the first
   * failing element are kept.
   */
  function ListExtendAsWritten(cast: Value -> Result<Value>, xs: seq<Value>, other: Value): (r: Out)
  {
    match Iterate(other)
    case Err(e) => Out(xs, Some(e))
    case Ok(ys) =>
      var n := CastLead(cast, ys);
      Out(xs + Casts(cast, ys, n), if n == |ys| then None else Some(cast(ys[n]).error))
  }

  /** `extend` as the rest of the class behaves: the batch is cast before the list changes. */
  function ListExtend(cast: Value -> Result<Value>, xs: seq<Value>, other: Value): (r: Out)
  {
    match Iterate(other)
    case Err(e) => Out(xs, Some(e))
    case Ok(ys) =>
      match Proxies.CastEach(cast, ys)
      case Err(e) => Out(xs, Some(e))
      case Ok(cs) => Out(xs + cs, None)
  }

  /** `insert` (lines 15-16): at the clamped position. */
  function ListInsert(cast: Value -> Result<Value>, xs: seq<Value>, index: int, item: Value): (r: Out)
  {
    match cast(item)
    case Err(e) => Out(xs, Some(e))
    case Ok(c) => var p := InsertPos(index, |xs|); Out(xs[..p] + [c] + xs[p..], None)
  }

  /** `lst[i] = value` (line 22): the value is cast before the index is checked. */
  function ListSetAt(cast: Value -> Result<Value>, xs: seq<Value>, i: int, value: Value): (r: Out)
  {
    match cast(value)
    case Err(e) => Out(xs, Some(e))
    case Ok(c) =>
      match ResolveIndex(i, |xs|)
      case None => Out(xs, Some(IndexError))
      case Some(k) => Out(xs[k := c], None)
  }

  /**
   * `lst[start:stop] = values` (line 20): slice assignment consumes the
   * whole generator before it changes the list.
   */
  function ListSetSlice(cast: Value -> Result<Value>, xs: seq<Value>, start: Option<int>, stop: Option<int>, values: Value): (r: Out)
  {
    match Iterate(values)
    case Err(e) => Out(xs, Some(e))
    case Ok(ys) =>
      match Proxies.CastEach(cast, ys)
      case Err(e) => Out(xs, Some(e))
      case Ok(cs) =>
        var lo := SliceRange(start, stop, |xs|).0; var hi := SliceRange(start, stop, |xs|).1;
        Out(Proxies.Splice(xs, lo, hi, cs), None)
  }

  // ---------------------------------------------------- typed list lemmas

  /** A new typed list holds the cast of every element, in order, and is typed. */
  lemma ListCreateSpec(cast: Value -> Result<Value>, data: Value)
    requires Iterate(data).Ok?
    ensures var xs := Iterate(data).value;
      && (ListCreate(cast, data).Ok? <==> forall i :: 0 <= i < |xs| ==> cast(xs[i]).Ok?)
      && (ListCreate(cast, data).Ok? ==>
            && |ListCreate(cast, data).value| == |xs|
            && (forall i :: 0 <= i < |xs| ==> cast(xs[i]) == Ok(ListCreate(cast, data).value[i]))
            && Typed(cast, ListCreate(cast, data).value))
  {
    var xs := Iterate(data).value;
    Proxies.CastEachElementwise(cast, xs);
    if ListCreate(cast, data).Ok? {
      var r := ListCreate(cast, data).value;
      forall i | 0 <= i < |r| ensures IsCast(cast, r[i]) {
        assert cast(xs[i]) == Ok(r[i]);
      }
    }
  }

  /** `append` grows the list by exactly the item's cast and keeps it typed. */
  lemma ListAppendSpec(cast: Value -> Result<Value>, xs: seq<Value>, item: Value)
    requires Typed(cast, xs)
    ensures var r := ListAppend(cast, xs, item);
      && (cast(item).Err? ==> r == Out(xs, Some(cast(item).error)))
      && (cast(item).Ok? ==> r.raised.None? && r.items == xs + [cast(item).value])
      && Typed(cast, r.items)
  {
    var r := ListAppend(cast, xs, item);
    forall i | 0 <= i < |r.items| ensures IsCast(cast, r.items[i]) {
      if i == |xs| {
        assert cast(item) == Ok(r.items[i]);
      }
    }
  }

  /** `insert` grows the list by exactly the item's cast, at the clamped position, and keeps it typed. */
  lemma ListInsertSpec(cast: Value -> Result<Value>, xs: seq<Value>, index: int, item: Value)
    requires Typed(cast, xs)
    ensures var r := ListInsert(cast, xs, index, item); var p := InsertPos(index, |xs|);
      && (cast(item).Err? ==> r == Out(xs, Some(cast(item).error)))
      && (cast(item).Ok? ==>
            && r.raised.None? && |r.items| == |xs| + 1 && r.items[p] == cast(item).value
            && r.items[..p] == xs[..p] && r.items[p + 1..] == xs[p..])
      && Typed(cast, r.items)
  {
    var r := ListInsert(cast, xs, index, item);
    var p := InsertPos(index, |xs|);
    if cast(item).Ok? {
      forall i | 0 <= i < |r.items| ensures IsCast(cast, r.items[i]) {
        if i < p {
          assert r.items[i] == xs[i];
        } else if i == p {
          assert cast(item) == Ok(r.items[i]);
        } else {
          assert r.items[i] == xs[i - 1];
        }
      }
    }
  }

  /** Index assignment stores only the cast, at that index, and keeps the list typed. */
  lemma ListSetAtSpec(cast: Value -> Result<Value>, xs: seq<Value>, i: int, value: Value)
    requires Typed(cast, xs)
    ensures var r := ListSetAt(cast, xs, i, value);
      && (cast(value).Err? ==> r == Out(xs, Some(cast(value).error)))
      && (cast(value).Ok? && ResolveIndex(i, |xs|).None? ==> r == Out(xs, Some(IndexError)))
      && (cast(value).Ok? && ResolveIndex(i, |xs|).Some? ==>
            r == Out(xs[ResolveIndex(i, |xs|).value := cast(value).value], None))
      && Typed(cast, r.items)
  {
    var r := ListSetAt(cast, xs, i, value);
    if cast(value).Ok? && ResolveIndex(i, |xs|).Some? {
      var k := ResolveIndex(i, |xs|).value;
      forall j | 0 <= j < |r.items| ensures IsCast(cast, r.items[j]) {
        if j == k {
          assert cast(value) == Ok(r.items[j]);
        }
      }
    }
  }

  /** Slice assignment changes nothing when some value fails to cast. */
  lemma ListSetSliceFails(cast: Value -> Result<Value>, xs: seq<Value>, start: Option<int>, stop: Option<int>, values: Value)
    requires Iterate(values).Ok? && exists j :: 0 <= j < |Iterate(values).value| && cast(Iterate(values).value[j]).Err?
    ensures ListSetSlice(cast, xs, start, stop, values).items == xs
    ensures ListSetSlice(cast, xs, start, stop, values).raised.Some?
  {
    Proxies.CastEachElementwise(cast, Iterate(values).value);
  }

  /**
   * Slice assignment of values that all cast replaces `[lo, hi)` with their
   * casts, in order, and keeps the list typed.
   */
  lemma ListSetSliceSpec(cast: Value -> Result<Value>, xs: seq<Value>, start: Option<int>, stop: Option<int>, values: Value)
    requires Typed(cast, xs) && Iterate(values).Ok?
    requires forall j :: 0 <= j < |Iterate(values).value| ==> cast(Iterate(values).value[j]).Ok?
    ensures var r := ListSetSlice(cast, xs, start, stop, values);
      var lo := SliceRange(start, stop, |xs|).0; var hi := SliceRange(start, stop, |xs|).1;
      r.raised.None? && |r.items| == |xs| - (hi - lo) + |Iterate(values).value|
    ensures var r := ListSetSlice(cast, xs, start, stop, values);
      var lo := SliceRange(start, stop, |xs|).0; var hi := SliceRange(start, stop, |xs|).1;
      r.items[..lo] == xs[..lo] && r.items[lo + |Iterate(values).value|..] == xs[hi..]
    ensures var ys := Iterate(values).value; var r := ListSetSlice(cast, xs, start, stop, values);
      var lo := SliceRange(start, stop, |xs|).0;
      forall j :: 0 <= j < |ys| ==> cast(ys[j]) == Ok(r.items[lo + j])
    ensures Typed(cast, ListSetSlice(cast, xs, start, stop, values).items)
  {
    var ys := Iterate(values).value;
    Proxies.CastEachAllOk(cast, ys);
    var lo := SliceRange(start, stop, |xs|).0;
    var hi := SliceRange(start, stop, |xs|).1;
    var cs := Proxies.CastEach(cast, ys).value;
    ListSetSliceUnfold(cast, xs, start, stop, values);
    SpliceTyped(cast, xs, lo, hi, ys, cs);
  }

  /** With every element cast, slice assignment is the splice of the casts. */
  lemma ListSetSliceUnfold(cast: Value -> Result<Value>, xs: seq<Value>, start: Option<int>, stop: Option<int>, values: Value)
    requires Iterate(values).Ok? && Proxies.CastEach(cast, Iterate(values).value).Ok?
    ensures var lo := SliceRange(start, stop, |xs|).0; var hi := SliceRange(start, stop, |xs|).1;
      ListSetSlice(cast, xs, start, stop, values) ==
        Out(Proxies.Splice(xs, lo, hi, Proxies.CastEach(cast, Iterate(values).value).value), None)
  {
  }

  /** Splicing the casts of a batch into a typed list places each cast and keeps the list typed. */
  lemma SpliceTyped(cast: Value -> Result<Value>, xs: seq<Value>, lo: nat, hi: nat, ys: seq<Value>, cs: seq<Value>)
    requires Typed(cast, xs) && lo <= hi <= |xs|
    requires |cs| == |ys| && forall j :: 0 <= j < |ys| ==> cast(ys[j]) == Ok(cs[j])
    ensures var r := Proxies.Splice(xs, lo, hi, cs);
      && |r| == |xs| - (hi - lo) + |ys| && r[..lo] == xs[..lo] && r[lo + |ys|..] == xs[hi..]
      && (forall j :: 0 <= j < |ys| ==> cast(ys[j]) == Ok(r[lo + j]))
      && Typed(cast, r)
  {
    var r := Proxies.Splice(xs, lo, hi, cs);
    forall j | 0 <= j < |ys| ensures cast(ys[j]) == Ok(r[lo + j]) {
      assert r[lo..lo + |cs|][j] == cs[j];
    }
    forall j | 0 <= j < |r| ensures IsCast(cast, r[j]) {
      if j < lo {
        assert r[j] == r[..lo][j] == xs[..lo][j];
      } else if j < lo + |cs| {
        assert cast(ys[j - lo]) == Ok(r[j]);
      } else {
        assert r[j] == r[lo + |cs|..][j - lo - |cs|] == xs[hi..][j - lo - |cs|];
      }
    }
  }

  /**
   * `extend` as written appends the casts of the elements before the first
   * that fails, and the list stays typed.
   */
  lemma ListExtendAsWrittenSpec(cast: Value -> Result<Value>, xs: seq<Value>, other: Value)
    requires Typed(cast, xs) && Iterate(other).Ok?
    ensures var ys := Iterate(other).value; var r := ListExtendAsWritten(cast, xs, other);
      && |xs| <= |r.items| <= |xs| + |ys| && r.items[..|xs|] == xs
      && (r.raised.None? <==> forall j :: 0 <= j < |ys| ==> cast(ys[j]).Ok?)
      && (forall j :: 0 <= j < |r.items| - |xs| ==> cast(ys[j]) == Ok(r.items[|xs| + j]))
      && Typed(cast, r.items)
  {
    var ys := Iterate(other).value;
    var r := ListExtendAsWritten(cast, xs, other);
    var n := CastLead(cast, ys);
    forall j | 0 <= j < |r.items| ensures IsCast(cast, r.items[j]) {
      if j >= |xs| {
        assert cast(ys[j - |xs|]) == Ok(r.items[j]);
      }
    }
    if n < |ys| {
      assert cast(ys[n]).Err?;
    }
  }

  /** When every element casts, the written `extend` and the all-or-nothing one agree. */
  lemma ListExtendAgree(cast: Value -> Result<Value>, xs: seq<Value>, other: Value)
    requires Iterate(other).Ok? && forall j :: 0 <= j < |Iterate(other).value| ==> cast(Iterate(other).value[j]).Ok?
    ensures ListExtendAsWritten(cast, xs, other) == ListExtend(cast, xs, other)
  {
    var ys := Iterate(other).value;
    Proxies.CastEachElementwise(cast, ys);
    assert Casts(cast, ys, |ys|) == Proxies.CastEach(cast, ys).value;
  }

  /** The all-or-nothing `extend` leaves the list unchanged when some element fails to cast. */
  lemma ListExtendAtomic(cast: Value -> Result<Value>, xs: seq<Value>, other: Value)
    requires Iterate(other).Ok? && exists j :: 0 <= j < |Iterate(other).value| && cast(Iterate(other).value[j]).Err?
    ensures ListExtend(cast, xs, other).items == xs && ListExtend(cast, xs, other).raised.Some?
  {
    Proxies.CastEachElementwise(cast, Iterate(other).value);
  }

  /**
   * The written `extend` of `[good, bad]` raises, yet leaves the cast of
   * `good` in the list; the all-or-nothing one leaves the list as it was.
   */
  lemma ListExtendAsWrittenCommitsPrefix(cast: Value -> Result<Value>, xs: seq<Value>, good: Value, bad: Value)
    requires cast(good).Ok? && cast(bad).Err?
    ensures ListExtendAsWritten(cast, xs, List([good, bad])) == Out(xs + [cast(good).value], Some(cast(bad).error))
    ensures ListExtend(cast, xs, List([good, bad])) == Out(xs, Some(cast(bad).error))
  {
    assert [good, bad][1..] == [bad];
    assert CastLead(cast, [good, bad][1..]) == 0;
    assert Casts(cast, [good, bad], 1) == [cast(good).value];
    assert Proxies.CastEach(cast, [good, bad][1..]) == Err(cast(bad).error);
  }

  // ----------------------------------------------------------- typed dict

  /** The entries after an operation, what it returned, or the exception it raised. */
  datatype DictOut = DictOut(entries: map<string, Value>, result: Result<Value>)

  /** `TypedDict(data, cast)` (lines 43-45): `data.items()`, every value cast, keys kept. */
  function DictCreate(cast: Value -> Result<Value>, data: Value): (r: Result<map<string, Value>>)
  {
    var d :- Items(data);
    var ks := Order.Sorted(d.Keys);
    Proxies.CastKeysEach(cast, d, ks)
  }

  /** `td[k] = value` (lines 50-51). */
  function DictSet(cast: Value -> Result<Value>, d: map<string, Value>, k: string, value: Value): (r: DictOut)
  {
    match cast(value)
    case Err(e) => DictOut(d, Err(e))
    case Ok(c) => DictOut(d[k := c], Ok(Null))
  }

  /**
   * `setdefault` as written (lines 47-48): the default is cast, then
   * `dict.setdefault` is called with `default=` as a keyword argument, which
   * it does not accept, so a TypeError is raised and nothing is stored.
   */
  function DictSetDefaultAsWritten(cast: Value -> Result<Value>, d: map<string, Value>, k: string, default: Value): (r: DictOut)
  {
    match cast(default)
    case Err(e) => DictOut(d, Err(e))
    case Ok(_) => DictOut(d, Err(TypeError))
  }

  /**
   * `setdefault` as evidently intended: the cast default is stored under an
   * absent key, and the value under the key is returned.
   */
  function DictSetDefault(cast: Value -> Result<Value>, d: map<string, Value>, k: string, default: Value): (r: DictOut)
  {
    match cast(default)
    case Err(e) => DictOut(d, Err(e))
    case Ok(c) => if k in d then DictOut(d, Ok(d[k])) else DictOut(d[k := c], Ok(c))
  }

  /** Every value is a cast value: the invariant a typed dict keeps. */
  ghost predicate DictTyped(cast: Value -> Result<Value>, d: map<string, Value>) {
    forall k :: k in d ==> IsCast(cast, d[k])
  }

  /** A new typed dict keeps the keys, casts every value, and is typed. */
  lemma DictCreateSpec(cast: Value -> Result<Value>, d: map<string, Value>)
    ensures DictCreate(cast, Dict(d)).Ok? <==> forall k :: k in d ==> cast(d[k]).Ok?
    ensures DictCreate(cast, Dict(d)).Ok? ==>
      var r := DictCreate(cast, Dict(d)).value;
      && r.Keys == d.Keys && (forall k :: k in d ==> cast(d[k]) == Ok(r[k])) && DictTyped(cast, r)
  {
    var ks := Order.Sorted(d.Keys);
    assert (set k | k in ks) == d.Keys;
    if DictCreate(cast, Dict(d)).Ok? {
      var r := DictCreate(cast, Dict(d)).value;
      forall k | k in r ensures IsCast(cast, r[k]) {
        assert cast(d[k]) == Ok(r[k]);
      }
    }
  }

  /** Storing a value stores its cast under that key only, and keeps the dict typed. */
  lemma DictSetSpec(cast: Value -> Result<Value>, d: map<string, Value>, k: string, value: Value)
    requires DictTyped(cast, d)
    ensures var r := DictSet(cast, d, k, value);
      && (cast(value).Err? ==> r == DictOut(d, cast(value)))
      && (cast(value).Ok? ==>
            && k in r.entries && r.entries[k] == cast(value).value && r.entries.Keys == d.Keys + {k}
            && forall j :: j in d && j != k ==> r.entries[j] == d[j])
      && DictTyped(cast, r.entries)
  {
    var r := DictSet(cast, d, k, value);
    forall j | j in r.entries ensures IsCast(cast, r.entries[j]) {
      if j == k && cast(value).Ok? {
        assert cast(value) == Ok(r.entries[j]);
      }
    }
  }

  /** The written `setdefault` never stores anything and never returns normally. */
  lemma DictSetDefaultAsWrittenFails(cast: Value -> Result<Value>, d: map<string, Value>, k: string, default: Value)
    ensures DictSetDefaultAsWritten(cast, d, k, default).entries == d
    ensures DictSetDefaultAsWritten(cast, d, k, default).result.Err?
    ensures cast(default).Ok? ==> DictSetDefaultAsWritten(cast, d, k, default).result == Err(TypeError)
  {
  }

  /**
   * The corrected `setdefault` returns the value then under the key, keeps
   * any value already there, is idempotent, and keeps the dict typed.
   */
  lemma DictSetDefaultSpec(cast: Value -> Result<Value>, d: map<string, Value>, k: string, default: Value)
    requires DictTyped(cast, d) && cast(default).Ok?
    ensures var r := DictSetDefault(cast, d, k, default);
      && k in r.entries && r.result == Ok(r.entries[k])
      && (k in d ==> r.entries == d)
      && (k !in d ==> r.entries == d[k := cast(default).value])
      && DictSetDefault(cast, r.entries, k, default) == DictOut(r.entries, r.result)
      && DictTyped(cast, r.entries)
  {
    var r := DictSetDefault(cast, d, k, default);
    forall j | j in r.entries ensures IsCast(cast, r.entries[j]) {
      if j == k && k !in d {
        assert cast(default) == Ok(r.entries[j]);
      }
    }
  }

  // --------------------------------------------------------------- classes

  /** `TypedList`: a list whose admitting methods cast first. */
  class TypedList {
    const cast: Value -> Result<Value>
    var items: seq<Value>

    static method New(cast: Value -> Result<Value>, data: Value) returns (l: TypedList?, err: Option<Error>)
      ensures ListCreate(cast, data).Err? ==> l == null && err == Some(ListCreate(cast, data).error)
      ensures ListCreate(cast, data).Ok? ==> err.None? && l != null && fresh(l) && l.cast == cast && l.items == ListCreate(cast, data).value
    {
      var r := ListCreate(cast, data);
      if r.Err? {
        return null, Some(r.error);
      }
      l := new TypedList.Init(cast, r.value);
      err := None;
    }

    constructor Init(cast: Value -> Result<Value>, items: seq<Value>)
      ensures this.cast == cast && this.items == items
    {
      this.cast := cast;
      this.items := items;
    }

    method Append(item: Value) returns (err: Option<Error>)
      modifies this
      ensures Out(items, err) == ListAppend(cast, old(items), item)
    {
      var c := cast(item);
      if c.Err? {
        return Some(c.error);
      }
      items := items + [c.value];
      return None;
    }

    /** `extend` as written: each cast is appended as the generator yields it. */
    method ExtendAsWritten(other: Value) returns (err: Option<Error>)
      modifies this
      ensures Out(items, err) == ListExtendAsWritten(cast, old(items), other)
    {
      var r := Iterate(other);
      if r.Err? {
        return Some(r.error);
      }
      var ys := r.value;
      ghost var n := CastLead(cast, ys);
      var k := 0;
      while k < |ys|
        invariant k <= n
        invariant items == old(items) + Casts(cast, ys, k)
      {
        var c := cast(ys[k]);
        if c.Err? {
          assert k == n;
          return Some(c.error);
        }
        assert Casts(cast, ys, k + 1) == Casts(cast, ys, k) + [c.value];
        items := items + [c.value];
        k := k + 1;
      }
      assert k == n;
      return None;
    }

    /** `extend` with the batch cast before the list changes. */
    method Extend(other: Value) returns (err: Option<Error>)
      modifies this
      ensures Out(items, err) == ListExtend(cast, old(items), other)
    {
      var ys := Iterate(other);
      if ys.Err? {
        return Some(ys.error);
      }
      var cs := Proxies.CastEach(cast, ys.value);
      if cs.Err? {
        return Some(cs.error);
      }
      items := items + cs.value;
      return None;
    }

    method Insert(index: int, item: Value) returns (err: Option<Error>)
      modifies this
      ensures Out(items, err) == ListInsert(cast, old(items), index, item)
    {
      var c := cast(item);
      if c.Err? {
        return Some(c.error);
      }
      var p := InsertPos(index, |items|);
      items := items[..p] + [c.value] + items[p..];
      return None;
    }

    method SetItem(i: int, value: Value) returns (err: Option<Error>)
      modifies this
      ensures Out(items, err) == ListSetAt(cast, old(items), i, value)
    {
      var c := cast(value);
      if c.Err? {
        return Some(c.error);
      }
      var k := ResolveIndex(i, |items|);
      if k.None? {
        return Some(IndexError);
      }
      items := items[k.value := c.value];
      return None;
    }

    method SetSlice(start: Option<int>, stop: Option<int>, values: Value) returns (err: Option<Error>)
      modifies this
      ensures Out(items, err) == ListSetSlice(cast, old(items), start, stop, values)
    {
      var ys := Iterate(values);
      if ys.Err? {
        return Some(ys.error);
      }
      var cs := Proxies.CastEach(cast, ys.value);
      if cs.Err? {
        return Some(cs.error);
      }
      var (lo, hi) := SliceRange(start, stop, |items|);
      items := Proxies.Splice(items, lo, hi, cs.value);
      return None;
    }

    /** `+=` (lines 24-26) extends through a generator, as the written `extend` does. */
    method IAdd(other: Value) returns (err: Option<Error>)
      modifies this
      ensures Out(items, err) == ListExtendAsWritten(cast, old(items), other)
    {
      err := ExtendAsWritten(other);
    }
  }

  /** `TypedDict`: a dict whose admitting methods cast first. */
  class TypedDict {
    const cast: Value -> Result<Value>
    var entries: map<string, Value>

    static method New(cast: Value -> Result<Value>, data: Value) returns (t: TypedDict?, err: Option<Error>)
      ensures DictCreate(cast, data).Err? ==> t == null && err == Some(DictCreate(cast, data).error)
      ensures DictCreate(cast, data).Ok? ==> err.None? && t != null && fresh(t) && t.cast == cast && t.entries == DictCreate(cast, data).value
    {
      var r := DictCreate(cast, data);
      if r.Err? {
        return null, Some(r.error);
      }
      t := new TypedDict.Init(cast, r.value);
      err := None;
    }

    constructor Init(cast: Value -> Result<Value>, entries: map<string, Value>)
      ensures this.cast == cast && this.entries == entries
    {
      this.cast := cast;
      this.entries := entries;
    }

    method SetItem(k: string, value: Value) returns (r: Result<Value>)
      modifies this
      ensures DictOut(entries, r) == DictSet(cast, old(entries), k, value)
    {
      var c := cast(value);
      if c.Err? {
        return Err(c.error);
      }
      entries := entries[k := c.value];
      return Ok(Null);
    }

    method SetDefaultAsWritten(k: string, default: Value) returns (r: Result<Value>)
      modifies this
      ensures DictOut(entries, r) == DictSetDefaultAsWritten(cast, old(entries), k, default)
    {
      var c := cast(default);
      if c.Err? {
        return Err(c.error);
      }
      return Err(TypeError);
    }

    method SetDefault(k: string, default: Value) returns (r: Result<Value>)
      modifies this
      ensures DictOut(entries, r) == DictSetDefault(cast, old(entries), k, default)
    {
      var c := cast(default);
      if c.Err? {
        return Err(c.error);
      }
      if k in entries {
        return Ok(entries[k]);
      }
      entries := entries[k := c.value];
      return Ok(c.value);
    }
  }
}
