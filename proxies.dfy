/**
 * The proxy objects complex.py builds for `List` and `Mapping` fields
 * (`_list_proxy`, lines 39-83, and `_mapping_proxy`, lines 103-140).  A
 * proxy keeps two stores side by side: `_data`, the raw JSON-like values,
 * and `_view`, their cast counterparts.  Every operation is a transition
 * function on the pair of stores; the classes apply those transitions in
 * place.  An operation that fails part-way leaves the stores as Python
 * leaves them.
 */
module Proxies {
  import opened Values
  import Casting
  import Schema
  import Order

  // ------------------------------------------------------ element casting

  /** `[cast(x) for x in xs]`: the error of the first element that fails. */
  function CastEach(cast: Value -> Result<Value>, xs: seq<Value>): (r: Result<seq<Value>>)
    ensures r.Ok? ==> |r.value| == |xs|
  {
    if xs == [] then Ok([])
    else
      match cast(xs[0])
      case Err(e) => Err(e)
      case Ok(h) =>
        match CastEach(cast, xs[1..])
        case Err(e) => Err(e)
        case Ok(t) => Ok([h] + t)
  }

  /** `CastEach` succeeds exactly when every element casts, and then holds each element's cast. */
  /** When every element casts, the batch casts, element by element. */
  lemma CastEachAllOk(cast: Value -> Result<Value>, xs: seq<Value>)
    requires forall i :: 0 <= i < |xs| ==> cast(xs[i]).Ok?
    ensures CastEach(cast, xs).Ok? && |CastEach(cast, xs).value| == |xs|
    ensures forall i :: 0 <= i < |xs| ==> cast(xs[i]) == Ok(CastEach(cast, xs).value[i])
  {
    CastEachElementwise(cast, xs);
  }

  lemma {:induction false} CastEachElementwise(cast: Value -> Result<Value>, xs: seq<Value>)
    ensures CastEach(cast, xs).Ok? <==> forall i :: 0 <= i < |xs| ==> cast(xs[i]).Ok?
    ensures CastEach(cast, xs).Ok? ==> forall i :: 0 <= i < |xs| ==> cast(xs[i]) == Ok(CastEach(cast, xs).value[i])
    ensures CastEach(cast, xs).Err? ==>
      exists i :: 0 <= i < |xs| && cast(xs[i]) == Err(CastEach(cast, xs).error) && forall j :: 0 <= j < i ==> cast(xs[j]).Ok?
  {
    if xs != [] {
      CastEachElementwise(cast, xs[1..]);
      assert forall i :: 1 <= i < |xs| ==> xs[i] == xs[1..][i - 1];
      if cast(xs[0]).Ok? && CastEach(cast, xs[1..]).Err? {
        var i :| 0 <= i < |xs[1..]| && cast(xs[1..][i]) == Err(CastEach(cast, xs[1..]).error)
          && forall j :: 0 <= j < i ==> cast(xs[1..][j]).Ok?;
        assert cast(xs[i + 1]) == Err(CastEach(cast, xs).error);
        assert forall j :: 0 <= j < i + 1 ==> cast(xs[j]).Ok? by {
          forall j | 0 <= j < i + 1 ensures cast(xs[j]).Ok? {
            if j > 0 {
              assert xs[j] == xs[1..][j - 1];
            }
          }
        }
      }
    }
  }

  /** With a field's own cast, `CastEach` is the element loop the field casting uses. */
  lemma {:induction false} CastEachOfField(e: Schema.FieldSpec, xs: seq<Value>)
    ensures CastEach(v => Casting.Cast(e, v), xs) == Casting.CastAll(e, xs)
  {
    if xs != [] {
      CastEachOfField(e, xs[1..]);
    }
  }

  /** The number of leading views that carry `_data`. */
  function Lead(vs: seq<Value>): (n: nat)
    ensures n <= |vs|
    ensures forall i :: 0 <= i < n ==> DataOf(vs[i]).Some?
    ensures n < |vs| ==> DataOf(vs[n]).None?
  {
    if vs == [] || DataOf(vs[0]).None? then 0 else 1 + Lead(vs[1..])
  }

  /** The `_data` of the first `n` views. */
  function Datas(vs: seq<Value>, n: nat): (r: seq<Value>)
    requires n <= |vs| && forall i :: 0 <= i < n ==> DataOf(vs[i]).Some?
    ensures |r| == n && forall i :: 0 <= i < n ==> Some(r[i]) == DataOf(vs[i])
  {
    seq(n, i requires 0 <= i < n && DataOf(vs[i]).Some? => DataOf(vs[i]).value)
  }

  function Splice(s: seq<Value>, lo: nat, hi: nat, t: seq<Value>): (r: seq<Value>)
    requires lo <= hi <= |s|
    ensures |r| == |s| - (hi - lo) + |t|
    ensures r[..lo] == s[..lo] && r[lo..lo + |t|] == t && r[lo + |t|..] == s[hi..]
  {
    s[..lo] + t + s[hi..]
  }

  // ------------------------------------------------------- list proxy model

  /** The two stores of a list proxy. */
  datatype Store = Store(data: seq<Value>, view: seq<Value>)

  /** The stores after an operation, and the exception it raised, if any. */
  datatype Done = Done(store: Store, raised: Option<Error>)

  /** Each raw entry sits at the same index as its view. */
  predicate Aligned(s: Store) {
    |s.data| == |s.view|
  }

  /** Each raw entry is the `_data` of the view at the same index. */
  predicate Linked(s: Store) {
    Aligned(s) && forall i :: 0 <= i < |s.view| ==> DataOf(s.view[i]) == Some(s.data[i])
  }

  /**
   * `ListProxy(data)` over a list: every element is cast; a raw dict that
   * becomes a model's document stays linked as that model's `_data`.
   */
  function Create(cast: Value -> Result<Value>, items: seq<Value>): (r: Result<Store>)
    ensures r.Ok? <==> CastEach(cast, items).Ok?
    ensures r.Ok? ==> Aligned(r.value) && r.value.view == CastEach(cast, items).value
  {
    match CastEach(cast, items)
    case Err(e) => Err(e)
    case Ok(vs) => Ok(Store(Casting.SettleAll(items, vs), vs))
  }

  /** `append` (complex.py lines 51-54): the view is appended before its `_data` is read. */
  function AppendStep(cast: Value -> Result<Value>, s: Store, item: Value): (r: Done)
  {
    match cast(item)
    case Err(e) => Done(s, Some(e))
    case Ok(c) =>
      match DataOf(c)
      case None => Done(Store(s.data, s.view + [c]), Some(AttributeError))
      case Some(d) => Done(Store(s.data + [d], s.view + [c]), None)
  }

  /**
   * `extend` (complex.py lines 56-59): all elements are cast before either
   * store changes; the views are appended at once, the raw entries one by one
   * from a generator, so a view without `_data` leaves the entries before it
   * appended.
   */
  function ExtendStep(cast: Value -> Result<Value>, s: Store, other: Value): (r: Done)
  {
    match Iterate(other)
    case Err(e) => Done(s, Some(e))
    case Ok(xs) =>
      match CastEach(cast, xs)
      case Err(e) => Done(s, Some(e))
      case Ok(cs) =>
        Done(Store(s.data + Datas(cs, Lead(cs)), s.view + cs),
             if Lead(cs) == |cs| then None else Some(AttributeError))
  }

  /** `insert` as written (complex.py lines 61-62): the cast value goes into `_data` and nothing into `_view`. */
  function InsertAsWrittenStep(cast: Value -> Result<Value>, s: Store, index: int, item: Value): (r: Done)
  {
    match cast(item)
    case Err(e) => Done(s, Some(e))
    case Ok(c) => Done(Store(s.data[..InsertPos(index, |s.data|)] + [c] + s.data[InsertPos(index, |s.data|)..], s.view), None)
  }

  /** `insert` as `append` evidently intends it: the view into `_view`, its `_data` into `_data`. */
  function InsertStep(cast: Value -> Result<Value>, s: Store, index: int, item: Value): (r: Done)
  {
    match cast(item)
    case Err(e) => Done(s, Some(e))
    case Ok(c) =>
      var view := s.view[..InsertPos(index, |s.view|)] + [c] + s.view[InsertPos(index, |s.view|)..];
      match DataOf(c)
      case None => Done(Store(s.data, view), Some(AttributeError))
      case Some(d) => Done(Store(s.data[..InsertPos(index, |s.data|)] + [d] + s.data[InsertPos(index, |s.data|)..], view), None)
  }

  /** `len(proxy)` counts `_data` (complex.py lines 64-65). */
  function Length(s: Store): nat {
    |s.data|
  }

  /** `proxy[i]` reads `_view` (complex.py lines 81-82). */
  function Get(s: Store, i: int): (r: Result<Value>)
    ensures r.Ok? <==> 0 <= i + |s.view| && i < |s.view|
  {
    match ResolveIndex(i, |s.view|)
    case None => Err(IndexError)
    case Some(k) => Ok(s.view[k])
  }

  /** `proxy[start:stop]` reads a slice of `_view`. */
  function GetSlice(s: Store, start: Option<int>, stop: Option<int>): (r: seq<Value>)
    ensures var lo := SliceBound(start, 0, |s.view|);
      && |r| == SliceRange(start, stop, |s.view|).1 - lo <= |s.view|
      && forall k :: 0 <= k < |r| ==> Get(s, lo + k) == Ok(r[k])
  {
    var lo := SliceRange(start, stop, |s.view|).0; var hi := SliceRange(start, stop, |s.view|).1;
    s.view[lo..hi]
  }

  /**
   * `proxy[i] = value` (complex.py lines 72-75): cast, store the view,
   * then store its `_data`; each store checks the index against its own
   * length.
   */
  function SetAtStep(cast: Value -> Result<Value>, s: Store, i: int, value: Value): (r: Done)
  {
    match cast(value)
    case Err(e) => Done(s, Some(e))
    case Ok(c) =>
      match ResolveIndex(i, |s.view|)
      case None => Done(s, Some(IndexError))
      case Some(k) =>
        var view := s.view[k := c];
        match DataOf(c)
        case None => Done(Store(s.data, view), Some(AttributeError))
        case Some(d) =>
          match ResolveIndex(i, |s.data|)
          case None => Done(Store(s.data, view), Some(IndexError))
          case Some(k2) => Done(Store(s.data[k2 := d], view), None)
  }

  /**
   * `proxy[start:stop] = values` (complex.py lines 68-71): every value is
   * cast, the views replace the slice of `_view`, then the list of their
   * `_data` (built whole before it is assigned) replaces the slice of `_data`.
   */
  function SetSliceStep(cast: Value -> Result<Value>, s: Store, start: Option<int>, stop: Option<int>, values: Value): (r: Done)
  {
    match Iterate(values)
    case Err(e) => Done(s, Some(e))
    case Ok(xs) =>
      match CastEach(cast, xs)
      case Err(e) => Done(s, Some(e))
      case Ok(cs) =>
        var lo := SliceRange(start, stop, |s.view|).0; var hi := SliceRange(start, stop, |s.view|).1;
        var view := Splice(s.view, lo, hi, cs);
        if Lead(cs) < |cs| then Done(Store(s.data, view), Some(AttributeError))
        else
          var lo2 := SliceRange(start, stop, |s.data|).0; var hi2 := SliceRange(start, stop, |s.data|).1;
          Done(Store(Splice(s.data, lo2, hi2, Datas(cs, |cs|)), view), None)
  }

  // ---------------------------------------------------- list proxy lemmas

  /** A cast that always yields an object with `_data`, as every proxy field's does. */
  predicate BackedAt(cast: Value -> Result<Value>, x: Value) {
    cast(x).Ok? ==> DataOf(cast(x).value).Some?
  }

  /**
   * Appending a castable item grows both stores by one, keeps them aligned,
   * and the item's cast is then the last element.
   */
  lemma AppendSpec(cast: Value -> Result<Value>, s: Store, item: Value)
    requires Aligned(s)
    ensures var r := AppendStep(cast, s, item);
      && (cast(item).Err? ==> r == Done(s, Some(cast(item).error)))
      && (BackedAt(cast, item) && cast(item).Ok? ==>
            && r.raised.None? && Aligned(r.store) && Length(r.store) == Length(s) + 1
            && Get(r.store, -1) == cast(item)
            && (Linked(s) ==> Linked(r.store))
            && forall i :: 0 <= i < |s.view| ==> Get(r.store, i) == Get(s, i))
      && (!BackedAt(cast, item) ==>
            && r.raised == Some(AttributeError) && r.store.data == s.data
            && r.store.view == s.view + [cast(item).value] && !Aligned(r.store))
  {
  }

  /**
   * Appending an item whose cast has no `_data` (an element of a list field
   * over a `SimpleList`) raises, yet `_view` keeps the new view: on an empty
   * proxy `len` stays 0 while `proxy[0]` reads the view.
   */
  lemma AppendUnbackedMisaligns(cast: Value -> Result<Value>, item: Value)
    requires cast(item).Ok? && DataOf(cast(item).value).None?
    ensures var r := AppendStep(cast, Store([], []), item);
      && r.raised == Some(AttributeError)
      && Length(r.store) == 0 && Get(r.store, 0) == cast(item)
  {
  }

  /** `append` with the `_data` read before either store changes. */
  function AppendCheckedStep(cast: Value -> Result<Value>, s: Store, item: Value): (r: Done)
  {
    match cast(item)
    case Err(e) => Done(s, Some(e))
    case Ok(c) =>
      match DataOf(c)
      case None => Done(s, Some(AttributeError))
      case Some(d) => Done(Store(s.data + [d], s.view + [c]), None)
  }

  /**
   * The checked `append` either succeeds as `append` does or changes
   * nothing, so the stores stay aligned (and linked) whatever the item.
   */
  lemma AppendCheckedSpec(cast: Value -> Result<Value>, s: Store, item: Value)
    ensures var r := AppendCheckedStep(cast, s, item);
      && (r.raised.Some? <==> !(cast(item).Ok? && BackedAt(cast, item)))
      && (r.raised.Some? ==> r.store == s)
      && (r.raised.None? ==> r == AppendStep(cast, s, item))
      && (Aligned(s) ==> Aligned(r.store))
      && (Linked(s) ==> Linked(r.store))
  {
  }

  /** `extend` fails without any change when some element does not cast. */
  lemma ExtendCastFailure(cast: Value -> Result<Value>, s: Store, other: Value)
    requires Iterate(other).Ok?
    requires exists i :: 0 <= i < |Iterate(other).value| && cast(Iterate(other).value[i]).Err?
    ensures ExtendStep(cast, s, other).store == s && ExtendStep(cast, s, other).raised.Some?
  {
    CastEachElementwise(cast, Iterate(other).value);
  }

  /**
   * When every element casts, `_view` grows by all the casts; `extend`
   * succeeds exactly when every cast carries `_data`, and then both stores
   * grow alike; otherwise `_data` has grown only by the entries before the
   * first cast without one.
   */
  lemma ExtendSpec(cast: Value -> Result<Value>, s: Store, other: Value)
    requires Iterate(other).Ok?
    requires forall i :: 0 <= i < |Iterate(other).value| ==> cast(Iterate(other).value[i]).Ok?
    ensures var xs := Iterate(other).value; var r := ExtendStep(cast, s, other);
      && CastEach(cast, xs).Ok?
      && r.store.view == s.view + CastEach(cast, xs).value
      && (r.raised.None? <==> forall i :: 0 <= i < |xs| ==> BackedAt(cast, xs[i]))
      && (r.raised.None? && Aligned(s) ==> Aligned(r.store))
      && (r.raised.None? && Linked(s) ==> Linked(r.store))
      && (r.raised.Some? ==> r.raised == Some(AttributeError) && |r.store.data| < |s.data| + |xs|)
  {
    var xs := Iterate(other).value;
    CastEachElementwise(cast, xs);
    var cs := CastEach(cast, xs).value;
    if Lead(cs) < |cs| {
      assert !BackedAt(cast, xs[Lead(cs)]);
    } else {
      forall i | 0 <= i < |xs| ensures BackedAt(cast, xs[i]) {
        assert DataOf(cs[i]).Some?;
      }
    }
  }

  /**
   * The written `insert` puts the item in `_data` only: an aligned proxy
   * stops being aligned, and the inserted item cannot be read back.
   */
  lemma InsertAsWrittenMisaligns(cast: Value -> Result<Value>, s: Store, index: int, item: Value)
    requires Aligned(s) && cast(item).Ok?
    ensures var r := InsertAsWrittenStep(cast, s, index, item);
      r.raised.None? && Length(r.store) == |r.store.view| + 1 && r.store.view == s.view
  {
  }

  /** On an empty proxy, `insert(0, x)` makes `len` 1 while `proxy[0]` raises IndexError. */
  lemma InsertAsWrittenLosesItem(cast: Value -> Result<Value>, item: Value)
    requires cast(item).Ok?
    ensures var r := InsertAsWrittenStep(cast, Store([], []), 0, item);
      Length(r.store) == 1 && Get(r.store, 0) == Err(IndexError)
  {
  }

  /**
   * The corrected `insert` keeps the stores aligned and puts the item's cast
   * at the clamped position, every other view moving up by one at or after it.
   */
  lemma InsertSpec(cast: Value -> Result<Value>, s: Store, index: int, item: Value)
    requires Aligned(s) && cast(item).Ok? && DataOf(cast(item).value).Some?
    ensures var r := InsertStep(cast, s, index, item); var p := InsertPos(index, |s.view|);
      && r.raised.None? && Aligned(r.store) && Length(r.store) == Length(s) + 1
      && Get(r.store, p) == cast(item)
      && (forall i :: 0 <= i < p ==> Get(r.store, i) == Get(s, i))
      && (forall i :: p <= i < |s.view| ==> Get(r.store, i + 1) == Get(s, i))
      && (Linked(s) ==> Linked(r.store))
  {
  }

  /**
   * Assigning a castable item at a valid index replaces exactly that view,
   * keeps the stores aligned, and reads back as the item's cast.
   */
  lemma SetAtSpec(cast: Value -> Result<Value>, s: Store, i: int, value: Value)
    requires Aligned(s)
    ensures var r := SetAtStep(cast, s, i, value);
      && (cast(value).Err? ==> r == Done(s, Some(cast(value).error)))
      && (cast(value).Ok? && Get(s, i).Err? ==> r == Done(s, Some(IndexError)))
      && (BackedAt(cast, value) && cast(value).Ok? && Get(s, i).Ok? ==>
            && r.raised.None? && Aligned(r.store) && Get(r.store, i) == cast(value)
            && (Linked(s) ==> Linked(r.store))
            && forall j :: 0 <= j < |s.view| && j != ResolveIndex(i, |s.view|).value ==> Get(r.store, j) == Get(s, j))
      && (!BackedAt(cast, value) && Get(s, i).Ok? ==>
            && r.raised == Some(AttributeError) && r.store.data == s.data
            && r.store.view == s.view[ResolveIndex(i, |s.view|).value := cast(value).value]
            && !Linked(r.store))
  {
    if !BackedAt(cast, value) && Get(s, i).Ok? {
      var k := ResolveIndex(i, |s.view|).value;
      assert DataOf(SetAtStep(cast, s, i, value).store.view[k]).None?;
    }
  }

  /**
   * Assigning to a slice changes nothing when the values cannot be iterated
   * or one of them does not cast: the whole batch is cast before either
   * store is touched.
   */
  lemma SetSliceCastFailure(cast: Value -> Result<Value>, s: Store, start: Option<int>, stop: Option<int>, values: Value)
    requires Iterate(values).Err? ||
      exists i :: 0 <= i < |Iterate(values).value| && cast(Iterate(values).value[i]).Err?
    ensures SetSliceStep(cast, s, start, stop, values).store == s
    ensures SetSliceStep(cast, s, start, stop, values).raised.Some?
  {
    if Iterate(values).Ok? {
      CastEachElementwise(cast, Iterate(values).value);
    }
  }

  /**
   * Assigning castable values to a slice puts their casts in place of
   * `[lo, hi)` of `_view`. When every cast is backed, `_data` gets the
   * same splice of their `_data` and the stores stay aligned; otherwise
   * AttributeError is raised with `_data` untouched, so the stores fall out
   * of step unless the slice keeps its length.
   */
  lemma SetSliceSpec(cast: Value -> Result<Value>, s: Store, start: Option<int>, stop: Option<int>, values: Value)
    requires Aligned(s) && Iterate(values).Ok?
    requires forall i :: 0 <= i < |Iterate(values).value| ==> cast(Iterate(values).value[i]).Ok?
    ensures var r := SetSliceStep(cast, s, start, stop, values); var cs := CastEach(cast, Iterate(values).value);
      var lo := SliceRange(start, stop, |s.view|).0; var hi := SliceRange(start, stop, |s.view|).1;
      && cs.Ok?
      && r.store.view == s.view[..lo] + cs.value + s.view[hi..]
      && ((forall i :: 0 <= i < |Iterate(values).value| ==> BackedAt(cast, Iterate(values).value[i])) ==>
            && r.raised.None? && Aligned(r.store)
            && Length(r.store) == Length(s) - (hi - lo) + |cs.value|
            && (Linked(s) ==> Linked(r.store)))
      && (!(forall i :: 0 <= i < |Iterate(values).value| ==> BackedAt(cast, Iterate(values).value[i])) ==>
            && r.raised == Some(AttributeError) && r.store.data == s.data
            && (Aligned(r.store) <==> |cs.value| == hi - lo))
  {
    var xs := Iterate(values).value;
    LeadAllBacked(cast, xs);
    var cs := CastEach(cast, xs).value;
    var lo := SliceRange(start, stop, |s.view|).0; var hi := SliceRange(start, stop, |s.view|).1;
    SetSliceUnfold(cast, s, start, stop, values);
    if Lead(cs) == |cs| && Linked(s) {
      SpliceLinked(s, lo, hi, cs);
    }
  }

  /** With every element cast, slice assignment splices `_view`, and `_data` too when every cast is backed. */
  lemma SetSliceUnfold(cast: Value -> Result<Value>, s: Store, start: Option<int>, stop: Option<int>, values: Value)
    requires Aligned(s) && Iterate(values).Ok? && CastEach(cast, Iterate(values).value).Ok?
    ensures var cs := CastEach(cast, Iterate(values).value).value;
      var lo := SliceRange(start, stop, |s.view|).0; var hi := SliceRange(start, stop, |s.view|).1;
      SetSliceStep(cast, s, start, stop, values) ==
        if Lead(cs) < |cs| then Done(Store(s.data, Splice(s.view, lo, hi, cs)), Some(AttributeError))
        else Done(Store(Splice(s.data, lo, hi, Datas(cs, |cs|)), Splice(s.view, lo, hi, cs)), None)
  {
  }

  /** When every element casts, all the casts carry `_data` exactly when every element is backed. */
  lemma LeadAllBacked(cast: Value -> Result<Value>, xs: seq<Value>)
    requires forall i :: 0 <= i < |xs| ==> cast(xs[i]).Ok?
    ensures CastEach(cast, xs).Ok?
    ensures Lead(CastEach(cast, xs).value) == |xs| <==> forall i :: 0 <= i < |xs| ==> BackedAt(cast, xs[i])
  {
    CastEachElementwise(cast, xs);
    var cs := CastEach(cast, xs).value;
    if Lead(cs) < |cs| {
      assert !BackedAt(cast, xs[Lead(cs)]);
    } else {
      forall i | 0 <= i < |xs| ensures BackedAt(cast, xs[i]) {
        assert DataOf(cs[i]).Some?;
      }
    }
  }

  /** Replacing the same slice of both stores with backed views and their `_data` keeps them linked. */
  lemma SpliceLinked(s: Store, lo: nat, hi: nat, cs: seq<Value>)
    requires Linked(s) && lo <= hi <= |s.view| && Lead(cs) == |cs|
    ensures Linked(Store(Splice(s.data, lo, hi, Datas(cs, |cs|)), Splice(s.view, lo, hi, cs)))
  {
    var ds := Datas(cs, |cs|);
    var data := Splice(s.data, lo, hi, ds);
    var view := Splice(s.view, lo, hi, cs);
    forall i | 0 <= i < |view| ensures DataOf(view[i]) == Some(data[i]) {
      SpliceAt(s.view, lo, hi, cs, i);
      SpliceAt(s.data, lo, hi, ds, i);
      if i < lo {
        assert DataOf(s.view[i]) == Some(s.data[i]);
      } else if i < lo + |cs| {
        assert Some(ds[i - lo]) == DataOf(cs[i - lo]);
      } else {
        var j := i - lo - |cs| + hi;
        assert DataOf(s.view[j]) == Some(s.data[j]);
      }
    }
  }

  /** The element at `i` of a splice comes from the prefix, the inserted part or the suffix. */
  lemma SpliceAt(s: seq<Value>, lo: nat, hi: nat, t: seq<Value>, i: nat)
    requires lo <= hi <= |s| && i < |s| - (hi - lo) + |t|
    ensures i < lo ==> Splice(s, lo, hi, t)[i] == s[i]
    ensures lo <= i < lo + |t| ==> Splice(s, lo, hi, t)[i] == t[i - lo]
    ensures lo + |t| <= i ==> Splice(s, lo, hi, t)[i] == s[i - lo - |t| + hi]
  {
  }

  /**
   * A proxy over raw elements whose casts take them as their `_data` (a
   * dict under a compound or mapping field, a list under a list field)
   * starts linked.
   */
  lemma CreateLinked(cast: Value -> Result<Value>, items: seq<Value>)
    requires forall i :: 0 <= i < |items| ==>
      cast(items[i]).Ok? && DataOf(cast(items[i]).value).Some? && SameShape(items[i], DataOf(cast(items[i]).value).value)
    ensures Create(cast, items).Ok? && Linked(Create(cast, items).value)
  {
    CastEachElementwise(cast, items);
  }

  /** A fresh proxy over a list is the proxy the list field's cast produces. */
  lemma CreateIsFieldProxy(e: Schema.FieldSpec, items: seq<Value>)
    ensures Create(v => Casting.Cast(e, v), items).Ok? <==> Casting.ProxyNew(e, List(items)).Ok?
    ensures Create(v => Casting.Cast(e, v), items).Ok? ==>
      var s := Create(v => Casting.Cast(e, v), items).value;
      Casting.ProxyNew(e, List(items)).value == ListView(List(s.data), s.view)
  {
    CastEachOfField(e, items);
  }

  // ------------------------------------------------------ the list proxy

  /** `ListProxy`: a list proxy object whose stores change in place. */
  class ListProxy {
    const cast: Value -> Result<Value>
    var data: seq<Value>
    var view: seq<Value>

    function State(): Store
      reads this
    {
      Store(data, view)
    }

    /** `ListProxy(data)` (complex.py lines 47-49); the cast failure is returned instead. */
    static method New(cast: Value -> Result<Value>, items: seq<Value>) returns (p: ListProxy?, err: Option<Error>)
      ensures Create(cast, items).Err? ==> p == null && err == Some(Create(cast, items).error)
      ensures Create(cast, items).Ok? ==> err.None? && p != null && fresh(p) && p.cast == cast && p.State() == Create(cast, items).value
    {
      var r := Create(cast, items);
      if r.Err? {
        return null, Some(r.error);
      }
      p := new ListProxy.Init(cast, r.value);
      err := None;
    }

    constructor Init(cast: Value -> Result<Value>, s: Store)
      ensures this.cast == cast && State() == s
    {
      this.cast := cast;
      data := s.data;
      view := s.view;
    }

    method Append(item: Value) returns (err: Option<Error>)
      modifies this
      ensures Done(State(), err) == AppendStep(cast, old(State()), item)
    {
      var c := cast(item);
      if c.Err? {
        return Some(c.error);
      }
      view := view + [c.value];
      match DataOf(c.value)
      case None =>
        return Some(AttributeError);
      case Some(d) =>
        data := data + [d];
        return None;
    }

    /** `append` with the `_data` read first: a view without one is not stored. */
    method AppendChecked(item: Value) returns (err: Option<Error>)
      modifies this
      ensures Done(State(), err) == AppendCheckedStep(cast, old(State()), item)
    {
      var c := cast(item);
      if c.Err? {
        return Some(c.error);
      }
      match DataOf(c.value)
      case None =>
        return Some(AttributeError);
      case Some(d) =>
        view := view + [c.value];
        data := data + [d];
        return None;
    }

    /** `extend`: the raw entries are appended one at a time, as the generator yields them. */
    method Extend(other: Value) returns (err: Option<Error>)
      modifies this
      ensures Done(State(), err) == ExtendStep(cast, old(State()), other)
    {
      var xs := Iterate(other);
      if xs.Err? {
        return Some(xs.error);
      }
      var cs := CastEach(cast, xs.value);
      if cs.Err? {
        return Some(cs.error);
      }
      view := view + cs.value;
      err := AppendDatas(cs.value);
    }

    /** Appends the `_data` of each view in turn, stopping at the first view without one. */
    method AppendDatas(vs: seq<Value>) returns (err: Option<Error>)
      modifies this
      ensures view == old(view)
      ensures data == old(data) + Datas(vs, Lead(vs))
      ensures err == if Lead(vs) == |vs| then None else Some(AttributeError)
    {
      ghost var n := Lead(vs);
      var k := 0;
      while k < |vs|
        invariant k <= n
        invariant view == old(view)
        invariant data == old(data) + Datas(vs, k)
      {
        match DataOf(vs[k])
        case None =>
          assert k == n;
          return Some(AttributeError);
        case Some(d) =>
          assert Datas(vs, k + 1) == Datas(vs, k) + [d];
          data := data + [d];
        k := k + 1;
      }
      return None;
    }

    method InsertAsWritten(index: int, item: Value) returns (err: Option<Error>)
      modifies this
      ensures Done(State(), err) == InsertAsWrittenStep(cast, old(State()), index, item)
    {
      var c := cast(item);
      if c.Err? {
        return Some(c.error);
      }
      var p := InsertPos(index, |data|);
      data := data[..p] + [c.value] + data[p..];
      return None;
    }

    method Insert(index: int, item: Value) returns (err: Option<Error>)
      modifies this
      ensures Done(State(), err) == InsertStep(cast, old(State()), index, item)
    {
      var c := cast(item);
      if c.Err? {
        return Some(c.error);
      }
      var p := InsertPos(index, |view|);
      view := view[..p] + [c.value] + view[p..];
      match DataOf(c.value)
      case None =>
        return Some(AttributeError);
      case Some(d) =>
        var q := InsertPos(index, |data|);
        data := data[..q] + [d] + data[q..];
        return None;
    }

    method SetItem(i: int, value: Value) returns (err: Option<Error>)
      modifies this
      ensures Done(State(), err) == SetAtStep(cast, old(State()), i, value)
    {
      var c := cast(value);
      if c.Err? {
        return Some(c.error);
      }
      var k := ResolveIndex(i, |view|);
      if k.None? {
        return Some(IndexError);
      }
      view := view[k.value := c.value];
      var d := DataOf(c.value);
      if d.None? {
        return Some(AttributeError);
      }
      var k2 := ResolveIndex(i, |data|);
      if k2.None? {
        return Some(IndexError);
      }
      data := data[k2.value := d.value];
      return None;
    }

    method SetSlice(start: Option<int>, stop: Option<int>, values: Value) returns (err: Option<Error>)
      modifies this
      ensures Done(State(), err) == SetSliceStep(cast, old(State()), start, stop, values)
    {
      var xs := Iterate(values);
      if xs.Err? {
        return Some(xs.error);
      }
      var cs := CastEach(cast, xs.value);
      if cs.Err? {
        return Some(cs.error);
      }
      var (lo, hi) := SliceRange(start, stop, |view|);
      view := Splice(view, lo, hi, cs.value);
      if Lead(cs.value) < |cs.value| {
        return Some(AttributeError);
      }
      var (lo2, hi2) := SliceRange(start, stop, |data|);
      data := Splice(data, lo2, hi2, Datas(cs.value, |cs.value|));
      return None;
    }

    /** `proxy += other` (complex.py lines 77-79) is `extend`. */
    method IAdd(other: Value) returns (err: Option<Error>)
      modifies this
      ensures Done(State(), err) == ExtendStep(cast, old(State()), other)
    {
      err := Extend(other);
    }
  }

  // ---------------------------------------------------- mapping proxy model

  /** The two stores of a mapping proxy. */
  datatype MapStore = MapStore(data: map<string, Value>, view: map<string, Value>)

  datatype MapDone = MapDone(store: MapStore, raised: Option<Error>)

  predicate MapAligned(s: MapStore) {
    s.data.Keys == s.view.Keys
  }

  /** Each raw entry is the `_data` of the view under the same key. */
  predicate MapLinked(s: MapStore) {
    MapAligned(s) && forall k :: k in s.view ==> DataOf(s.view[k]) == Some(s.data[k])
  }

  /** `{k: cast(v) for k, v in d.items()}` over the listed keys, in order. */
  function CastKeysEach(cast: Value -> Result<Value>, d: map<string, Value>, ks: seq<string>): (r: Result<map<string, Value>>)
    requires forall k :: k in ks ==> k in d
    ensures r.Ok? ==> r.value.Keys == set k | k in ks
    ensures r.Ok? ==> forall k :: k in ks ==> cast(d[k]) == Ok(r.value[k])
    ensures r.Ok? <==> forall k :: k in ks ==> cast(d[k]).Ok?
  {
    if ks == [] then Ok(map[])
    else
      match cast(d[ks[0]])
      case Err(e) => Err(e)
      case Ok(h) =>
        match CastKeysEach(cast, d, ks[1..])
        case Err(e) => Err(e)
        case Ok(t) => Ok(t[ks[0] := h])
  }

  /** Casting the values under every key of `d`, in any order that lists each key. */
  lemma CastKeysCover(cast: Value -> Result<Value>, d: map<string, Value>, ks: seq<string>)
    requires forall k :: k in ks <==> k in d
    ensures CastKeysEach(cast, d, ks).Ok? <==> forall k :: k in d ==> cast(d[k]).Ok?
    ensures CastKeysEach(cast, d, ks).Ok? ==>
      && CastKeysEach(cast, d, ks).value.Keys == d.Keys
      && forall k :: k in d ==> cast(d[k]) == Ok(CastKeysEach(cast, d, ks).value[k])
  {
    assert (set k | k in ks) == d.Keys;
  }

  /** The `_data` a mapping proxy keeps: each raw value, or the document its cast wraps. */
  function SettleEach(d: map<string, Value>, vs: map<string, Value>): (r: map<string, Value>)
    requires vs.Keys == d.Keys
    ensures r.Keys == d.Keys && forall k :: k in d ==> r[k] == Settle(d[k], vs[k])
  {
    map k | k in vs :: Settle(d[k], vs[k])
  }

  /** `MappingProxy(data)` (complex.py lines 110-112). */
  function MapCreate(cast: Value -> Result<Value>, d: map<string, Value>): (r: Result<MapStore>)
    ensures r.Ok? <==> forall k :: k in d ==> cast(d[k]).Ok?
    ensures r.Ok? ==> MapAligned(r.value) && r.value.data.Keys == d.Keys
    ensures r.Ok? ==> forall k :: k in d ==> cast(d[k]) == Ok(r.value.view[k])
  {
    var ks := Order.Sorted(d.Keys);
    var cs := CastKeysEach(cast, d, ks);
    CastKeysCover(cast, d, ks);
    if cs.Err? then Err(cs.error)
    else
      var vs := cs.value;
      Ok(MapStore(SettleEach(d, vs), vs))
  }

  /** `proxy[k] = value` (complex.py lines 117-120). */
  function MapSetStep(cast: Value -> Result<Value>, s: MapStore, k: string, value: Value): (r: MapDone)
  {
    match cast(value)
    case Err(e) => MapDone(s, Some(e))
    case Ok(c) =>
      match DataOf(c)
      case None => MapDone(MapStore(s.data, s.view[k := c]), Some(AttributeError))
      case Some(d) => MapDone(MapStore(s.data[k := d], s.view[k := c]), None)
  }

  /** `k in proxy` asks `_view` (complex.py lines 122-123). */
  function MapContains(s: MapStore, k: string): bool {
    k in s.view
  }

  /** `proxy[k]` reads `_view` (complex.py lines 125-126). */
  function MapGet(s: MapStore, k: string): (r: Result<Value>)
    ensures r.Ok? <==> MapContains(s, k)
  {
    if k in s.view then Ok(s.view[k]) else Err(KeyError)
  }

  /** `len(proxy)` counts `_data` (complex.py lines 128-129). */
  function MapLength(s: MapStore): nat {
    |s.data|
  }

  /** `iter(proxy)` walks the keys of `_view` (complex.py lines 114-115). */
  function MapIter(s: MapStore): (r: seq<string>)
    ensures forall k :: k in r <==> MapContains(s, k)
  {
    Order.Sorted(s.view.Keys)
  }

  /** `proxy.keys()` are the keys of `_data` (complex.py lines 134-135). */
  function MapKeys(s: MapStore): (r: seq<string>)
    ensures forall k :: k in r <==> k in s.data
    ensures |r| == MapLength(s)
  {
    Order.Sorted(s.data.Keys)
  }

  /** `proxy.values()` are the views (complex.py lines 131-132). */
  function MapValues(s: MapStore): (r: seq<Value>)
    ensures |r| == |s.view|
    ensures forall i :: 0 <= i < |r| ==> MapGet(s, MapIter(s)[i]) == Ok(r[i])
  {
    var ks := MapIter(s);
    seq(|ks|, i requires 0 <= i < |ks| => s.view[ks[i]])
  }

  /** `proxy.items()` pairs each key with its view (complex.py lines 137-138). */
  function MapItems(s: MapStore): (r: seq<(string, Value)>)
    ensures |r| == |s.view|
    ensures forall i :: 0 <= i < |r| ==> r[i].0 == MapIter(s)[i] && MapGet(s, r[i].0) == Ok(r[i].1)
  {
    var ks := MapIter(s);
    seq(|ks|, i requires 0 <= i < |ks| => (ks[i], s.view[ks[i]]))
  }

  /**
   * Storing a castable, backed value keeps a mapping proxy aligned, makes
   * the key present with the value's cast, and leaves every other key alone.
   */
  lemma MapSetSpec(cast: Value -> Result<Value>, s: MapStore, k: string, value: Value)
    requires MapAligned(s) && BackedAt(cast, value)
    ensures var r := MapSetStep(cast, s, k, value);
      && (cast(value).Err? ==> r == MapDone(s, Some(cast(value).error)))
      && (cast(value).Ok? ==>
            && r.raised.None? && MapAligned(r.store) && (MapLinked(s) ==> MapLinked(r.store))
            && MapGet(r.store, k) == cast(value)
            && (forall j :: j != k ==> MapGet(r.store, j) == MapGet(s, j))
            && MapLength(r.store) == if k in s.data then MapLength(s) else MapLength(s) + 1)
  {
    if cast(value).Ok? && k !in s.data {
      assert (s.data[k := DataOf(cast(value).value).value]).Keys == s.data.Keys + {k};
    }
  }

  /** In an aligned proxy `len`, `keys()`, iteration and `values()` all agree in size and keys. */
  lemma MapViewsAgree(s: MapStore)
    requires MapAligned(s)
    ensures MapLength(s) == |MapKeys(s)| == |MapIter(s)| == |MapValues(s)|
    ensures MapKeys(s) == MapIter(s)
  {
  }

  /** With a field's own cast, `CastKeysEach` is the key loop the field casting uses. */
  lemma {:induction false} CastKeysEachOfField(e: Schema.FieldSpec, d: map<string, Value>, ks: seq<string>)
    requires forall k :: k in ks ==> k in d
    ensures CastKeysEach(v => Casting.Cast(e, v), d, ks) == Casting.CastKeys(e, d, ks)
  {
    if ks != [] {
      CastKeysEachOfField(e, d, ks[1..]);
    }
  }

  /** A fresh mapping proxy is the one the mapping field's cast produces. */
  lemma MapCreateIsFieldProxy(e: Schema.FieldSpec, d: map<string, Value>)
    ensures MapCreate(v => Casting.Cast(e, v), d).Ok? <==> Casting.MapProxyNew(e, d).Ok?
    ensures MapCreate(v => Casting.Cast(e, v), d).Ok? ==>
      var s := MapCreate(v => Casting.Cast(e, v), d).value;
      Casting.MapProxyNew(e, d).value == MapView(s.data, s.view)
  {
    var ks := Order.Sorted(d.Keys);
    CastKeysEachOfField(e, d, ks);
    assert Casting.CastMap(e, d) == Casting.CastKeys(e, d, ks);
  }

  // --------------------------------------------------- the mapping proxy

  /** `MappingProxy`: a mapping proxy object whose stores change in place. */
  class MappingProxy {
    const cast: Value -> Result<Value>
    var data: map<string, Value>
    var view: map<string, Value>

    function State(): MapStore
      reads this
    {
      MapStore(data, view)
    }

    static method New(cast: Value -> Result<Value>, d: map<string, Value>) returns (p: MappingProxy?, err: Option<Error>)
      ensures MapCreate(cast, d).Err? ==> p == null && err == Some(MapCreate(cast, d).error)
      ensures MapCreate(cast, d).Ok? ==> err.None? && p != null && fresh(p) && p.cast == cast && p.State() == MapCreate(cast, d).value
    {
      var r := MapCreate(cast, d);
      if r.Err? {
        return null, Some(r.error);
      }
      p := new MappingProxy.Init(cast, r.value);
      err := None;
    }

    constructor Init(cast: Value -> Result<Value>, s: MapStore)
      ensures this.cast == cast && State() == s
    {
      this.cast := cast;
      data := s.data;
      view := s.view;
    }

    method SetItem(k: string, value: Value) returns (err: Option<Error>)
      modifies this
      ensures MapDone(State(), err) == MapSetStep(cast, old(State()), k, value)
    {
      var c := cast(value);
      if c.Err? {
        return Some(c.error);
      }
      view := view[k := c.value];
      var d := DataOf(c.value);
      if d.None? {
        return Some(AttributeError);
      }
      data := data[k := d.value];
      return None;
    }
  }
}
