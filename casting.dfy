/**
 * What a field does to a value (`cast`), for every field class of the
 * `draughts.fields` package, and the construction protocol of a model
 * class generated by model_decorator.py, which `Compound.cast` calls.
 * The two are mutually recursive: a compound field builds a model
 * instance, whose fields cast their own values.
 */
module Casting {
  import opened Values
  import opened Schema
  import Basic
  import Order

  /** The state `ModelClass.__init__` threads through its three loops. */
  datatype State = State(data: map<string, Value>, kwargs: map<string, Value>, compounds: map<string, Value>)

  /** Where a field's value comes from: given directly, or made by a factory. */
  datatype Origin = Given(v: Value) | Made(factory: Value)

  /** What resolving one field stores: its raw form in `_data`, and its view in `_compounds`. */
  datatype Outcome = Outcome(raw: Value, view: Option<Value>)

  /** The loop of `__init__` that handles a field: compounds, then lists, then the rest. */
  function Group(k: Kind): (g: nat)
    ensures g < 3
  {
    if k.CompoundK? then 0 else if k.ListK? then 1 else 2
  }

  function SettleAll(xs: seq<Value>, vs: seq<Value>): (r: seq<Value>)
    requires |xs| == |vs|
    ensures |r| == |xs| && forall i :: 0 <= i < |xs| ==> r[i] == Settle(xs[i], vs[i])
  {
    seq(|xs|, i requires 0 <= i < |xs| => Settle(xs[i], vs[i]))
  }

  /**
   * `field.cast(value)` for every field class (basic.py, multivalued.py,
   * complex.py).  `Boolean` is given its evidently intended behaviour (see
   * Basic.BooleanCastAsWritten).
   */
  function Cast(f: FieldSpec, v: Value): (r: Result<Value>)
    decreases f, 0, 0, 0
  {
    match f.kind
    case AnyK => Ok(v)
    case BooleanK => Basic.BooleanCast(v)
    case IntegerK => Basic.IntegerCast(v)
    case StringK => Basic.StringCast(v)
    case KeywordK => Basic.StringCast(v)
    case TextK => Basic.StringCast(v)
    case OptionalK(inner) => if v.Null? then Ok(Null) else Cast(inner, v)
    case EnumK(_, table) => Basic.EnumCast(table, v)
    case CompoundK(m) =>
      if v.Record? && v.model == m.name then Ok(v) else Construct(m, Some(v), map[])
    case ListK(e) =>
      var xs :- (if v.List? then Ok(v.items) else Iterate(v));
      ProxyNew(e, List(xs))
    case MappingK(e) =>
      var d :- AsDict(v);
      MapProxyNew(e, d)
    case SimpleListK(e) =>
      var xs :- Iterate(v);
      var cs :- CastAll(e, xs);
      Ok(List(cs))
    case SimpleMappingK(e) =>
      var d :- Items(v);
      var cs :- CastMap(e, d);
      Ok(Dict(cs))
    case BaseK(_) => Err(NotImplementedError)
  }

  /** `[cast(x) for x in xs]`: the first failing element's error, in order. */
  function CastAll(e: FieldSpec, xs: seq<Value>): (r: Result<seq<Value>>)
    ensures r.Ok? ==> |r.value| == |xs|
    decreases e, 1, |xs|, 0
  {
    if xs == [] then Ok([])
    else
      var h :- Cast(e, xs[0]);
      var t :- CastAll(e, xs[1..]);
      Ok([h] + t)
  }

  function CastKeys(e: FieldSpec, d: map<string, Value>, ks: seq<string>): (r: Result<map<string, Value>>)
    requires forall k :: k in ks ==> k in d
    ensures r.Ok? ==> r.value.Keys == set k | k in ks
    decreases e, 1, |ks|, 0
  {
    if ks == [] then Ok(map[])
    else
      var h :- Cast(e, d[ks[0]]);
      var t :- CastKeys(e, d, ks[1..]);
      Ok(t[ks[0] := h])
  }

  /** `{k: cast(v) for k, v in d.items()}`, keys visited in ascending order. */
  function CastMap(e: FieldSpec, d: map<string, Value>): (r: Result<map<string, Value>>)
    ensures r.Ok? ==> r.value.Keys == d.Keys
    decreases e, 2, 0, 0
  {
    var ks := Order.Sorted(d.Keys);
    assert (set k | k in ks) == d.Keys;
    CastKeys(e, d, ks)
  }

  /**
   * A list proxy over `data` (complex.py lines 47-49): `_data` is the given
   * object itself, `_view` casts each element it iterates to.
   */
  function ProxyNew(e: FieldSpec, data: Value): (r: Result<Value>)
    ensures r.Ok? ==> r.value.ListView?
    decreases e, 3, 0, 0
  {
    var items :- Iterate(data);
    var views :- CastAll(e, items);
    Ok(ListView(if data.List? then List(SettleAll(data.items, views)) else data, views))
  }

  /** A mapping proxy over `data` (complex.py lines 110-112): `_view` casts every value. */
  function MapProxyNew(e: FieldSpec, data: map<string, Value>): (r: Result<Value>)
    ensures r.Ok? ==> r.value.MapView? && r.value.raw.Keys == data.Keys && r.value.typed.Keys == data.Keys
    decreases e, 3, 0, 0
  {
    var views :- CastMap(e, data);
    Ok(MapView(map k | k in data :: Settle(data[k], views[k]), views))
  }

  /**
   * `ModelClass(*args, **kwargs)` (model_decorator.py lines 114-168): the
   * document must be a dict with no key outside the fields; the fields are
   * resolved compounds first, then proxy lists, then the rest; keywords left
   * over are rejected.
   */
  function Construct(m: Model, arg: Option<Value>, kwargs: map<string, Value>): (r: Result<Value>)
    ensures arg.Some? && !arg.value.Dict? ==> r == Err(ValueError(NotADict))
    ensures arg.Some? && arg.value.Dict? && !(arg.value.entries.Keys <= Names(m)) ==>
      r == Err(ValueError(UnexpectedKeys(arg.value.entries.Keys - Names(m))))
    ensures r.Ok? ==> r.value.Record? && r.value.model == m.name
    decreases m, 5, 0, 0
  {
    var doc := if arg.None? then Dict(map[]) else arg.value;
    if !doc.Dict? then Err(ValueError(NotADict))
    else if !(doc.entries.Keys <= Names(m)) then Err(ValueError(UnexpectedKeys(doc.entries.Keys - Names(m))))
    else
      var st :- Resolve(m, 0, 0, State(doc.entries, kwargs, map[]));
      if st.kwargs != map[] then Err(ValueError(UnexpectedKeys(st.kwargs.Keys)))
      else Ok(Record(m.name, st.data, st.compounds))
  }

  /** The three loops of `__init__`: loop `pass` is at field `i`. */
  function Resolve(m: Model, pass: nat, i: nat, st: State): (r: Result<State>)
    requires i <= |m.decls|
    decreases m, 4, 3 - pass, |m.decls| - i
  {
    if pass >= 3 then Ok(st)
    else if i == |m.decls| then Resolve(m, pass + 1, 0, st)
    else if Group(m.decls[i].spec.kind) != pass then Resolve(m, pass, i + 1, st)
    else
      var st' :- Step(m, i, st);
      Resolve(m, pass, i + 1, st')
  }

  /** One iteration: resolve field `i` and store its outcome. */
  function Step(m: Model, i: nat, st: State): (r: Result<State>)
    requires i < |m.decls|
    decreases m, 3, 2, 0
  {
    var o :- FieldOutcome(m, i, st.data, st.kwargs);
    Ok(Apply(st, m.decls[i].name, o))
  }

  function Apply(st: State, n: string, o: Outcome): (r: State)
    ensures r.data == st.data[n := o.raw] && r.kwargs == st.kwargs - {n}
    ensures r.compounds == if o.view.Some? then st.compounds[n := o.view.value] else st.compounds
  {
    State(st.data[n := o.raw], st.kwargs - {n},
          if o.view.Some? then st.compounds[n := o.view.value] else st.compounds)
  }

  /**
   * Where field `i` takes its value from: a keyword argument, else the
   * document, else the `default` option, else the `factory` option, else it
   * is missing (model_decorator.py lines 127-136, 141-150 and 156-165).
   */
  function Pick(m: Model, i: nat, data: map<string, Value>, kwargs: map<string, Value>): (r: Result<Origin>)
    requires i < |m.decls|
  {
    var n := m.decls[i].name;
    var f := m.decls[i].spec;
    if n in kwargs then Ok(Given(kwargs[n]))
    else if n in data then Ok(Given(data[n]))
    else if "default" in f.metadata then Ok(Given(Lookup(f, "default")))
    else if "factory" in f.metadata then Ok(Made(Lookup(f, "factory")))
    else Err(ValueError(MissingKey(n, m.name)))
  }

  function Supply(o: Origin): (r: Result<Value>)
    ensures o.Given? ==> r == Ok(o.v)
    ensures o.Made? ==> r == Call(o.factory)
  {
    match o
    case Given(v) => Ok(v)
    case Made(c) => Call(c)
  }

  /** The outcome of resolving field `i` against a document and keyword arguments. */
  function FieldOutcome(m: Model, i: nat, data: map<string, Value>, kwargs: map<string, Value>): (r: Result<Outcome>)
    requires i < |m.decls|
    decreases m, 3, 1, 0
  {
    var origin :- Pick(m, i, data, kwargs);
    var x :- Supply(origin);
    Produce(m, i, x)
  }

  /**
   * A compound field builds its model from the value, a proxy list wraps it
   * in its proxy, both store the view's `_data`; any other field stores its
   * cast value (model_decorator.py lines 128-138, 142-152 and 157-161).
   * A factory's product is treated like any other value.
   */
  function Produce(m: Model, i: nat, x: Value): (r: Result<Outcome>)
    requires i < |m.decls|
    ensures r.Ok? && Group(m.decls[i].spec.kind) < 2 ==> r.value.view.Some? && DataOf(r.value.view.value) == Some(r.value.raw)
    ensures r.Ok? && Group(m.decls[i].spec.kind) == 2 ==> r.value.view.None?
    decreases m, 3, 0, 0
  {
    var f := m.decls[i].spec;
    match f.kind
    case CompoundK(sub) =>
      (match Construct(sub, Some(x), map[])
       case Err(e) => Err(e)
       case Ok(view) => Stash(view))
    case ListK(e) =>
      (match ProxyNew(e, x)
       case Err(e) => Err(e)
       case Ok(view) => Stash(view))
    case _ =>
      (match Cast(f, x)
       case Err(e) => Err(e)
       case Ok(c) => Ok(Outcome(c, None)))
  }

  /** Store a view's `_data` in the document and the view itself among the compounds. */
  function Stash(view: Value): (r: Result<Outcome>)
    ensures r.Ok? ==> r.value.view == Some(view) && DataOf(view) == Some(r.value.raw)
    ensures r.Err? <==> DataOf(view).None?
  {
    match DataOf(view)
    case Some(d) => Ok(Outcome(d, Some(view)))
    case None => Err(AttributeError)
  }

  /**
   * The factory branches as written (model_decorator.py lines 147-148 and
   * 162-163): both call `field.model`, which a proxy list does not have
   * (AttributeError) and which a simple list or mapping holds as its element
   * field, an object that cannot be called (TypeError); the basic branch
   * would not store its result in the document either.  Only the compound
   * branch (line 134) works.
   */
  function FactoryAsWritten(m: Model, i: nat, factory: Value): (r: Result<Outcome>)
    requires i < |m.decls|
  {
    match m.decls[i].spec.kind
    case CompoundK(_) => var x :- Call(factory); Produce(m, i, x)
    case SimpleListK(_) => Err(TypeError)
    case SimpleMappingK(_) => Err(TypeError)
    case _ => Err(AttributeError)
  }

  // ------------------------------------------------------------ cast lemmas

  /** `CastAll` casts element by element; on failure some element failed. */
  lemma {:induction false} CastAllElementwise(e: FieldSpec, xs: seq<Value>)
    ensures CastAll(e, xs).Ok? ==> forall i :: 0 <= i < |xs| ==> Cast(e, xs[i]) == Ok(CastAll(e, xs).value[i])
    ensures CastAll(e, xs).Ok? <==> forall i :: 0 <= i < |xs| ==> Cast(e, xs[i]).Ok?
  {
    if xs != [] {
      CastAllElementwise(e, xs[1..]);
      assert forall i :: 1 <= i < |xs| ==> xs[i] == xs[1..][i - 1];
    }
  }

  /** `CastKeys` casts the value under every listed key. */
  lemma {:induction false} CastKeysPointwise(e: FieldSpec, d: map<string, Value>, ks: seq<string>)
    requires forall k :: k in ks ==> k in d
    ensures CastKeys(e, d, ks).Ok? ==> forall k :: k in ks ==> Cast(e, d[k]) == Ok(CastKeys(e, d, ks).value[k])
    ensures CastKeys(e, d, ks).Ok? <==> forall k :: k in ks ==> Cast(e, d[k]).Ok?
  {
    if ks != [] {
      CastKeysPointwise(e, d, ks[1..]);
      if CastKeys(e, d, ks).Ok? {
        forall k | k in ks ensures Cast(e, d[k]) == Ok(CastKeys(e, d, ks).value[k]) {
          if k != ks[0] {
            assert k in ks[1..];
          }
        }
      }
      assert forall k :: k in ks ==> k == ks[0] || k in ks[1..];
    }
  }

  /** A simple mapping keeps the key set and casts every value (multivalued.py lines 43-45, 59-60). */
  lemma CastMapPointwise(e: FieldSpec, d: map<string, Value>)
    ensures CastMap(e, d).Ok? <==> forall k :: k in d ==> Cast(e, d[k]).Ok?
    ensures CastMap(e, d).Ok? ==> forall k :: k in d ==> Cast(e, d[k]) == Ok(CastMap(e, d).value[k])
  {
    CastKeysPointwise(e, d, Order.Sorted(d.Keys));
  }

  /**
   * A proxy list keeps the given object as `_data` (a list keeps its
   * elements, a raw dict or list element becoming its view's `_data`) and
   * holds `cast(x)` for every element in `_view` (complex.py lines 47-49).
   */
  lemma ProxyNewShape(e: FieldSpec, data: Value)
    requires data.List?
    ensures ProxyNew(e, data).Ok? <==> forall i :: 0 <= i < |data.items| ==> Cast(e, data.items[i]).Ok?
    ensures ProxyNew(e, data).Ok? ==>
      var p := ProxyNew(e, data).value;
      && p.data.List? && |p.data.items| == |p.view| == |data.items|
      && forall i :: 0 <= i < |data.items| ==>
           Cast(e, data.items[i]) == Ok(p.view[i]) && p.data.items[i] == Settle(data.items[i], p.view[i])
  {
    CastAllElementwise(e, data.items);
  }

  /** `Any.cast` is the identity (basic.py lines 4-6). */
  lemma AnyIsIdentity(f: FieldSpec, v: Value)
    requires f.kind == AnyK
    ensures Cast(f, v) == Ok(v)
  {
  }

  /** `Keyword` and `Text` cast exactly as `String` does (basic.py lines 33-40). */
  lemma KeywordAndTextAreStrings(f: FieldSpec, g: FieldSpec, v: Value)
    requires f.kind == StringK && (g.kind == KeywordK || g.kind == TextK)
    ensures Cast(g, v) == Cast(f, v)
  {
  }

  /** `Optional` passes None through and delegates everything else (basic.py lines 54-57). */
  lemma OptionalCast(inner: FieldSpec, v: Value)
    ensures Cast(NewOptional(inner), Null) == Ok(Null)
    ensures !v.Null? ==> Cast(NewOptional(inner), v) == Cast(inner, v)
  {
  }

  /** An instance of the compound's own model is passed through (complex.py lines 10-13). */
  lemma CompoundPassThrough(f: FieldSpec, v: Value)
    requires f.kind.CompoundK? && v.Record? && v.model == f.kind.model.name
    ensures Cast(f, v) == Ok(v)
  {
  }

  /** The abstract bases cannot cast (bases.py lines 12-13, 21-22, 33-34). */
  lemma BasesCannotCast(f: FieldSpec, v: Value)
    requires f.kind.BaseK?
    ensures Cast(f, v) == Err(NotImplementedError)
  {
  }

  /**
   * Compound, list and mapping fields produce objects that carry `_data`,
   * so a proxy over them can link the raw and typed stores.
   */
  lemma ProxyKindsAreBacked(f: FieldSpec, v: Value)
    requires f.kind.CompoundK? || f.kind.ListK? || f.kind.MappingK?
    requires Cast(f, v).Ok?
    ensures DataOf(Cast(f, v).value).Some?
  {
  }

  /** A simple list casts each element it iterates to, in order (multivalued.py lines 5-7, 35-36). */
  lemma SimpleListCast(f: FieldSpec, v: Value)
    requires f.kind.SimpleListK? && Iterate(v).Ok?
    ensures var xs := Iterate(v).value;
      && (Cast(f, v).Ok? <==> forall i :: 0 <= i < |xs| ==> Cast(f.kind.elem, xs[i]).Ok?)
      && (Cast(f, v).Ok? ==>
            && Cast(f, v).value.List? && |Cast(f, v).value.items| == |xs|
            && forall i :: 0 <= i < |xs| ==> Cast(f.kind.elem, xs[i]) == Ok(Cast(f, v).value.items[i]))
  {
    var xs := Iterate(v).value;
    var cs := CastAll(f.kind.elem, xs);
    assert cs.Ok? ==> Cast(f, v) == Ok(List(cs.value));
    assert cs.Err? ==> Cast(f, v) == Err(cs.error);
    CastAllElementwise(f.kind.elem, xs);
  }

  // ---------------------------------------------------- construction theorem

  /** Field `j` is still to be resolved when loop `pass` is at field `i`. */
  predicate Pending(m: Model, pass: nat, i: nat, j: nat) {
    j < |m.decls| && (Group(m.decls[j].spec.kind) > pass || (Group(m.decls[j].spec.kind) == pass && j >= i))
  }

  function PendingNames(m: Model, pass: nat, i: nat): set<string> {
    set j | 0 <= j < |m.decls| && Pending(m, pass, i, j) :: m.decls[j].name
  }

  predicate AgreeAt(n: string, a: map<string, Value>, b: map<string, Value>) {
    (n in a <==> n in b) && (n in a ==> a[n] == b[n])
  }

  /** The pending fields still see the original document and keywords. */
  ghost predicate Untouched(m: Model, pass: nat, i: nat, st: State, doc: map<string, Value>, kw: map<string, Value>) {
    forall j :: 0 <= j < |m.decls| && Pending(m, pass, i, j) ==>
      AgreeAt(m.decls[j].name, st.data, doc) && AgreeAt(m.decls[j].name, st.kwargs, kw)
  }

  ghost predicate PendingResolve(m: Model, pass: nat, i: nat, doc: map<string, Value>, kw: map<string, Value>) {
    forall j :: 0 <= j < |m.decls| && Pending(m, pass, i, j) ==> FieldOutcome(m, j, doc, kw).Ok?
  }

  predicate Stored(st: State, n: string, o: Result<Outcome>) {
    && o.Ok? && n in st.data && st.data[n] == o.value.raw
    && (o.value.view.Some? ==> n in st.compounds && st.compounds[n] == o.value.view.value)
  }

  /**
   * `st'` is `st` with every pending field's outcome stored under its name,
   * the pending keywords consumed and every other entry left alone.
   */
  ghost predicate Resolved(m: Model, pass: nat, i: nat, st: State, st': State, doc: map<string, Value>, kw: map<string, Value>) {
    && (forall j :: 0 <= j < |m.decls| && Pending(m, pass, i, j) ==>
          Stored(st', m.decls[j].name, FieldOutcome(m, j, doc, kw)))
    && (forall n :: n !in PendingNames(m, pass, i) ==>
          AgreeAt(n, st'.data, st.data) && AgreeAt(n, st'.compounds, st.compounds))
    && st'.kwargs == st.kwargs - PendingNames(m, pass, i)
  }

  /** The outcome of a field only depends on its own entries in the document and keywords. */
  lemma OutcomeLocal(m: Model, i: nat, d1: map<string, Value>, k1: map<string, Value>, d2: map<string, Value>, k2: map<string, Value>)
    requires i < |m.decls|
    requires AgreeAt(m.decls[i].name, d1, d2) && AgreeAt(m.decls[i].name, k1, k2)
    ensures FieldOutcome(m, i, d1, k1) == FieldOutcome(m, i, d2, k2)
  {
    assert Pick(m, i, d1, k1) == Pick(m, i, d2, k2);
  }

  /** Moving past field `i` in loop `pass` retires it exactly when it belongs to that loop. */
  lemma PendingAdvance(m: Model, pass: nat, i: nat)
    requires i < |m.decls|
    ensures forall j :: Pending(m, pass, i, j) <==>
      (j == i && Group(m.decls[i].spec.kind) == pass) || Pending(m, pass, i + 1, j)
    ensures Group(m.decls[i].spec.kind) != pass ==> PendingNames(m, pass, i) == PendingNames(m, pass, i + 1)
    ensures Group(m.decls[i].spec.kind) == pass ==>
      PendingNames(m, pass, i) == PendingNames(m, pass, i + 1) + {m.decls[i].name}
  {
  }

  /** The end of one loop is the start of the next. */
  lemma PendingWrap(m: Model, pass: nat)
    ensures forall j :: Pending(m, pass, |m.decls|, j) <==> Pending(m, pass + 1, 0, j)
    ensures PendingNames(m, pass, |m.decls|) == PendingNames(m, pass + 1, 0)
  {
  }

  /** Storing field `i`'s outcome keeps the other pending fields untouched. */
  lemma UntouchedAfterStep(m: Model, pass: nat, i: nat, st: State, o: Outcome, doc: map<string, Value>, kw: map<string, Value>)
    requires Distinct(m) && i < |m.decls| && Group(m.decls[i].spec.kind) == pass
    requires Untouched(m, pass, i, st, doc, kw)
    ensures Untouched(m, pass, i + 1, Apply(st, m.decls[i].name, o), doc, kw)
  {
    PendingAdvance(m, pass, i);
    var st1 := Apply(st, m.decls[i].name, o);
    forall j | 0 <= j < |m.decls| && Pending(m, pass, i + 1, j)
      ensures AgreeAt(m.decls[j].name, st1.data, doc) && AgreeAt(m.decls[j].name, st1.kwargs, kw)
    {
      assert j != i;
      assert m.decls[j].name != m.decls[i].name;
    }
  }

  /** What holds after the rest of the loops from `st1` extends to field `i` itself. */
  lemma ResolvedAfterStep(m: Model, pass: nat, i: nat, st: State, st': State, doc: map<string, Value>, kw: map<string, Value>)
    requires Distinct(m) && i < |m.decls| && Group(m.decls[i].spec.kind) == pass
    requires FieldOutcome(m, i, doc, kw).Ok?
    requires Resolved(m, pass, i + 1, Apply(st, m.decls[i].name, FieldOutcome(m, i, doc, kw).value), st', doc, kw)
    ensures Resolved(m, pass, i, st, st', doc, kw)
  {
    var n := m.decls[i].name;
    var st1 := Apply(st, n, FieldOutcome(m, i, doc, kw).value);
    var later := PendingNames(m, pass, i + 1);
    PendingAdvance(m, pass, i);
    forall j | 0 <= j < |m.decls| && Pending(m, pass, i + 1, j) ensures m.decls[j].name != n {
      assert j != i;
    }
    assert n !in later;
    assert AgreeAt(n, st'.data, st1.data) && AgreeAt(n, st'.compounds, st1.compounds);
    assert Stored(st', n, FieldOutcome(m, i, doc, kw));
    assert st'.kwargs == st.kwargs - PendingNames(m, pass, i) by {
      assert st'.kwargs == (st.kwargs - {n}) - later;
    }
  }

  /**
   * The loops resolve every pending field against the original document and
   * keywords: they succeed exactly when every pending field does, and then
   * store each outcome under its field's name, consume the pending keywords
   * and leave every other entry alone.
   */
  lemma {:induction false} ResolveSpec(m: Model, pass: nat, i: nat, st: State, doc: map<string, Value>, kw: map<string, Value>)
    requires Distinct(m) && i <= |m.decls|
    requires Untouched(m, pass, i, st, doc, kw)
    ensures Resolve(m, pass, i, st).Ok? <==> PendingResolve(m, pass, i, doc, kw)
    ensures Resolve(m, pass, i, st).Ok? ==> Resolved(m, pass, i, st, Resolve(m, pass, i, st).value, doc, kw)
    decreases 3 - pass, |m.decls| - i, 1
  {
    if pass >= 3 {
      assert PendingNames(m, pass, i) == {};
      assert st.kwargs - {} == st.kwargs;
    } else if i == |m.decls| {
      ResolveWrap(m, pass, st, doc, kw);
    } else if Group(m.decls[i].spec.kind) != pass {
      ResolveSkip(m, pass, i, st, doc, kw);
    } else {
      ResolveStep(m, pass, i, st, doc, kw);
    }
  }

  /** The end of one loop hands over to the next. */
  lemma {:induction false} ResolveWrap(m: Model, pass: nat, st: State, doc: map<string, Value>, kw: map<string, Value>)
    requires Distinct(m) && pass < 3
    requires Untouched(m, pass, |m.decls|, st, doc, kw)
    ensures Resolve(m, pass, |m.decls|, st).Ok? <==> PendingResolve(m, pass, |m.decls|, doc, kw)
    ensures Resolve(m, pass, |m.decls|, st).Ok? ==>
      Resolved(m, pass, |m.decls|, st, Resolve(m, pass, |m.decls|, st).value, doc, kw)
    decreases 3 - pass, 0, 0
  {
    PendingWrap(m, pass);
    ResolveSpec(m, pass + 1, 0, st, doc, kw);
  }

  /** A field that belongs to another loop is passed over. */
  lemma {:induction false} ResolveSkip(m: Model, pass: nat, i: nat, st: State, doc: map<string, Value>, kw: map<string, Value>)
    requires Distinct(m) && pass < 3 && i < |m.decls| && Group(m.decls[i].spec.kind) != pass
    requires Untouched(m, pass, i, st, doc, kw)
    ensures Resolve(m, pass, i, st).Ok? <==> PendingResolve(m, pass, i, doc, kw)
    ensures Resolve(m, pass, i, st).Ok? ==> Resolved(m, pass, i, st, Resolve(m, pass, i, st).value, doc, kw)
    decreases 3 - pass, |m.decls| - i, 0
  {
    PendingAdvance(m, pass, i);
    ResolveSpec(m, pass, i + 1, st, doc, kw);
  }

  /** A field of this loop is resolved and stored, then the loop goes on. */
  lemma {:induction false} ResolveStep(m: Model, pass: nat, i: nat, st: State, doc: map<string, Value>, kw: map<string, Value>)
    requires Distinct(m) && pass < 3 && i < |m.decls| && Group(m.decls[i].spec.kind) == pass
    requires Untouched(m, pass, i, st, doc, kw)
    ensures Resolve(m, pass, i, st).Ok? <==> PendingResolve(m, pass, i, doc, kw)
    ensures Resolve(m, pass, i, st).Ok? ==> Resolved(m, pass, i, st, Resolve(m, pass, i, st).value, doc, kw)
    decreases 3 - pass, |m.decls| - i, 0
  {
    PendingAdvance(m, pass, i);
    assert Pending(m, pass, i, i);
    OutcomeLocal(m, i, st.data, st.kwargs, doc, kw);
    if FieldOutcome(m, i, doc, kw).Ok? {
      var st1 := Apply(st, m.decls[i].name, FieldOutcome(m, i, doc, kw).value);
      assert Step(m, i, st) == Ok(st1);
      UntouchedAfterStep(m, pass, i, st, FieldOutcome(m, i, doc, kw).value, doc, kw);
      ResolveSpec(m, pass, i + 1, st1, doc, kw);
      if Resolve(m, pass, i, st).Ok? {
        ResolvedAfterStep(m, pass, i, st, Resolve(m, pass, i + 1, st1).value, doc, kw);
      }
    }
  }

  /** Every field is pending before the first loop starts. */
  lemma AllPendingAtStart(m: Model)
    ensures forall j :: 0 <= j < |m.decls| ==> Pending(m, 0, 0, j)
    ensures PendingNames(m, 0, 0) == Names(m)
  {
    forall n | n in Names(m) ensures n in PendingNames(m, 0, 0) {
      var d :| d in m.decls && d.name == n;
      var j :| 0 <= j < |m.decls| && m.decls[j] == d;
      assert Pending(m, 0, 0, j);
    }
  }

  /** The final keyword check passes exactly when every keyword names a field. */
  lemma LeftoverKeywords(kw: map<string, Value>, names: set<string>)
    ensures kw - names == map[] <==> kw.Keys <= names
  {
    if !(kw.Keys <= names) {
      var k :| k in kw && k !in names;
      assert k in kw - names;
    }
  }

  /** After the loops, `_data` holds exactly the fields. */
  lemma DataKeysAreNames(m: Model, doc: map<string, Value>, kw: map<string, Value>, st': State)
    requires doc.Keys <= Names(m)
    requires Resolved(m, 0, 0, State(doc, kw, map[]), st', doc, kw)
    ensures st'.data.Keys == Names(m)
  {
    AllPendingAtStart(m);
    forall n | n !in Names(m) ensures n !in st'.data {
      assert AgreeAt(n, st'.data, doc);
    }
    forall n | n in Names(m) ensures n in st'.data {
      var d :| d in m.decls && d.name == n;
      var j :| 0 <= j < |m.decls| && m.decls[j] == d;
      assert Stored(st', n, FieldOutcome(m, j, doc, kw));
    }
  }

  /**
   * Construction from a document `doc` and keywords `kw` succeeds exactly
   * when the document has no unknown key, every field resolves, and every
   * keyword names a field.  The instance's `_data` then holds exactly one
   * entry per field, the resolved raw value, and `_compounds` the view of
   * every compound and proxy-list field.
   */
  lemma ConstructSpec(m: Model, doc: map<string, Value>, kw: map<string, Value>)
    requires Distinct(m)
    ensures Construct(m, Some(Dict(doc)), kw).Ok? <==>
      doc.Keys <= Names(m) && AllResolve(m, doc, kw) && kw.Keys <= Names(m)
    ensures Construct(m, Some(Dict(doc)), kw).Ok? ==>
      var r := Construct(m, Some(Dict(doc)), kw).value;
      && r.doc.Keys == Names(m)
      && forall j :: 0 <= j < |m.decls| ==> Stored(State(r.doc, map[], r.attrs), m.decls[j].name, FieldOutcome(m, j, doc, kw))
  {
    if doc.Keys <= Names(m) {
      var st := State(doc, kw, map[]);
      AllPendingAtStart(m);
      ResolveSpec(m, 0, 0, st, doc, kw);
      assert AllResolve(m, doc, kw) <==> PendingResolve(m, 0, 0, doc, kw);
      if Resolve(m, 0, 0, st).Ok? {
        ConstructAfterLoops(m, doc, kw);
      } else {
        ConstructLoopsFail(m, doc, kw);
      }
    }
  }

  /** Every field resolves against the document and keywords. */
  ghost predicate AllResolve(m: Model, doc: map<string, Value>, kw: map<string, Value>) {
    forall j :: 0 <= j < |m.decls| ==> FieldOutcome(m, j, doc, kw).Ok?
  }

  /** A failing loop fails construction with its error. */
  lemma ConstructLoopsFail(m: Model, doc: map<string, Value>, kw: map<string, Value>)
    requires doc.Keys <= Names(m) && Resolve(m, 0, 0, State(doc, kw, map[])).Err?
    ensures Construct(m, Some(Dict(doc)), kw) == Err(Resolve(m, 0, 0, State(doc, kw, map[])).error)
  {
  }

  /** Once the loops succeed, only the keyword check remains. */
  lemma ConstructAfterLoops(m: Model, doc: map<string, Value>, kw: map<string, Value>)
    requires Distinct(m) && doc.Keys <= Names(m)
    requires Resolve(m, 0, 0, State(doc, kw, map[])).Ok?
    requires Resolved(m, 0, 0, State(doc, kw, map[]), Resolve(m, 0, 0, State(doc, kw, map[])).value, doc, kw)
    ensures Construct(m, Some(Dict(doc)), kw).Ok? <==> kw.Keys <= Names(m)
    ensures Construct(m, Some(Dict(doc)), kw).Ok? ==>
      var r := Construct(m, Some(Dict(doc)), kw).value;
      var st' := Resolve(m, 0, 0, State(doc, kw, map[])).value;
      r.doc == st'.data && r.attrs == st'.compounds && r.doc.Keys == Names(m)
  {
    var st' := Resolve(m, 0, 0, State(doc, kw, map[])).value;
    assert Construct(m, Some(Dict(doc)), kw) ==
      if st'.kwargs != map[] then Err(ValueError(UnexpectedKeys(st'.kwargs.Keys))) else Ok(Record(m.name, st'.data, st'.compounds));
    AllPendingAtStart(m);
    assert st'.kwargs == kw - Names(m);
    LeftoverKeywords(kw, Names(m));
    DataKeysAreNames(m, doc, kw, st');
  }

  /** A field that is given nowhere and has neither a default nor a factory makes construction fail. */
  lemma MissingFieldFails(m: Model, doc: map<string, Value>, kw: map<string, Value>, j: nat)
    requires Distinct(m) && j < |m.decls|
    requires m.decls[j].name !in doc && m.decls[j].name !in kw
    requires "default" !in m.decls[j].spec.metadata && "factory" !in m.decls[j].spec.metadata
    ensures FieldOutcome(m, j, doc, kw) == Err(ValueError(MissingKey(m.decls[j].name, m.name)))
    ensures Construct(m, Some(Dict(doc)), kw).Err?
  {
    assert Pick(m, j, doc, kw) == Err(ValueError(MissingKey(m.decls[j].name, m.name)));
    assert FieldOutcome(m, j, doc, kw).Err?;
    assert !AllResolve(m, doc, kw);
    ConstructSpec(m, doc, kw);
  }

  /**
   * A keyword argument wins over the document, which wins over the
   * `default` option, which wins over the `factory` option.
   */
  lemma PickPriority(m: Model, i: nat, doc: map<string, Value>, kw: map<string, Value>)
    requires i < |m.decls|
    ensures var n := m.decls[i].name; var f := m.decls[i].spec;
      && (n in kw ==> Pick(m, i, doc, kw) == Ok(Given(kw[n])))
      && (n !in kw && n in doc ==> Pick(m, i, doc, kw) == Ok(Given(doc[n])))
      && (n !in kw && n !in doc && "default" in f.metadata ==> Pick(m, i, doc, kw) == Ok(Given(f.metadata["default"])))
      && (n !in kw && n !in doc && "default" !in f.metadata && "factory" in f.metadata ==>
            Pick(m, i, doc, kw) == Ok(Made(f.metadata["factory"])))
  {
  }

  /** The written factory branches never store anything for a list or basic field. */
  lemma FactoryAsWrittenFails(m: Model, i: nat, factory: Value)
    requires i < |m.decls| && !m.decls[i].spec.kind.CompoundK?
    ensures FactoryAsWritten(m, i, factory).Err?
  {
  }

  /**
   * With the factory branches repaired, a proxy-list field with only a
   * `factory` option is filled from the factory's product.
   */
  lemma FactoryFillsListField(m: Model, i: nat, e: FieldSpec, items: seq<Value>)
    requires i < |m.decls| && m.decls[i].spec.kind == ListK(e)
    requires "factory" in m.decls[i].spec.metadata && "default" !in m.decls[i].spec.metadata
    requires m.decls[i].spec.metadata["factory"] == Callable(List(items))
    requires forall k :: 0 <= k < |items| ==> Cast(e, items[k]).Ok?
    ensures FieldOutcome(m, i, map[], map[]).Ok?
    ensures FactoryAsWritten(m, i, Callable(List(items))) == Err(AttributeError)
  {
    ProxyNewShape(e, List(items));
  }
}
