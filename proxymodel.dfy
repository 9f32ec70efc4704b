/**
 * proxy_model.py: a self-contained engine whose instances keep the raw
 * document in `_data` and every field's value in a slot of its own.
 * Construction resolves compound fields, then list fields, then the rest,
 * writing each view's `_data` (or the cast value) back into the document;
 * attribute assignment goes through the field class's `assign`, which
 * writes the slot only.
 */
module ProxyModel {
  import opened Values
  import opened Variant
  import Basic
  import Casting
  import Proxies
  import Multivalued

  /** Which of the three loops of `__init__` handles a field: compounds, lists, the rest. */
  function Group(k: VKind): (g: nat)
    ensures g < 3
    ensures g == 0 <==> k.CompoundV?
    ensures g == 1 <==> k.ListV?
  {
    if k.CompoundV? then 0 else if k.ListV? then 1 else 2
  }

  // --------------------------------------------------------------- casts

  /**
   * `field.cast(value)`: `int()` for Integer and Float (lines 26-27,
   * 35-36), `str()` for String (lines 42-43), a list proxy over
   * `list(value)` for List (lines 56-62), the model itself or a new
   * instance for Compound (lines 179-182); the bare Field raises.
   */
  function Cast(f: VField, v: Value): (r: Result<Value>)
    ensures (f.kind.IntegerV? || f.kind.FloatV?) ==> r == Basic.IntegerCast(v)
    ensures f.kind.StringV? ==> r == Ok(Str(Basic.StrOf(v)))
    ensures f.kind.FieldV? ==> r == Err(NotImplementedError)
    ensures f.kind.CompoundV? && r.Ok? ==> r.value.Record? && r.value.model == f.kind.model.name
    ensures f.kind.ListV? && r.Ok? ==> r.value.ListView? || r.value.ScalarListView?
    decreases f, 0, 0, 0
  {
    match f.kind
    case IntegerV => Basic.IntegerCast(v)
    case FloatV => Basic.IntegerCast(v)
    case StringV => Ok(Str(Basic.StrOf(v)))
    case FieldV => Err(NotImplementedError)
    case CompoundV(sub) =>
      if v.Record? && v.model == sub.name then Ok(v) else Construct(sub, Some(v), map[])
    case ListV(child) =>
      var xs :- (if v.List? then Ok(v.items) else Iterate(v));
      Proxy(child, List(xs))
  }

  function CastAll(f: VField, xs: seq<Value>): (r: Result<seq<Value>>)
    ensures r.Ok? ==> |r.value| == |xs|
    decreases f, 1, |xs|, 0
  {
    if xs == [] then Ok([])
    else
      var c :- Cast(f, xs[0]);
      var cs :- CastAll(f, xs[1..]);
      Ok([c] + cs)
  }

  /**
   * `field.proxy(data)`, the class `_listProxyFactory(child)` builds
   * (lines 80-170).  Over compound or list elements the proxy keeps `data`
   * as `_data` and the casts as `_view` (lines 89-91).  Over scalars it
   * writes each cast back into `data` (lines 136-139): a list is cast in
   * place; an empty iterable is kept; for any other object the first
   * element is cast and then writing it back fails, a dict because its size
   * changed under iteration, anything else because it does not support item
   * assignment.
   */
  function Proxy(child: VField, data: Value): (r: Result<Value>)
    ensures r.Ok? && (child.kind.CompoundV? || child.kind.ListV?) ==> r.value.ListView?
    ensures r.Ok? && !(child.kind.CompoundV? || child.kind.ListV?) ==> r.value.ScalarListView?
    decreases child, 2, 0, 0
  {
    var items :- Iterate(data);
    if child.kind.CompoundV? || child.kind.ListV? then
      var views :- CastAll(child, items);
      Ok(ListView(if data.List? then List(Casting.SettleAll(data.items, views)) else data, views))
    else if data.List? then
      var cs :- CastAll(child, items);
      Ok(ScalarListView(List(cs)))
    else if items == [] then Ok(ScalarListView(data))
    else
      var first :- Cast(child, items[0]);
      Err(if data.Dict? then RuntimeError else TypeError)
  }

  // -------------------------------------------------------- construction

  /** The document, the keyword arguments not yet consumed, the slots set so far. */
  datatype PState = PState(data: map<string, Value>, kwargs: map<string, Value>, slots: map<string, Value>)

  /** What resolving one field stores: an entry of the document and a slot. */
  datatype Outcome = Outcome(raw: Value, slot: Value)

  /**
   * `ModelClass(*args, **kwargs)` (lines 269-318): the document must be a
   * dict with no key outside the fields; then the three loops; keywords
   * left over are rejected.
   */
  function Construct(m: VModel, arg: Option<Value>, kwargs: map<string, Value>): (r: Result<Value>)
    ensures arg.Some? && !arg.value.Dict? ==> r == Err(ValueError(NotADict))
    ensures arg.Some? && arg.value.Dict? && !(arg.value.entries.Keys <= Names(m)) ==>
      r == Err(ValueError(UnexpectedKeys(arg.value.entries.Keys - Names(m))))
    ensures r.Ok? ==> r.value.Record? && r.value.model == m.name
    decreases m, 5, 0, 0
  {
    var doc := if arg.None? then Dict(map[]) else arg.value;
    if !doc.Dict? then Err(ValueError(NotADict))
    else if !(doc.entries.Keys <= Names(m)) then Err(ValueError(UnexpectedKeys(doc.entries.Keys - Names(m))))
    else
      var st :- Resolve(m, 0, 0, PState(doc.entries, kwargs, map[]));
      if st.kwargs != map[] then Err(ValueError(UnexpectedKeys(st.kwargs.Keys)))
      else Ok(Record(m.name, st.data, st.slots))
  }

  /** The three loops of `__init__`: loop `pass` is at field `i`. */
  function Resolve(m: VModel, pass: nat, i: nat, st: PState): (r: Result<PState>)
    requires i <= |m.decls|
    decreases m, 4, 3 - pass, |m.decls| - i
  {
    if pass >= 3 then Ok(st)
    else if i == |m.decls| then Resolve(m, pass + 1, 0, st)
    else if Group(m.decls[i].field.kind) != pass then Resolve(m, pass, i + 1, st)
    else
      var st' :- Step(m, i, st);
      Resolve(m, pass, i + 1, st')
  }

  /** One iteration: resolve field `i` and store its outcome. */
  function Step(m: VModel, i: nat, st: PState): (r: Result<PState>)
    requires i < |m.decls|
    decreases m, 3, 2, 0
  {
    var o :- FieldOutcome(m, i, st.data, st.kwargs);
    Ok(Apply(st, m.decls[i].name, o))
  }

  function Apply(st: PState, n: string, o: Outcome): (r: PState)
    ensures r.data == st.data[n := o.raw] && r.slots == st.slots[n := o.slot] && r.kwargs == st.kwargs - {n}
  {
    PState(st.data[n := o.raw], st.kwargs - {n}, st.slots[n := o.slot])
  }

  /**
   * Where field `i` takes its value from (lines 280-287, 293-300,
   * 307-314): a keyword argument (consumed), else the document, else the
   * `default` option; a `factory` option is not consulted.
   */
  function Pick(m: VModel, i: nat, data: map<string, Value>, kwargs: map<string, Value>): Result<Value>
    requires i < |m.decls|
  {
    var n := m.decls[i].name;
    var f := Named(m.decls[i], m);
    if n in kwargs then Ok(kwargs[n])
    else if n in data then Ok(data[n])
    else if "default" in f.metadata then Ok(Lookup(f, "default"))
    else Err(ValueError(MissingKey(n, m.name)))
  }

  /** The outcome of resolving field `i` against a document and keyword arguments. */
  function FieldOutcome(m: VModel, i: nat, data: map<string, Value>, kwargs: map<string, Value>): (r: Result<Outcome>)
    requires i < |m.decls|
    decreases m, 3, 1, 0
  {
    var x :- Pick(m, i, data, kwargs);
    Produce(m, i, x)
  }

  /**
   * A compound field builds its model from the value and a list field wraps
   * it in its proxy, without the pass-through of `cast`; both keep the view
   * in the slot and its `_data` in the document (lines 281-290, 294-303).
   * Any other field casts the value and stores it in both (lines 305-315).
   */
  function Produce(m: VModel, i: nat, x: Value): (r: Result<Outcome>)
    requires i < |m.decls|
    ensures r.Ok? && Group(m.decls[i].field.kind) < 2 ==> DataOf(r.value.slot) == Some(r.value.raw)
    ensures r.Ok? && Group(m.decls[i].field.kind) == 2 ==> r.value.slot == r.value.raw
    decreases m, 3, 0, 0
  {
    var f := m.decls[i].field;
    match f.kind
    case CompoundV(sub) =>
      (match Construct(sub, Some(x), map[])
       case Err(e) => Err(e)
       case Ok(view) => Stash(view))
    case ListV(child) =>
      (match Proxy(child, x)
       case Err(e) => Err(e)
       case Ok(view) => Stash(view))
    case _ =>
      (match Cast(f, x)
       case Err(e) => Err(e)
       case Ok(c) => Ok(Outcome(c, c)))
  }

  /** Keep a view in the slot and its `_data` in the document. */
  function Stash(view: Value): (r: Result<Outcome>)
    ensures r.Ok? ==> r.value.slot == view && DataOf(view) == Some(r.value.raw)
    ensures r.Err? <==> DataOf(view).None?
  {
    match DataOf(view)
    case Some(d) => Ok(Outcome(d, view))
    case None => Err(AttributeError)
  }

  // ------------------------------------------------ construction lemmas

  /** Field `j` is still to be handled when loop `pass` is at field `i`. */
  predicate Pending(m: VModel, pass: nat, i: nat, j: nat) {
    j < |m.decls| && (Group(m.decls[j].field.kind) > pass || (Group(m.decls[j].field.kind) == pass && j >= i))
  }

  function PendingNames(m: VModel, pass: nat, i: nat): set<string> {
    set j | 0 <= j < |m.decls| && Pending(m, pass, i, j) :: m.decls[j].name
  }

  predicate AgreeAt(n: string, a: map<string, Value>, b: map<string, Value>) {
    (n in a <==> n in b) && (n in a ==> a[n] == b[n])
  }

  /** The document entry and slot of `n` hold the outcome `o`. */
  predicate Holds(data: map<string, Value>, slots: map<string, Value>, n: string, o: Result<Outcome>) {
    o.Ok? && n in data && n in slots && data[n] == o.value.raw && slots[n] == o.value.slot
  }

  /** The pending fields still see the caller's document and keywords. */
  ghost predicate Untouched(m: VModel, pass: nat, i: nat, st: PState, doc: map<string, Value>, kw: map<string, Value>) {
    forall j :: 0 <= j < |m.decls| && Pending(m, pass, i, j) ==>
      AgreeAt(m.decls[j].name, st.data, doc) && AgreeAt(m.decls[j].name, st.kwargs, kw)
  }

  ghost predicate PendingResolve(m: VModel, pass: nat, i: nat, doc: map<string, Value>, kw: map<string, Value>) {
    forall j :: 0 <= j < |m.decls| && Pending(m, pass, i, j) ==> FieldOutcome(m, j, doc, kw).Ok?
  }

  /** Every field resolves against the document and keywords. */
  ghost predicate AllResolve(m: VModel, doc: map<string, Value>, kw: map<string, Value>) {
    forall j :: 0 <= j < |m.decls| ==> FieldOutcome(m, j, doc, kw).Ok?
  }

  /**
   * `st'` is `st` with every pending field's outcome stored under its name,
   * the pending keywords consumed and every other entry left alone.
   */
  ghost predicate Resolved(m: VModel, pass: nat, i: nat, st: PState, st': PState, doc: map<string, Value>, kw: map<string, Value>) {
    && (forall j :: 0 <= j < |m.decls| && Pending(m, pass, i, j) ==>
          Holds(st'.data, st'.slots, m.decls[j].name, FieldOutcome(m, j, doc, kw)))
    && (forall n :: n !in PendingNames(m, pass, i) ==>
          AgreeAt(n, st'.data, st.data) && AgreeAt(n, st'.slots, st.slots))
    && st'.kwargs == st.kwargs - PendingNames(m, pass, i)
  }

  /** The outcome of a field only depends on its own entries in the document and keywords. */
  lemma OutcomeLocal(m: VModel, i: nat, d1: map<string, Value>, k1: map<string, Value>, d2: map<string, Value>, k2: map<string, Value>)
    requires i < |m.decls|
    requires AgreeAt(m.decls[i].name, d1, d2) && AgreeAt(m.decls[i].name, k1, k2)
    ensures FieldOutcome(m, i, d1, k1) == FieldOutcome(m, i, d2, k2)
  {
    assert Pick(m, i, d1, k1) == Pick(m, i, d2, k2);
  }

  /** Moving past field `i` in loop `pass` retires it exactly when it belongs to that loop. */
  lemma PendingAdvance(m: VModel, pass: nat, i: nat)
    requires i < |m.decls|
    ensures forall j :: Pending(m, pass, i, j) <==>
      (j == i && Group(m.decls[i].field.kind) == pass) || Pending(m, pass, i + 1, j)
    ensures Group(m.decls[i].field.kind) != pass ==> PendingNames(m, pass, i) == PendingNames(m, pass, i + 1)
    ensures Group(m.decls[i].field.kind) == pass ==>
      PendingNames(m, pass, i) == PendingNames(m, pass, i + 1) + {m.decls[i].name}
  {
  }

  /** The end of one loop is the start of the next. */
  lemma PendingWrap(m: VModel, pass: nat)
    ensures forall j :: Pending(m, pass, |m.decls|, j) <==> Pending(m, pass + 1, 0, j)
    ensures PendingNames(m, pass, |m.decls|) == PendingNames(m, pass + 1, 0)
  {
  }

  /** Storing field `i`'s outcome keeps the other pending fields untouched. */
  lemma UntouchedAfterStep(m: VModel, pass: nat, i: nat, st: PState, o: Outcome, doc: map<string, Value>, kw: map<string, Value>)
    requires Distinct(m) && i < |m.decls| && Group(m.decls[i].field.kind) == pass
    requires Untouched(m, pass, i, st, doc, kw)
    ensures Untouched(m, pass, i + 1, Apply(st, m.decls[i].name, o), doc, kw)
  {
    PendingAdvance(m, pass, i);
    var st1 := Apply(st, m.decls[i].name, o);
    forall j | 0 <= j < |m.decls| && Pending(m, pass, i + 1, j)
      ensures AgreeAt(m.decls[j].name, st1.data, doc) && AgreeAt(m.decls[j].name, st1.kwargs, kw)
    {
      assert j != i;
      assert m.decls[j].name != m.decls[i].name;
    }
  }

  /** What holds after the rest of the loops from `st1` extends to field `i` itself. */
  lemma ResolvedAfterStep(m: VModel, pass: nat, i: nat, st: PState, st': PState, doc: map<string, Value>, kw: map<string, Value>)
    requires Distinct(m) && i < |m.decls| && Group(m.decls[i].field.kind) == pass
    requires FieldOutcome(m, i, doc, kw).Ok?
    requires Resolved(m, pass, i + 1, Apply(st, m.decls[i].name, FieldOutcome(m, i, doc, kw).value), st', doc, kw)
    ensures Resolved(m, pass, i, st, st', doc, kw)
  {
    var n := m.decls[i].name;
    var st1 := Apply(st, n, FieldOutcome(m, i, doc, kw).value);
    var later := PendingNames(m, pass, i + 1);
    PendingAdvance(m, pass, i);
    forall j | 0 <= j < |m.decls| && Pending(m, pass, i + 1, j) ensures m.decls[j].name != n {
      assert j != i;
    }
    assert n !in later;
    assert AgreeAt(n, st'.data, st1.data) && AgreeAt(n, st'.slots, st1.slots);
    assert Holds(st'.data, st'.slots, n, FieldOutcome(m, i, doc, kw));
    assert st'.kwargs == st.kwargs - PendingNames(m, pass, i) by {
      assert st'.kwargs == (st.kwargs - {n}) - later;
    }
  }

  /**
   * The loops resolve every pending field against the caller's document and
   * keywords: they succeed exactly when every pending field does, and then
   * store each outcome under its field's name, consume the pending keywords
   * and leave every other entry alone.
   */
  lemma {:induction false} ResolveSpec(m: VModel, pass: nat, i: nat, st: PState, doc: map<string, Value>, kw: map<string, Value>)
    requires Distinct(m) && i <= |m.decls|
    requires Untouched(m, pass, i, st, doc, kw)
    ensures Resolve(m, pass, i, st).Ok? <==> PendingResolve(m, pass, i, doc, kw)
    ensures Resolve(m, pass, i, st).Ok? ==> Resolved(m, pass, i, st, Resolve(m, pass, i, st).value, doc, kw)
    decreases 3 - pass, |m.decls| - i, 1
  {
    if pass >= 3 {
      assert PendingNames(m, pass, i) == {};
      assert st.kwargs - {} == st.kwargs;
    } else if i == |m.decls| {
      ResolveWrap(m, pass, st, doc, kw);
    } else if Group(m.decls[i].field.kind) != pass {
      ResolveSkip(m, pass, i, st, doc, kw);
    } else {
      ResolveStep(m, pass, i, st, doc, kw);
    }
  }

  /** The end of one loop hands over to the next. */
  lemma {:induction false} ResolveWrap(m: VModel, pass: nat, st: PState, doc: map<string, Value>, kw: map<string, Value>)
    requires Distinct(m) && pass < 3
    requires Untouched(m, pass, |m.decls|, st, doc, kw)
    ensures Resolve(m, pass, |m.decls|, st).Ok? <==> PendingResolve(m, pass, |m.decls|, doc, kw)
    ensures Resolve(m, pass, |m.decls|, st).Ok? ==>
      Resolved(m, pass, |m.decls|, st, Resolve(m, pass, |m.decls|, st).value, doc, kw)
    decreases 3 - pass, 0, 0
  {
    PendingWrap(m, pass);
    ResolveSpec(m, pass + 1, 0, st, doc, kw);
  }

  /** A field that belongs to another loop is passed over. */
  lemma {:induction false} ResolveSkip(m: VModel, pass: nat, i: nat, st: PState, doc: map<string, Value>, kw: map<string, Value>)
    requires Distinct(m) && pass < 3 && i < |m.decls| && Group(m.decls[i].field.kind) != pass
    requires Untouched(m, pass, i, st, doc, kw)
    ensures Resolve(m, pass, i, st).Ok? <==> PendingResolve(m, pass, i, doc, kw)
    ensures Resolve(m, pass, i, st).Ok? ==> Resolved(m, pass, i, st, Resolve(m, pass, i, st).value, doc, kw)
    decreases 3 - pass, |m.decls| - i, 0
  {
    PendingAdvance(m, pass, i);
    ResolveSpec(m, pass, i + 1, st, doc, kw);
  }

  /** A field of this loop is resolved and stored, then the loop goes on. */
  lemma {:induction false} ResolveStep(m: VModel, pass: nat, i: nat, st: PState, doc: map<string, Value>, kw: map<string, Value>)
    requires Distinct(m) && pass < 3 && i < |m.decls| && Group(m.decls[i].field.kind) == pass
    requires Untouched(m, pass, i, st, doc, kw)
    ensures Resolve(m, pass, i, st).Ok? <==> PendingResolve(m, pass, i, doc, kw)
    ensures Resolve(m, pass, i, st).Ok? ==> Resolved(m, pass, i, st, Resolve(m, pass, i, st).value, doc, kw)
    decreases 3 - pass, |m.decls| - i, 0
  {
    PendingAdvance(m, pass, i);
    assert Pending(m, pass, i, i);
    OutcomeLocal(m, i, st.data, st.kwargs, doc, kw);
    var o := FieldOutcome(m, i, doc, kw);
    if o.Ok? {
      var st1 := Apply(st, m.decls[i].name, o.value);
      assert Step(m, i, st) == Ok(st1);
      assert Resolve(m, pass, i, st) == Resolve(m, pass, i + 1, st1);
      assert PendingResolve(m, pass, i, doc, kw) <==> PendingResolve(m, pass, i + 1, doc, kw);
      UntouchedAfterStep(m, pass, i, st, o.value, doc, kw);
      ResolveSpec(m, pass, i + 1, st1, doc, kw);
      if Resolve(m, pass, i, st).Ok? {
        ResolvedAfterStep(m, pass, i, st, Resolve(m, pass, i + 1, st1).value, doc, kw);
      }
    } else {
      assert Step(m, i, st) == Err(o.error);
      assert Resolve(m, pass, i, st) == Err(o.error);
    }
  }

  /** Every field is pending before the first loop starts. */
  lemma AllPendingAtStart(m: VModel)
    ensures forall j :: 0 <= j < |m.decls| ==> Pending(m, 0, 0, j)
    ensures PendingNames(m, 0, 0) == Names(m)
  {
    forall n | n in Names(m) ensures n in PendingNames(m, 0, 0) {
      var d :| d in m.decls && d.name == n;
      var j :| 0 <= j < |m.decls| && m.decls[j] == d;
      assert Pending(m, 0, 0, j);
    }
  }

  /** The final keyword check passes exactly when every keyword names a field. */
  lemma LeftoverKeywords(kw: map<string, Value>, names: set<string>)
    ensures kw - names == map[] <==> kw.Keys <= names
    ensures (kw - names).Keys == kw.Keys - names
  {
    if !(kw.Keys <= names) {
      var k :| k in kw && k !in names;
      assert k in kw - names;
    }
  }

  /** After the loops, the document holds exactly the fields. */
  lemma DataKeysAreNames(m: VModel, doc: map<string, Value>, kw: map<string, Value>, st': PState)
    requires doc.Keys <= Names(m)
    requires Resolved(m, 0, 0, PState(doc, kw, map[]), st', doc, kw)
    ensures st'.data.Keys == Names(m)
  {
    AllPendingAtStart(m);
    forall n | n !in Names(m) ensures n !in st'.data {
      assert n !in PendingNames(m, 0, 0);
      assert AgreeAt(n, st'.data, doc);
    }
    forall n | n in Names(m) ensures n in st'.data {
      var j := Position(m, n).value;
      assert Pending(m, 0, 0, j);
      assert Holds(st'.data, st'.slots, n, FieldOutcome(m, j, doc, kw));
    }
  }

  /**
   * Construction from a dict `doc` and keywords `kw` succeeds exactly when
   * the document has no unknown key, every field resolves, and every
   * keyword names a field.  The instance's document then holds exactly one
   * entry per field, and every field's entry and slot hold its outcome
   * against the caller's document and keywords.  When the fields resolve
   * but a keyword names no field, the error lists the stray keywords.
   */
  lemma ConstructSpec(m: VModel, doc: map<string, Value>, kw: map<string, Value>)
    requires Distinct(m)
    ensures Construct(m, Some(Dict(doc)), kw).Ok? <==>
      doc.Keys <= Names(m) && AllResolve(m, doc, kw) && kw.Keys <= Names(m)
    ensures doc.Keys <= Names(m) && AllResolve(m, doc, kw) && !(kw.Keys <= Names(m)) ==>
      Construct(m, Some(Dict(doc)), kw) == Err(ValueError(UnexpectedKeys(kw.Keys - Names(m))))
    ensures Construct(m, Some(Dict(doc)), kw).Ok? ==>
      var r := Construct(m, Some(Dict(doc)), kw).value;
      && r.doc.Keys == Names(m)
      && forall j :: 0 <= j < |m.decls| ==> Holds(r.doc, r.attrs, m.decls[j].name, FieldOutcome(m, j, doc, kw))
  {
    if doc.Keys <= Names(m) {
      var st := PState(doc, kw, map[]);
      AllPendingAtStart(m);
      ResolveSpec(m, 0, 0, st, doc, kw);
      assert AllResolve(m, doc, kw) <==> PendingResolve(m, 0, 0, doc, kw);
      if Resolve(m, 0, 0, st).Ok? {
        ConstructAfterLoops(m, doc, kw);
      }
    }
  }

  /** Once the loops succeed, only the keyword check remains. */
  lemma ConstructAfterLoops(m: VModel, doc: map<string, Value>, kw: map<string, Value>)
    requires Distinct(m) && doc.Keys <= Names(m)
    requires Resolve(m, 0, 0, PState(doc, kw, map[])).Ok?
    requires Resolved(m, 0, 0, PState(doc, kw, map[]), Resolve(m, 0, 0, PState(doc, kw, map[])).value, doc, kw)
    ensures Construct(m, Some(Dict(doc)), kw).Ok? <==> kw.Keys <= Names(m)
    ensures !(kw.Keys <= Names(m)) ==> Construct(m, Some(Dict(doc)), kw) == Err(ValueError(UnexpectedKeys(kw.Keys - Names(m))))
    ensures Construct(m, Some(Dict(doc)), kw).Ok? ==>
      var r := Construct(m, Some(Dict(doc)), kw).value;
      var st' := Resolve(m, 0, 0, PState(doc, kw, map[])).value;
      r.doc == st'.data && r.attrs == st'.slots && r.doc.Keys == Names(m)
  {
    var st' := Resolve(m, 0, 0, PState(doc, kw, map[])).value;
    assert Construct(m, Some(Dict(doc)), kw) ==
      if st'.kwargs != map[] then Err(ValueError(UnexpectedKeys(st'.kwargs.Keys))) else Ok(Record(m.name, st'.data, st'.slots));
    AllPendingAtStart(m);
    assert st'.kwargs == kw - Names(m);
    LeftoverKeywords(kw, Names(m));
    DataKeysAreNames(m, doc, kw, st');
  }

  /**
   * A field absent from the keywords and the document and without a
   * `default` option fails construction, whatever else (a `factory`) its
   * options hold: proxy_model.py has no factory branch.
   */
  lemma MissingFieldFails(m: VModel, doc: map<string, Value>, kw: map<string, Value>, j: nat)
    requires Distinct(m) && j < |m.decls|
    requires m.decls[j].name !in doc && m.decls[j].name !in kw && "default" !in m.decls[j].field.metadata
    ensures FieldOutcome(m, j, doc, kw) == Err(ValueError(MissingKey(m.decls[j].name, m.name)))
    ensures Construct(m, Some(Dict(doc)), kw).Err?
  {
    assert Pick(m, j, doc, kw) == Err(ValueError(MissingKey(m.decls[j].name, m.name)));
    assert FieldOutcome(m, j, doc, kw).Err?;
    assert !AllResolve(m, doc, kw);
    ConstructSpec(m, doc, kw);
  }

  /** A keyword argument wins over the document, and the document over the `default` option. */
  lemma PickPriority(m: VModel, i: nat, doc: map<string, Value>, kw: map<string, Value>)
    requires i < |m.decls|
    ensures var n := m.decls[i].name;
      && (n in kw ==> FieldOutcome(m, i, doc, kw) == Produce(m, i, kw[n]))
      && (n !in kw && n in doc ==> FieldOutcome(m, i, doc, kw) == Produce(m, i, doc[n]))
      && (n !in kw && n !in doc && "default" in m.decls[i].field.metadata ==>
            FieldOutcome(m, i, doc, kw) == Produce(m, i, m.decls[i].field.metadata["default"]))
  {
  }

  /**
   * The slots and the document agree: every field's slot is its view, whose
   * `_data` the document holds, or the very value the document holds.
   */
  predicate Linked(m: VModel, data: map<string, Value>, slots: map<string, Value>) {
    && data.Keys == Names(m)
    && forall i :: 0 <= i < |m.decls| ==> LinkedAt(m, data, slots, i)
  }

  predicate LinkedAt(m: VModel, data: map<string, Value>, slots: map<string, Value>, i: nat)
    requires i < |m.decls|
  {
    var n := m.decls[i].name;
    && n in data && n in slots
    && (Group(m.decls[i].field.kind) < 2 ==> DataOf(slots[n]) == Some(data[n]))
    && (Group(m.decls[i].field.kind) == 2 ==> slots[n] == data[n])
  }

  /** A freshly constructed instance is linked. */
  lemma ConstructLinked(m: VModel, doc: map<string, Value>, kw: map<string, Value>)
    requires Distinct(m) && Construct(m, Some(Dict(doc)), kw).Ok?
    ensures var r := Construct(m, Some(Dict(doc)), kw).value; Linked(m, r.doc, r.attrs)
  {
    ConstructSpec(m, doc, kw);
    var r := Construct(m, Some(Dict(doc)), kw).value;
    forall i | 0 <= i < |m.decls|
      ensures Group(m.decls[i].field.kind) < 2 ==> DataOf(r.attrs[m.decls[i].name]) == Some(r.doc[m.decls[i].name])
      ensures Group(m.decls[i].field.kind) == 2 ==> r.attrs[m.decls[i].name] == r.doc[m.decls[i].name]
    {
      assert Holds(r.doc, r.attrs, m.decls[i].name, FieldOutcome(m, i, doc, kw));
      var x := Pick(m, i, doc, kw).value;
      assert FieldOutcome(m, i, doc, kw) == Produce(m, i, x);
    }
  }

  // ------------------------------------------------------------ list proxies

  /** Casting element by element: on success every element's cast, in order. */
  lemma {:induction false} CastAllElementwise(f: VField, xs: seq<Value>)
    ensures CastAll(f, xs).Ok? <==> forall i :: 0 <= i < |xs| ==> Cast(f, xs[i]).Ok?
    ensures CastAll(f, xs).Ok? ==> forall i :: 0 <= i < |xs| ==> Cast(f, xs[i]) == Ok(CastAll(f, xs).value[i])
  {
    if xs != [] {
      CastAllElementwise(f, xs[1..]);
      assert forall i :: 1 <= i < |xs| ==> xs[i] == xs[1..][i - 1];
    }
  }

  /**
   * A proxy over compound or list elements built from a list is the list
   * proxy of the Proxies module with this element cast: `_view` holds every
   * element's cast and `_data` the list, each raw element settled into its
   * view's `_data`.
   */
  lemma ProxyIsListProxy(child: VField, items: seq<Value>)
    requires child.kind.CompoundV? || child.kind.ListV?
    ensures var p := Proxy(child, List(items)); var s := Proxies.Create(v => Cast(child, v), items);
      && (p.Ok? <==> s.Ok?)
      && (p.Ok? ==> p.value == ListView(List(s.value.data), s.value.view))
  {
    CastAllElementwise(child, items);
    Proxies.CastEachElementwise(v => Cast(child, v), items);
    var cast := v => Cast(child, v);
    if CastAll(child, items).Ok? {
      assert CastAll(child, items).value == Proxies.CastEach(cast, items).value;
    }
  }

  /**
   * A proxy over scalars built from a list casts every element and keeps
   * the casts, in order, as its `_data`; it fails exactly when some element
   * does not cast.
   */
  lemma ScalarProxyOfList(child: VField, items: seq<Value>)
    requires !(child.kind.CompoundV? || child.kind.ListV?)
    ensures var p := Proxy(child, List(items));
      && (p.Ok? <==> forall i :: 0 <= i < |items| ==> Cast(child, items[i]).Ok?)
      && (p.Ok? ==> p.value.ScalarListView? && p.value.data.List? && |p.value.data.items| == |items|)
      && (p.Ok? ==> forall i :: 0 <= i < |items| ==> Cast(child, items[i]) == Ok(p.value.data.items[i]))
  {
    CastAllElementwise(child, items);
  }

  /**
   * A proxy over scalars handed a non-empty object that is not a list
   * fails: with the first element's cast error, else RuntimeError for a
   * dict and TypeError for anything else.
   */
  lemma ScalarProxyRejectsNonList(child: VField, data: Value)
    requires !(child.kind.CompoundV? || child.kind.ListV?) && !data.List?
    requires Iterate(data).Ok? && Iterate(data).value != []
    ensures var first := Cast(child, Iterate(data).value[0]);
      && (first.Err? ==> Proxy(child, data) == Err(first.error))
      && (first.Ok? && data.Dict? ==> Proxy(child, data) == Err(RuntimeError))
      && (first.Ok? && !data.Dict? ==> Proxy(child, data) == Err(TypeError))
  {
  }

  /**
   * `ListProxy(data)` over scalars applied to a list (lines 136-139): the
   * caller's list is overwritten slot by slot with the casts, so when an
   * element does not cast the elements before it have already been
   * replaced and those after it are untouched.  On success the proxy is
   * represented by a Multivalued.TypedList over the cast elements, whose
   * methods stand in for the proxy's `append`, `extend`, `insert`, item and
   * slice assignment and `+=` (lines 141-161): each casts every element it
   * stores with the same cast.
   */
  method WrapScalars(cast: Value -> Result<Value>, a: array<Value>) returns (p: Multivalued.TypedList?, err: Option<Error>)
    modifies a
    ensures var n := Multivalued.CastLead(cast, old(a[..]));
      && a[..n] == Multivalued.Casts(cast, old(a[..]), n)
      && a[n..] == old(a[..])[n..]
      && (n == a.Length ==> err.None? && p != null && fresh(p) && p.cast == cast && p.items == a[..])
      && (n < a.Length ==> p == null && err == Some(cast(old(a[..])[n]).error))
  {
    ghost var xs := a[..];
    ghost var n := Multivalued.CastLead(cast, xs);
    var k := 0;
    while k < a.Length
      invariant k <= n
      invariant a[..k] == Multivalued.Casts(cast, xs, k)
      invariant a[k..] == xs[k..]
    {
      var c := cast(a[k]);
      assert a[k] == xs[k];
      if c.Err? {
        assert k == n;
        return null, Some(c.error);
      }
      a[k] := c.value;
      assert a[..k + 1] == a[..k] + [c.value];
      k := k + 1;
    }
    p := new Multivalued.TypedList.Init(cast, a[..]);
    err := None;
  }

  // ---------------------------------------------------------------- registry

  /** The field classes that define `assign`: Integer and String (lines 29-31, 45-47). */
  predicate HasAssign(k: VKind) {
    k.IntegerV? || k.StringV?
  }

  /**
   * The registry loop as written (lines 203-220): line 208 reads
   * `field.assign` for every field, and only Integer and String define it,
   * so any other field makes `model()` raise AttributeError at that point.
   */
  function CompileAsWritten(m: VModel): Result<map<string, VField>> {
    CompileAsWrittenFrom(m, 0)
  }

  function CompileAsWrittenFrom(m: VModel, i: nat): Result<map<string, VField>>
    requires i <= |m.decls|
    decreases |m.decls| - i
  {
    if i == |m.decls| then Ok(map[])
    else if !HasAssign(m.decls[i].field.kind) then Err(AttributeError)
    else
      var here :- Contribution(ProxyEngine, m, i);
      var rest :- CompileAsWrittenFrom(m, i + 1);
      Ok(here + rest)
  }

  /** A model with any field other than Integer and String cannot be declared as written. */
  lemma CompileAsWrittenRejects(m: VModel, i: nat)
    requires i < |m.decls| && !HasAssign(m.decls[i].field.kind)
    ensures CompileAsWritten(m) == Err(AttributeError)
  {
    CompileFromRejects(m, 0, i);
  }

  lemma {:induction false} CompileFromRejects(m: VModel, j: nat, i: nat)
    requires j <= i < |m.decls| && !HasAssign(m.decls[i].field.kind)
    ensures CompileAsWrittenFrom(m, j) == Err(AttributeError)
    decreases i - j
  {
    if HasAssign(m.decls[j].field.kind) {
      CompileFromRejects(m, j + 1, i);
    }
  }

  /** Where every field has `assign`, the written loop registers the paths `Flat` describes. */
  lemma CompileAsWrittenAgrees(m: VModel)
    requires forall i :: 0 <= i < |m.decls| ==> HasAssign(m.decls[i].field.kind)
    ensures CompileAsWritten(m) == Flat(ProxyEngine, m)
  {
    CompileFromAgrees(m, 0);
  }

  lemma {:induction false} CompileFromAgrees(m: VModel, j: nat)
    requires j <= |m.decls|
    requires forall i :: 0 <= i < |m.decls| ==> HasAssign(m.decls[i].field.kind)
    ensures CompileAsWrittenFrom(m, j) == FlatFrom(ProxyEngine, m, j)
    decreases |m.decls| - j
  {
    if j < |m.decls| {
      CompileFromAgrees(m, j + 1);
    }
  }

  /**
   * The registry with line 208 corrected to record `assign` only for the
   * fields that define it: the names that may be assigned.
   */
  function Assignable(m: VModel): (s: set<string>)
    ensures forall i :: 0 <= i < |m.decls| && HasAssign(m.decls[i].field.kind) ==> m.decls[i].name in s
    ensures s <= Names(m)
  {
    set d | d in m.decls && HasAssign(d.field.kind) :: d.name
  }

  // ------------------------------------------------------------ instances

  /**
   * `instance.key = value` (lines 320-321) with the corrected registry:
   * Integer stores `int(value)` and String `str(value)` in the slot (lines
   * 29-31, 45-47); the document is not touched.  A name without `assign`
   * (not a field, or a field of another class) is missing from the
   * `assign` dict: KeyError.
   */
  function AssignStep(m: VModel, slots: map<string, Value>, key: string, v: Value): (r: Assigned)
  {
    match Position(m, key)
    case None => Assigned(slots, Some(KeyError))
    case Some(i) =>
      match m.decls[i].field.kind
      case IntegerV =>
        (match Basic.IntegerCast(v)
         case Err(e) => Assigned(slots, Some(e))
         case Ok(c) => Assigned(slots[key := c], None))
      case StringV => Assigned(slots[key := Str(Basic.StrOf(v))], None)
      case _ => Assigned(slots, Some(KeyError))
  }

  /**
   * `instance[name]` (lines 323-327): the attribute, the document for
   * `_data`; a name with no slot set raises AttributeError, reported as
   * KeyError.
   */
  function ItemOf(data: map<string, Value>, slots: map<string, Value>, name: string): (r: Result<Value>)
    ensures name == "_data" ==> r == Ok(Dict(data))
    ensures name != "_data" ==> (r.Ok? <==> name in slots)
    ensures name != "_data" && name in slots ==> r == Ok(slots[name])
    ensures r.Err? ==> r.error == KeyError
  {
    if name == "_data" then Ok(Dict(data))
    else if name in slots then Ok(slots[name])
    else Err(KeyError)
  }

  class ProxyInstance {
    const m: VModel
    var data: map<string, Value>
    var slots: map<string, Value>

    /** The instance as a value, as a compound field sees it. */
    function AsRecord(): (r: Value)
      reads this
      ensures r.Record? && r.model == m.name && r.doc == data && r.attrs == slots
    {
      Record(m.name, data, slots)
    }

    constructor Init(m: VModel, data: map<string, Value>, slots: map<string, Value>)
      ensures this.m == m && this.data == data && this.slots == slots
    {
      this.m := m;
      this.data := data;
      this.slots := slots;
    }

    /**
     * `ModelClass(*args, **kwargs)` (lines 269-318): the argument checks,
     * then the compound, list and basic loops, then the leftover-keyword
     * check.  The outcome is `Construct`'s.
     */
    static method New(m: VModel, arg: Option<Value>, kwargs: map<string, Value>) returns (inst: ProxyInstance?, err: Option<Error>)
      ensures err.None? <==> Construct(m, arg, kwargs).Ok?
      ensures err.Some? ==> inst == null && Construct(m, arg, kwargs) == Err(err.value)
      ensures err.None? ==> inst != null && fresh(inst) && inst.m == m && inst.AsRecord() == Construct(m, arg, kwargs).value
    {
      var doc := if arg.None? then Dict(map[]) else arg.value;
      if !doc.Dict? {
        return null, Some(ValueError(NotADict));
      }
      if !(doc.entries.Keys <= Names(m)) {
        return null, Some(ValueError(UnexpectedKeys(doc.entries.Keys - Names(m))));
      }
      var st := PState(doc.entries, kwargs, map[]);
      ghost var start := st;
      var pass := 0;
      while pass < 3
        invariant pass <= 3
        invariant Resolve(m, 0, 0, start) == Resolve(m, pass, 0, st)
      {
        var i := 0;
        while i < |m.decls|
          invariant i <= |m.decls|
          invariant Resolve(m, 0, 0, start) == Resolve(m, pass, i, st)
        {
          if Group(m.decls[i].field.kind) == pass {
            var o := FieldOutcome(m, i, st.data, st.kwargs);
            if o.Err? {
              return null, Some(o.error);
            }
            st := Apply(st, m.decls[i].name, o.value);
          }
          i := i + 1;
        }
        pass := pass + 1;
      }
      if st.kwargs != map[] {
        return null, Some(ValueError(UnexpectedKeys(st.kwargs.Keys)));
      }
      inst := new ProxyInstance.Init(m, st.data, st.slots);
      err := None;
    }

    /** Attribute assignment: the slot changes, the document never does. */
    method SetAttr(key: string, v: Value) returns (err: Option<Error>)
      modifies this
      ensures data == old(data)
      ensures Assigned(slots, err) == AssignStep(m, old(slots), key, v)
    {
      var i := Position(m, key);
      if i.None? {
        return Some(KeyError);
      }
      var k := m.decls[i.value].field.kind;
      if k.IntegerV? {
        var c := Basic.IntegerCast(v);
        if c.Err? {
          return Some(c.error);
        }
        slots := slots[key := c.value];
        return None;
      }
      if k.StringV? {
        slots := slots[key := Str(Basic.StrOf(v))];
        return None;
      }
      err := Some(KeyError);
    }

    function GetItem(name: string): (r: Result<Value>)
      reads this
      ensures r == ItemOf(data, slots, name)
    {
      ItemOf(data, slots, name)
    }

    /** `instance[name] = value`: an assignment whose AttributeError is reported as KeyError. */
    method SetItem(name: string, v: Value) returns (err: Option<Error>)
      modifies this
      ensures data == old(data)
      ensures slots == AssignStep(m, old(slots), name, v).slots
      ensures err == AsKeyError(AssignStep(m, old(slots), name, v).raised)
    {
      err := SetAttr(name, v);
      err := AsKeyError(err);
    }

    /** `to_dict()` (lines 335-336): the document itself. */
    function ToDict(): (r: Value)
      reads this
      ensures r == Dict(data)
    {
      Dict(data)
    }
  }

  // ------------------------------------------------------ instance lemmas

  /**
   * Assigning an Integer field stores `int(value)` in its slot, or raises
   * and changes nothing; a String field always stores `str(value)`; any
   * other field, and any other name, raises KeyError and changes nothing.
   */
  lemma AssignSpec(m: VModel, slots: map<string, Value>, i: nat, v: Value)
    requires Distinct(m) && i < |m.decls|
    ensures var n := m.decls[i].name; var r := AssignStep(m, slots, n, v); var k := m.decls[i].field.kind;
      && (k.IntegerV? && Basic.IntegerCast(v).Ok? ==> r == Assigned(slots[n := Basic.IntegerCast(v).value], None))
      && (k.IntegerV? && Basic.IntegerCast(v).Err? ==> r == Assigned(slots, Some(Basic.IntegerCast(v).error)))
      && (k.StringV? ==> r == Assigned(slots[n := Str(Basic.StrOf(v))], None))
      && (!HasAssign(k) ==> r == Assigned(slots, Some(KeyError)))
  {
    DistinctPosition(m, i);
  }

  /** Only the assignable names can change a slot; a successful assignment writes exactly that slot. */
  lemma AssignOnlyAssignable(m: VModel, slots: map<string, Value>, key: string, v: Value)
    ensures var r := AssignStep(m, slots, key, v);
      && (key !in Assignable(m) ==> r == Assigned(slots, Some(KeyError)))
      && (r.raised.None? ==> key in Assignable(m) && key in r.slots && r.slots == slots[key := r.slots[key]])
      && (r.raised.Some? ==> r.slots == slots)
  {
    var p := Position(m, key);
    if p.Some? {
      assert m.decls[p.value] in m.decls;
    }
  }

  /**
   * Assignment leaves the document behind: once an Integer field of a
   * linked instance is assigned a value other than its entry, the
   * attribute and `to_dict()` disagree.
   */
  lemma AssignDrifts(m: VModel, data: map<string, Value>, slots: map<string, Value>, i: nat, k: int)
    requires Distinct(m) && i < |m.decls| && m.decls[i].field.kind.IntegerV? && Linked(m, data, slots)
    requires data[m.decls[i].name] != Int(k)
    ensures var n := m.decls[i].name; var r := AssignStep(m, slots, n, Int(k));
      && r.raised.None?
      && n in r.slots && r.slots[n] == Int(k)
      && ItemOf(data, r.slots, "_data") == Ok(Dict(data))
      && !Linked(m, data, r.slots)
  {
    DistinctPosition(m, i);
    var n := m.decls[i].name;
    var r := AssignStep(m, slots, n, Int(k));
    assert r.slots[n] == Int(k);
    assert LinkedAt(m, data, slots, i);
    assert !LinkedAt(m, data, r.slots, i);
  }
}
