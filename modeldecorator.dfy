/**
 * The `model()` class decorator of model_decorator.py: the registry it
 * builds from a class body (lines 49-65), the instances of the generated
 * class with their raw document `_data` and their cache of typed views
 * `_compounds` (lines 111-168), the attribute accessors (lines 78-109) and
 * `raw` (lines 23-24).  What a field does to a value, and the construction
 * protocol as a function, are in the Casting module; here that protocol is
 * run as the three loops of `__init__` and proved to agree with it.
 */
module ModelDecorator {
  import opened Values
  import opened Schema
  import opened Casting

  // -------------------------------------------------------------- registry

  /**
   * What `model()` records about a class body: every field, named and given
   * the model's options; the flattened paths; and the split of the field
   * names into compounds, proxy lists and the rest.
   */
  datatype Registry = Registry(fields: map<string, FieldSpec>, flat: map<string, FieldSpec>,
                               compounds: set<string>, lists: set<string>, basic: set<string>)

  /** The names of the fields among `ds` handled by loop `g` of `__init__`. */
  function Filed(ds: seq<FieldDecl>, g: nat): (s: set<string>)
    ensures forall d :: d in ds && Group(d.spec.kind) == g ==> d.name in s
    ensures forall n :: n in s ==> exists d :: d in ds && d.name == n
  {
    set d | d in ds && Group(d.spec.kind) == g :: d.name
  }

  /** The names of a model's fields handled by loop `g`. */
  function NamesIn(m: Model, g: nat): (s: set<string>)
    ensures s <= Names(m)
  {
    Filed(m.decls, g)
  }

  lemma FiledSnoc(ds: seq<FieldDecl>, d: FieldDecl)
    ensures forall g :: Filed(ds + [d], g) == Filed(ds, g) + (if Group(d.spec.kind) == g then {d.name} else {})
  {
    forall g ensures Filed(ds + [d], g) == Filed(ds, g) + (if Group(d.spec.kind) == g then {d.name} else {}) {
      forall n | n in Filed(ds + [d], g) ensures n in Filed(ds, g) + (if Group(d.spec.kind) == g then {d.name} else {}) {
        var e :| e in ds + [d] && Group(e.spec.kind) == g && e.name == n;
        if e != d { assert e in ds; }
      }
    }
  }

  /** The paths collected so far followed by the paths still to come, or the first error among the latter. */
  function Join(acc: map<string, FieldSpec>, rest: Result<map<string, FieldSpec>>): (r: Result<map<string, FieldSpec>>)
    ensures r.Ok? <==> rest.Ok?
  {
    match rest
    case Ok(more) => Ok(acc + more)
    case Err(e) => Err(e)
  }

  lemma FlatFromEnd(m: Model, acc: map<string, FieldSpec>)
    ensures Join(acc, FlatFrom(m, |m.decls|)) == Ok(acc)
  {
    assert acc + map[] == acc;
  }

  lemma FlatFromFails(m: Model, i: nat, acc: map<string, FieldSpec>)
    requires i < |m.decls| && Contribution(m, i).Err?
    ensures Join(acc, FlatFrom(m, i)) == Err(Contribution(m, i).error)
  {
  }

  lemma FlatFromUnfold(m: Model, i: nat, acc: map<string, FieldSpec>)
    requires i < |m.decls| && Contribution(m, i).Ok?
    ensures Join(acc, FlatFrom(m, i)) == Join(acc + Contribution(m, i).value, FlatFrom(m, i + 1))
  {
    var here := Contribution(m, i).value;
    if FlatFrom(m, i + 1).Ok? {
      var rest := FlatFrom(m, i + 1).value;
      assert acc + (here + rest) == (acc + here) + rest;
    }
  }

  /**
   * The registry loop of `model()` (model_decorator.py lines 49-65): each
   * field is named and bound to the model's options, filed under its loop,
   * and its paths added to the flattened registry.  The flattened registry
   * is exactly `Flat(m)`; building it fails exactly when `Flat(m)` does,
   * with the same error.
   */
  method Compile(m: Model) returns (r: Result<Registry>)
    requires Distinct(m)
    ensures r.Ok? <==> Flat(m).Ok?
    ensures r.Err? ==> Flat(m) == Err(r.error)
    ensures r.Ok? ==> r.value.flat == Flat(m).value
    ensures r.Ok? ==> r.value.fields.Keys == Names(m)
    ensures r.Ok? ==> forall i :: 0 <= i < |m.decls| ==> r.value.fields[m.decls[i].name] == Named(m.decls[i], m)
    ensures r.Ok? ==> r.value.compounds == NamesIn(m, 0) && r.value.lists == NamesIn(m, 1) && r.value.basic == NamesIn(m, 2)
  {
    var reg := Registry(map[], map[], {}, {}, {});
    var i := 0;
    assert Flat(m).Ok? ==> map[] + Flat(m).value == Flat(m).value;
    while i < |m.decls|
      invariant i <= |m.decls|
      invariant Join(reg.flat, FlatFrom(m, i)) == Flat(m)
      invariant Filing(m, i, reg)
    {
      var here := Contribution(m, i);
      if here.Err? {
        FlatFromFails(m, i, reg.flat);
        return Err(here.error);
      }
      FlatFromUnfold(m, i, reg.flat);
      FileStep(m, i, reg);
      reg := File(m, i, reg);
      reg := reg.(flat := reg.flat + here.value);
      i := i + 1;
    }
    FiledAll(m, reg);
    FlatFromEnd(m, reg.flat);
    return Ok(reg);
  }

  /** Once every field is filed, the registry holds each field under its name and each name in its loop's set. */
  lemma FiledAll(m: Model, reg: Registry)
    requires Filing(m, |m.decls|, reg)
    ensures reg.fields.Keys == Names(m)
    ensures forall i :: 0 <= i < |m.decls| ==> reg.fields[m.decls[i].name] == Named(m.decls[i], m)
    ensures reg.compounds == NamesIn(m, 0) && reg.lists == NamesIn(m, 1) && reg.basic == NamesIn(m, 2)
  {
    assert m.decls[..|m.decls|] == m.decls;
  }

  /** The registry's field map and name sets cover exactly the first `i` fields. */
  predicate Filing(m: Model, i: nat, reg: Registry)
    requires i <= |m.decls|
  {
    FieldsFiled(m, i, reg.fields) && GroupsFiled(m.decls[..i], reg)
  }

  predicate FieldsFiled(m: Model, i: nat, fields: map<string, FieldSpec>)
    requires i <= |m.decls|
  {
    && fields.Keys == (set d | d in m.decls[..i] :: d.name)
    && forall j :: 0 <= j < i ==> m.decls[j].name in fields && fields[m.decls[j].name] == Named(m.decls[j], m)
  }

  predicate GroupsFiled(ds: seq<FieldDecl>, reg: Registry) {
    reg.compounds == Filed(ds, 0) && reg.lists == Filed(ds, 1) && reg.basic == Filed(ds, 2)
  }

  /** Field `i` recorded under its name and filed under its loop. */
  function File(m: Model, i: nat, reg: Registry): (r: Registry)
    requires i < |m.decls|
    ensures r.flat == reg.flat
  {
    var d := m.decls[i];
    var g := Group(d.spec.kind);
    reg.(fields := reg.fields[d.name := Named(d, m)],
         compounds := if g == 0 then reg.compounds + {d.name} else reg.compounds,
         lists := if g == 1 then reg.lists + {d.name} else reg.lists,
         basic := if g == 2 then reg.basic + {d.name} else reg.basic)
  }

  lemma FileStep(m: Model, i: nat, reg: Registry)
    requires Distinct(m) && i < |m.decls| && Filing(m, i, reg)
    ensures Filing(m, i + 1, File(m, i, reg))
  {
    var d := m.decls[i];
    assert m.decls[..i + 1] == m.decls[..i] + [d];
    FieldsStep(m, i, reg.fields);
    GroupsStep(m.decls[..i], d, reg, File(m, i, reg));
  }

  lemma FieldsStep(m: Model, i: nat, fields: map<string, FieldSpec>)
    requires Distinct(m) && i < |m.decls| && FieldsFiled(m, i, fields)
    ensures FieldsFiled(m, i + 1, fields[m.decls[i].name := Named(m.decls[i], m)])
  {
    var d := m.decls[i];
    assert m.decls[..i + 1] == m.decls[..i] + [d];
    assert forall x :: x in m.decls[..i] + [d] <==> x in m.decls[..i] || x == d;
    forall j | 0 <= j < i ensures m.decls[j].name != d.name {
    }
  }

  lemma GroupsStep(ds: seq<FieldDecl>, d: FieldDecl, reg: Registry, r: Registry)
    requires GroupsFiled(ds, reg)
    requires r.compounds == (if Group(d.spec.kind) == 0 then reg.compounds + {d.name} else reg.compounds)
    requires r.lists == (if Group(d.spec.kind) == 1 then reg.lists + {d.name} else reg.lists)
    requires r.basic == (if Group(d.spec.kind) == 2 then reg.basic + {d.name} else reg.basic)
    ensures GroupsFiled(ds + [d], r)
  {
    FiledSnoc(ds, d);
  }

  // ------------------------------------------------------------- instances

  /** The two slots of an instance: the raw document and the cached views. */
  datatype Slots = Slots(data: map<string, Value>, compounds: map<string, Value>)

  /** Slots after an attribute assignment, and the exception it raised, if any. */
  datatype Assigned = Assigned(slots: Slots, raised: Option<Error>)

  /**
   * The instance invariant: the document has one entry per field, and every
   * compound or proxy-list field has a cached view whose `_data` is the
   * document's entry.
   */
  predicate Linked(m: Model, s: Slots) {
    && s.data.Keys == Names(m)
    && forall i :: 0 <= i < |m.decls| && Group(m.decls[i].spec.kind) < 2 ==>
         m.decls[i].name in s.compounds && DataOf(s.compounds[m.decls[i].name]) == Some(s.data[m.decls[i].name])
  }

  /**
   * Reading attribute `n` (model_decorator.py lines 80-81, 92-93 and
   * 104-105): a compound or proxy list answers from `_compounds`, any other
   * field from `_data`; a name that is not a field has no such attribute.
   */
  function Attr(m: Model, s: Slots, n: string): (r: Result<Value>)
    ensures Position(m, n).None? ==> r == Err(AttributeError)
  {
    match Position(m, n)
    case None => Err(AttributeError)
    case Some(i) =>
      if Group(m.decls[i].spec.kind) < 2 then
        if n in s.compounds then Ok(s.compounds[n]) else Err(KeyError)
      else
        if n in s.data then Ok(s.data[n]) else Err(KeyError)
  }

  /**
   * Assigning attribute `n` (model_decorator.py lines 83-84, 95-97 and
   * 107-109).  A plain field stores `cast(value)` in `_data`.  A compound or
   * proxy list caches the cast view in `_compounds` first and then stores
   * the view's `_data` in the document.  A name that is not a field cannot
   * be assigned: the class has only the two slots.
   */
  function AssignStep(m: Model, s: Slots, n: string, v: Value): (r: Assigned)
  {
    match Position(m, n)
    case None => Assigned(s, Some(AttributeError))
    case Some(i) =>
      var f := m.decls[i].spec;
      match Cast(f, v)
      case Err(e) => Assigned(s, Some(e))
      case Ok(c) =>
        if Group(f.kind) == 2 then Assigned(Slots(s.data[n := c], s.compounds), None)
        else
          var cached := s.compounds[n := c];
          match DataOf(c)
          case Some(d) => Assigned(Slots(s.data[n := d], cached), None)
          case None => Assigned(Slots(s.data, cached), Some(AttributeError))
  }

  /** `raw(obj)` (lines 23-24): the instance's document. */
  function RawOf(s: Slots): (r: Value)
    ensures r.Dict? && r.entries == s.data
  {
    Dict(s.data)
  }

  /** An instance of a model class. */
  class Instance {
    const m: Model
    var data: map<string, Value>
    var compounds: map<string, Value>

    function Current(): Slots
      reads this
    {
      Slots(data, compounds)
    }

    /** The instance as a value, as a compound field sees it. */
    function AsRecord(): (r: Value)
      reads this
      ensures r.Record? && r.model == m.name && r.doc == data && r.attrs == compounds
    {
      Record(m.name, data, compounds)
    }

    constructor Init(m: Model, data: map<string, Value>, compounds: map<string, Value>)
      ensures this.m == m && this.data == data && this.compounds == compounds
    {
      this.m := m;
      this.data := data;
      this.compounds := compounds;
    }

    /**
     * `ModelClass(*args, **kwargs)` (model_decorator.py lines 114-168): the
     * argument checks, then the compound, proxy-list and basic loops, then
     * the leftover-keyword check.  The outcome is `Construct`'s.
     */
    static method New(m: Model, arg: Option<Value>, kwargs: map<string, Value>) returns (inst: Instance?, err: Option<Error>)
      ensures err.None? <==> Construct(m, arg, kwargs).Ok?
      ensures err.Some? ==> inst == null && Construct(m, arg, kwargs) == Err(err.value)
      ensures err.None? ==> inst != null && fresh(inst) && inst.m == m && inst.AsRecord() == Construct(m, arg, kwargs).value
    {
      var doc := if arg.None? then Dict(map[]) else arg.value;
      if !doc.Dict? {
        return null, Some(ValueError(NotADict));
      }
      if !(doc.entries.Keys <= Names(m)) {
        return null, Some(ValueError(UnexpectedKeys(doc.entries.Keys - Names(m))));
      }
      var st := State(doc.entries, kwargs, map[]);
      ghost var start := st;
      var pass := 0;
      while pass < 3
        invariant pass <= 3
        invariant Resolve(m, 0, 0, start) == Resolve(m, pass, 0, st)
      {
        var i := 0;
        while i < |m.decls|
          invariant i <= |m.decls|
          invariant Resolve(m, 0, 0, start) == Resolve(m, pass, i, st)
        {
          if Group(m.decls[i].spec.kind) == pass {
            var o := FieldOutcome(m, i, st.data, st.kwargs);
            if o.Err? {
              return null, Some(o.error);
            }
            st := Apply(st, m.decls[i].name, o.value);
          }
          i := i + 1;
        }
        pass := pass + 1;
      }
      if st.kwargs != map[] {
        return null, Some(ValueError(UnexpectedKeys(st.kwargs.Keys)));
      }
      inst := new Instance.Init(m, st.data, st.compounds);
      err := None;
    }

    /** Reading a field attribute. */
    function Get(n: string): (r: Result<Value>)
      reads this
      ensures r == Attr(m, Current(), n)
    {
      Attr(m, Current(), n)
    }

    /** Assigning a field attribute; a failed cast leaves the slots as they were. */
    method Set(n: string, v: Value) returns (err: Option<Error>)
      modifies this
      ensures Assigned(Current(), err) == AssignStep(m, old(Current()), n, v)
    {
      var i := Position(m, n);
      if i.None? {
        return Some(AttributeError);
      }
      var f := m.decls[i.value].spec;
      var c := Cast(f, v);
      if c.Err? {
        return Some(c.error);
      }
      if Group(f.kind) == 2 {
        data := data[n := c.value];
        return None;
      }
      compounds := compounds[n := c.value];
      var d := DataOf(c.value);
      if d.None? {
        return Some(AttributeError);
      }
      data := data[n := d.value];
      err := None;
    }

    /** `raw(obj)`. */
    function Raw(): (r: Value)
      reads this
      ensures r == RawOf(Current())
    {
      Dict(data)
    }
  }

  // ---------------------------------------------------------------- lemmas

  /** A compound or proxy-list field's outcome is a view whose `_data` is what the document stores. */
  lemma OutcomeIsLinked(m: Model, i: nat, doc: map<string, Value>, kw: map<string, Value>)
    requires i < |m.decls| && FieldOutcome(m, i, doc, kw).Ok?
    ensures var o := FieldOutcome(m, i, doc, kw).value;
      Group(m.decls[i].spec.kind) < 2 ==> o.view.Some? && DataOf(o.view.value) == Some(o.raw)
  {
    var x := Supply(Pick(m, i, doc, kw).value).value;
    assert FieldOutcome(m, i, doc, kw) == Produce(m, i, x);
  }

  /** A freshly constructed instance is linked: every view's `_data` is the document's entry. */
  lemma ConstructLinked(m: Model, doc: map<string, Value>, kw: map<string, Value>)
    requires Distinct(m) && Construct(m, Some(Dict(doc)), kw).Ok?
    ensures var r := Construct(m, Some(Dict(doc)), kw).value; Linked(m, Slots(r.doc, r.attrs))
  {
    ConstructSpec(m, doc, kw);
    var r := Construct(m, Some(Dict(doc)), kw).value;
    forall i | 0 <= i < |m.decls| && Group(m.decls[i].spec.kind) < 2
      ensures m.decls[i].name in r.attrs && DataOf(r.attrs[m.decls[i].name]) == Some(r.doc[m.decls[i].name])
    {
      assert Stored(State(r.doc, map[], r.attrs), m.decls[i].name, FieldOutcome(m, i, doc, kw));
      OutcomeIsLinked(m, i, doc, kw);
    }
  }

  /** The cast of a compound or proxy-list field always yields a view with a `_data`. */
  lemma ViewCastHasData(f: FieldSpec, v: Value)
    requires Group(f.kind) < 2 && Cast(f, v).Ok?
    ensures DataOf(Cast(f, v).value).Some?
  {
  }

  /**
   * Assigning a plain field stores `cast(value)` and nothing else; a failing
   * cast raises its error and changes nothing (model_decorator.py lines
   * 83-84).
   */
  lemma AssignPlainSpec(m: Model, s: Slots, i: nat, v: Value)
    requires Distinct(m) && i < |m.decls| && Group(m.decls[i].spec.kind) == 2
    ensures var n := m.decls[i].name; var r := AssignStep(m, s, n, v); var c := Cast(m.decls[i].spec, v);
      && (c.Ok? ==> r == Assigned(Slots(s.data[n := c.value], s.compounds), None))
      && (c.Err? ==> r == Assigned(s, Some(c.error)))
  {
    DistinctPosition(m, i);
  }

  /**
   * Assigning a compound or proxy-list field caches the cast view and
   * relinks the document to the view's `_data` (lines 95-97, 107-109); a
   * failing cast changes nothing.
   */
  lemma AssignViewSpec(m: Model, s: Slots, i: nat, v: Value)
    requires Distinct(m) && i < |m.decls| && Group(m.decls[i].spec.kind) < 2
    ensures var n := m.decls[i].name; var r := AssignStep(m, s, n, v); var c := Cast(m.decls[i].spec, v);
      && (c.Ok? ==> DataOf(c.value).Some?)
      && (c.Ok? ==> r == Assigned(Slots(s.data[n := DataOf(c.value).value], s.compounds[n := c.value]), None))
      && (c.Err? ==> r == Assigned(s, Some(c.error)))
  {
    DistinctPosition(m, i);
    if Cast(m.decls[i].spec, v).Ok? {
      ViewCastHasData(m.decls[i].spec, v);
    }
  }

  /** In a model with distinct names, a field's name finds that field. */
  lemma DistinctPosition(m: Model, i: nat)
    requires Distinct(m) && i < |m.decls|
    ensures Position(m, m.decls[i].name) == Some(i)
  {
  }

  /** Every assignment keeps an instance linked, whether it succeeds or raises. */
  lemma AssignKeepsLinked(m: Model, s: Slots, n: string, v: Value)
    requires Distinct(m) && Linked(m, s)
    ensures Linked(m, AssignStep(m, s, n, v).slots)
  {
    var p := Position(m, n);
    if p.Some? && Cast(m.decls[p.value].spec, v).Ok? {
      var i := p.value;
      var c := Cast(m.decls[i].spec, v).value;
      if Group(m.decls[i].spec.kind) < 2 {
        AssignViewSpec(m, s, i, v);
        RelinkView(m, s, i, c, DataOf(c).value);
      } else {
        AssignPlainSpec(m, s, i, v);
        RelinkPlain(m, s, i, c);
      }
    }
  }

  /** Caching a view under a compound or proxy-list field and filing its `_data` keeps the instance linked. */
  lemma RelinkView(m: Model, s: Slots, i: nat, c: Value, d: Value)
    requires Distinct(m) && Linked(m, s) && i < |m.decls| && DataOf(c) == Some(d)
    ensures Linked(m, Slots(s.data[m.decls[i].name := d], s.compounds[m.decls[i].name := c]))
  {
    var r := Slots(s.data[m.decls[i].name := d], s.compounds[m.decls[i].name := c]);
    assert r.data.Keys == Names(m) by {
      assert m.decls[i] in m.decls;
    }
    forall j | 0 <= j < |m.decls| && Group(m.decls[j].spec.kind) < 2
      ensures m.decls[j].name in r.compounds && DataOf(r.compounds[m.decls[j].name]) == Some(r.data[m.decls[j].name])
    {
      if j != i {
        OtherName(m, i, j);
      }
    }
  }

  /** Storing a value under a plain field keeps the instance linked. */
  lemma RelinkPlain(m: Model, s: Slots, i: nat, c: Value)
    requires Distinct(m) && Linked(m, s) && i < |m.decls| && Group(m.decls[i].spec.kind) == 2
    ensures Linked(m, Slots(s.data[m.decls[i].name := c], s.compounds))
  {
    var r := Slots(s.data[m.decls[i].name := c], s.compounds);
    assert r.data.Keys == Names(m) by {
      assert m.decls[i] in m.decls;
    }
    forall j | 0 <= j < |m.decls| && Group(m.decls[j].spec.kind) < 2
      ensures m.decls[j].name in r.compounds && DataOf(r.compounds[m.decls[j].name]) == Some(r.data[m.decls[j].name])
    {
      OtherName(m, i, j);
    }
  }

  lemma OtherName(m: Model, i: nat, j: nat)
    requires Distinct(m) && i < |m.decls| && j < |m.decls| && i != j
    ensures m.decls[i].name != m.decls[j].name
  {
    if j < i {
      assert m.decls[j].name != m.decls[i].name;
    }
  }

  /**
   * After a successful assignment, reading the attribute back gives the
   * cast value (plain field) or the cast view (compound or proxy list).
   */
  lemma AssignThenGet(m: Model, s: Slots, n: string, v: Value)
    requires Distinct(m) && AssignStep(m, s, n, v).raised.None?
    ensures Position(m, n).Some?
    ensures Attr(m, AssignStep(m, s, n, v).slots, n) == Cast(m.decls[Position(m, n).value].spec, v)
  {
  }

  /** A failed assignment leaves the raw document as it was (test_model.py lines 110-122). */
  lemma FailedAssignKeepsDocument(m: Model, s: Slots, n: string, v: Value)
    requires Distinct(m) && Linked(m, s)
    requires AssignStep(m, s, n, v).raised.Some?
    ensures AssignStep(m, s, n, v).slots == s
  {
    var p := Position(m, n);
    if p.Some? {
      var i := p.value;
      if Group(m.decls[i].spec.kind) < 2 {
        AssignViewSpec(m, s, i, v);
      }
    }
  }

  /** A mapping field is neither a compound nor a proxy list, so it takes the basic path: its cast result is stored, with no view. */
  lemma MappingTakesBasicPath(m: Model, i: nat, x: Value)
    requires i < |m.decls| && m.decls[i].spec.kind.MappingK?
    ensures Group(m.decls[i].spec.kind) == 2
    ensures Produce(m, i, x).Ok? <==> Cast(m.decls[i].spec, x).Ok?
    ensures Produce(m, i, x).Ok? ==> Produce(m, i, x).value == Outcome(Cast(m.decls[i].spec, x).value, None)
  {
  }
}
