/**
 * The field classes shared by the two self-contained engines,
 * proxy_model.py and struct_model.py: `Field`, `Integer`, `Float`,
 * `String`, `List` and `Compound` are declared alike in both files, with
 * the same metadata lookup and the same `List.flat_fields`.  What a field
 * does to a value differs per engine and lives in the ProxyModel and
 * StructModel modules; the flattened path registry each engine's `model()`
 * builds is here, with the engine as a parameter.
 */
module Variant {
  import opened Values
  import Schema

  /** The field classes of proxy_model.py and struct_model.py. */
  datatype VKind =
    | IntegerV
    | FloatV
    | StringV
    | ListV(child: VField)
    | CompoundV(model: VModel)
    | FieldV

  /** A field object: class, own options, the model's options, attribute name. */
  datatype VField = VField(kind: VKind, metadata: map<string, Value>, defaults: map<string, Value>, name: Option<string>)

  datatype VDecl = VDecl(name: string, field: VField)

  /** A class body handed to either engine's `model(cls, **options)`. */
  datatype VModel = VModel(name: string, decls: seq<VDecl>, options: map<string, Value>)

  /** Which of the two files builds the model class. */
  datatype Engine = ProxyEngine | StructEngine

  /** `Field.__init__(**kwargs)` (proxy_model.py lines 11-14, struct_model.py lines 9-12). */
  function NewField(k: VKind, kwargs: map<string, Value>): (f: VField)
    ensures f.kind == k && f.metadata == kwargs && f.defaults == map[] && f.name == None
  {
    VField(k, kwargs, map[], None)
  }

  /**
   * `field[item]` (proxy_model.py lines 16-17, struct_model.py lines
   * 14-15): the field's own option, else the model's, else None.
   */
  function Lookup(f: VField, key: string): (r: Value)
    ensures key in f.metadata ==> r == f.metadata[key]
    ensures key !in f.metadata && key in f.defaults ==> r == f.defaults[key]
    ensures key !in f.metadata && key !in f.defaults ==> r == Null
  {
    if key in f.metadata then f.metadata[key]
    else if key in f.defaults then f.defaults[key]
    else Null
  }

  /** The field as `model()` leaves it: named after its attribute, with the model's options. */
  function Named(d: VDecl, m: VModel): (f: VField)
    ensures f.kind == d.field.kind && f.metadata == d.field.metadata
    ensures f.name == Some(d.name) && f.defaults == m.options
  {
    d.field.(name := Some(d.name), defaults := m.options)
  }

  function Names(m: VModel): (s: set<string>)
    ensures forall d :: d in m.decls ==> d.name in s
    ensures forall n :: n in s ==> exists d :: d in m.decls && d.name == n
  {
    set d | d in m.decls :: d.name
  }

  /** The field names are distinct, as the keys of a class body are. */
  predicate Distinct(m: VModel) {
    forall i, j :: 0 <= i < j < |m.decls| ==> m.decls[i].name != m.decls[j].name
  }

  /** The position of the field named `n`, if the model declares one. */
  function Position(m: VModel, n: string): (r: Option<nat>)
    ensures r.Some? ==> r.value < |m.decls| && m.decls[r.value].name == n
    ensures r.None? <==> n !in Names(m)
  {
    PositionFrom(m, n, 0)
  }

  function PositionFrom(m: VModel, n: string, i: nat): (r: Option<nat>)
    requires i <= |m.decls|
    ensures r.Some? ==> i <= r.value < |m.decls| && m.decls[r.value].name == n
    ensures r.None? <==> forall j :: i <= j < |m.decls| ==> m.decls[j].name != n
    decreases |m.decls| - i
  {
    if i == |m.decls| then None
    else if m.decls[i].name == n then Some(i)
    else PositionFrom(m, n, i + 1)
  }

  lemma DistinctPosition(m: VModel, i: nat)
    requires Distinct(m) && i < |m.decls|
    ensures Position(m, m.decls[i].name) == Some(i)
  {
  }

  // ------------------------------------------------------- flattened paths

  /**
   * `{owner + '.' + n: k for n, k in sub.items()}`: an empty `sub` yields
   * nothing, otherwise an unnamed owner makes the concatenation raise.
   */
  function UnderOwner(owner: Option<string>, sub: map<string, VField>): (r: Result<map<string, VField>>)
    ensures sub == map[] ==> r == Ok(map[])
    ensures sub != map[] && owner.None? ==> r == Err(TypeError)
    ensures sub != map[] && owner.Some? ==> r == Ok(Schema.Prefixed(owner.value + ".", sub))
  {
    if sub == map[] then Ok(map[])
    else if owner.None? then Err(TypeError)
    else Ok(Schema.Prefixed(owner.value + ".", sub))
  }

  /**
   * `List.flat_fields()` of a list field named `owner` over `elem`
   * (proxy_model.py lines 64-69, struct_model.py lines 53-58): a list of
   * lists prefixes its element's paths with its own name, a list of
   * compounds the model's paths, any other list is one path, its name (or
   * the empty string), bound to the element field.  Element fields are never
   * named by `model()`.
   */
  function ListPaths(e: Engine, elem: VField, owner: Option<string>): (r: Result<map<string, VField>>)
    decreases elem, 0, 0
  {
    match elem.kind
    case ListV(inner) => var sub :- ListPaths(e, inner, elem.name); UnderOwner(owner, sub)
    case CompoundV(sm) => var sub :- Flat(e, sm); UnderOwner(owner, sub)
    case _ => Ok(map[(if owner.Some? then owner.value else "") := elem])
  }

  /**
   * The registry loop of each engine's `model()` (proxy_model.py lines
   * 203-220, struct_model.py lines 123-134).  Later fields overwrite earlier
   * paths.
   */
  function Flat(e: Engine, m: VModel): (r: Result<map<string, VField>>)
    decreases m, 2, 0
  {
    FlatFrom(e, m, 0)
  }

  function FlatFrom(e: Engine, m: VModel, i: nat): (r: Result<map<string, VField>>)
    requires i <= |m.decls|
    decreases m, 1, |m.decls| - i
  {
    if i == |m.decls| then Ok(map[])
    else
      var here :- Contribution(e, m, i);
      var rest :- FlatFrom(e, m, i + 1);
      Ok(here + rest)
  }

  /**
   * The paths field `i` adds.  In proxy_model.py a compound adds its
   * model's paths under `name.` and a list its own `flat_fields()` as they
   * are; in struct_model.py both add their `flat_fields()` under `name.`,
   * `Compound.flat_fields` being its model's paths (line 104-105).  Any
   * other field adds its name.
   */
  function Contribution(e: Engine, m: VModel, i: nat): (r: Result<map<string, VField>>)
    requires i < |m.decls|
    ensures !m.decls[i].field.kind.CompoundV? && !m.decls[i].field.kind.ListV? ==>
      r == Ok(map[m.decls[i].name := Named(m.decls[i], m)])
    decreases m, 1, 0
  {
    var d := m.decls[i];
    match d.field.kind
    case CompoundV(sub) => var s :- Flat(e, sub); Ok(Schema.Prefixed(d.name + ".", s))
    case ListV(elem) =>
      var s :- ListPaths(e, elem, Some(d.name));
      if e == ProxyEngine then Ok(s) else Ok(Schema.Prefixed(d.name + ".", s))
    case _ => Ok(map[d.name := Named(d, m)])
  }

  // -------------------------------------------------------------- registry

  /** What either engine's `model()` records: every field, named, and the flattened paths. */
  datatype Registry = Registry(fields: map<string, VField>, flat: map<string, VField>)

  /** The paths collected so far followed by those still to come, or the first error among the latter. */
  function Join(acc: map<string, VField>, rest: Result<map<string, VField>>): (r: Result<map<string, VField>>)
    ensures r.Ok? <==> rest.Ok?
  {
    match rest
    case Ok(more) => Ok(acc + more)
    case Err(e) => Err(e)
  }

  lemma FlatFromEnd(e: Engine, m: VModel, acc: map<string, VField>)
    ensures Join(acc, FlatFrom(e, m, |m.decls|)) == Ok(acc)
  {
    assert acc + map[] == acc;
  }

  lemma FlatFromUnfold(e: Engine, m: VModel, i: nat, acc: map<string, VField>)
    requires i < |m.decls|
    ensures Contribution(e, m, i).Err? ==> Join(acc, FlatFrom(e, m, i)) == Err(Contribution(e, m, i).error)
    ensures Contribution(e, m, i).Ok? ==>
      Join(acc, FlatFrom(e, m, i)) == Join(acc + Contribution(e, m, i).value, FlatFrom(e, m, i + 1))
  {
    if Contribution(e, m, i).Ok? && FlatFrom(e, m, i + 1).Ok? {
      var here, rest := Contribution(e, m, i).value, FlatFrom(e, m, i + 1).value;
      assert acc + (here + rest) == (acc + here) + rest;
    }
  }

  /** The field map holds exactly the first `i` fields, each named. */
  predicate FieldsFiled(m: VModel, i: nat, fields: map<string, VField>)
    requires i <= |m.decls|
  {
    && fields.Keys == (set d | d in m.decls[..i] :: d.name)
    && forall j :: 0 <= j < i ==> m.decls[j].name in fields && fields[m.decls[j].name] == Named(m.decls[j], m)
  }

  lemma FieldsStep(m: VModel, i: nat, fields: map<string, VField>)
    requires Distinct(m) && i < |m.decls| && FieldsFiled(m, i, fields)
    ensures FieldsFiled(m, i + 1, fields[m.decls[i].name := Named(m.decls[i], m)])
  {
    var d := m.decls[i];
    assert m.decls[..i + 1] == m.decls[..i] + [d];
    assert forall x :: x in m.decls[..i] + [d] <==> x in m.decls[..i] || x == d;
    forall j | 0 <= j < i ensures m.decls[j].name != d.name {
    }
  }

  /**
   * The registry loop of `model()` (proxy_model.py lines 203-220,
   * struct_model.py lines 123-134): each field is named, bound to the
   * model's options and recorded, and its paths are added.  The paths are
   * exactly `Flat(e, m)`, and the loop fails exactly when `Flat(e, m)` does.
   */
  method Compile(e: Engine, m: VModel) returns (r: Result<Registry>)
    requires Distinct(m)
    ensures r.Ok? <==> Flat(e, m).Ok?
    ensures r.Err? ==> Flat(e, m) == Err(r.error)
    ensures r.Ok? ==> r.value.flat == Flat(e, m).value
    ensures r.Ok? ==> r.value.fields.Keys == Names(m)
    ensures r.Ok? ==> forall i :: 0 <= i < |m.decls| ==> r.value.fields[m.decls[i].name] == Named(m.decls[i], m)
  {
    var fields: map<string, VField> := map[];
    var flat: map<string, VField> := map[];
    var i := 0;
    assert Flat(e, m).Ok? ==> map[] + Flat(e, m).value == Flat(e, m).value;
    while i < |m.decls|
      invariant i <= |m.decls|
      invariant Join(flat, FlatFrom(e, m, i)) == Flat(e, m)
      invariant FieldsFiled(m, i, fields)
    {
      var here := Contribution(e, m, i);
      FlatFromUnfold(e, m, i, flat);
      if here.Err? {
        return Err(here.error);
      }
      FieldsStep(m, i, fields);
      fields := fields[m.decls[i].name := Named(m.decls[i], m)];
      flat := flat + here.value;
      i := i + 1;
    }
    assert m.decls[..i] == m.decls;
    FlatFromEnd(e, m, flat);
    return Ok(Registry(fields, flat));
  }

  // ---------------------------------------------------------------- lemmas

  /** Options declared on the field win over the model's; an option set on neither reads None. */
  lemma NamedLookup(d: VDecl, m: VModel, key: string)
    ensures key in d.field.metadata ==> Lookup(Named(d, m), key) == d.field.metadata[key]
    ensures key !in d.field.metadata && key in m.options ==> Lookup(Named(d, m), key) == m.options[key]
    ensures key !in d.field.metadata && key !in m.options ==> Lookup(Named(d, m), key) == Null
  {
  }

  /** A list of scalars named `n` is the single path `n`, bound to its element. */
  lemma ScalarListPath(e: Engine, elem: VField, n: string)
    requires !elem.kind.ListV? && !elem.kind.CompoundV?
    ensures ListPaths(e, elem, Some(n)) == Ok(map[n := elem])
  {
  }

  /**
   * In struct_model.py a list field adds its name twice: `List.flat_fields`
   * already prefixes its paths with the field's name and the registry loop
   * prefixes them again, so a list `xs` of integers is registered as `xs.xs`.
   */
  lemma StructListPathRepeatsName(m: VModel, i: nat, elem: VField)
    requires i < |m.decls| && m.decls[i].field.kind == ListV(elem)
    requires !elem.kind.ListV? && !elem.kind.CompoundV?
    ensures Contribution(StructEngine, m, i) == Ok(map[m.decls[i].name + "." + m.decls[i].name := elem])
    ensures Contribution(ProxyEngine, m, i) == Ok(map[m.decls[i].name := elem])
  {
    var n := m.decls[i].name;
    assert Schema.Prefixed(n + ".", map[n := elem]) == map[n + "." + n := elem];
  }

  /**
   * A list of lists of lists cannot be registered: the middle list is an
   * element field, never named, and `None + '.'` raises TypeError.
   */
  lemma ThreeLevelListFails(e: Engine, leaf: VField, kw1: map<string, Value>, kw2: map<string, Value>, n: string)
    requires !leaf.kind.ListV? && !leaf.kind.CompoundV?
    ensures ListPaths(e, NewField(ListV(NewField(ListV(leaf), kw2)), kw1), Some(n)) == Err(TypeError)
  {
    var inner := NewField(ListV(leaf), kw2);
    assert ListPaths(e, leaf, None) == Ok(map["" := leaf]);
    assert map["" := leaf] != map[] by { assert "" in map["" := leaf]; }
    assert ListPaths(e, inner, None) == Err(TypeError);
  }

  /** Every path a list contributes starts with its owner's name and a dot, unless it is the bare owner. */
  lemma {:induction false} ListPathsOwned(e: Engine, elem: VField, n: string)
    requires ListPaths(e, elem, Some(n)).Ok?
    ensures forall k :: k in ListPaths(e, elem, Some(n)).value ==>
      k == n || (|n| + 1 <= |k| && k[..|n| + 1] == n + ".")
  {
    match elem.kind
    case ListV(inner) => {
      forall k | k in ListPaths(e, elem, Some(n)).value ensures |n| + 1 <= |k| && k[..|n| + 1] == n + "." {
        var sub := ListPaths(e, inner, elem.name).value;
        var s :| s in sub && k == n + "." + s;
        assert k == (n + ".") + s;
      }
    }
    case CompoundV(sm) => {
      forall k | k in ListPaths(e, elem, Some(n)).value ensures |n| + 1 <= |k| && k[..|n| + 1] == n + "." {
        var sub := Flat(e, sm).value;
        var s :| s in sub && k == n + "." + s;
        assert k == (n + ".") + s;
      }
    }
    case _ => {}
  }

  // ------------------------------------------------------ instance access

  /** The slots after an attribute assignment, and the exception it raised, if any. */
  datatype Assigned = Assigned(slots: map<string, Value>, raised: Option<Error>)

  /**
   * `except AttributeError: raise KeyError(name)`: both engines' `__getitem__`
   * and `__setitem__` (proxy_model.py lines 323-333, struct_model.py lines
   * 189-199) report a missing attribute as a missing key.
   */
  function AsKeyError(e: Option<Error>): (r: Option<Error>)
    ensures e == Some(AttributeError) ==> r == Some(KeyError)
    ensures e != Some(AttributeError) ==> r == e
  {
    if e == Some(AttributeError) then Some(KeyError) else e
  }
}
