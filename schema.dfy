/**
 * Field declarations of the `draughts.fields` package and the `model()`
 * registry built from them: field kinds, per-field metadata with its
 * model-level fallback (bases.py), the `List`/`Mapping` helpers that pick a
 * container class (fields/__init__.py), and the flattened field paths
 * (`flat_fields` of multivalued.py, complex.py and model_decorator.py).
 */
module Schema {
  import opened Values
  import Basic

  /** The three abstract bases of bases.py, used directly as fields. */
  datatype Tier = PlainBase | MultivaluedBase | ProxyBase

  /** The class of a field; the container kinds hold their element field. */
  datatype Kind =
    | AnyK
    | BooleanK
    | IntegerK
    | StringK
    | KeywordK
    | TextK
    | OptionalK(inner: FieldSpec)
    | EnumK(enum: Basic.EnumClass, table: map<Value, Value>)
    | CompoundK(model: Model)
    | ListK(elem: FieldSpec)
    | MappingK(elem: FieldSpec)
    | SimpleListK(elem: FieldSpec)
    | SimpleMappingK(elem: FieldSpec)
    | BaseK(tier: Tier)

  /**
   * A field object: its class, the keyword options it was built with, the
   * model-level options it falls back on, and the attribute name it was
   * given by `model()`.
   */
  datatype FieldSpec = Field(kind: Kind, metadata: map<string, Value>, defaults: map<string, Value>, name: Option<string>)

  /** One field attribute of a model class body, in declaration order. */
  datatype FieldDecl = Decl(name: string, spec: FieldSpec)

  /** A class body handed to `model(cls, **options)`. */
  datatype Model = Model(name: string, decls: seq<FieldDecl>, options: map<string, Value>)

  /** A subclass of `MultivaluedField`. */
  predicate IsMultivalued(k: Kind) {
    k.SimpleListK? || k.SimpleMappingK? || k == BaseK(MultivaluedBase)
  }

  /** A subclass of `ProxyField`. */
  predicate IsProxy(k: Kind) {
    k.CompoundK? || k.ListK? || k.MappingK? || k == BaseK(ProxyBase)
  }

  /** `Field.__init__(**kwargs)` (bases.py lines 4-7). */
  function NewField(k: Kind, kwargs: map<string, Value>): (f: FieldSpec)
    ensures f.kind == k && f.metadata == kwargs
    ensures f.defaults == map[] && f.name == None
  {
    Field(k, kwargs, map[], None)
  }

  /** `field[key]` (bases.py lines 9-10): own option, else model option, else None. */
  function Lookup(f: FieldSpec, key: string): (r: Value)
    ensures key in f.metadata ==> r == f.metadata[key]
    ensures key !in f.metadata && key in f.defaults ==> r == f.defaults[key]
    ensures key !in f.metadata && key !in f.defaults ==> r == Null
  {
    if key in f.metadata then f.metadata[key]
    else if key in f.defaults then f.defaults[key]
    else Null
  }

  /** `Optional(field)` (basic.py lines 50-52): its only option is `default=None`. */
  function NewOptional(inner: FieldSpec): (f: FieldSpec)
    ensures f.kind == OptionalK(inner) && f.metadata == map["default" := Null]
    ensures Lookup(f, "default") == Null
  {
    NewField(OptionalK(inner), map["default" := Null])
  }

  /**
   * `Enum(enum, **kwargs)` (basic.py lines 62-69): building the conversion
   * table fails with TypeError on an unhashable member value.
   */
  function NewEnum(e: Basic.EnumClass, kwargs: map<string, Value>): (r: Result<FieldSpec>)
    ensures r.Ok? <==> Basic.Table(e, |e.members|).Ok?
    ensures r.Ok? ==> r.value == NewField(EnumK(e, Basic.Table(e, |e.members|).value), kwargs)
  {
    var t :- Basic.Table(e, |e.members|);
    Ok(NewField(EnumK(e, t), kwargs))
  }

  /** `complex.List(field, **kwargs)`: its element must be multivalued or a proxy (complex.py line 23). */
  function NewProxyList(elem: FieldSpec, kwargs: map<string, Value>): (r: Result<FieldSpec>)
    ensures r.Ok? <==> IsMultivalued(elem.kind) || IsProxy(elem.kind)
    ensures r.Err? ==> r.error == AssertionError
    ensures r.Ok? ==> r.value == NewField(ListK(elem), kwargs)
  {
    if IsMultivalued(elem.kind) || IsProxy(elem.kind) then Ok(NewField(ListK(elem), kwargs))
    else Err(AssertionError)
  }

  /**
   * The `List(field_type, **kwargs)` helper (fields/__init__.py lines 7-15):
   * an optional element fails the assertion; a multivalued or proxy element
   * gets the proxy list, any other element the simple one.
   */
  function ListOf(elem: FieldSpec, kwargs: map<string, Value>): (r: Result<FieldSpec>)
    ensures elem.kind.OptionalK? <==> r == Err(AssertionError)
    ensures !elem.kind.OptionalK? && (IsMultivalued(elem.kind) || IsProxy(elem.kind)) ==>
      r == Ok(NewField(ListK(elem), kwargs))
    ensures !elem.kind.OptionalK? && !IsMultivalued(elem.kind) && !IsProxy(elem.kind) ==>
      r == Ok(NewField(SimpleListK(elem), kwargs))
  {
    if elem.kind.OptionalK? then Err(AssertionError)
    else if IsMultivalued(elem.kind) || IsProxy(elem.kind) then NewProxyList(elem, kwargs)
    else Ok(NewField(SimpleListK(elem), kwargs))
  }

  /**
   * The `Mapping(field_type, **kwargs)` helper (fields/__init__.py lines
   * 18-26): only a proxy element gets the proxy mapping; a multivalued one
   * gets the simple mapping.
   */
  function MappingOf(elem: FieldSpec, kwargs: map<string, Value>): (r: Result<FieldSpec>)
    ensures elem.kind.OptionalK? <==> r == Err(AssertionError)
    ensures !elem.kind.OptionalK? && IsProxy(elem.kind) ==> r == Ok(NewField(MappingK(elem), kwargs))
    ensures !elem.kind.OptionalK? && !IsProxy(elem.kind) ==> r == Ok(NewField(SimpleMappingK(elem), kwargs))
  {
    if elem.kind.OptionalK? then Err(AssertionError)
    else if IsProxy(elem.kind) then Ok(NewField(MappingK(elem), kwargs))
    else Ok(NewField(SimpleMappingK(elem), kwargs))
  }

  // ------------------------------------------------------- flattened paths

  /** The field object as `model()` leaves it: named, with the model's options as fallback. */
  function Named(d: FieldDecl, m: Model): (f: FieldSpec)
    ensures f.kind == d.spec.kind && f.metadata == d.spec.metadata
    ensures f.name == Some(d.name) && f.defaults == m.options
  {
    d.spec.(name := Some(d.name), defaults := m.options)
  }

  function Prefixed<T>(p: string, fs: map<string, T>): (r: map<string, T>)
    ensures forall k :: k in r <==> exists n :: n in fs && k == p + n
    ensures forall n :: n in fs ==> p + n in r && r[p + n] == fs[n]
  {
    PrefixInjective(p);
    map n | n in fs :: p + n := fs[n]
  }

  lemma PrefixInjective(p: string)
    ensures forall a: string, b: string :: p + a == p + b ==> a == b
  {
    forall a: string, b: string | p + a == p + b ensures a == b {
      assert a == (p + a)[|p|..];
      assert b == (p + b)[|p|..];
    }
  }

  /**
   * `field.flat_fields(prefix)`: the paths a container or compound field
   * contributes (multivalued.py lines 38-39 and 62-63; complex.py lines
   * 15-17, 35-36 and 99-100).  The abstract bases raise
   * NotImplementedError, leaf fields have no such method.
   */
  function FlatFields(f: FieldSpec, p: string): (r: Result<map<string, FieldSpec>>)
    decreases f, 0, 0
  {
    match f.kind
    case SimpleListK(e) => Ok(map[p + "[]" := e])
    case SimpleMappingK(e) => Ok(map[p + ".*." := e])
    case CompoundK(m) => var sub :- Flat(m); Ok(Prefixed(p + ".", sub))
    case ListK(e) => FlatFields(e, p + "[].")
    case MappingK(e) => FlatFields(e, p + ".*.")
    case BaseK(t) => if t == PlainBase then Err(AttributeError) else Err(NotImplementedError)
    case _ => Err(AttributeError)
  }

  /**
   * The flattened registry `model()` builds for a model (model_decorator.py
   * lines 49-65), with the list branch given its prefix: a compound field
   * contributes its model's registry under `name.`, a proxy list its own
   * `flat_fields(name)`, any other field its own name.  Later fields
   * overwrite earlier paths.
   */
  function Flat(m: Model): (r: Result<map<string, FieldSpec>>)
    decreases m, 2, 0
  {
    FlatFrom(m, 0)
  }

  function FlatFrom(m: Model, i: nat): (r: Result<map<string, FieldSpec>>)
    requires i <= |m.decls|
    decreases m, 1, |m.decls| - i
  {
    if i == |m.decls| then Ok(map[])
    else
      var here :- Contribution(m, i);
      var rest :- FlatFrom(m, i + 1);
      Ok(here + rest)
  }

  /** The paths field `i` of a model adds to the registry. */
  function Contribution(m: Model, i: nat): (r: Result<map<string, FieldSpec>>)
    requires i < |m.decls|
    ensures !m.decls[i].spec.kind.CompoundK? && !m.decls[i].spec.kind.ListK? ==>
      r == Ok(map[m.decls[i].name := Named(m.decls[i], m)])
    decreases m, 1, 0
  {
    var d := m.decls[i];
    match d.spec.kind
    case CompoundK(sub) => var s :- Flat(sub); Ok(Prefixed(d.name + ".", s))
    case ListK(_) => FlatFields(d.spec, d.name)
    case _ => Ok(map[d.name := Named(d, m)])
  }

  /**
   * The list branch of `model()` as written (model_decorator.py lines 59-62):
   * `field.flat_fields()` is called without its `prefix` argument, which
   * raises TypeError for every proxy list field.
   */
  function ListPathsAsWritten(d: FieldDecl): (r: Result<map<string, FieldSpec>>)
    requires d.spec.kind.ListK?
    ensures r == Err(TypeError)
  {
    Err(TypeError)
  }

  function Names(m: Model): (s: set<string>)
    ensures forall d :: d in m.decls ==> d.name in s
    ensures forall n :: n in s ==> exists d :: d in m.decls && d.name == n
  {
    set d | d in m.decls :: d.name
  }

  /** The position of the field named `n`, if the model declares one. */
  function Position(m: Model, n: string): (r: Option<nat>)
    ensures r.Some? ==> r.value < |m.decls| && m.decls[r.value].name == n
    ensures r.None? <==> n !in Names(m)
  {
    PositionFrom(m, n, 0)
  }

  function PositionFrom(m: Model, n: string, i: nat): (r: Option<nat>)
    requires i <= |m.decls|
    ensures r.Some? ==> i <= r.value < |m.decls| && m.decls[r.value].name == n
    ensures r.None? <==> forall j :: i <= j < |m.decls| ==> m.decls[j].name != n
    decreases |m.decls| - i
  {
    if i == |m.decls| then None
    else if m.decls[i].name == n then Some(i)
    else PositionFrom(m, n, i + 1)
  }

  /** The field names are distinct, as the keys of a class body are. */
  predicate Distinct(m: Model) {
    forall i, j :: 0 <= i < j < |m.decls| ==> m.decls[i].name != m.decls[j].name
  }

  // --------------------------------------------------------------- lemmas

  /** Every path a field contributes starts with the prefix it was given. */
  lemma {:induction false} FlatFieldsPrefixed(f: FieldSpec, p: string)
    requires FlatFields(f, p).Ok?
    ensures forall k :: k in FlatFields(f, p).value ==> |p| <= |k| && k[..|p|] == p
    decreases f
  {
    match f.kind
    case SimpleListK(e) => {}
    case SimpleMappingK(e) => {}
    case CompoundK(m) => {
      forall k | k in FlatFields(f, p).value ensures |p| <= |k| && k[..|p|] == p {
        var n :| n in Flat(m).value && k == p + "." + n;
        assert k == p + ("." + n);
      }
    }
    case ListK(e) => {
      FlatFieldsPrefixed(e, p + "[].");
      forall k | k in FlatFields(f, p).value ensures |p| <= |k| && k[..|p|] == p {
        assert k[..|p + "[]."|] == p + "[].";
        assert k[..|p|] == (p + "[].")[..|p|];
      }
    }
    case MappingK(e) => {
      FlatFieldsPrefixed(e, p + ".*.");
      forall k | k in FlatFields(f, p).value ensures |p| <= |k| && k[..|p|] == p {
        assert k[..|p + ".*."|] == p + ".*.";
        assert k[..|p|] == (p + ".*.")[..|p|];
      }
    }
  }

  /** A proxy list of a simple list contributes exactly `p[].[]`. */
  lemma ListOfSimpleListPath(e: FieldSpec, kw: map<string, Value>, p: string)
    requires e.kind.SimpleListK?
    ensures FlatFields(NewField(ListK(e), kw), p) == Ok(map[p + "[]." + "[]" := e.kind.elem])
  {
  }

  /**
   * Options declared on a field win over the model's options; an option set
   * on neither reads as None (model-level defaults of `model(index=...)`).
   */
  lemma NamedLookup(d: FieldDecl, m: Model, key: string)
    ensures key in d.spec.metadata ==> Lookup(Named(d, m), key) == d.spec.metadata[key]
    ensures key !in d.spec.metadata && key in m.options ==> Lookup(Named(d, m), key) == m.options[key]
    ensures key !in d.spec.metadata && key !in m.options ==> Lookup(Named(d, m), key) == Null
  {
  }

  /** A name with no `.` and no `[`, as every Python attribute name is. */
  predicate PlainName(n: string) {
    forall c :: c in n ==> c != '.' && c != '['
  }

  /**
   * A registry path of a plain field with a plain name is the field's own
   * name, bound to the named field: the paths of compound and list fields
   * all carry a `.` or a `[` after their field's name, so none of them
   * overwrites it.
   */
  lemma {:induction false} FlatFromHasPlainFields(m: Model, i: nat, j: nat)
    requires i <= j < |m.decls| && Distinct(m)
    requires FlatFrom(m, i).Ok?
    requires !m.decls[j].spec.kind.CompoundK? && !m.decls[j].spec.kind.ListK?
    requires PlainName(m.decls[j].name)
    ensures m.decls[j].name in FlatFrom(m, i).value
    ensures FlatFrom(m, i).value[m.decls[j].name] == Named(m.decls[j], m)
    decreases j - i
  {
    if i < j {
      FlatFromHasPlainFields(m, i + 1, j);
    } else {
      FlatFromOmitsPlainName(m, i + 1, m.decls[j].name);
    }
  }

  /** No field after position `i` contributes the plain name `n` unless it is named `n`. */
  lemma {:induction false} FlatFromOmitsPlainName(m: Model, i: nat, n: string)
    requires i <= |m.decls| && PlainName(n)
    requires FlatFrom(m, i).Ok?
    requires forall k :: i <= k < |m.decls| ==> m.decls[k].name != n
    ensures n !in FlatFrom(m, i).value
    decreases |m.decls| - i
  {
    if i < |m.decls| {
      ContributionOmitsPlainName(m, i, n);
      FlatFromOmitsPlainName(m, i + 1, n);
    }
  }

  /** Field `k` contributes the plain name `n` only if it is named `n`. */
  lemma ContributionOmitsPlainName(m: Model, k: nat, n: string)
    requires k < |m.decls| && PlainName(n) && m.decls[k].name != n
    requires Contribution(m, k).Ok?
    ensures n !in Contribution(m, k).value
  {
    var d := m.decls[k];
    match d.spec.kind
    case CompoundK(sub) => {
      forall key | key in Contribution(m, k).value ensures key != n {
        var x :| x in Flat(sub).value && key == (d.name + ".") + x;
        assert key[|d.name|] == (d.name + ".")[|d.name|] == '.';
        assert key[|d.name|] !in n;
      }
    }
    case ListK(e) => {
      FlatFieldsPrefixed(e, d.name + "[].");
      forall key | key in Contribution(m, k).value ensures key != n {
        assert key[..|d.name + "[]."|] == d.name + "[].";
        assert key[|d.name|] == (d.name + "[].")[|d.name|] == '[';
        assert key[|d.name|] !in n;
      }
    }
    case _ => {}
  }

  /** Paths contributed by plain fields after position `i` are their own names. */
  lemma {:induction false} FlatFromLaterPlain(m: Model, i: nat, n: string)
    requires i <= |m.decls| && Distinct(m)
    requires FlatFrom(m, i).Ok?
    requires forall k :: i <= k < |m.decls| ==> !m.decls[k].spec.kind.CompoundK? && !m.decls[k].spec.kind.ListK?
    requires forall k :: i <= k < |m.decls| ==> m.decls[k].name != n
    ensures n !in FlatFrom(m, i).value
    decreases |m.decls| - i
  {
    if i < |m.decls| {
      FlatFromLaterPlain(m, i + 1, n);
    }
  }
}
