/**
 * struct_model.py: a self-contained engine whose instances keep each field
 * in a slot and no document at all.  Construction walks the fields in
 * declaration order and pops what it consumes from the caller's keywords
 * and document; `to_dict` rebuilds a document through each field's `dump`;
 * attribute assignment casts.
 */
module StructModel {
  import opened Values
  import opened Variant
  import Basic
  import Multivalued
  import Proxies

  // --------------------------------------------------------------- casts

  /**
   * `field.cast(value)`: `int()` for Integer and Float (lines 25-26,
   * 30-31), `str()` for String (lines 35-36), a typed list over
   * `list(value)` for List (lines 45-51, 72-74), the instance itself or a
   * new one for Compound (lines 96-99); the bare Field raises.  No cast
   * raises AttributeError, so the fallback of `__setattr__` (line 187) is
   * never taken.
   */
  function Cast(f: VField, v: Value): (r: Result<Value>)
    ensures r.Err? ==> r.error != AttributeError
    ensures (f.kind.IntegerV? || f.kind.FloatV?) ==> r == Basic.IntegerCast(v)
    ensures f.kind.StringV? ==> r == Ok(Str(Basic.StrOf(v)))
    ensures f.kind.FieldV? ==> r == Err(NotImplementedError)
    ensures f.kind.CompoundV? && r.Ok? ==> r.value.Struct? && r.value.model == f.kind.model.name
    ensures f.kind.ListV? && r.Ok? ==> r.value.List?
    decreases f, 0, 0
  {
    match f.kind
    case IntegerV => Basic.IntegerCast(v)
    case FloatV => Basic.IntegerCast(v)
    case StringV => Ok(Str(Basic.StrOf(v)))
    case FieldV => Err(NotImplementedError)
    case CompoundV(sub) =>
      if v.Struct? && v.model == sub.name then Ok(v) else Construct(sub, Some(v), map[]).result
    case ListV(child) =>
      var xs :- (if v.List? then Ok(v.items) else Iterate(v));
      var cs :- CastAll(child, xs);
      Ok(List(cs))
  }

  function CastAll(f: VField, xs: seq<Value>): (r: Result<seq<Value>>)
    ensures r.Ok? ==> |r.value| == |xs|
    ensures r.Err? ==> r.error != AttributeError
    decreases f, 1, |xs|
  {
    if xs == [] then Ok([])
    else
      var c :- Cast(f, xs[0]);
      var cs :- CastAll(f, xs[1..]);
      Ok([c] + cs)
  }

  // -------------------------------------------------------- construction

  /** The caller's document and keywords as popped so far, and the slots set so far. */
  datatype SState = SState(doc: map<string, Value>, kwargs: map<string, Value>, slots: map<string, Value>)

  /** The state the field loop stops in, and the exception it raised, if any. */
  datatype Filled = Filled(st: SState, raised: Option<Error>)

  /** What construction returns, and what is left of the caller's document. */
  datatype Built = Built(result: Result<Value>, left: map<string, Value>)

  /**
   * `ModelClass(*args, **kwargs)` (lines 148-172): the document must be a
   * dict; the fields are resolved in declaration order; keys left in the
   * document, then keywords left over, are rejected.  `left` is the
   * caller's dict after the call (empty when no dict was given).
   */
  function Construct(m: VModel, arg: Option<Value>, kwargs: map<string, Value>): (r: Built)
    ensures r.result.Err? ==> r.result.error != AttributeError
    ensures arg.Some? && !arg.value.Dict? ==> r.result == Err(ValueError(NotADict))
    ensures r.result.Ok? ==> r.result.value.Struct? && r.result.value.model == m.name && r.left == map[]
    decreases m, 3, 0
  {
    var d := if arg.None? then Dict(map[]) else arg.value;
    if !d.Dict? then Built(Err(ValueError(NotADict)), map[])
    else
      var out := Fill(m, 0, SState(d.entries, kwargs, map[]));
      var st := out.st;
      if out.raised.Some? then Built(Err(out.raised.value), st.doc)
      else if st.doc != map[] then Built(Err(ValueError(UnexpectedKeys(st.doc.Keys))), st.doc)
      else if st.kwargs != map[] then Built(Err(ValueError(UnexpectedKeys(st.kwargs.Keys))), st.doc)
      else Built(Ok(Struct(m.name, st.slots)), st.doc)
  }

  /** The field loop (lines 157-166) from field `i` on. */
  function Fill(m: VModel, i: nat, st: SState): (r: Filled)
    requires i <= |m.decls|
    ensures r.raised.Some? ==> r.raised.value != AttributeError
    decreases m, 2, |m.decls| - i
  {
    if i == |m.decls| then Filled(st, None)
    else
      var n := m.decls[i].name;
      var st1 := Pop(st, n);
      match Source(m, i, st.doc, st.kwargs)
      case Err(e) => Filled(st1, Some(e))
      case Ok(x) =>
        match Cast(m.decls[i].field, x)
        case Err(e) => Filled(st1, Some(e))
        case Ok(c) => Fill(m, i + 1, st1.(slots := st1.slots[n := c]))
  }

  /**
   * Where field `i` takes its value from: a keyword, else the document,
   * else the `default` option, else it is missing.
   */
  function Source(m: VModel, i: nat, doc: map<string, Value>, kwargs: map<string, Value>): Result<Value>
    requires i < |m.decls|
  {
    var n := m.decls[i].name;
    if n in kwargs then Ok(kwargs[n])
    else if n in doc then Ok(doc[n])
    else if "default" in m.decls[i].field.metadata then Ok(m.decls[i].field.metadata["default"])
    else Err(ValueError(MissingKey(n, m.name)))
  }

  /** The keyword, else the document entry, that the field named `n` consumes (lines 160, 162). */
  function Pop(st: SState, n: string): (r: SState)
    ensures r.slots == st.slots
    ensures n in st.kwargs ==> r.kwargs == st.kwargs - {n} && r.doc == st.doc
    ensures n !in st.kwargs ==> r.kwargs == st.kwargs && r.doc == st.doc - {n}
  {
    if n in st.kwargs then st.(kwargs := st.kwargs - {n})
    else st.(doc := st.doc - {n})
  }

  /** The value field `i` gets from a document and keywords. */
  function FieldOutcome(m: VModel, i: nat, doc: map<string, Value>, kwargs: map<string, Value>): Result<Value>
    requires i < |m.decls|
  {
    var x :- Source(m, i, doc, kwargs);
    Cast(m.decls[i].field, x)
  }

  // ------------------------------------------------ construction lemmas

  predicate AgreeAt(n: string, a: map<string, Value>, b: map<string, Value>) {
    (n in a <==> n in b) && (n in a ==> a[n] == b[n])
  }

  /** The names of the fields from `i` on. */
  function Later(m: VModel, i: nat): set<string> {
    set j | i <= j < |m.decls| :: m.decls[j].name
  }

  /** The names of the fields from `i` on that are not given as keywords: those taken from the document. */
  function DocTaken(m: VModel, i: nat, kw: map<string, Value>): set<string> {
    set j | i <= j < |m.decls| && m.decls[j].name !in kw :: m.decls[j].name
  }

  /** The fields still to come see the caller's document and keywords. */
  ghost predicate Untouched(m: VModel, i: nat, st: SState, doc: map<string, Value>, kw: map<string, Value>) {
    forall j :: i <= j < |m.decls| ==> AgreeAt(m.decls[j].name, st.doc, doc) && AgreeAt(m.decls[j].name, st.kwargs, kw)
  }

  /** Every field from `i` on resolves against the caller's document and keywords. */
  ghost predicate ResolveFrom(m: VModel, i: nat, doc: map<string, Value>, kw: map<string, Value>) {
    forall j :: i <= j < |m.decls| ==> FieldOutcome(m, j, doc, kw).Ok?
  }

  /** What the loop leaves once the fields from `i` on have been resolved from `st`. */
  ghost predicate FilledFrom(m: VModel, i: nat, st: SState, st': SState, doc: map<string, Value>, kw: map<string, Value>) {
    && st'.doc == st.doc - DocTaken(m, i, kw)
    && st'.kwargs == st.kwargs - Later(m, i)
    && SlotsFilled(m, i, st.slots, st'.slots, doc, kw)
  }

  /** The slots after the loop from field `i`: each later field's outcome, and every other slot kept. */
  ghost predicate SlotsFilled(m: VModel, i: nat, slots: map<string, Value>, slots': map<string, Value>, doc: map<string, Value>, kw: map<string, Value>) {
    && slots'.Keys == slots.Keys + Later(m, i)
    && (forall j :: i <= j < |m.decls| ==> m.decls[j].name in slots' && FieldOutcome(m, j, doc, kw) == Ok(slots'[m.decls[j].name]))
    && (forall n :: n in slots && n !in Later(m, i) ==> n in slots' && slots'[n] == slots[n])
  }

  /**
   * The loop from field `i` succeeds exactly when every field from `i` on
   * resolves against the caller's document and keywords; it then stores
   * each outcome in its slot, pops every such keyword and every document
   * entry not given as a keyword, and keeps every other slot.
   */
  lemma {:induction false} FillSpec(m: VModel, i: nat, st: SState, doc: map<string, Value>, kw: map<string, Value>)
    requires Distinct(m) && i <= |m.decls| && Untouched(m, i, st, doc, kw)
    ensures Fill(m, i, st).raised.None? <==> ResolveFrom(m, i, doc, kw)
    ensures Fill(m, i, st).raised.None? ==> FilledFrom(m, i, st, Fill(m, i, st).st, doc, kw)
    decreases |m.decls| - i
  {
    if i == |m.decls| {
      assert Later(m, i) == {} && DocTaken(m, i, kw) == {};
      assert st.doc - {} == st.doc && st.kwargs - {} == st.kwargs;
    } else {
      var n := m.decls[i].name;
      assert Source(m, i, st.doc, st.kwargs) == Source(m, i, doc, kw);
      var o := FieldOutcome(m, i, doc, kw);
      if o.Ok? {
        var st2 := Pop(st, n).(slots := st.slots[n := o.value]);
        FillStepKeeps(m, i, st, o.value, doc, kw);
        FillSpec(m, i + 1, st2, doc, kw);
        assert Fill(m, i, st) == Fill(m, i + 1, st2);
        if Fill(m, i, st).raised.None? {
          FillStepJoins(m, i, st, st2, Fill(m, i, st).st, doc, kw);
        }
      }
    }
  }

  /** Popping field `i` and filling its slot keeps the later fields untouched. */
  lemma FillStepKeeps(m: VModel, i: nat, st: SState, c: Value, doc: map<string, Value>, kw: map<string, Value>)
    requires Distinct(m) && i < |m.decls| && Untouched(m, i, st, doc, kw)
    ensures var n := m.decls[i].name; Untouched(m, i + 1, Pop(st, n).(slots := st.slots[n := c]), doc, kw)
  {
    var n := m.decls[i].name;
    forall j | i + 1 <= j < |m.decls| ensures m.decls[j].name != n {
    }
  }

  lemma LaterUnfold(m: VModel, i: nat)
    requires i < |m.decls|
    ensures Later(m, i) == Later(m, i + 1) + {m.decls[i].name}
  {
  }

  /** The later names gain field `i`'s name; the document-taken ones gain it when it is no keyword. */
  lemma LaterStep(m: VModel, i: nat, kw: map<string, Value>)
    requires Distinct(m) && i < |m.decls|
    ensures Later(m, i) == Later(m, i + 1) + {m.decls[i].name}
    ensures m.decls[i].name !in Later(m, i + 1)
    ensures m.decls[i].name in kw ==> DocTaken(m, i, kw) == DocTaken(m, i + 1, kw)
    ensures m.decls[i].name !in kw ==> DocTaken(m, i, kw) == DocTaken(m, i + 1, kw) + {m.decls[i].name}
  {
    var n := m.decls[i].name;
    forall j | i + 1 <= j < |m.decls| ensures m.decls[j].name != n {
    }
  }

  lemma RemoveTwice(a: map<string, Value>, s: set<string>, t: set<string>)
    ensures (a - s) - t == a - (s + t)
  {
  }

  /** The document and keywords the loop leaves from field `i + 1` extend to field `i`. */
  lemma PoppedJoin(m: VModel, i: nat, st: SState, st2: SState, st': SState, kw: map<string, Value>)
    requires Distinct(m) && i < |m.decls| && (m.decls[i].name in st.kwargs <==> m.decls[i].name in kw)
    requires st2.doc == Pop(st, m.decls[i].name).doc && st2.kwargs == Pop(st, m.decls[i].name).kwargs
    requires st'.doc == st2.doc - DocTaken(m, i + 1, kw) && st'.kwargs == st2.kwargs - Later(m, i + 1)
    ensures st'.doc == st.doc - DocTaken(m, i, kw) && st'.kwargs == st.kwargs - Later(m, i)
  {
    var n := m.decls[i].name;
    LaterStep(m, i, kw);
    if n in kw {
      RemoveTwice(st.kwargs, {n}, Later(m, i + 1));
    } else {
      RemoveTwice(st.doc, {n}, DocTaken(m, i + 1, kw));
    }
  }

  /** The slots the loop leaves from field `i + 1`, once field `i`'s outcome is stored, extend to field `i`. */
  lemma SlotsJoin(m: VModel, i: nat, slots: map<string, Value>, slots': map<string, Value>, doc: map<string, Value>, kw: map<string, Value>)
    requires Distinct(m) && i < |m.decls| && FieldOutcome(m, i, doc, kw).Ok?
    requires SlotsFilled(m, i + 1, slots[m.decls[i].name := FieldOutcome(m, i, doc, kw).value], slots', doc, kw)
    ensures SlotsFilled(m, i, slots, slots', doc, kw)
  {
    var n := m.decls[i].name;
    var c := FieldOutcome(m, i, doc, kw).value;
    LaterStep(m, i, map[]);
    assert n in slots' && slots'[n] == c;
    forall k | k in slots && k !in Later(m, i) ensures k in slots' && slots'[k] == slots[k] {
      assert k != n && k in slots[n := c] && k !in Later(m, i + 1);
    }
  }

  /** What the loop leaves from field `i + 1` extends to field `i`. */
  lemma FillStepJoins(m: VModel, i: nat, st: SState, st2: SState, st': SState, doc: map<string, Value>, kw: map<string, Value>)
    requires Distinct(m) && i < |m.decls| && Untouched(m, i, st, doc, kw)
    requires FieldOutcome(m, i, doc, kw).Ok?
    requires st2 == Pop(st, m.decls[i].name).(slots := st.slots[m.decls[i].name := FieldOutcome(m, i, doc, kw).value])
    requires FilledFrom(m, i + 1, st2, st', doc, kw)
    ensures FilledFrom(m, i, st, st', doc, kw)
  {
    PoppedJoin(m, i, st, st2, st', kw);
    SlotsJoin(m, i, st.slots, st'.slots, doc, kw);
  }

  /** Every field resolves against the caller's document and keywords. */
  ghost predicate AllResolve(m: VModel, doc: map<string, Value>, kw: map<string, Value>) {
    ResolveFrom(m, 0, doc, kw)
  }

  lemma LaterAll(m: VModel)
    ensures Later(m, 0) == Names(m)
  {
    forall n | n in Names(m) ensures n in Later(m, 0) {
      var d :| d in m.decls && d.name == n;
      var j :| 0 <= j < |m.decls| && m.decls[j] == d;
    }
  }

  /** Removing a set of keys leaves nothing exactly when the map's keys are among them. */
  lemma EmptyAfterRemoving(d: map<string, Value>, s: set<string>)
    ensures d - s == map[] <==> d.Keys <= s
    ensures (d - s).Keys == d.Keys - s
  {
    if !(d.Keys <= s) {
      var k :| k in d && k !in s;
      assert k in d - s;
    }
  }

  /**
   * Construction from a dict `doc` and keywords `kw` succeeds exactly when
   * every field resolves, every document key names a field not also given
   * as a keyword, and every keyword names a field.  Every slot then holds
   * its field's outcome and the caller's dict is left empty.  Once the
   * fields resolve, the caller's dict keeps exactly its keys that were not
   * consumed, and a stray document key is reported before a stray keyword.
   */
  lemma ConstructSpec(m: VModel, doc: map<string, Value>, kw: map<string, Value>)
    requires Distinct(m)
    ensures var r := Construct(m, Some(Dict(doc)), kw); var taken := Names(m) - kw.Keys;
      && (r.result.Ok? <==> AllResolve(m, doc, kw) && doc.Keys <= taken && kw.Keys <= Names(m))
      && (AllResolve(m, doc, kw) ==> r.left == doc - taken)
      && (AllResolve(m, doc, kw) && !(doc.Keys <= taken) ==>
            r.result == Err(ValueError(UnexpectedKeys(doc.Keys - taken))))
      && (AllResolve(m, doc, kw) && doc.Keys <= taken && !(kw.Keys <= Names(m)) ==>
            r.result == Err(ValueError(UnexpectedKeys(kw.Keys - Names(m)))))
      && (r.result.Ok? ==> r.result.value.slots.Keys == Names(m))
      && (r.result.Ok? ==> forall j :: 0 <= j < |m.decls| ==>
            r.result.value.slots[m.decls[j].name] == FieldOutcome(m, j, doc, kw).value)
  {
    var out := Fill(m, 0, SState(doc, kw, map[]));
    if AllResolve(m, doc, kw) {
      FilledAtStart(m, doc, kw);
      var taken := Names(m) - kw.Keys;
      EmptyAfterRemoving(doc, taken);
      EmptyAfterRemoving(kw, Names(m));
      assert Construct(m, Some(Dict(doc)), kw) ==
        if out.st.doc != map[] then Built(Err(ValueError(UnexpectedKeys(out.st.doc.Keys))), out.st.doc)
        else if out.st.kwargs != map[] then Built(Err(ValueError(UnexpectedKeys(out.st.kwargs.Keys))), out.st.doc)
        else Built(Ok(Struct(m.name, out.st.slots)), out.st.doc);
    } else {
      FillSpec(m, 0, SState(doc, kw, map[]), doc, kw);
      assert Construct(m, Some(Dict(doc)), kw) == Built(Err(out.raised.value), out.st.doc);
    }
  }

  /**
   * When every field resolves, the loop from the first field pops each
   * keyword naming a field and each document entry not given as a keyword,
   * and fills every slot with its field's outcome.
   */
  lemma FilledAtStart(m: VModel, doc: map<string, Value>, kw: map<string, Value>)
    requires Distinct(m) && AllResolve(m, doc, kw)
    ensures var out := Fill(m, 0, SState(doc, kw, map[]));
      && out.raised.None?
      && out.st.doc == doc - (Names(m) - kw.Keys)
      && out.st.kwargs == kw - Names(m)
      && out.st.slots.Keys == Names(m)
      && forall j :: 0 <= j < |m.decls| ==> out.st.slots[m.decls[j].name] == FieldOutcome(m, j, doc, kw).value
  {
    var st := SState(doc, kw, map[]);
    FillSpec(m, 0, st, doc, kw);
    LaterAll(m);
    DocTakenAll(m, kw);
    assert st.slots.Keys == {};
  }

  /** From the first field on, the document gives every field not given as a keyword. */
  lemma DocTakenAll(m: VModel, kw: map<string, Value>)
    ensures DocTaken(m, 0, kw) == Names(m) - kw.Keys
  {
    LaterAll(m);
    forall n | n in Names(m) - kw.Keys ensures n in DocTaken(m, 0, kw) {
      assert n in Later(m, 0);
      var j :| 0 <= j < |m.decls| && m.decls[j].name == n;
    }
  }

  /** A successful construction sets exactly the model's slots, each to its field's outcome. */
  lemma ConstructedSlots(m: VModel, doc: map<string, Value>, kw: map<string, Value>)
    requires Distinct(m) && Construct(m, Some(Dict(doc)), kw).result.Ok?
    ensures var slots := Construct(m, Some(Dict(doc)), kw).result.value.slots;
      && slots.Keys == Names(m)
      && forall j :: 0 <= j < |m.decls| ==> FieldOutcome(m, j, doc, kw) == Ok(slots[m.decls[j].name])
  {
    var out := Fill(m, 0, SState(doc, kw, map[]));
    FillSpec(m, 0, SState(doc, kw, map[]), doc, kw);
    FilledAtStart(m, doc, kw);
    assert Construct(m, Some(Dict(doc)), kw).result == Ok(Struct(m.name, out.st.slots));
  }

  /**
   * A document naming every field, with no keywords, whose every field
   * resolves to the slot given constructs the instance with those slots.
   */
  lemma ConstructFromOutcomes(m: VModel, d: map<string, Value>, slots: map<string, Value>)
    requires Distinct(m) && d.Keys == Names(m) && slots.Keys == Names(m)
    requires forall j :: 0 <= j < |m.decls| ==> FieldOutcome(m, j, d, map[]) == Ok(slots[m.decls[j].name])
    ensures Construct(m, Some(Dict(d)), map[]) == Built(Ok(Struct(m.name, slots)), map[])
  {
    var kw: map<string, Value> := map[];
    FillFromOutcomes(m, d, slots);
    var out := Fill(m, 0, SState(d, kw, map[]));
    assert Construct(m, Some(Dict(d)), kw) == Built(Ok(Struct(m.name, out.st.slots)), out.st.doc);
  }

  /** Filling from such a document consumes it whole and fills exactly the slots given. */
  lemma FillFromOutcomes(m: VModel, d: map<string, Value>, slots: map<string, Value>)
    requires Distinct(m) && d.Keys == Names(m) && slots.Keys == Names(m)
    requires forall j :: 0 <= j < |m.decls| ==> FieldOutcome(m, j, d, map[]) == Ok(slots[m.decls[j].name])
    ensures var out := Fill(m, 0, SState(d, map[], map[]));
      out.raised.None? && out.st.doc == map[] && out.st.kwargs == map[] && out.st.slots == slots
  {
    var kw: map<string, Value> := map[];
    assert AllResolve(m, d, kw);
    FilledAtStart(m, d, kw);
    var out := Fill(m, 0, SState(d, kw, map[]));
    assert out.st.doc == map[] by {
      EmptyAfterRemoving(d, Names(m) - kw.Keys);
    }
    SlotsFromOutcomes(m, d, out.st.slots, slots);
  }

  /** The slots the loop fills from the outcomes are the slots those outcomes give. */
  lemma SlotsFromOutcomes(m: VModel, d: map<string, Value>, filled: map<string, Value>, slots: map<string, Value>)
    requires filled.Keys == Names(m) && slots.Keys == Names(m)
    requires forall j :: 0 <= j < |m.decls| ==> FieldOutcome(m, j, d, map[]) == Ok(slots[m.decls[j].name])
    requires forall j :: 0 <= j < |m.decls| ==> filled[m.decls[j].name] == FieldOutcome(m, j, d, map[]).value
    ensures filled == slots
  {
    SameSlots(m, filled, slots);
  }

  /** Two slot maps over the field names that agree on every field are equal. */
  lemma SameSlots(m: VModel, a: map<string, Value>, b: map<string, Value>)
    requires a.Keys == Names(m) && b.Keys == Names(m)
    requires forall j :: 0 <= j < |m.decls| ==> a[m.decls[j].name] == b[m.decls[j].name]
    ensures a == b
  {
    forall n | n in a ensures a[n] == b[n] {
      var j :| 0 <= j < |m.decls| && m.decls[j].name == n;
    }
  }

  /** A keyword wins over the document, and the document over the `default` option. */
  lemma SourcePriority(m: VModel, i: nat, doc: map<string, Value>, kw: map<string, Value>)
    requires i < |m.decls|
    ensures var n := m.decls[i].name; var f := m.decls[i].field;
      && (n in kw ==> FieldOutcome(m, i, doc, kw) == Cast(f, kw[n]))
      && (n !in kw && n in doc ==> FieldOutcome(m, i, doc, kw) == Cast(f, doc[n]))
      && (n !in kw && n !in doc && "default" in f.metadata ==> FieldOutcome(m, i, doc, kw) == Cast(f, f.metadata["default"]))
      && (n !in kw && n !in doc && "default" !in f.metadata ==>
            FieldOutcome(m, i, doc, kw) == Err(ValueError(MissingKey(n, m.name))))
  {
  }

  /**
   * A field given both as a keyword and in the document takes the keyword,
   * and the unconsumed document entry then fails construction.
   */
  lemma KeywordAndDocumentClash(m: VModel, i: nat, doc: map<string, Value>, kw: map<string, Value>)
    requires Distinct(m) && i < |m.decls| && m.decls[i].name in doc && m.decls[i].name in kw
    ensures Construct(m, Some(Dict(doc)), kw).result.Err?
  {
    ConstructSpec(m, doc, kw);
  }

  /** A field given nowhere and without a `default` option fails construction. */
  lemma MissingFieldFails(m: VModel, i: nat, doc: map<string, Value>, kw: map<string, Value>)
    requires Distinct(m) && i < |m.decls|
    requires m.decls[i].name !in doc && m.decls[i].name !in kw && "default" !in m.decls[i].field.metadata
    ensures Construct(m, Some(Dict(doc)), kw).result.Err?
  {
    assert FieldOutcome(m, i, doc, kw).Err?;
    ConstructSpec(m, doc, kw);
  }

  // -------------------------------------------------------------- to_dict

  /**
   * `field.dump(value)` (lines 20-21, 101-102): a compound field dumps the
   * instance through its `to_dict`, and anything that is no instance has
   * no `to_dict`; every other field hands the value back as it is.
   */
  function Dump(f: VField, c: Value): (r: Result<Value>)
    ensures r.Err? ==> r.error == AttributeError
    ensures !f.kind.CompoundV? ==> r == Ok(c)
    decreases f, 1, 0
  {
    match f.kind
    case CompoundV(sub) =>
      if c.Struct? then var d :- DumpFrom(sub, c.slots, 0); Ok(Dict(d)) else Err(AttributeError)
    case _ => Ok(c)
  }

  /**
   * `to_dict` (lines 174-178) over the fields from `i` on: each name maps to
   * its slot's dump; an unset slot raises AttributeError from `getattr`.
   */
  function DumpFrom(m: VModel, slots: map<string, Value>, i: nat): (r: Result<map<string, Value>>)
    requires i <= |m.decls|
    ensures r.Err? ==> r.error == AttributeError
    ensures r.Ok? ==> r.value.Keys == Later(m, i)
    decreases m, 0, |m.decls| - i
  {
    if i == |m.decls| then Ok(map[])
    else
      var n := m.decls[i].name;
      if n !in slots then Err(AttributeError)
      else
        var x :- Dump(m.decls[i].field, slots[n]);
        var rest :- DumpFrom(m, slots, i + 1);
        LaterUnfold(m, i);
        Ok(rest[n := x])
  }

  function DictOf(m: VModel, slots: map<string, Value>): (r: Result<map<string, Value>>)
    ensures r.Err? ==> r.error == AttributeError
    ensures r.Ok? ==> r.value.Keys == Names(m)
  {
    LaterAll(m);
    DumpFrom(m, slots, 0)
  }

  /** With every slot set and dumpable, `to_dict` succeeds. */
  lemma {:induction false} DumpFromOk(m: VModel, slots: map<string, Value>, i: nat)
    requires i <= |m.decls|
    requires forall j :: i <= j < |m.decls| ==> m.decls[j].name in slots && Dump(m.decls[j].field, slots[m.decls[j].name]).Ok?
    ensures DumpFrom(m, slots, i).Ok?
    decreases |m.decls| - i
  {
    if i < |m.decls| {
      DumpFromOk(m, slots, i + 1);
    }
  }

  /** A successful `to_dict` maps each field's name to its slot's dump. */
  lemma {:induction false} DumpFromAt(m: VModel, slots: map<string, Value>, i: nat, j: nat)
    requires Distinct(m) && i <= j < |m.decls| && DumpFrom(m, slots, i).Ok?
    ensures m.decls[j].name in slots && Dump(m.decls[j].field, slots[m.decls[j].name]).Ok?
    ensures DumpFrom(m, slots, i).value[m.decls[j].name] == Dump(m.decls[j].field, slots[m.decls[j].name]).value
    decreases j - i
  {
    var n := m.decls[i].name;
    assert n in slots && Dump(m.decls[i].field, slots[n]).Ok? && DumpFrom(m, slots, i + 1).Ok?;
    DumpFromUnfold(m, slots, i);
    if i < j {
      assert m.decls[j].name != n;
      DumpFromAt(m, slots, i + 1, j);
    }
  }

  lemma DumpFromUnfold(m: VModel, slots: map<string, Value>, i: nat)
    requires i < |m.decls| && m.decls[i].name in slots
    requires Dump(m.decls[i].field, slots[m.decls[i].name]).Ok? && DumpFrom(m, slots, i + 1).Ok?
    ensures DumpFrom(m, slots, i) ==
      Ok(DumpFrom(m, slots, i + 1).value[m.decls[i].name := Dump(m.decls[i].field, slots[m.decls[i].name]).value])
  {
  }

  // ----------------------------------------------------------- round trip

  /** Data as a JSON document holds it: no instances, views or callables anywhere. */
  predicate Plain(v: Value) {
    match v
    case Null => true
    case Bool(_) => true
    case Int(_) => true
    case Str(_) => true
    case Bytes(_) => true
    case List(items) => forall x :: x in items ==> Plain(x)
    case Dict(entries) => forall k :: k in entries ==> Plain(entries[k])
    case _ => false
  }

  /** `c` is a value field `f` can hold: what its cast produces. */
  predicate Fits(f: VField, c: Value)
    decreases f, 1
  {
    match f.kind
    case IntegerV => c.Int?
    case FloatV => c.Int?
    case StringV => c.Str?
    case FieldV => false
    case CompoundV(sub) => c.Struct? && c.model == sub.name && FitsModel(sub, c.slots)
    case ListV(child) => c.List? && forall x :: x in c.items ==> Fits(child, x)
  }

  /** Every slot of the model is set to a value its field can hold, and no other slot is. */
  predicate FitsModel(m: VModel, slots: map<string, Value>)
    decreases m, 0
  {
    && slots.Keys == Names(m)
    && forall j :: 0 <= j < |m.decls| ==> m.decls[j].name in slots && Fits(m.decls[j].field, slots[m.decls[j].name])
  }

  /**
   * A model as a class body declares it: distinct field names (the keys of
   * the class dict) and `default` options that are plain data, all the way
   * down.
   */
  predicate WellFormed(m: VModel)
    decreases m, 0
  {
    Distinct(m) && forall j :: 0 <= j < |m.decls| ==> FieldWellFormed(m.decls[j].field)
  }

  predicate FieldWellFormed(f: VField)
    decreases f, 1
  {
    && ("default" in f.metadata ==> Plain(f.metadata["default"]))
    && match f.kind
       case CompoundV(sub) => WellFormed(sub)
       case ListV(child) => FieldWellFormed(child)
       case _ => true
  }

  /** A value a field can hold casts to itself: the cast is idempotent, and an instance passes through. */
  lemma {:induction false} CastKeepsFit(f: VField, c: Value)
    requires Fits(f, c)
    ensures Cast(f, c) == Ok(c)
    decreases f, 0, 0
  {
    if f.kind.ListV? {
      CastAllKeepsFit(f.kind.child, c.items);
    }
  }

  lemma {:induction false} CastAllKeepsFit(f: VField, xs: seq<Value>)
    requires forall x :: x in xs ==> Fits(f, x)
    ensures CastAll(f, xs) == Ok(xs)
    decreases f, 1, |xs|
  {
    if xs != [] {
      CastKeepsFit(f, xs[0]);
      CastAllKeepsFit(f, xs[1..]);
      assert [xs[0]] + xs[1..] == xs;
    }
  }

  /**
   * Dumping a value a field holds and casting the dump back gives the value
   * again: the round trip `Model(instance.to_dict())` relies on.
   */
  lemma {:induction false} FieldRoundTrip(f: VField, c: Value)
    requires Fits(f, c) && FieldWellFormed(f)
    ensures Dump(f, c).Ok? && Cast(f, Dump(f, c).value) == Ok(c)
    decreases f, 1
  {
    match f.kind
    case CompoundV(sub) =>
      ModelRoundTrip(sub, c.slots);
    case _ =>
      CastKeepsFit(f, c);
  }

  /**
   * An instance whose slots its fields can hold is rebuilt by constructing
   * from its own `to_dict`, and the dict handed in is consumed entirely.
   */
  lemma {:induction false} ModelRoundTrip(m: VModel, slots: map<string, Value>)
    requires FitsModel(m, slots) && WellFormed(m)
    ensures DictOf(m, slots).Ok?
    ensures Construct(m, Some(Dict(DictOf(m, slots).value)), map[]) == Built(Ok(Struct(m.name, slots)), map[])
    decreases m, 0
  {
    forall j | 0 <= j < |m.decls|
      ensures Dump(m.decls[j].field, slots[m.decls[j].name]).Ok?
      ensures Cast(m.decls[j].field, Dump(m.decls[j].field, slots[m.decls[j].name]).value) == Ok(slots[m.decls[j].name])
    {
      FieldRoundTrip(m.decls[j].field, slots[m.decls[j].name]);
    }
    DumpFromOk(m, slots, 0);
    var d := DictOf(m, slots).value;
    forall j | 0 <= j < |m.decls|
      ensures d[m.decls[j].name] == Dump(m.decls[j].field, slots[m.decls[j].name]).value
    {
      DumpFromAt(m, slots, 0, j);
    }
    ConstructFromOutcomes(m, d, slots);
  }

  /** A cast of plain data gives a value the field can hold. */
  lemma {:induction false} CastFits(f: VField, x: Value)
    requires FieldWellFormed(f) && Plain(x) && Cast(f, x).Ok?
    ensures Fits(f, Cast(f, x).value)
    decreases f, 0, 2
  {
    match f.kind
    case CompoundV(sub) => CompoundCastFits(f, x);
    case ListV(child) => ListCastFits(f, x);
    case _ =>
  }

  lemma {:induction false} CompoundCastFits(f: VField, x: Value)
    requires f.kind.CompoundV? && FieldWellFormed(f) && Plain(x) && Cast(f, x).Ok?
    ensures Fits(f, Cast(f, x).value)
    decreases f, 0, 1
  {
    var sub := f.kind.model;
    assert Cast(f, x) == Construct(sub, Some(x), map[]).result;
    assert x.Dict?;
    assert Plain(Dict(map[]));
    ConstructFits(sub, x.entries, map[]);
  }

  lemma {:induction false} ListCastFits(f: VField, x: Value)
    requires f.kind.ListV? && FieldWellFormed(f) && Plain(x) && Cast(f, x).Ok?
    ensures Fits(f, Cast(f, x).value)
    decreases f, 0, 1
  {
    var child := f.kind.child;
    ListCastUnfold(f, x);
    var xs := Iterate(x).value;
    IteratePlain(x);
    CastAllFits(child, xs);
  }

  /** A list field's cast that succeeds is the list of its casts of the value's items. */
  lemma ListCastUnfold(f: VField, x: Value)
    requires f.kind.ListV? && Cast(f, x).Ok?
    ensures Iterate(x).Ok? && CastAll(f.kind.child, Iterate(x).value).Ok?
    ensures Cast(f, x) == Ok(List(CastAll(f.kind.child, Iterate(x).value).value))
  {
  }

  /** The items of plain data are plain. */
  lemma IteratePlain(x: Value)
    requires Plain(x) && Iterate(x).Ok?
    ensures forall y :: y in Iterate(x).value ==> Plain(y)
  {
    var ys := Iterate(x).value;
    forall y | y in ys ensures Plain(y) {
      var i :| 0 <= i < |ys| && ys[i] == y;
    }
  }

  lemma {:induction false} CastAllFits(f: VField, xs: seq<Value>)
    requires FieldWellFormed(f) && (forall x :: x in xs ==> Plain(x)) && CastAll(f, xs).Ok?
    ensures forall c :: c in CastAll(f, xs).value ==> Fits(f, c)
    decreases f, 1, |xs|
  {
    if xs != [] {
      CastFits(f, xs[0]);
      CastAllFits(f, xs[1..]);
    }
  }

  /** Construction from plain data gives an instance whose fields hold what they can hold. */
  lemma {:induction false} ConstructFits(m: VModel, doc: map<string, Value>, kw: map<string, Value>)
    requires WellFormed(m) && Plain(Dict(doc)) && Plain(Dict(kw))
    requires Construct(m, Some(Dict(doc)), kw).result.Ok?
    ensures FitsModel(m, Construct(m, Some(Dict(doc)), kw).result.value.slots)
    decreases m, 2
  {
    var slots := Construct(m, Some(Dict(doc)), kw).result.value.slots;
    ConstructedSlots(m, doc, kw);
    forall j | 0 <= j < |m.decls|
      ensures Fits(m.decls[j].field, slots[m.decls[j].name])
    {
      var x := Source(m, j, doc, kw).value;
      assert Cast(m.decls[j].field, x) == Ok(slots[m.decls[j].name]);
      SourcePlain(m, j, doc, kw);
      CastFits(m.decls[j].field, x);
    }
  }

  /** A field's source in plain data with plain defaults is plain. */
  lemma SourcePlain(m: VModel, j: nat, doc: map<string, Value>, kw: map<string, Value>)
    requires WellFormed(m) && Plain(Dict(doc)) && Plain(Dict(kw)) && j < |m.decls| && Source(m, j, doc, kw).Ok?
    ensures Plain(Source(m, j, doc, kw).value)
  {
    assert FieldWellFormed(m.decls[j].field);
  }

  /**
   * `Model(Model(doc).to_dict())` is the instance `Model(doc)` again, for
   * any document and keywords of plain data that construct.
   */
  lemma DocumentRoundTrip(m: VModel, doc: map<string, Value>, kw: map<string, Value>)
    requires WellFormed(m) && Plain(Dict(doc)) && Plain(Dict(kw))
    requires Construct(m, Some(Dict(doc)), kw).result.Ok?
    ensures var inst := Construct(m, Some(Dict(doc)), kw).result.value;
      && DictOf(m, inst.slots).Ok?
      && Construct(m, Some(Dict(DictOf(m, inst.slots).value)), map[]).result == Ok(inst)
  {
    var inst := Construct(m, Some(Dict(doc)), kw).result.value;
    ConstructFits(m, doc, kw);
    ModelRoundTrip(m, inst.slots);
  }

  // ------------------------------------------------------ instance access

  /**
   * `instance.key = value` (lines 183-187): the slot takes the field's cast.
   * A name that is no field is missing from the cast table and raises
   * KeyError; a cast error propagates and leaves the slot as it was.  No
   * cast raises AttributeError, so the fallback to `object.__setattr__` is
   * never reached.
   */
  function AssignStep(m: VModel, slots: map<string, Value>, key: string, v: Value): (r: Assigned)
    ensures r.raised != Some(AttributeError)
    ensures r.raised.Some? ==> r.slots == slots
  {
    match Position(m, key)
    case None => Assigned(slots, Some(KeyError))
    case Some(i) =>
      match Cast(m.decls[i].field, v)
      case Err(e) => Assigned(slots, Some(e))
      case Ok(c) => Assigned(slots[key := c], None)
  }

  /**
   * `instance[name]` (lines 189-193): a set slot; an unset one raises
   * AttributeError from `getattr`, reported as KeyError.
   */
  function ItemOf(slots: map<string, Value>, name: string): (r: Result<Value>)
    ensures r.Ok? <==> name in slots
    ensures name in slots ==> r.value == slots[name]
    ensures r.Err? ==> r.error == KeyError
  {
    if name in slots then Ok(slots[name]) else Err(KeyError)
  }

  /**
   * Assigning field `i` stores the field's cast of the value in its slot and
   * nothing else, or raises the cast's error and changes nothing; the slot
   * then reads back as the cast.  Any other name raises KeyError.
   */
  lemma AssignSpec(m: VModel, slots: map<string, Value>, i: nat, v: Value)
    requires Distinct(m) && i < |m.decls|
    ensures var n := m.decls[i].name; var c := Cast(m.decls[i].field, v); var r := AssignStep(m, slots, n, v);
      && (c.Ok? ==> r == Assigned(slots[n := c.value], None) && ItemOf(r.slots, n) == Ok(c.value))
      && (c.Err? ==> r == Assigned(slots, Some(c.error)))
  {
    DistinctPosition(m, i);
  }

  lemma AssignOtherName(m: VModel, slots: map<string, Value>, key: string, v: Value)
    requires key !in Names(m)
    ensures AssignStep(m, slots, key, v) == Assigned(slots, Some(KeyError))
  {
  }

  /**
   * Assigning plain data keeps every slot holding a value its field can
   * hold: the invariant construction establishes.
   */
  lemma AssignKeepsFit(m: VModel, slots: map<string, Value>, key: string, v: Value)
    requires WellFormed(m) && FitsModel(m, slots) && Plain(v)
    ensures FitsModel(m, AssignStep(m, slots, key, v).slots)
  {
    var p := Position(m, key);
    if p.Some? && Cast(m.decls[p.value].field, v).Ok? {
      var i := p.value;
      var c := Cast(m.decls[i].field, v).value;
      assert AssignStep(m, slots, key, v).slots == slots[key := c];
      assert FieldWellFormed(m.decls[i].field);
      CastFits(m.decls[i].field, v);
      FitsModelUpdate(m, slots, i, c);
    }
  }

  /** Storing in one field's slot a value that field can hold keeps every slot fitting. */
  lemma FitsModelUpdate(m: VModel, slots: map<string, Value>, i: nat, c: Value)
    requires Distinct(m) && FitsModel(m, slots) && i < |m.decls| && Fits(m.decls[i].field, c)
    ensures FitsModel(m, slots[m.decls[i].name := c])
  {
    var n := m.decls[i].name;
    assert m.decls[i] in m.decls;
    forall j | 0 <= j < |m.decls| && j != i ensures m.decls[j].name != n {
      if i < j { assert m.decls[i].name != m.decls[j].name; } else { assert m.decls[j].name != m.decls[i].name; }
    }
  }

  /** A struct model instance: the model it belongs to and its slots. */
  class StructInstance {
    const m: VModel
    var slots: map<string, Value>

    /** The instance as a value, as a compound field holds it. */
    function AsValue(): Value
      reads this
    {
      Struct(m.name, slots)
    }

    constructor Init(m: VModel, slots: map<string, Value>)
      ensures this.m == m && this.slots == slots
    {
      this.m := m;
      this.slots := slots;
    }

    /**
     * `ModelClass(*args, **kwargs)` (lines 148-172): the field loop pops
     * each keyword or document entry it consumes, so `left` is what remains
     * of the caller's dict.  The outcome is `Construct`'s.
     */
    static method New(m: VModel, arg: Option<Value>, kwargs: map<string, Value>)
      returns (inst: StructInstance?, err: Option<Error>, left: map<string, Value>)
      ensures var b := Construct(m, arg, kwargs);
        && left == b.left
        && (b.result.Err? ==> inst == null && err == Some(b.result.error))
        && (b.result.Ok? ==> err.None? && inst != null && fresh(inst) && inst.m == m && inst.AsValue() == b.result.value)
    {
      var d := if arg.None? then Dict(map[]) else arg.value;
      if !d.Dict? {
        return null, Some(ValueError(NotADict)), map[];
      }
      var doc, kw, slots := d.entries, kwargs, map[];
      ghost var start := SState(doc, kw, slots);
      var i := 0;
      while i < |m.decls|
        invariant i <= |m.decls|
        invariant Fill(m, 0, start) == Fill(m, i, SState(doc, kw, slots))
      {
        var n := m.decls[i].name;
        var f := m.decls[i].field;
        var x;
        if n in kw {
          x := kw[n];
          kw := kw - {n};
        } else if n in doc {
          x := doc[n];
          doc := doc - {n};
        } else if "default" in f.metadata {
          x := f.metadata["default"];
          assert doc - {n} == doc;
        } else {
          assert doc - {n} == doc;
          return null, Some(ValueError(MissingKey(n, m.name))), doc;
        }
        var c := Cast(f, x);
        if c.Err? {
          return null, Some(c.error), doc;
        }
        slots := slots[n := c.value];
        i := i + 1;
      }
      if doc != map[] {
        return null, Some(ValueError(UnexpectedKeys(doc.Keys))), doc;
      }
      if kw != map[] {
        return null, Some(ValueError(UnexpectedKeys(kw.Keys))), doc;
      }
      inst := new StructInstance.Init(m, slots);
      err, left := None, doc;
    }

    /** `instance.key = value` (lines 183-187). */
    method SetAttr(key: string, v: Value) returns (err: Option<Error>)
      modifies this
      ensures Assigned(slots, err) == AssignStep(m, old(slots), key, v)
    {
      var p := Position(m, key);
      if p.None? {
        return Some(KeyError);
      }
      var c := Cast(m.decls[p.value].field, v);
      if c.Err? {
        return Some(c.error);
      }
      slots := slots[key := c.value];
      return None;
    }

    function GetItem(name: string): (r: Result<Value>)
      reads this
      ensures r == ItemOf(slots, name)
    {
      ItemOf(slots, name)
    }

    /**
     * `instance[name] = value` (lines 195-199): the assignment, with an
     * AttributeError reported as KeyError; as the assignment never raises
     * AttributeError, it is the assignment itself.
     */
    method SetItem(name: string, v: Value) returns (err: Option<Error>)
      modifies this
      ensures Assigned(slots, err) == AssignStep(m, old(slots), name, v)
    {
      err := SetAttr(name, v);
      err := AsKeyError(err);
    }

    /** `to_dict()` (lines 174-178). */
    function ToDict(): (r: Result<map<string, Value>>)
      reads this
      ensures r == DictOf(m, slots)
    {
      DictOf(m, slots)
    }
  }

  // ----------------------------------------------------------- typed list

  /** The element cast of a List field's typed list (line 70). */
  function ElementCast(child: VField): Value -> Result<Value> {
    x => Cast(child, x)
  }

  lemma {:induction false} CastAllIsCastEach(child: VField, xs: seq<Value>)
    ensures Proxies.CastEach(ElementCast(child), xs) == CastAll(child, xs)
  {
    if xs != [] {
      CastAllIsCastEach(child, xs[1..]);
    }
  }

  /**
   * A List field's cast (lines 45-51) is the construction of a typed list
   * (lines 73-74) over `list(value)`: the same transition as multivalued.py's
   * TypedList with the child's cast, so the list holds the cast of every
   * element, in order, or the first element's error is raised.
   */
  lemma ListCastIsTypedList(f: VField, v: Value)
    requires f.kind.ListV?
    ensures var r := Multivalued.ListCreate(ElementCast(f.kind.child), v);
      && (r.Ok? ==> Cast(f, v) == Ok(List(r.value)))
      && (r.Err? ==> Cast(f, v) == Err(r.error))
  {
    if Iterate(v).Ok? {
      CastAllIsCastEach(f.kind.child, Iterate(v).value);
    }
  }

  /**
   * `insert` on the struct typed list as written: TypedList (lines 72-87)
   * does not override it, so `list.insert` stores the item uncast.
   */
  function InsertAsWritten(xs: seq<Value>, index: int, item: Value): (r: seq<Value>)
    ensures |r| == |xs| + 1 && r[InsertPos(index, |xs|)] == item
  {
    var p := InsertPos(index, |xs|);
    xs[..p] + [item] + xs[p..]
  }

  /** `+=` on the struct typed list as written: `list.__iadd__` appends the items uncast. */
  function IAddAsWritten(xs: seq<Value>, other: Value): (r: Result<seq<Value>>)
    ensures r.Ok? <==> Iterate(other).Ok?
    ensures r.Ok? ==> |r.value| == |xs| + |Iterate(other).value|
    ensures r.Ok? ==> r.value[..|xs|] == xs && r.value[|xs|..] == Iterate(other).value
  {
    var ys :- Iterate(other);
    Ok(xs + ys)
  }

  /**
   * On a list of an Integer field, `insert` and `+=` as written admit text
   * the field rejects, so the list is no longer typed, while the casting
   * `insert` and `extend` raise instead.
   */
  lemma TypedListAdmitsUncast(f: VField, xs: seq<Value>, index: int)
    requires f.kind.IntegerV?
    ensures var cast := ElementCast(f); var bad := Str("cats");
      && !Multivalued.Typed(cast, InsertAsWritten(xs, index, bad))
      && !Multivalued.Typed(cast, IAddAsWritten(xs, List([bad])).value)
      && Multivalued.ListInsert(cast, xs, index, bad) == Multivalued.Out(xs, Some(ValueError(InvalidLiteral)))
      && Multivalued.ListExtendAsWritten(cast, xs, List([bad])) == Multivalued.Out(xs, Some(ValueError(InvalidLiteral)))
  {
    var cast := ElementCast(f);
    var bad := Str("cats");
    Basic.IntegerRejectsCats();
    assert !Multivalued.IsCast(cast, bad);
    var ins := InsertAsWritten(xs, index, bad);
    assert ins[InsertPos(index, |xs|)] == bad;
    var add := IAddAsWritten(xs, List([bad])).value;
    assert add[|xs|] == bad;
    assert Multivalued.CastLead(cast, [bad]) == 0;
    assert Multivalued.Casts(cast, [bad], 0) == [];
  }

  // --------------------------------------------------- compound defaults

  /**
   * A compound field's `default` dict as it is after one construction falls
   * back on it (lines 163-164, 96-99, 155, 162): the nested construction
   * pops every key it consumes from that very dict.  An instance default is
   * passed through untouched.
   */
  function ConsumedDefault(sub: VModel, default: Value): (r: Value)
    ensures !default.Dict? ==> r == default
    ensures default.Dict? ==> r == Dict(Construct(sub, Some(default), map[]).left)
  {
    if default.Dict? then Dict(Construct(sub, Some(default), map[]).left) else default
  }

  /**
   * The first construction that falls back on a compound default empties the
   * default dict, so when the inner model has a field that must be given,
   * the next construction falling back on it raises.
   */
  lemma DefaultConsumedAsWritten(sub: VModel, d: map<string, Value>, j: nat)
    requires Distinct(sub) && j < |sub.decls| && "default" !in sub.decls[j].field.metadata
    requires Construct(sub, Some(Dict(d)), map[]).result.Ok?
    ensures ConsumedDefault(sub, Dict(d)) == Dict(map[])
    ensures Construct(sub, Some(ConsumedDefault(sub, Dict(d))), map[]).result.Err?
  {
    MissingFieldFails(sub, j, map[], map[]);
  }

  /**
   * With the default kept as declared, every construction that gives
   * neither a keyword nor a document entry for a field with a `default`
   * option stores the cast of that same default in its slot.
   */
  lemma DefaultStable(m: VModel, i: nat, doc: map<string, Value>, kw: map<string, Value>)
    requires Distinct(m) && i < |m.decls|
    requires m.decls[i].name !in doc && m.decls[i].name !in kw && "default" in m.decls[i].field.metadata
    requires Construct(m, Some(Dict(doc)), kw).result.Ok?
    ensures var f := m.decls[i].field;
      && Cast(f, f.metadata["default"]).Ok?
      && ItemOf(Construct(m, Some(Dict(doc)), kw).result.value.slots, m.decls[i].name) == Cast(f, f.metadata["default"])
  {
    ConstructedSlots(m, doc, kw);
  }
}
