# draughts, modelled in Dafny

draughts is a small Python library for declaring typed document models. A
class body lists *fields*, such as `Integer()`, `String()`, `Enum(...)`,
`Optional(...)`, `Compound(Model)`, `List(field)` and `Mapping(field)`. A
class decorator then turns the class into a model, and a model instance is
built from a plain `dict` (a JSON document) plus keyword arguments. Each
field *casts* the value it is given: it coerces the value or raises.
Compound and list fields wrap their data in *proxy* views. A proxy keeps the
raw document (`_data`) and the typed view (`_view`) side by side, and casts
every value written through it. The library has three engines over the same
idea:

- `model_decorator.model`, with the field classes of `draughts/fields/`;
- `proxy_model.model`, with its own `Integer`, `Float`, `String`, `List`
  and `Compound` fields, whose instances keep `_data` next to the cast
  attributes;
- `struct_model.model`, whose instances hold only the cast values in slots
  and rebuild a document with `to_dict()`.

A helper module `util.py` adds two memoising decorators.

The Dafny modules follow that structure:

| module | file | models |
|---|---|---|
| `Values` | values.dfy | Python values as one datatype; the built-ins the casts use (`len`, `bool`, `iter`, `dict(...)`, indices, slices, hashing) |
| `Text` | text.dfy | `int(str)` / `int(bytes)` parsing, `str(int)`, UTF-8 decoding, `str.lower` on ASCII |
| `Order` | order.dfy | the order in which dict keys are visited (see "Left out") |
| `Schema` | schema.dfy | field declarations of `draughts/fields/` and the flattened field paths |
| `Basic` | basic.dfy | the scalar casts of `fields/basic.py`, and `Enum`'s conversion table |
| `Casting` | casting.dfy | every field's `cast`, and model construction in `model_decorator.py` |
| `Proxies` | proxies.dfy | the `ListProxy` and `MappingProxy` classes of `fields/complex.py` |
| `Multivalued` | multivalued.dfy | `TypedList` and `TypedDict` of `fields/multivalued.py` |
| `ModelDecorator` | modeldecorator.dfy | the registry built by `model`, and the instance's attribute protocol |
| `Variant` | variant.dfy | the field declarations and registries of `proxy_model.py` and `struct_model.py` |
| `ProxyModel` | proxymodel.dfy | casts, list proxies, construction and item access of `proxy_model.py` |
| `StructModel` | structmodel.dfy | casts, construction, `to_dict` and item access of `struct_model.py` |
| `Memo` | memo.dfy | `memoize` and `memoize_on_first` of `util.py` |

Python objects that are changed in place become Dafny classes:

- `ListProxy` and `MappingProxy`, with `data` and `view` fields;
- `TypedList` and `TypedDict`;
- the model instances `Instance`, `ProxyInstance` and `StructInstance`;
- the memoised functions.

Each state-changing method is proved equal to a transition function on the
old state. Each transition function carries lemmas that state what the
source promises: cast on every write, `_data` and `_view` kept aligned,
nothing else changed, and error cases that leave the state as it was.
Exceptions are values of an `Error` datatype, and a failed step reports the
exception it raises together with the state it leaves behind.

Where the design described for the library and its code differ, the model
follows the code, except where the code evidently fails (see "## Findings"
and the named members under "## Left out"):

- An `Enum` field accepts `True` where a member's value is `1`, because
  `True` and `1` are one dict key (`Basic.EnumAcceptsTrueForOne`). A list
  given to an enum raises `ValueError`, not `TypeError`, because
  `fields/basic.py` lines 72-75 turn the `TypeError` into a `ValueError`.
- `proxy_model` has no `factory` option. Only `default` is consulted.
- The engines differ on how much a failed batch leaves behind:
  - `TypedList.extend` commits the prefix it cast before the failing item.
  - `ListProxy.extend` casts the whole batch first and commits nothing when
    a cast fails.
  - A struct model instance consumes its input dict as it goes.

## Model

| member | source | states |
|---|---|---|
| Schema.NewField | draughts/fields/bases.py:4-7 | a new field keeps its keyword options as metadata, has no defaults yet and no name |
| Schema.Lookup | draughts/fields/bases.py:9-10 | `field[key]` is the field's own option, else the model-wide default, else `None` |
| Schema.NewOptional | draughts/fields/basic.py:50-52 | `Optional(f)` wraps `f` and has the option `default=None` |
| Schema.NewEnum | draughts/fields/basic.py:62-69 | an enum field is built exactly when its conversion table can be built, and it carries that table |
| Schema.NewProxyList | draughts/fields/complex.py:21-25 | a proxy `List` accepts only multivalued or proxy element fields and fails the assertion otherwise |
| Schema.ListOf | draughts/fields/__init__.py:7-15 | `List(f)` asserts `f` is not `Optional`; it picks the proxy list for multivalued or proxy fields and `SimpleList` otherwise |
| Schema.MappingOf | draughts/fields/__init__.py:18-26 | `Mapping(f)` asserts `f` is not `Optional`; it picks the proxy mapping for proxy fields and `SimpleMapping` otherwise |
| Schema.Named | draughts/model_decorator.py:49-54 | registering a field gives it its attribute name and the model's options as defaults, and keeps its kind and metadata |
| Schema.PrefixInjective | draughts/fields/complex.py:15-17 | prefixing distinct paths with the same owner keeps them distinct |
| Schema.Contribution | draughts/model_decorator.py:63-65 | a field that is neither compound nor list contributes exactly its own name to the flat registry |
| Schema.ListPathsAsWritten | draughts/model_decorator.py:59-62 | registering a list field always raises `TypeError`, because `flat_fields()` is called without its prefix |
| Schema.Position | draughts/model_decorator.py:76 | a name is found among the fields exactly when it is a field name, at that field's position |
| Schema.FlatFieldsPrefixed | draughts/fields/multivalued.py:38-39 | every flattened path of a field starts with the prefix it was given (also complex.py lines 15-17, 35-36 and 99-100) |
| Schema.ListOfSimpleListPath | draughts/fields/complex.py:35-36 | a proxy list of a simple list flattens to the single path `prefix[].[]`, mapped to the element field |
| Schema.NamedLookup | draughts/fields/bases.py:9-10 | a registered field answers `field[key]` from its own options first, then the model's options, then `None` |
| Schema.FlatFromHasPlainFields | draughts/model_decorator.py:63-65 | a plain field whose name has no `.` or `[` (every attribute name) is registered under its own name, as the named field, whatever fields follow it |
| Schema.FlatFromOmitsPlainName | draughts/model_decorator.py:49-65 | no later field contributes a plain name it does not itself carry |
| Schema.ContributionOmitsPlainName | draughts/model_decorator.py:55-62 | the paths of a compound or list field all carry `.` or `[` after the field's name, so they never equal another field's plain name |
| Schema.FlatFromLaterPlain | draughts/model_decorator.py:49-65 | plain fields register no name other than their own |
| Basic.IntegerCast | draughts/fields/basic.py:16-18 | `int(value)`: integers pass, booleans become 0/1, text is parsed as Python's `int` does on ASCII digits and whitespace, bytes likewise; anything else raises `TypeError`; a bad literal raises `ValueError` |
| Basic.StringCast | draughts/fields/basic.py:26-30 | bytes are UTF-8 decoded, raising `ValueError` when invalid; anything else becomes `str(value)`; the result is always text |
| Basic.BooleanCastAsWritten | draughts/fields/basic.py:9-13 | as written, `isinstance(str, value)` raises `TypeError` for every value |
| Basic.BooleanCast | draughts/fields/basic.py:9-13 | as intended: text is true when its first four characters, lower-cased, are `true`; anything else takes Python truthiness |
| Basic.IntegerOfString | draughts/fields/basic.py:16-30 | `str` of an integer cast back by `Integer` gives the integer again |
| Basic.StringDecodesUtf8 | draughts/fields/basic.py:28-29 | casting the UTF-8 encoding of a text gives that text back |
| Basic.StringIdempotent | draughts/fields/basic.py:26-30 | the `String` cast of a cast value is the same value |
| Basic.IntegerIdempotent | draughts/fields/basic.py:16-18 | the `Integer` cast of a cast value is the same value |
| Basic.IntegerRejectsCats | draughts/fields/basic.py:16-18 | `Integer` rejects the text `cats` with `ValueError` |
| Basic.BooleanAsWrittenRejectsText | draughts/fields/basic.py:11 | the text `True` is rejected as written, and read as true once the check is corrected |
| Basic.BooleanReadsTextPrefix | draughts/fields/basic.py:11-13 | only the first four characters decide text (`TRUEish` is true, `yes` is false); other values use truthiness |
| Basic.BuildTable | draughts/fields/basic.py:65-69 | the loop builds the conversion table: each member under its value, its name and itself, with later members overwriting earlier ones |
| Basic.TableFailureSticks | draughts/fields/basic.py:66-69 | once a member's value is unhashable the table fails, and later members do not change that |
| Basic.TableErrorIsType | draughts/fields/basic.py:67 | the only way the table fails is `TypeError` from an unhashable value |
| Basic.TableShape | draughts/fields/basic.py:66-69 | every member's value, name and self are keys of the table, and every entry is a member |
| Basic.EnumCast | draughts/fields/basic.py:71-75 | the cast succeeds exactly when the value is hashable and in the table, and gives that entry; anything else raises `ValueError` |
| Basic.TableFindsMembers | draughts/fields/basic.py:66-69 | with no two members sharing a key, each member's keys lead to that member |
| Basic.EnumCastFindsMember | draughts/fields/basic.py:71-75 | a member, its name and its value each cast to that member |
| Basic.EnumAcceptsTrueForOne | draughts/fields/basic.py:67-73 | `True` is accepted for a member whose value is `1` |
| Basic.BackendTable | draughts/fields/basic.py:66-69 | an enumeration whose values are its names is filed under exactly its names and its members |
| Basic.EnumOfBackendsAccepts | draughts/fields/basic.py:71-75 | such an enumeration accepts its names |
| Basic.EnumOfBackendsRejects | draughts/fields/basic.py:71-75 | it rejects other text, `1`, `True` and a list, each with `ValueError` |
| Casting.CastAll | draughts/fields/complex.py:49 | casting a batch keeps its length |
| Casting.CastKeys | draughts/fields/complex.py:112 | casting a dict's values keeps exactly the keys visited |
| Casting.CastMap | draughts/fields/multivalued.py:43-45 | casting a dict's values keeps its keys |
| Casting.ProxyNew | draughts/fields/complex.py:47-49 | a list proxy's cast gives a list view |
| Casting.MapProxyNew | draughts/fields/complex.py:110-112 | a mapping proxy has the keys of its data in both `_data` and `_view` |
| Casting.Construct | draughts/model_decorator.py:114-168 | a non-dict argument raises `ValueError`; unknown document keys raise `ValueError` naming them; success gives an instance of the model |
| Casting.Apply | draughts/model_decorator.py:126-165 | handling a field writes its raw data into `_data`, pops its keyword and stores its view in `_compounds` when it has one |
| Casting.Supply | draughts/model_decorator.py:133-134 | a given value is used as it is; a factory is called |
| Casting.Produce | draughts/model_decorator.py:128-161 | a compound or list field stores a view whose data is the raw value written; a basic field stores no view |
| Casting.Stash | draughts/model_decorator.py:138 | reading `._data` of a view succeeds exactly when the view has data, and stores it |
| Casting.CastAllElementwise | draughts/fields/complex.py:49 | a batch casts exactly when every item does, and item by item |
| Casting.CastKeysPointwise | draughts/fields/complex.py:112 | a dict casts exactly when every visited value does, key by key |
| Casting.CastMapPointwise | draughts/fields/multivalued.py:59-60 | `SimpleMapping` casts exactly when every value does, key by key |
| Casting.ProxyNewShape | draughts/fields/complex.py:47-49 | a list proxy over a list is built exactly when every item casts; its view holds the casts and its data the items as the views settle them |
| Casting.AnyIsIdentity | draughts/fields/basic.py:4-6 | `Any` returns its value unchanged |
| Casting.KeywordAndTextAreStrings | draughts/fields/basic.py:33-40 | `Keyword` and `Text` cast as `String` does |
| Casting.OptionalCast | draughts/fields/basic.py:54-57 | `Optional` passes `None` and casts anything else with the wrapped field |
| Casting.CompoundPassThrough | draughts/fields/complex.py:10-13 | an instance of the compound's model passes through unchanged |
| Casting.BasesCannotCast | draughts/fields/bases.py:12-13 | the abstract base fields raise `NotImplementedError` (also lines 21-22 and 33-34) |
| Casting.ProxyKindsAreBacked | draughts/fields/complex.py:10-13 | every compound, list or mapping cast has `_data` |
| Casting.SimpleListCast | draughts/fields/multivalued.py:35-36 | `SimpleList` casts exactly when every item does, item by item, in order |
| Casting.ResolveSpec | draughts/model_decorator.py:126-165 | the three field loops succeed exactly when every field of each group resolves, and then every field's outcome is stored |
| Casting.LeftoverKeywords | draughts/model_decorator.py:167-168 | keywords remain after the loops exactly when some keyword is not a field |
| Casting.DataKeysAreNames | draughts/model_decorator.py:126-165 | after the loops, `_data` has exactly the field names as keys |
| Casting.ConstructSpec | draughts/model_decorator.py:114-168 | construction succeeds exactly when no document key is unknown, every field resolves and every keyword is a field; `_data` then has exactly the field names, each holding its field's outcome |
| Casting.ConstructLoopsFail | draughts/model_decorator.py:126-165 | the first error a field loop raises is what construction raises |
| Casting.ConstructAfterLoops | draughts/model_decorator.py:167-168 | after the loops succeed, construction succeeds exactly when no keyword is left, with the loops' `_data` and `_compounds` |
| Casting.MissingFieldFails | draughts/model_decorator.py:135-136 | a field given nowhere, with neither `default` nor `factory`, raises `ValueError` naming it and the model |
| Casting.PickPriority | draughts/model_decorator.py:127-134 | a keyword wins over the document, the document over `default`, and `default` over `factory` |
| Casting.FactoryAsWrittenFails | draughts/model_decorator.py:147-148 | as written, the factory branch of a non-compound field always raises |
| Casting.FactoryFillsListField | draughts/model_decorator.py:147-148 | with the intended `field.proxy`, a list factory fills the field; as written it raises `AttributeError` |
| Proxies.CastEach | draughts/fields/complex.py:49 | casting a batch keeps its length and raises the first item's error |
| Proxies.CastEachElementwise | draughts/fields/complex.py:57 | a batch casts exactly when every item does, item by item |
| Proxies.CastEachOfField | draughts/fields/complex.py:40 | a proxy's element cast is its field's cast |
| Proxies.Create | draughts/fields/complex.py:47-49 | the proxy is built exactly when every item casts; its `_view` is the casts, aligned with `_data` |
| Proxies.Get | draughts/fields/complex.py:81-82 | `proxy[i]` succeeds exactly for an index in range, negative indices counting from the end |
| Proxies.GetSlice | draughts/fields/complex.py:81-82 | `proxy[start:stop]` holds, in order, exactly the views at the clamped positions `lo` up to `hi`, each what `proxy[lo + k]` reads |
| Proxies.AppendSpec | draughts/fields/complex.py:51-54 | `append` casts the item and adds it at the end of `_view`, and its data at the end of `_data`; a failed cast changes nothing; earlier items are unchanged; a cast without `_data` is added to `_view` only and raises `AttributeError`, leaving the stores misaligned |
| Proxies.AppendUnbackedMisaligns | draughts/fields/complex.py:51-54 | on an empty proxy, appending an item whose cast has no `_data` raises while `len` stays 0 and `proxy[0]` reads the new view |
| Proxies.AppendCheckedSpec | draughts/fields/complex.py:51-54 | the checked `append` succeeds exactly when the cast succeeds with `_data`, then as `append` does; otherwise it changes nothing, so alignment and links are kept |
| Proxies.ListProxy.AppendChecked | draughts/fields/complex.py:51-54 | the new state is the checked `append` of the old |
| Proxies.ExtendCastFailure | draughts/fields/complex.py:56-59 | a batch with an item that fails to cast leaves the proxy unchanged and raises |
| Proxies.ExtendSpec | draughts/fields/complex.py:56-59 | `extend` appends every cast to `_view`; `_data` stays aligned exactly when every cast has data, and otherwise `AttributeError` is raised partway |
| Proxies.InsertAsWrittenMisaligns | draughts/fields/complex.py:61-62 | as written, `insert` grows `_data` but not `_view` |
| Proxies.InsertAsWrittenLosesItem | draughts/fields/complex.py:61-62 | as written, an item inserted into an empty proxy has length 1 but cannot be read |
| Proxies.InsertSpec | draughts/fields/complex.py:61-62 | as intended, `insert` places the cast at the normalised position in `_view` and its data in `_data`, shifting later items |
| Proxies.SetAtSpec | draughts/fields/complex.py:72-75 | `proxy[i] = v` replaces exactly item `i` in both lists; a failed cast or an index out of range changes nothing; a cast without `_data` replaces the view only and raises `AttributeError`, unlinking item `i` |
| Proxies.SetSliceCastFailure | draughts/fields/complex.py:68-71 | slice assignment from values that cannot be iterated, or of which one fails to cast, raises and leaves both lists unchanged |
| Proxies.SetSliceSpec | draughts/fields/complex.py:68-71 | slice assignment replaces the slice with the casts in `_view` and, when every cast has `_data`, their data in `_data`, keeping the lists aligned; otherwise it raises `AttributeError` with `_data` unchanged, misaligned unless the slice kept its length |
| Proxies.SpliceLinked | draughts/fields/complex.py:70-71 | splicing casts into `_view` and their data into `_data` keeps each view backed by its data |
| Proxies.CreateLinked | draughts/fields/complex.py:47-49 | over items whose casts keep their shape, the new proxy's data backs its views |
| Proxies.CreateIsFieldProxy | draughts/fields/complex.py:25 | the proxy class a `List` field builds is the generic proxy with the field's cast |
| Proxies.ListProxy.New | draughts/fields/complex.py:47-49 | `ListProxy(data)` is the proxy `Create` describes, or raises its error |
| Proxies.ListProxy.Append | draughts/fields/complex.py:51-54 | the proxy's new state is the append transition |
| Proxies.ListProxy.Extend | draughts/fields/complex.py:56-59 | the proxy's new state is the extend transition |
| Proxies.ListProxy.AppendDatas | draughts/fields/complex.py:59 | the loop appends the `_data` of each view until one has none, then raises `AttributeError` |
| Proxies.ListProxy.InsertAsWritten | draughts/fields/complex.py:61-62 | the proxy's new state is the as-written insert |
| Proxies.ListProxy.Insert | draughts/fields/complex.py:61-62 | the proxy's new state is the intended insert |
| Proxies.ListProxy.SetItem | draughts/fields/complex.py:72-75 | the proxy's new state is the item-assignment transition |
| Proxies.ListProxy.SetSlice | draughts/fields/complex.py:68-71 | the proxy's new state is the slice-assignment transition |
| Proxies.ListProxy.IAdd | draughts/fields/complex.py:77-79 | `+=` is `extend` |
| Proxies.CastKeysEach | draughts/fields/complex.py:112 | the mapping proxy's view has exactly the data's keys |
| Proxies.CastKeysCover | draughts/fields/complex.py:112 | the mapping view is built exactly when every value casts, key by key |
| Proxies.MapCreate | draughts/fields/complex.py:110-112 | a mapping proxy is built exactly when every value casts; `_view` holds the casts under the data's keys |
| Proxies.MapGet | draughts/fields/complex.py:125-126 | `proxy[k]` succeeds exactly for a key in `_view` |
| Proxies.MapIter | draughts/fields/complex.py:114-115 | iteration yields exactly the keys in `_view` |
| Proxies.MapKeys | draughts/fields/complex.py:134-135 | `keys()` yields exactly the keys of `_data`, as many as `len` |
| Proxies.MapValues | draughts/fields/complex.py:131-132 | `values()` yields the view's value under each key in iteration order |
| Proxies.MapItems | draughts/fields/complex.py:137-138 | `items()` pairs each key in iteration order with its view |
| Proxies.MapSetSpec | draughts/fields/complex.py:117-120 | `proxy[k] = v` stores the cast under `k` and nothing else; `len` grows only for a new key; a failed cast changes nothing |
| Proxies.MapViewsAgree | draughts/fields/complex.py:128-135 | for an aligned proxy, `len`, `keys()`, iteration and `values()` agree |
| Proxies.CastKeysEachOfField | draughts/fields/complex.py:104 | a mapping proxy's element cast is its field's cast |
| Proxies.MapCreateIsFieldProxy | draughts/fields/complex.py:90 | the proxy class a `Mapping` field builds is the generic mapping proxy with the field's cast |
| Proxies.MappingProxy.New | draughts/fields/complex.py:110-112 | `MappingProxy(data)` is the proxy `MapCreate` describes, or raises its error |
| Proxies.MappingProxy.SetItem | draughts/fields/complex.py:117-120 | the proxy's new state is the item-assignment transition |
| Multivalued.ListCreateSpec | draughts/fields/multivalued.py:5-7 | a typed list is built exactly when every item casts, and it holds the casts in order |
| Multivalued.ListAppendSpec | draughts/fields/multivalued.py:9-10 | `append` adds the cast at the end; a failed cast changes nothing; the list stays typed |
| Multivalued.ListInsertSpec | draughts/fields/multivalued.py:15-16 | `insert` puts the cast at the normalised position and shifts the rest; the list stays typed |
| Multivalued.ListSetAtSpec | draughts/fields/multivalued.py:22 | `l[i] = v` replaces exactly item `i` with the cast; a bad index raises `IndexError` and a failed cast raises its error, each changing nothing |
| Multivalued.ListSetSliceFails | draughts/fields/multivalued.py:20 | a slice assignment with an item that fails to cast changes nothing |
| Multivalued.ListSetSliceSpec | draughts/fields/multivalued.py:20 | a slice assignment replaces the slice with the casts, keeping the items around it |
| Multivalued.SpliceTyped | draughts/fields/multivalued.py:20 | splicing casts into a typed list keeps it typed |
| Multivalued.ListExtendAsWrittenSpec | draughts/fields/multivalued.py:12-13 | as written, `extend` keeps the old items, appends the casts of a prefix of the batch, and succeeds exactly when every item casts |
| Multivalued.ListExtendAgree | draughts/fields/multivalued.py:12-13 | when every item casts, the as-written and the atomic `extend` agree |
| Multivalued.ListExtendAtomic | draughts/fields/multivalued.py:12-13 | the corrected `extend` changes nothing when an item fails to cast |
| Multivalued.ListExtendAsWrittenCommitsPrefix | draughts/fields/multivalued.py:12-13 | as written, `extend([good, bad])` keeps the good item and raises |
| Multivalued.DictCreateSpec | draughts/fields/multivalued.py:43-45 | a typed dict is built exactly when every value casts, under the same keys |
| Multivalued.DictSetSpec | draughts/fields/multivalued.py:50-51 | `d[k] = v` stores the cast under `k` and keeps every other entry; a failed cast changes nothing |
| Multivalued.DictSetDefaultAsWrittenFails | draughts/fields/multivalued.py:47-48 | as written, `setdefault` always raises and changes nothing (`dict.setdefault` takes no keyword `default`) |
| Multivalued.DictSetDefaultSpec | draughts/fields/multivalued.py:47-48 | as intended, `setdefault` returns the stored value, adds the cast default only for a new key, and a second call changes nothing |
| Multivalued.TypedList.New | draughts/fields/multivalued.py:5-7 | `TypedList(data, cast)` holds what `ListCreate` computes, or raises its error |
| Multivalued.TypedList.Append | draughts/fields/multivalued.py:9-10 | the new items are the append transition |
| Multivalued.TypedList.ExtendAsWritten | draughts/fields/multivalued.py:12-13 | the loop's new items are the as-written `extend` |
| Multivalued.TypedList.Extend | draughts/fields/multivalued.py:12-13 | the new items are the atomic `extend` |
| Multivalued.TypedList.Insert | draughts/fields/multivalued.py:15-16 | the new items are the insert transition |
| Multivalued.TypedList.SetItem | draughts/fields/multivalued.py:22 | the new items are the item-assignment transition |
| Multivalued.TypedList.SetSlice | draughts/fields/multivalued.py:20 | the new items are the slice-assignment transition |
| Multivalued.TypedList.IAdd | draughts/fields/multivalued.py:24-26 | `+=` is the as-written `extend` |
| Multivalued.TypedDict.New | draughts/fields/multivalued.py:43-45 | `TypedDict(data, cast)` holds what `DictCreate` computes, or raises its error |
| Multivalued.TypedDict.SetItem | draughts/fields/multivalued.py:50-51 | the new entries are the item-assignment transition |
| Multivalued.TypedDict.SetDefaultAsWritten | draughts/fields/multivalued.py:47-48 | the new entries are the as-written `setdefault` |
| Multivalued.TypedDict.SetDefault | draughts/fields/multivalued.py:47-48 | the new entries are the intended `setdefault` |
| ModelDecorator.Compile | draughts/model_decorator.py:49-65 | the loop fills `fields` with every named field, files compounds, lists and basic fields by kind, and builds the flat registry, or raises its error |
| ModelDecorator.Attr | draughts/model_decorator.py:78-109 | a name that is not a field has no attribute |
| ModelDecorator.RawOf | draughts/model_decorator.py:23-24 | `raw(obj)` is the instance's `_data` |
| ModelDecorator.Instance.New | draughts/model_decorator.py:114-168 | the three loops construct exactly what `Construct` describes, or raise its error |
| ModelDecorator.Instance.Get | draughts/model_decorator.py:80-81 | reading an attribute follows the property protocol (also lines 92-93 and 104-105) |
| ModelDecorator.Instance.Set | draughts/model_decorator.py:83-84 | the new `_data` and `_compounds` are the assignment transition (also lines 95-97 and 107-109) |
| ModelDecorator.Instance.Raw | draughts/model_decorator.py:23-24 | `raw(instance)` is its current `_data` |
| ModelDecorator.OutcomeIsLinked | draughts/model_decorator.py:138 | a compound or list field's outcome stores a view whose data is the raw value |
| ModelDecorator.ConstructLinked | draughts/model_decorator.py:138-152 | after construction every view in `_compounds` is backed by the entry of `_data` under its name |
| ModelDecorator.ViewCastHasData | draughts/model_decorator.py:96-97 | a compound or list field's cast always has `_data` |
| ModelDecorator.AssignPlainSpec | draughts/model_decorator.py:83-84 | setting a basic field stores its cast in `_data` only; a failed cast changes nothing |
| ModelDecorator.AssignViewSpec | draughts/model_decorator.py:95-97 | setting a compound or list field stores the view in `_compounds` and its data in `_data`; a failed cast changes nothing (also lines 107-109) |
| ModelDecorator.AssignKeepsLinked | draughts/model_decorator.py:83-109 | every assignment keeps each view backed by `_data` |
| ModelDecorator.AssignThenGet | draughts/model_decorator.py:80-109 | after a successful assignment, reading the attribute gives the cast of the value assigned |
| ModelDecorator.FailedAssignKeepsDocument | draughts/test_model.py:110-122 | a rejected assignment leaves `_data` and `_compounds` as they were |
| ModelDecorator.MappingTakesBasicPath | draughts/model_decorator.py:63-64 | a `Mapping` field is neither compound nor list, so it is handled as a basic field with no view |
| Variant.NewField | draughts/proxy_model.py:11-14 | a new field keeps its keyword options, with no defaults and no name (struct_model.py lines 9-12 alike) |
| Variant.Lookup | draughts/proxy_model.py:16-17 | `field[key]` is the field's own option, else the model's default, else `None` (struct_model.py lines 14-15 alike) |
| Variant.DistinctPosition | draughts/proxy_model.py:203-220 | with distinct names, each field is found at its own position |
| Variant.UnderOwner | draughts/struct_model.py:53-58 | a list's element paths are put under the owner's name, and an unnamed owner fails with `TypeError` |
| Variant.Contribution | draughts/struct_model.py:104-105 | a plain field contributes exactly its own name to the flat registry |
| Variant.Compile | draughts/struct_model.py:123-134 | the registry holds every named field under its name and the flat paths, or raises their error (also proxy_model.py lines 203-220) |
| Variant.NamedLookup | draughts/proxy_model.py:16-17 | a registered field answers from its own options, then the model's |
| Variant.ScalarListPath | draughts/proxy_model.py:64-69 | a list of a scalar field flattens to the list's own name |
| Variant.StructListPathRepeatsName | draughts/struct_model.py:53-58 | in struct_model a scalar list `n` is registered as `n.n`, in proxy_model as `n` |
| Variant.ThreeLevelListFails | draughts/struct_model.py:53-58 | a list of lists of lists fails to register with `TypeError` (proxy_model.py lines 64-69 alike) |
| Variant.ListPathsOwned | draughts/proxy_model.py:64-69 | every path a list registers is its name or starts with its name and a dot |
| Variant.AsKeyError | draughts/proxy_model.py:329-333 | item access reports an `AttributeError` as `KeyError` and passes every other error |
| ProxyModel.Cast | draughts/proxy_model.py:23-62 | `Integer` and `Float` cast as `int`, `String` as `str`, the base field raises `NotImplementedError`; a compound gives an instance of its model and a list a proxy (also lines 179-182) |
| ProxyModel.CastAll | draughts/proxy_model.py:136-139 | casting a batch keeps its length |
| ProxyModel.Proxy | draughts/proxy_model.py:80-170 | a list of compounds or lists gets the full proxy, and a list of scalars the scalar proxy |
| ProxyModel.Construct | draughts/proxy_model.py:269-318 | a non-dict argument and unknown document keys raise `ValueError`; success gives an instance of the model |
| ProxyModel.Produce | draughts/proxy_model.py:281-315 | a compound or list field's attribute is backed by the raw value written; a scalar's attribute is that value |
| ProxyModel.ConstructSpec | draughts/proxy_model.py:269-318 | construction succeeds exactly when no key is unknown, every field resolves and every keyword is a field; leftover keywords raise `ValueError` naming them; `_data` holds every field's outcome |
| ProxyModel.ConstructAfterLoops | draughts/proxy_model.py:317-318 | after the loops, construction succeeds exactly when no keyword is left |
| ProxyModel.MissingFieldFails | draughts/proxy_model.py:286-287 | a field given nowhere and without `default` raises `ValueError`, even with a factory |
| ProxyModel.PickPriority | draughts/proxy_model.py:280-287 | a keyword wins over the document and the document over `default` |
| ProxyModel.ConstructLinked | draughts/proxy_model.py:269-318 | after construction every compound or list attribute is backed by its entry of `_data`, and every scalar attribute equals it |
| ProxyModel.CastAllElementwise | draughts/proxy_model.py:136-139 | a batch casts exactly when every item does, item by item |
| ProxyModel.ProxyIsListProxy | draughts/proxy_model.py:81-124 | the compound branch's proxy behaves as the generic list proxy over the element cast |
| ProxyModel.ScalarProxyOfList | draughts/proxy_model.py:128-168 | the scalar proxy over a list is built exactly when every item casts, and holds the casts in order |
| ProxyModel.ScalarProxyRejectsNonList | draughts/proxy_model.py:136-139 | over anything but a list, the scalar proxy raises the first cast's error, or fails writing back into the input |
| ProxyModel.WrapScalars | draughts/proxy_model.py:136-139 | the loop overwrites each array slot with its cast until one fails; it then leaves the rest, or wraps the whole array in a typed list |
| ProxyModel.CompileAsWrittenRejects | draughts/proxy_model.py:208 | as written, registration raises `AttributeError` once any field has no `assign` |
| ProxyModel.CompileFromRejects | draughts/proxy_model.py:203-220 | as written, a field without `assign` at or after the current one makes registration raise |
| ProxyModel.CompileAsWrittenAgrees | draughts/proxy_model.py:203-220 | when every field has `assign`, the as-written registration is the flat registry |
| ProxyModel.CompileFromAgrees | draughts/proxy_model.py:203-220 | from any position, with `assign` everywhere, the as-written registration agrees with the flat registry |
| ProxyModel.Assignable | draughts/proxy_model.py:208 | the assignable names are field names, including every field that has `assign` |
| ProxyModel.ItemOf | draughts/proxy_model.py:323-327 | `instance["_data"]` is the document; another name gives its attribute or raises `KeyError` |
| ProxyModel.ProxyInstance.New | draughts/proxy_model.py:269-318 | construction is what `Construct` describes, or raises its error |
| ProxyModel.ProxyInstance.SetAttr | draughts/proxy_model.py:320-321 | `_data` is untouched and the attributes are the assignment transition |
| ProxyModel.ProxyInstance.GetItem | draughts/proxy_model.py:323-327 | item access follows `ItemOf` |
| ProxyModel.ProxyInstance.SetItem | draughts/proxy_model.py:329-333 | the attributes are the assignment transition, with `AttributeError` reported as `KeyError` |
| ProxyModel.ProxyInstance.ToDict | draughts/proxy_model.py:335-336 | `to_dict()` is the `_data` document |
| ProxyModel.AssignSpec | draughts/proxy_model.py:320-321 | `Integer` stores `int(v)` or raises and changes nothing; `String` stores `str(v)`; a field without `assign` raises `KeyError` |
| ProxyModel.AssignOnlyAssignable | draughts/proxy_model.py:320-321 | only assignable names change, and only their own attribute; any failure changes nothing |
| ProxyModel.AssignDrifts | draughts/proxy_model.py:320-321 | assigning a new integer changes the attribute but not `_data`, so `to_dict()` no longer agrees with the instance |
| StructModel.Cast | draughts/struct_model.py:24-36 | `Integer`/`Float` cast as `int`, `String` as `str`, the base field raises `NotImplementedError`; a compound gives an instance of its model and a list a list of item casts (the pass-through of the field's own typed list is under Left out); no cast raises `AttributeError` |
| StructModel.CastAll | draughts/struct_model.py:45-51 | casting a batch keeps its length and never raises `AttributeError` |
| StructModel.Construct | draughts/struct_model.py:148-172 | a non-dict argument raises `ValueError`; success gives an instance of the model and empties the caller's dict |
| StructModel.Fill | draughts/struct_model.py:157-166 | the field loop never raises `AttributeError` |
| StructModel.Pop | draughts/struct_model.py:160-162 | a field is popped from the keywords when given there, otherwise from the document |
| StructModel.FillSpec | draughts/struct_model.py:157-166 | the loop from field `i` succeeds exactly when every later field resolves; each slot then holds its outcome and the consumed keys are removed |
| StructModel.ConstructSpec | draughts/struct_model.py:148-172 | construction succeeds exactly when every field resolves, every document key is a field not also given as a keyword, and every keyword is a field; leftovers raise `ValueError` naming them, document keys first; the caller's dict keeps only what was not consumed |
| StructModel.ConstructedSlots | draughts/struct_model.py:157-166 | a successful construction sets exactly the field slots, each to its outcome |
| StructModel.ConstructFromOutcomes | draughts/struct_model.py:148-172 | a document naming every field, whose values cast to given slots, constructs exactly those slots |
| StructModel.SourcePriority | draughts/struct_model.py:159-165 | a keyword wins over the document, the document over `default`; with neither, `ValueError` names the field and model |
| StructModel.KeywordAndDocumentClash | draughts/struct_model.py:159-170 | a field given both as keyword and in the document leaves the document entry unconsumed, and construction fails |
| StructModel.MissingFieldFails | draughts/struct_model.py:163-165 | a field given nowhere and without `default` fails construction |
| StructModel.Dump | draughts/struct_model.py:101-102 | a compound dumps via `to_dict` and fails only with `AttributeError`; other fields dump the value itself (line 20-21) |
| StructModel.DumpFrom | draughts/struct_model.py:174-178 | `to_dict` fails only with `AttributeError` and has exactly the field names as keys |
| StructModel.DictOf | draughts/struct_model.py:174-178 | `to_dict()` fails only with `AttributeError`, else has exactly the field names |
| StructModel.DumpFromOk | draughts/struct_model.py:174-178 | with every slot set and dumpable, `to_dict` succeeds |
| StructModel.DumpFromAt | draughts/struct_model.py:174-178 | a successful `to_dict` maps each field's name to its slot's dump |
| StructModel.CastKeepsFit | draughts/struct_model.py:96-99 | a value a field can hold casts to itself: casts are idempotent and instances pass through |
| StructModel.FieldRoundTrip | draughts/struct_model.py:20-21 | dumping a held value and casting the dump back gives the value |
| StructModel.ModelRoundTrip | draughts/struct_model.py:174-178 | an instance is rebuilt by constructing from its own `to_dict()`, which is consumed entirely |
| StructModel.CastFits | draughts/struct_model.py:24-51 | casting plain data gives a value the field can hold |
| StructModel.ListCastUnfold | draughts/struct_model.py:45-51 | a successful list cast is the list of the item casts |
| StructModel.ConstructFits | draughts/struct_model.py:148-172 | construction from plain data gives slots every field can hold |
| StructModel.DocumentRoundTrip | draughts/struct_model.py:148-178 | `Model(Model(doc).to_dict())` equals `Model(doc)` for plain input that constructs |
| StructModel.AssignStep | draughts/struct_model.py:183-187 | assignment never raises `AttributeError`, and a failed assignment changes no slot |
| StructModel.ItemOf | draughts/struct_model.py:189-193 | `instance[name]` succeeds exactly for a set slot and gives it; otherwise `KeyError` |
| StructModel.AssignSpec | draughts/struct_model.py:183-187 | assigning a field stores its cast in its slot only and reads back as the cast; a failed cast changes nothing |
| StructModel.AssignOtherName | draughts/struct_model.py:185 | a name that is not a field raises `KeyError` from the cast table |
| StructModel.AssignKeepsFit | draughts/struct_model.py:183-187 | assigning plain data keeps every slot holding a value its field can hold |
| StructModel.StructInstance.New | draughts/struct_model.py:148-172 | the loop pops what it consumes and builds what `Construct` describes, leaving its `left` in the caller's dict |
| StructModel.StructInstance.SetAttr | draughts/struct_model.py:183-187 | the new slots are the assignment transition |
| StructModel.StructInstance.GetItem | draughts/struct_model.py:189-193 | item access follows `ItemOf` |
| StructModel.StructInstance.SetItem | draughts/struct_model.py:195-199 | assignment by item, which never raises `AttributeError`, so it equals attribute assignment |
| StructModel.StructInstance.ToDict | draughts/struct_model.py:174-178 | `to_dict()` is `DictOf` of the slots |
| StructModel.CastAllIsCastEach | draughts/struct_model.py:70 | the typed list's element cast is the child field's cast |
| StructModel.ListCastIsTypedList | draughts/struct_model.py:73-74 | a list field's cast is the construction of a typed list over the child's cast |
| StructModel.InsertAsWritten | draughts/struct_model.py:69-87 | the inherited `insert` stores the item uncast, at the normalised position |
| StructModel.IAddAsWritten | draughts/struct_model.py:69-87 | the inherited `+=` appends the items uncast |
| StructModel.TypedListAdmitsUncast | draughts/struct_model.py:69-87 | on an integer list, `insert` and `+=` admit text, while the casting operations raise |
| StructModel.ConsumedDefault | draughts/struct_model.py:162-164 | a dict default is left with what one construction did not consume; an instance default is unchanged |
| StructModel.DefaultConsumedAsWritten | draughts/struct_model.py:162-164 | the first fallback empties a compound's default dict, so the next fallback raises |
| StructModel.DefaultStable | draughts/struct_model.py:163-164 | with the default kept as declared, every fallback stores the cast of that same default |
| Memo.TupleKey | draughts/util.py:10 | an argument tuple is a key exactly when every argument is hashable, and is keyed by their hash keys |
| Memo.FirstKey | draughts/util.py:24 | the first argument is a key exactly when it is hashable |
| Memo.LookupOnlyGrows | draughts/util.py:9-13 | a call never overwrites or drops an entry, and adds at most its own key |
| Memo.FirstCallStores | draughts/util.py:10-12 | on a new key the function's result is returned and stored; an exception stores nothing |
| Memo.RepeatedCallReturnsStored | draughts/util.py:13 | a repeated call returns the stored value, whatever the function would now return |
| Memo.TrueAndOneShareEntry | draughts/util.py:10 | `True` and `1` share a memo entry |
| Memo.UnhashableRaises | draughts/util.py:10 | an unhashable argument raises `TypeError` before the function is called |
| Memo.OnFirstIgnoresRest | draughts/util.py:24-27 | `memoize_on_first` answers from the memo whatever the other arguments are |
| Memo.Memoized.Call | draughts/util.py:9-13 | the new memo and the result are one memoised step |
| Memo.MemoizedOnFirst.Call | draughts/util.py:23-27 | the new memo and the result are one step keyed on the first argument |
| Text.IntOfDecimal | draughts/fields/basic.py:18 | `int(str(n))` is `n` |
| Text.DecodeEncode | draughts/fields/basic.py:29 | UTF-8 decoding inverts encoding |
| Text.LeadingLetterRejected | draughts/fields/basic.py:18 | text starting with a letter is no integer literal |
| Text.StrayContinuationRejected | draughts/fields/basic.py:29 | a stray continuation byte is invalid UTF-8 |
| Text.SurrogateRejected | draughts/fields/basic.py:29 | an encoded surrogate is invalid UTF-8 |

## Left out

- `Float`, `Timestamp`, `JSON` and `UUID`: floating point and UUID parsing
  are not modelled. The `fields` package's `Float` and `Timestamp` are left
  out. `JSON` and `UUID` are not defined in `fields/basic.py` at all.
- ProxyModel.Cast, StructModel.Cast: `Float` casts as `Integer` does.
  This is what the code does: `Float.cast` is `int(value)` in
  `proxy_model.py` (lines 34-36) and `struct_model.py` (lines 29-31). Only
  the `fields` package's `Float` calls `float()`, and it is left out.
- StructModel.Cast: a list field given a value that is already its own
  `TypedList` returns it unchanged in the code (`struct_model.py` lines
  49-50). The model re-casts every item instead, because a `List` value
  does not record which field's typed list built it. The two agree while
  every item is cast (`StructModel.CastKeepsFit`). They differ once the
  inherited `insert` or `+=` has stored an uncast item
  (`StructModel.TypedListAdmitsUncast`). Then `M(a.to_dict())`,
  `M(xs=a.xs)` and `a.xs = a.xs` succeed in the code, keeping the uncast
  item, but re-cast it in the model and raise `ValueError` when it does
  not cast.
- `dumps`, `to_json` and `json.dumps`: JSON serialisation is I/O on text.
  `raw` is modelled.
- The weak-keyed registries and the caches of built proxy classes in
  `model_decorator.py`, `proxy_model.py` and `struct_model.py`. A model is
  a value, and lookups by class are lookups by model name.
- Class creation itself: methods, properties, static values, `__slots__`,
  the `capture` form of the decorator, `__str__` and `__repr__`. These are
  Python metaprogramming and do not bear on casting.
- `draughts/fields.py` (the legacy single-file field set), `randomizer.py`
  and `setup.py`: they are outside the casting core.
- The order of dict keys. Python visits keys in insertion order. The model
  visits them in the lexicographic order of `Order`. Where two errors are
  possible, the model may report a different one first.
- Aliasing. A dict or list handed to a view becomes that view's `_data`
  and is changed in place. The model represents this with
  `Values.Settle`, which replaces the input by the view's data. Writes made
  later through a nested view are not propagated to enclosing documents.
  Only each view's own `_data` and `_view` are kept aligned.
- The identity pass-through in `Compound.cast` is keyed on the model's
  name. Classes are not compared by identity.
- Casting.Cast: the `Boolean` kind uses the intended cast
  (`Basic.BooleanCast`), not the as-written one, so that the rest of the
  model can construct boolean fields.
- Casting.Cast: bytes given to `Integer` are parsed as ASCII digits, which
  are what `int(bytes)` accepts besides spaces and signs.
- Proxies.Length, Proxies.MapLength, Proxies.MapContains: these return
  `len(_data)` and `k in _view` directly and carry no contract of their
  own. They are used in the other lemmas' statements.
- ProxyModel.Cast: the scalar proxy's write-back into a dict raises
  `RuntimeError`. The model reports that and nothing of the dict's
  partial state.
- ModelDecorator.Attr: it states only the missing-attribute case in its
  own contract. What a present attribute reads is stated by
  `ModelDecorator.AssignThenGet` and `ModelDecorator.ConstructLinked`.
- IntegerCast (Basic.IntegerCast, also Text.ParseInt and Text.IntOfStr):
  text is read with ASCII digits and ASCII white space (plus the four
  separator controls). `int()` also accepts other Unicode decimal digits and
  white space, such as `"٣"` or `"\xa05"`; the model rejects them with
  `ValueError`.
- LeadingLetterRejected (Text.LeadingLetterRejected): its premise counts a
  Unicode digit or non-ASCII space as a leading letter, for the same reason.
  Its claim holds for the ASCII parser the model uses, not for `int()` on
  such text.
- StringCast (Basic.StringCast, also Basic.Repr and Basic.ByteRepr): `str()`
  of a list or dict renders its strings between `'` without escaping. Python
  picks `"` when the text holds `'` and no `"`, and escapes control and
  quote characters. `Basic.ByteRepr` always escapes `'`, where Python does
  not when it quotes the bytes with `"`.
- Values.PairsToDict: a pair whose key is not text raises `TypeError`,
  because documents are maps from text. `dict([(1, 2)])` is legal Python.
- Proxies.SetSliceStep, Multivalued.ListSetSlice: only step-1 slices
  `[start:stop]` are modelled. Extended slices with a step, and their
  length check, are not.
- Construct (Casting.Construct), ConstructSpec (Casting.ConstructSpec): a
  list or basic field left to its `factory` is filled by the corrected
  branch (`Casting.Supply`, `Casting.Produce`). As written, lines 147-148
  and 163 of `model_decorator.py` call `field.model(...)` and raise. That
  behaviour is `Casting.FactoryAsWritten`, shown by
  `Casting.FactoryAsWrittenFails`.
- Schema.Flat, ModelDecorator.Compile: the list branch calls
  `flat_fields(name)` with its prefix. As written, line 61 of
  `model_decorator.py` calls it without one and raises `TypeError`
  (`Schema.ListPathsAsWritten`). Line 59 tests `isinstance(field, List)`
  against the `List` helper function of `fields/__init__.py`, which raises
  `TypeError` for every field that is not compound. The model tests for
  the proxy list class instead.
- ModelDecorator.Compile: line 8 of `model_decorator.py` imports `Field`
  from `draughts.fields`, whose `__init__.py` does not export it (nor do
  `JSON` and `UUID` exist in `fields/basic.py`). The model treats the
  import as succeeding, with `Field` the base class of `fields/bases.py`.
- Variant.Compile: a proxy model registers every field without reading
  `field.assign`. As written, line 208 of `proxy_model.py` reads it from
  every field and raises `AttributeError` for list and compound fields
  (`ProxyModel.CompileAsWritten`, `ProxyModel.CompileAsWrittenRejects`).
- StructModel.Construct: a compound field that falls back on its `default`
  dict builds from that dict as declared on every construction. As
  written, the nested construction pops the keys it consumes from the
  default itself, so a later fallback raises
  (`StructModel.DefaultConsumedAsWritten`).
- ProxyModel.Proxy, ProxyModel.ScalarProxyRejectsNonList: a list proxy of
  another instance given as data to a scalar list field is refused with
  `TypeError`. Python reads it through that proxy's `__getitem__` and
  writes each cast back through its `__setitem__`, which casts again with
  that proxy's own field and succeeds when the casts agree. A compound
  list proxy given the same way raises whatever its compound cast raises.
  A view does not record the cast of the field that built it, so the
  model cannot replay that write-back.
- Proxies.ListProxy.Append, Proxies.ListProxy.SetItem,
  Proxies.ListProxy.SetSlice: these follow the code, which stores the view
  before reading its `_data`. `Proxies.AppendCheckedStep` is the checked
  form; the as-written methods are kept because a list field over a
  `SimpleList` reaches them.
- Memo.TupleKey, Memo.FirstKey: a record, struct or view argument is
  keyed by its content. In the code these instances hash by identity,
  because no class defines `__eq__` or `__hash__`. Two equal but distinct
  instances therefore share a memo entry in the model and not in the code.
  No part of the core calls `memoize`.
- Concurrency: none is present in the source.

## Findings

| source | as written | input that shows it | evidently intended | confidence | as-written member | corrected member |
|---|---|---|---|---|---|---|
| draughts/fields/basic.py:11 | `isinstance(str, value)`, with the arguments swapped, raises `TypeError` for every value | `Boolean().cast("True")` | `isinstance(value, str)`: text read by its prefix, anything else by truthiness | high, not executed | Basic.BooleanAsWrittenRejectsText | Basic.BooleanCast |
| draughts/fields/complex.py:61-62 | `insert` puts the view into `_data` and does not touch `_view` | `p = ListProxy([]); p.insert(0, x); p[0]` raises `IndexError` although `len(p) == 1` | insert the view into `_view` and its data into `_data` | high, not executed | Proxies.InsertAsWrittenLosesItem | Proxies.InsertSpec |
| draughts/fields/multivalued.py:12-13 | `extend` feeds a generator to `list.extend`, so the casts before a failing item are kept | `TypedList([], int).extend(["1", "x"])` leaves `[1]` and raises | cast the batch first, then extend, so a failure changes nothing | medium, not executed | Multivalued.ListExtendAsWrittenCommitsPrefix | Multivalued.ListExtendAtomic |
| draughts/model_decorator.py:147-148 | the list and basic `factory` branches call `field.model(...)`, which a list field does not have | a `List(Compound(M), factory=list)` field left out of the document | `field.proxy(factory())` for lists, `cast(factory())` for basic fields | high, not executed | Casting.FactoryAsWrittenFails | Casting.FactoryFillsListField |
| draughts/fields/multivalued.py:47-48 | `dict.setdefault` takes no keyword `default`, so every call raises `TypeError`; nothing is returned | `TypedDict({}, int).setdefault("k", 1)` | store the cast default for a new key and return the stored value | high, not executed | Multivalued.DictSetDefaultAsWrittenFails | Multivalued.DictSetDefaultSpec |
| draughts/proxy_model.py:208 | registration reads `field.assign`, which `List` and `Compound` fields do not have | a proxy model with a `List` field | register only fields that can be assigned, and reject the rest at assignment | medium, not executed | ProxyModel.CompileAsWrittenRejects | ProxyModel.AssignOnlyAssignable |
| draughts/fields/complex.py:51-54 | `append` stores the view in `_view` before reading its `_data`; item and slice assignment (lines 68-75) do the same | `List(List(Integer()))` builds a proxy over `SimpleList` casts, which have no `_data`; `p = ListProxy([]); p.append([1])` raises `AttributeError`, then `len(p) == 0` while `p[0]` reads `[1]` | read `_data` before changing either store, so a failure changes nothing | medium, not executed | Proxies.AppendUnbackedMisaligns | Proxies.AppendCheckedSpec |
| draughts/struct_model.py:162-164 | the nested construction from a compound field's `default` dict pops the keys it consumes from that dict itself | a compound field with `default={"x": 1}` over a model with a required `x`, used by two constructions | build from the default as declared every time (construct from a copy) | high, not executed | StructModel.DefaultConsumedAsWritten | StructModel.DefaultStable |
| draughts/model_decorator.py:61 | `field.flat_fields()` is called without its `prefix` argument | any model with a `List` field | `field.flat_fields(_name)` | high, not executed | Schema.ListPathsAsWritten | Schema.FlatFieldsPrefixed |
