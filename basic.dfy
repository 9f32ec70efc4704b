/**
 * The leaf casts of draughts/fields/basic.py: `Integer`, `String` (and its
 * subclasses `Keyword` and `Text`), `Boolean` and `Enum`, together with the
 * `str()` rendering that `String.cast` applies to non-bytes values.
 * `Any` and `Optional` delegate and live with the cast dispatcher
 * (module Casting).
 */
module Basic {
  import opened Values
  import Order
  import Text

  // ---------------------------------------------------------------- str()

  function HexDigit(d: nat): char
    requires d < 16
  {
    if d < 10 then Text.DigitChar(d) else (('a' as int) + d - 10) as char
  }

  /** One byte as `repr(bytes)` shows it between the quotes. */
  function ByteRepr(b: byte): string {
    if b == 0x5C then "\\\\"
    else if b == 0x27 then "\\'"
    else if b == 0x09 then "\\t"
    else if b == 0x0A then "\\n"
    else if b == 0x0D then "\\r"
    else if 0x20 <= b < 0x7F then [b as char]
    else "\\x" + [HexDigit(b / 16), HexDigit(b % 16)]
  }

  function BytesBody(bs: seq<byte>): string {
    if bs == [] then "" else ByteRepr(bs[0]) + BytesBody(bs[1..])
  }

  /**
   * `str(v)`.  Objects without a readable form (model instances, proxies,
   * callables) render as a fixed placeholder, since their text holds a
   * memory address.
   */
  function StrOf(v: Value): (s: string)
    ensures v.Str? ==> s == v.s
    ensures v.Int? ==> s == Text.Decimal(v.i)
    decreases v, 2, 0
  {
    match v
    case Null => "None"
    case Bool(b) => if b then "True" else "False"
    case Int(i) => Text.Decimal(i)
    case Str(s) => s
    case Bytes(bs) => "b'" + BytesBody(bs) + "'"
    case List(items) => "[" + ReprItems(v, 0) + "]"
    case Dict(entries) => "{" + ReprEntries(v, Order.Sorted(entries.Keys), 0) + "}"
    case Member(e, n, _) => e + "." + n
    case _ => "<object>"
  }

  /** `repr(v)`: like `str(v)` except that strings and members are quoted. */
  function Repr(v: Value): string
    decreases v, 3, 0
  {
    match v
    case Str(s) => "'" + s + "'"
    case Member(e, n, x) => "<" + e + "." + n + ": " + Repr(x) + ">"
    case _ => StrOf(v)
  }

  function ReprItems(v: Value, i: nat): string
    requires v.List? && i <= |v.items|
    decreases v, 1, |v.items| - i
  {
    if i == |v.items| then ""
    else (if i == 0 then "" else ", ") + Repr(v.items[i]) + ReprItems(v, i + 1)
  }

  function ReprEntries(v: Value, keys: seq<string>, i: nat): string
    requires v.Dict? && i <= |keys|
    requires forall k :: k in keys ==> k in v.entries
    decreases v, 1, |keys| - i
  {
    if i == |keys| then ""
    else
      (if i == 0 then "" else ", ") + "'" + keys[i] + "': " + Repr(v.entries[keys[i]])
        + ReprEntries(v, keys, i + 1)
  }

  // ------------------------------------------------------------ the casts

  /** `Integer.cast`: `int(value)` (basic.py lines 16-18). */
  function IntegerCast(v: Value): (r: Result<Value>)
    ensures r.Ok? ==> r.value.Int?
    ensures v.Int? ==> r == Ok(v)
    ensures v.Bool? ==> r == Ok(Int(if v.b then 1 else 0))
    ensures v.Str? ==> (r.Ok? <==> Text.IntOfStr(v.s).Some?)
    ensures v.Str? && r.Ok? ==> r.value.i == Text.IntOfStr(v.s).value
    ensures r.Err? ==> r.error == TypeError || r.error == ValueError(InvalidLiteral)
    ensures !(v.Int? || v.Bool? || v.Str? || v.Bytes?) ==> r == Err(TypeError)
  {
    match v
    case Int(_) => Ok(v)
    case Bool(b) => Ok(Int(if b then 1 else 0))
    case Str(s) =>
      (match Text.IntOfStr(s)
       case Some(n) => Ok(Int(n))
       case None => Err(ValueError(InvalidLiteral)))
    case Bytes(bs) =>
      (match Text.IntOfBytes(bs)
       case Some(n) => Ok(Int(n))
       case None => Err(ValueError(InvalidLiteral)))
    case _ => Err(TypeError)
  }

  /**
   * `String.cast` (basic.py lines 26-30): bytes are decoded as UTF-8, any
   * other value is passed through `str()`.
   */
  function StringCast(v: Value): (r: Result<Value>)
    ensures r.Ok? ==> r.value.Str?
    ensures v.Str? ==> r == Ok(v)
    ensures v.Bytes? ==> (r.Ok? <==> Text.Utf8Decode(v.bytes).Some?)
    ensures v.Bytes? && r.Ok? ==> r.value.s == Text.Utf8Decode(v.bytes).value
    ensures v.Bytes? && r.Err? ==> r.error == ValueError(DecodeFailure)
    ensures !v.Bytes? ==> r == Ok(Str(StrOf(v)))
  {
    if v.Bytes? then
      match Text.Utf8Decode(v.bytes)
      case Some(s) => Ok(Str(s))
      case None => Err(ValueError(DecodeFailure))
    else Ok(Str(StrOf(v)))
  }

  /**
   * `Boolean.cast` as written (basic.py lines 10-13): the call
   * `isinstance(str, value)` has its arguments swapped, so for every value
   * that is not itself a class Python raises TypeError before anything
   * is converted.
   */
  function BooleanCastAsWritten(v: Value): (r: Result<Value>)
    ensures r == Err(TypeError)
  {
    Err(TypeError)
  }

  /**
   * `Boolean.cast` as evidently intended: text is true exactly when its first
   * four characters, lower-cased, spell `true`; anything else is converted by
   * truthiness.
   */
  function BooleanCast(v: Value): (r: Result<Value>)
    ensures r.Ok? ==> r.value.Bool?
    ensures v.Str? ==> r == Ok(Bool(Text.StartsWithTrue(v.s)))
    ensures !v.Str? ==> (r.Ok? <==> Truthy(v).Ok?)
    ensures !v.Str? && r.Ok? ==> r.value.b == Truthy(v).value
  {
    if v.Str? then Ok(Bool(Text.StartsWithTrue(v.s)))
    else
      match Truthy(v)
      case Ok(b) => Ok(Bool(b))
      case Err(e) => Err(e)
  }

  // -------------------------------------------------------------- lemmas

  /** `int(str(n)) == n`: an integer survives a trip through `String.cast`. */
  lemma IntegerOfString(n: int)
    ensures StringCast(Int(n)) == Ok(Str(Text.Decimal(n)))
    ensures IntegerCast(StringCast(Int(n)).value) == Ok(Int(n))
  {
    Text.IntOfDecimal(n);
  }

  /** `String.cast` undoes UTF-8 encoding. */
  lemma StringDecodesUtf8(s: string)
    ensures StringCast(Bytes(Text.Utf8Encode(s))) == Ok(Str(s))
  {
    Text.DecodeEncode(s);
  }

  /** `String.cast` is idempotent: a second cast changes nothing. */
  lemma StringIdempotent(v: Value)
    requires StringCast(v).Ok?
    ensures StringCast(StringCast(v).value) == StringCast(v)
  {
  }

  /** `Integer.cast` is idempotent as well. */
  lemma IntegerIdempotent(v: Value)
    requires IntegerCast(v).Ok?
    ensures IntegerCast(IntegerCast(v).value) == IntegerCast(v)
  {
  }

  /** Non-numeric text such as `'cats'` is rejected with a ValueError. */
  lemma IntegerRejectsCats()
    ensures IntegerCast(Str("cats")) == Err(ValueError(InvalidLiteral))
  {
    Text.LeadingLetterRejected("cats", Text.StrSpace);
  }

  /** The defect: no value at all gets through the written `Boolean.cast`. */
  lemma BooleanAsWrittenRejectsText()
    ensures BooleanCastAsWritten(Str("True")).Err?
    ensures BooleanCast(Str("True")) == Ok(Bool(true))
  {
  }

  /** With the defect repaired, `'TRUEISH'` is true and `'yes'` is not. */
  lemma BooleanReadsTextPrefix()
    ensures BooleanCast(Str("TRUEish")) == Ok(Bool(true))
    ensures BooleanCast(Str("yes")) == Ok(Bool(false))
    ensures BooleanCast(Str("")) == Ok(Bool(false))
    ensures BooleanCast(Int(0)) == Ok(Bool(false))
    ensures BooleanCast(List([Null])) == Ok(Bool(true))
  {
  }

  // ----------------------------------------------------------------- Enum

  /**
   * An enumeration class: its name and the `(name, value)` pairs its
   * iteration yields, in definition order (aliases are not iterated).
   */
  datatype EnumClass = EnumClass(name: string, members: seq<(string, Value)>)

  function MemberAt(e: EnumClass, i: nat): (m: Value)
    requires i < |e.members|
    ensures m.Member? && m.enumName == e.name && m.name == e.members[i].0 && m.value == e.members[i].1
  {
    Member(e.name, e.members[i].0, e.members[i].1)
  }

  /** The keys `Enum.__init__` files a member under: its value, its name, itself. */
  function KeysOf(m: Value): set<Value>
    requires m.Member?
  {
    {HashKey(m.value), Str(m.name), m}
  }

  /**
   * The conversion table after the first `k` members have been entered
   * (basic.py lines 66-69).  Entering a member whose value is unhashable
   * raises TypeError; later entries overwrite earlier ones.
   */
  function Table(e: EnumClass, k: nat): (r: Result<map<Value, Value>>)
    requires k <= |e.members|
    decreases k
  {
    if k == 0 then Ok(map[])
    else
      var prev :- Table(e, k - 1);
      var m := MemberAt(e, k - 1);
      if !Hashable(m.value) then Err(TypeError)
      else Ok(prev[HashKey(m.value) := m][Str(m.name) := m][m := m])
  }

  /** `Enum.__init__`'s table-building loop. */
  method BuildTable(e: EnumClass) returns (r: Result<map<Value, Value>>)
    ensures r == Table(e, |e.members|)
  {
    var conversion: map<Value, Value> := map[];
    var i := 0;
    while i < |e.members|
      invariant 0 <= i <= |e.members|
      invariant Table(e, i) == Ok(conversion)
    {
      var m := MemberAt(e, i);
      if !Hashable(m.value) {
        TableFailureSticks(e, i + 1, |e.members|);
        return Err(TypeError);
      }
      conversion := conversion[HashKey(m.value) := m];
      conversion := conversion[Str(m.name) := m];
      conversion := conversion[m := m];
      i := i + 1;
    }
    return Ok(conversion);
  }

  /** Once building the table has failed, entering more members cannot repair it. */
  lemma {:induction false} TableFailureSticks(e: EnumClass, i: nat, k: nat)
    requires i <= k <= |e.members|
    requires Table(e, i).Err?
    ensures Table(e, k) == Err(TypeError)
    decreases k - i
  {
    if i < k {
      TableFailureSticks(e, i, k - 1);
    } else {
      TableErrorIsType(e, i);
    }
  }

  lemma {:induction false} TableErrorIsType(e: EnumClass, k: nat)
    requires k <= |e.members|
    requires Table(e, k).Err?
    ensures Table(e, k) == Err(TypeError)
    decreases k
  {
    if k > 0 && Table(e, k - 1).Err? {
      TableErrorIsType(e, k - 1);
    }
  }

  /**
   * A built table files every member under its value, its name and itself,
   * and every entry leads to one of the members.
   */
  lemma {:induction false} TableShape(e: EnumClass, k: nat)
    requires k <= |e.members|
    requires Table(e, k).Ok?
    ensures forall i :: 0 <= i < k ==> KeysOf(MemberAt(e, i)) <= Table(e, k).value.Keys
    ensures forall x :: x in Table(e, k).value.Values ==> exists i :: 0 <= i < k && x == MemberAt(e, i)
    ensures forall i :: 0 <= i < k ==> Hashable(e.members[i].1)
    decreases k
  {
    if k > 0 {
      TableShape(e, k - 1);
      var m := MemberAt(e, k - 1);
      var prev := Table(e, k - 1).value;
      var t := Table(e, k).value;
      assert t == prev[HashKey(m.value) := m][Str(m.name) := m][m := m];
      forall x | x in t.Values ensures exists i :: 0 <= i < k && x == MemberAt(e, i) {
        var key :| key in t && t[key] == x;
        if key == m || key == Str(m.name) || key == HashKey(m.value) {
          assert x == MemberAt(e, k - 1);
        } else {
          assert prev[key] == x;
          assert x in prev.Values;
        }
      }
    }
  }

  /** `Enum.cast` (basic.py lines 71-75): a table lookup; a miss or an unhashable value is a ValueError. */
  function EnumCast(table: map<Value, Value>, v: Value): (r: Result<Value>)
    ensures r.Ok? <==> Hashable(v) && HashKey(v) in table
    ensures r.Ok? ==> r.value == table[HashKey(v)] && r.value in table.Values
    ensures r.Err? ==> r.error == ValueError(NotAnEnumValue)
  {
    if Hashable(v) && HashKey(v) in table then Ok(table[HashKey(v)])
    else Err(ValueError(NotAnEnumValue))
  }

  /** When no two members share a key, each member is found by each of its keys. */
  lemma {:induction false} TableFindsMembers(e: EnumClass, k: nat)
    requires k <= |e.members|
    requires Table(e, k).Ok?
    requires forall i, j :: 0 <= i < j < k ==> KeysOf(MemberAt(e, i)) !! KeysOf(MemberAt(e, j))
    ensures forall i, x :: 0 <= i < k && x in KeysOf(MemberAt(e, i)) ==> x in Table(e, k).value && Table(e, k).value[x] == MemberAt(e, i)
    decreases k
  {
    if k > 0 {
      TableFindsMembers(e, k - 1);
      TableShape(e, k);
      var m := MemberAt(e, k - 1);
      var prev := Table(e, k - 1).value;
      var t := Table(e, k).value;
      assert t == prev[HashKey(m.value) := m][Str(m.name) := m][m := m];
      forall i, x | 0 <= i < k && x in KeysOf(MemberAt(e, i)) ensures t[x] == MemberAt(e, i) {
        if i < k - 1 {
          assert x !in KeysOf(m);
        }
      }
    }
  }

  /** Casting a member, its name or its value gives the member back. */
  lemma EnumCastFindsMember(e: EnumClass, i: nat)
    requires i < |e.members|
    requires Table(e, |e.members|).Ok?
    requires forall a, b :: 0 <= a < b < |e.members| ==> KeysOf(MemberAt(e, a)) !! KeysOf(MemberAt(e, b))
    ensures var t := Table(e, |e.members|).value;
      && EnumCast(t, MemberAt(e, i)) == Ok(MemberAt(e, i))
      && EnumCast(t, Str(e.members[i].0)) == Ok(MemberAt(e, i))
      && EnumCast(t, e.members[i].1) == Ok(MemberAt(e, i))
  {
    TableFindsMembers(e, |e.members|);
    TableShape(e, |e.members|);
  }

  /** A member with value 1 is also found by `True`, since `True == 1` as a key. */
  lemma EnumAcceptsTrueForOne()
    ensures var e := EnumClass("Level", [("one", Int(1))]);
      EnumCast(Table(e, 1).value, Bool(true)) == Ok(MemberAt(e, 0))
  {
  }

  /** An enumeration of search back-ends whose values are their names. */
  function Backends(): EnumClass {
    EnumClass("Backend", [("magic", Str("magic")), ("solr", Str("solr")), ("elasticsearch", Str("elasticsearch"))])
  }

  /** The back-end table files each member under its name and under itself. */
  lemma BackendTable()
    ensures Table(Backends(), 3).Ok?
    ensures Table(Backends(), 3).value.Keys
      == {Str("magic"), MemberAt(Backends(), 0), Str("solr"), MemberAt(Backends(), 1), Str("elasticsearch"), MemberAt(Backends(), 2)}
    ensures forall i :: 0 <= i < 3 ==> Table(Backends(), 3).value[Str(Backends().members[i].0)] == MemberAt(Backends(), i)
  {
    var e := Backends();
    var a, b, c := MemberAt(e, 0), MemberAt(e, 1), MemberAt(e, 2);
    assert Table(e, 0) == Ok(map[]);
    var t1 := map[][Str("magic") := a][Str("magic") := a][a := a];
    assert Table(e, 1) == Ok(t1);
    var t2 := t1[Str("solr") := b][Str("solr") := b][b := b];
    assert Table(e, 2) == Ok(t2);
    var t := t2[Str("elasticsearch") := c][Str("elasticsearch") := c][c := c];
    assert Table(e, 3) == Ok(t);
  }

  /** The back-ends' names are accepted and give their members. */
  lemma EnumOfBackendsAccepts()
    ensures var t := Table(Backends(), 3).value;
      && EnumCast(t, Str("magic")) == Ok(Member("Backend", "magic", Str("magic")))
      && EnumCast(t, Str("solr")) == Ok(Member("Backend", "solr", Str("solr")))
  {
    BackendTable();
    assert Backends().members[0].0 == "magic";
    assert Backends().members[1].0 == "solr";
  }

  /** Other text and values of other kinds are rejected. */
  lemma EnumOfBackendsRejects()
    ensures var t := Table(Backends(), 3).value;
      && EnumCast(t, Str("bob")) == Err(ValueError(NotAnEnumValue))
      && EnumCast(t, Int(1)) == Err(ValueError(NotAnEnumValue))
      && EnumCast(t, Bool(true)) == Err(ValueError(NotAnEnumValue))
      && EnumCast(t, List([Str("a")])) == Err(ValueError(NotAnEnumValue))
  {
    BackendTable();
  }
}
