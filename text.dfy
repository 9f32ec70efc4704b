/**
 * The text conversions the leaf casts rely on: `str()` of an integer,
 * `int()` of a string or of bytes (base 10), strict UTF-8 decoding
 * (`bytes.decode()`), and ASCII lower-casing.
 */
module Text {
  import opened Values

  predicate IsDigit(c: char) { '0' <= c <= '9' }

  function DigitChar(d: nat): (c: char)
    requires d < 10
    ensures IsDigit(c)
  {
    (('0' as int) + d) as char
  }

  function DigitVal(c: char): (d: nat)
    requires IsDigit(c)
    ensures d < 10
  {
    (c as int) - ('0' as int)
  }

  /** The decimal digits of a natural number, most significant first. */
  function Natural(n: nat): (s: string)
    ensures |s| > 0 && forall i :: 0 <= i < |s| ==> IsDigit(s[i])
    decreases n
  {
    if n < 10 then [DigitChar(n)] else Natural(n / 10) + [DigitChar(n % 10)]
  }

  /** `str(n)` for an integer `n`. */
  function Decimal(n: int): (s: string)
    ensures |s| > 0 && IsDigit(s[|s| - 1])
    ensures n < 0 <==> s[0] == '-'
  {
    if n < 0 then "-" + Natural(-n) else Natural(n)
  }

  /** The value of a non-empty string of decimal digits. */
  function ParseNat(s: string): nat
    requires forall i :: 0 <= i < |s| ==> IsDigit(s[i])
    decreases |s|
  {
    if s == [] then 0 else ParseNat(s[..|s| - 1]) * 10 + DigitVal(s[|s| - 1])
  }

  /**
   * The body of a base-10 integer literal: decimal digits, where single
   * underscores may separate two digits.
   */
  predicate Grouped(s: string) {
    && |s| > 0
    && IsDigit(s[0])
    && IsDigit(s[|s| - 1])
    && forall i :: 0 <= i < |s| ==> GroupedAt(s, i)
  }

  /** Position `i` holds a digit, or an underscore followed by a digit. */
  predicate GroupedAt(s: string, i: nat)
    requires i < |s|
  {
    IsDigit(s[i]) || (s[i] == '_' && i + 1 < |s| && IsDigit(s[i + 1]))
  }

  function DropUnderscores(s: string): (r: string)
    requires forall i :: 0 <= i < |s| ==> IsDigit(s[i]) || s[i] == '_'
    ensures forall i :: 0 <= i < |r| ==> IsDigit(r[i])
    ensures |r| <= |s|
  {
    if s == [] then []
    else if s[0] == '_' then DropUnderscores(s[1..])
    else [s[0]] + DropUnderscores(s[1..])
  }

  /** The characters `int()` strips around the literal of a `str`. */
  const StrSpace: set<char> :=
    {' ', '\t', '\n', '\r', 11 as char, 12 as char, 28 as char, 29 as char, 30 as char, 31 as char}

  /** The bytes `int()` strips around the literal of a `bytes` value. */
  const BytesSpace: set<char> := {' ', '\t', '\n', '\r', 11 as char, 12 as char}

  function TrimLeft(s: string, space: set<char>): (r: string)
    ensures |r| <= |s| && r == s[|s| - |r|..]
    ensures r == [] || r[0] !in space
    decreases |s|
  {
    if s != [] && s[0] in space then TrimLeft(s[1..], space) else s
  }

  function TrimRight(s: string, space: set<char>): (r: string)
    ensures |r| <= |s| && r == s[..|r|]
    ensures r == [] || r[|r| - 1] !in space
    decreases |s|
  {
    if s != [] && s[|s| - 1] in space then TrimRight(s[..|s| - 1], space) else s
  }

  /**
   * `int(s)` in base 10: surrounding white space, an optional sign, then a
   * grouped run of digits.  None is the ValueError for an invalid literal.
   */
  function ParseInt(s: string, space: set<char>): Option<int> {
    var t := TrimRight(TrimLeft(s, space), space);
    var neg := |t| > 0 && t[0] == '-';
    var body := if |t| > 0 && (t[0] == '+' || t[0] == '-') then t[1..] else t;
    if Grouped(body) then
      GroupedChars(body);
      var n: int := ParseNat(DropUnderscores(body));
      Some(if neg then -n else n)
    else None
  }

  lemma GroupedChars(s: string)
    requires Grouped(s)
    ensures forall i :: 0 <= i < |s| ==> IsDigit(s[i]) || s[i] == '_'
  {
    forall i | 0 <= i < |s| ensures IsDigit(s[i]) || s[i] == '_' {
      assert GroupedAt(s, i);
    }
  }

  /** `int(s)` for a `str` value. */
  function IntOfStr(s: string): Option<int> {
    ParseInt(s, StrSpace)
  }

  /** `int(b)` for a `bytes` value: the bytes are read as ASCII. */
  function IntOfBytes(b: seq<byte>): Option<int> {
    ParseInt(seq(|b|, i requires 0 <= i < |b| => b[i] as char), BytesSpace)
  }

  /** Text that starts with a character which is neither space, sign nor digit is not a literal. */
  lemma LeadingLetterRejected(s: string, space: set<char>)
    requires |s| > 0 && s[0] !in space && s[0] != '+' && s[0] != '-' && !IsDigit(s[0])
    ensures ParseInt(s, space) == None
  {
    assert TrimLeft(s, space) == s;
    var t := TrimRight(s, space);
    if |t| > 0 {
      assert t[0] == s[0];
    }
  }

  lemma ParseNatOfNatural(n: nat)
    ensures ParseNat(Natural(n)) == n
    decreases n
  {
    if n >= 10 {
      var s := Natural(n);
      var p := Natural(n / 10);
      assert s == p + [DigitChar(n % 10)];
      assert s[..|s| - 1] == p;
      ParseNatOfNatural(n / 10);
    }
  }

  lemma DropUnderscoresOfDigits(s: string)
    requires forall i :: 0 <= i < |s| ==> IsDigit(s[i])
    ensures DropUnderscores(s) == s
  {
    if s != [] {
      DropUnderscoresOfDigits(s[1..]);
    }
  }

  /** `int(str(n)) == n` for every integer `n`. */
  lemma {:induction false} IntOfDecimal(n: int)
    ensures IntOfStr(Decimal(n)) == Some(n)
  {
    var s := Decimal(n);
    assert s[0] !in StrSpace;
    assert s[|s| - 1] !in StrSpace;
    assert TrimLeft(s, StrSpace) == s;
    assert TrimRight(s, StrSpace) == s;
    var m: nat := if n < 0 then -n else n;
    var body := Natural(m);
    if n < 0 {
      assert s[1..] == body;
    }
    assert Grouped(body);
    DropUnderscoresOfDigits(body);
    ParseNatOfNatural(m);
  }

  // ---------------------------------------------------------------- UTF-8

  predicate IsCont(b: byte) { 0x80 <= b <= 0xBF }

  /** The code point of one UTF-8 sequence at the head of `bs` and its length. */
  function DecodeOne(bs: seq<byte>): (r: Option<(char, nat)>)
    requires |bs| > 0
    ensures r.Some? ==> 1 <= r.value.1 <= 4 && r.value.1 <= |bs|
  {
    var b0 := bs[0] as int;
    if b0 < 0x80 then Some((b0 as char, 1))
    else if 0xC2 <= b0 <= 0xDF then
      if |bs| >= 2 && IsCont(bs[1]) then
        Some((((b0 - 0xC0) * 64 + (bs[1] as int - 0x80)) as char, 2))
      else None
    else if 0xE0 <= b0 <= 0xEF then
      var lo := if b0 == 0xE0 then 0xA0 else 0x80;
      var hi := if b0 == 0xED then 0x9F else 0xBF;
      if |bs| >= 3 && lo <= bs[1] <= hi && IsCont(bs[2]) then
        Some((((b0 - 0xE0) * 4096 + (bs[1] as int - 0x80) * 64 + (bs[2] as int - 0x80)) as char, 3))
      else None
    else if 0xF0 <= b0 <= 0xF4 then
      var lo := if b0 == 0xF0 then 0x90 else 0x80;
      var hi := if b0 == 0xF4 then 0x8F else 0xBF;
      if |bs| >= 4 && lo <= bs[1] <= hi && IsCont(bs[2]) && IsCont(bs[3]) then
        Some((((b0 - 0xF0) * 262144 + (bs[1] as int - 0x80) * 4096 + (bs[2] as int - 0x80) * 64 + (bs[3] as int - 0x80)) as char, 4))
      else None
    else None
  }

  /**
   * `bs.decode()`: strict UTF-8.  None is the UnicodeDecodeError (a
   * ValueError): a stray continuation byte, an overlong form, a surrogate,
   * a code point above U+10FFFF or a truncated sequence.
   */
  function Utf8Decode(bs: seq<byte>): (r: Option<string>)
    ensures bs == [] ==> r == Some([])
    ensures r.Some? ==> |r.value| <= |bs|
    decreases |bs|
  {
    if bs == [] then Some([])
    else
      match DecodeOne(bs)
      case None => None
      case Some((c, n)) =>
        match Utf8Decode(bs[n..])
        case None => None
        case Some(rest) => Some([c] + rest)
  }

  /** The UTF-8 encoding of one character. */
  function EncodeChar(c: char): (r: seq<byte>)
    ensures 1 <= |r| <= 4
  {
    var n := c as int;
    if n < 0x80 then [n]
    else if n < 0x800 then [0xC0 + n / 64, 0x80 + n % 64]
    else if n < 0x10000 then [0xE0 + n / 4096, 0x80 + (n / 64) % 64, 0x80 + n % 64]
    else [0xF0 + n / 262144, 0x80 + (n / 4096) % 64, 0x80 + (n / 64) % 64, 0x80 + n % 64]
  }

  /** `s.encode()`. */
  function Utf8Encode(s: string): (r: seq<byte>)
    ensures |s| <= |r| <= 4 * |s|
  {
    if s == [] then [] else EncodeChar(s[0]) + Utf8Encode(s[1..])
  }

  lemma DecodeTwo(c: char, rest: seq<byte>)
    requires 0x80 <= c as int < 0x800
    ensures DecodeOne(EncodeChar(c) + rest) == Some((c, 2))
  {
    var n := c as int;
    var q, r := n / 64, n % 64;
    assert n == q * 64 + r && 2 <= q < 32;
    var bs := EncodeChar(c) + rest;
    assert bs[0] == 0xC0 + q && bs[1] == 0x80 + r;
  }

  lemma DecodeThree(c: char, rest: seq<byte>)
    requires 0x800 <= c as int < 0x10000
    ensures DecodeOne(EncodeChar(c) + rest) == Some((c, 3))
  {
    var n := c as int;
    var q, r := n / 4096, n % 4096;
    var m, l := r / 64, r % 64;
    assert n == q * 4096 + m * 64 + l;
    assert (n / 64) % 64 == m by {
      assert n / 64 == q * 64 + m;
    }
    var bs := EncodeChar(c) + rest;
    assert bs[0] == 0xE0 + q && bs[1] == 0x80 + m && bs[2] == 0x80 + l;
    assert q == 0 ==> m >= 32;
    assert q == 13 ==> m < 32;
  }

  lemma DecodeFour(c: char, rest: seq<byte>)
    requires 0x10000 <= c as int
    ensures DecodeOne(EncodeChar(c) + rest) == Some((c, 4))
  {
    var n := c as int;
    var q, r := n / 262144, n % 262144;
    var m, r2 := r / 4096, r % 4096;
    var k, l := r2 / 64, r2 % 64;
    assert n == q * 262144 + m * 4096 + k * 64 + l;
    assert (n / 4096) % 64 == m by {
      assert n / 4096 == q * 64 + m;
    }
    assert (n / 64) % 64 == k by {
      assert n / 64 == q * 4096 + m * 64 + k;
    }
    var bs := EncodeChar(c) + rest;
    assert bs[0] == 0xF0 + q && bs[1] == 0x80 + m && bs[2] == 0x80 + k && bs[3] == 0x80 + l;
    assert q == 0 ==> m >= 16;
    assert q == 4 ==> m < 16;
  }

  lemma DecodeOneOfEncodeChar(c: char, rest: seq<byte>)
    ensures DecodeOne(EncodeChar(c) + rest) == Some((c, |EncodeChar(c)|))
  {
    var n := c as int;
    if n < 0x80 {
      assert (EncodeChar(c) + rest)[0] == n;
    } else if n < 0x800 {
      DecodeTwo(c, rest);
    } else if n < 0x10000 {
      DecodeThree(c, rest);
    } else {
      DecodeFour(c, rest);
    }
  }

  /** Decoding the UTF-8 encoding of a string gives the string back. */
  lemma {:induction false} DecodeEncode(s: string)
    ensures Utf8Decode(Utf8Encode(s)) == Some(s)
  {
    if s != [] {
      var e := EncodeChar(s[0]);
      var tail := Utf8Encode(s[1..]);
      DecodeOneOfEncodeChar(s[0], tail);
      assert (e + tail)[|e|..] == tail;
      DecodeEncode(s[1..]);
      assert [s[0]] + s[1..] == s;
    }
  }

  /** A lone continuation byte is not valid UTF-8. */
  lemma StrayContinuationRejected()
    ensures Utf8Decode([0x80]) == None
  {
  }

  /** An encoded surrogate (U+D800) is rejected. */
  lemma SurrogateRejected()
    ensures Utf8Decode([0xED, 0xA0, 0x80]) == None
  {
  }

  // ------------------------------------------------------------ lower-case

  /** `c.lower()` restricted to ASCII: upper-case letters become lower-case. */
  function AsciiLower(c: char): (d: char)
    ensures 'A' <= c <= 'Z' ==> d as int == c as int + 32
    ensures !('A' <= c <= 'Z') ==> d == c
  {
    if 'A' <= c <= 'Z' then (c as int + 32) as char else c
  }

  /** `s[0:4].lower() == 'true'`. */
  predicate StartsWithTrue(s: string) {
    |s| >= 4 && AsciiLower(s[0]) == 't' && AsciiLower(s[1]) == 'r'
      && AsciiLower(s[2]) == 'u' && AsciiLower(s[3]) == 'e'
  }
}
