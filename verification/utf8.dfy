/** UTF-8 as `core::str::from_utf8` accepts it, and Unicode white space as
    `str::split_whitespace` sees it.

    A byte sequence is accepted when it is a concatenation of well-formed sequences in the
    sense of table 3-7 of the Unicode Standard: no overlong forms, no surrogates, nothing
    above U+10FFFF. */
module Utf8 {
  import opened Wrappers

  newtype byte = x: int | 0 <= x < 0x100

  /** A Unicode scalar value: a code point that is not a surrogate. */
  predicate IsScalar(c: int)
  {
    0 <= c <= 0x10_FFFF && !(0xD800 <= c <= 0xDFFF)
  }

  predicate IsContinuation(b: byte)
  {
    0x80 <= b <= 0xBF
  }

  /** The well-formed sequence at the start of `s`: its length and the scalar value it
      encodes, or `None` when `s` does not start with one. */
  function DecodeFirst(s: seq<byte>): (r: Option<(nat, int)>)
    requires s != []
    ensures r.Some? ==> 1 <= r.value.0 <= |s| && r.value.0 <= 4
  {
    var b0 := s[0] as int;
    if b0 < 0x80 then Some((1, b0))
    else if 0xC2 <= b0 <= 0xDF then
      if |s| >= 2 && IsContinuation(s[1]) then Some((2, (b0 - 0xC0) * 0x40 + (s[1] as int - 0x80)))
      else None
    else if 0xE0 <= b0 <= 0xEF then
      var lo := if b0 == 0xE0 then 0xA0 else 0x80;
      var hi := if b0 == 0xED then 0x9F else 0xBF;
      if |s| >= 3 && lo <= s[1] <= hi && IsContinuation(s[2]) then
        Some((3, (b0 - 0xE0) * 0x1000 + (s[1] as int - 0x80) * 0x40 + (s[2] as int - 0x80)))
      else None
    else if 0xF0 <= b0 <= 0xF4 then
      var lo := if b0 == 0xF0 then 0x90 else 0x80;
      var hi := if b0 == 0xF4 then 0x8F else 0xBF;
      if |s| >= 4 && lo <= s[1] <= hi && IsContinuation(s[2]) && IsContinuation(s[3]) then
        Some((4, (b0 - 0xF0) * 0x4_0000 + (s[1] as int - 0x80) * 0x1000 + (s[2] as int - 0x80) * 0x40 + (s[3] as int - 0x80)))
      else None
    else None
  }

  /** `core::str::from_utf8`: the scalar values `s` encodes, or `None` when `s` is not
      UTF-8. */
  function Decode(s: seq<byte>): Option<seq<int>>
    decreases |s|
  {
    if s == [] then Some([])
    else match DecodeFirst(s)
      case None => None
      case Some((n, c)) =>
        match Decode(s[n..])
        case None => None
        case Some(rest) => Some([c] + rest)
  }

  /** The UTF-8 encoding of one scalar value, in the shortest form. */
  function EncodeChar(c: int): (b: seq<byte>)
    requires IsScalar(c)
    ensures 1 <= |b| <= 4
  {
    if c < 0x80 then [c as byte]
    else if c < 0x800 then [(0xC0 + c / 0x40) as byte, (0x80 + c % 0x40) as byte]
    else if c < 0x1_0000 then
      [(0xE0 + c / 0x1000) as byte, (0x80 + c / 0x40 % 0x40) as byte, (0x80 + c % 0x40) as byte]
    else
      [(0xF0 + c / 0x4_0000) as byte, (0x80 + c / 0x1000 % 0x40) as byte,
       (0x80 + c / 0x40 % 0x40) as byte, (0x80 + c % 0x40) as byte]
  }

  /** The UTF-8 encoding of a string of scalar values. */
  function Encode(cs: seq<int>): seq<byte>
    requires forall i :: 0 <= i < |cs| ==> IsScalar(cs[i])
    decreases |cs|
  {
    if cs == [] then [] else EncodeChar(cs[0]) + Encode(cs[1..])
  }

  /** The encoding of a scalar value is a well-formed sequence that decodes to it. */
  lemma DecodeFirstEncodeChar(c: int, rest: seq<byte>)
    requires IsScalar(c)
    ensures DecodeFirst(EncodeChar(c) + rest) == Some((|EncodeChar(c)|, c))
  {
    if c < 0x80 {
    } else if c < 0x800 {
      DecodeTwo(c, rest);
    } else if c < 0x1_0000 {
      DecodeThree(c, rest);
    } else {
      DecodeFour(c, rest);
    }
  }

  lemma DecodeTwo(c: int, rest: seq<byte>)
    requires 0x80 <= c < 0x800
    ensures DecodeFirst(EncodeChar(c) + rest) == Some((2, c))
  {
    var s := EncodeChar(c) + rest;
    var hi, lo := c / 0x40, c % 0x40;
    assert c == hi * 0x40 + lo;
    assert s[0] as int == 0xC0 + hi && s[1] as int == 0x80 + lo;
  }

  lemma DecodeThree(c: int, rest: seq<byte>)
    requires 0x800 <= c < 0x1_0000 && IsScalar(c)
    ensures DecodeFirst(EncodeChar(c) + rest) == Some((3, c))
  {
    var s := EncodeChar(c) + rest;
    var top, mid, lo := c / 0x1000, c / 0x40 % 0x40, c % 0x40;
    assert c == top * 0x1000 + mid * 0x40 + lo;
    assert s[0] as int == 0xE0 + top && s[1] as int == 0x80 + mid && s[2] as int == 0x80 + lo;
  }

  lemma DecodeFour(c: int, rest: seq<byte>)
    requires 0x1_0000 <= c <= 0x10_FFFF
    ensures DecodeFirst(EncodeChar(c) + rest) == Some((4, c))
  {
    var s := EncodeChar(c) + rest;
    var top, high, mid, lo := c / 0x4_0000, c / 0x1000 % 0x40, c / 0x40 % 0x40, c % 0x40;
    FourDigits(c);
    assert 0 <= top <= 4 && (top == 0 ==> high >= 0x10) && (top == 4 ==> high < 0x10) by {
      assert c == top * 0x4_0000 + high * 0x1000 + mid * 0x40 + lo;
    }
    assert s[0] as int == 0xF0 + top && s[1] as int == 0x80 + high;
    assert s[2] as int == 0x80 + mid && s[3] as int == 0x80 + lo;
  }

  /** A code point of up to 21 bits in base 64. */
  lemma FourDigits(c: int)
    requires 0 <= c
    ensures c == c / 0x4_0000 * 0x4_0000 + c / 0x1000 % 0x40 * 0x1000 + c / 0x40 % 0x40 * 0x40 + c % 0x40
  {
    var q1 := c / 0x40;
    var q2 := q1 / 0x40;
    assert q2 == c / 0x1000;
    assert q2 / 0x40 == c / 0x4_0000;
    assert c == q1 * 0x40 + c % 0x40;
    assert q1 == q2 * 0x40 + q1 % 0x40;
    assert q2 == q2 / 0x40 * 0x40 + q2 % 0x40;
  }

  /** A well-formed sequence encodes a scalar value, and is that value's encoding. */
  lemma EncodeCharDecodeFirst(s: seq<byte>)
    requires s != [] && DecodeFirst(s).Some?
    ensures IsScalar(DecodeFirst(s).value.1)
    ensures EncodeChar(DecodeFirst(s).value.1) == s[..DecodeFirst(s).value.0]
  {
    var n := DecodeFirst(s).value.0;
    if n == 2 {
      EncodeTwo(s);
    } else if n == 3 {
      EncodeThree(s);
    } else if n == 4 {
      EncodeFour(s);
    }
  }

  lemma EncodeTwo(s: seq<byte>)
    requires |s| >= 2 && 0xC2 <= s[0] <= 0xDF && IsContinuation(s[1])
    ensures DecodeFirst(s) == Some((2, (s[0] as int - 0xC0) * 0x40 + (s[1] as int - 0x80)))
    ensures IsScalar(DecodeFirst(s).value.1)
    ensures EncodeChar(DecodeFirst(s).value.1) == s[..2]
  {
    var hi, lo := s[0] as int - 0xC0, s[1] as int - 0x80;
    var c := hi * 0x40 + lo;
    assert c / 0x40 == hi && c % 0x40 == lo;
  }

  lemma EncodeThree(s: seq<byte>)
    requires |s| >= 3 && DecodeFirst(s).Some? && 0xE0 <= s[0] <= 0xEF
    ensures IsScalar(DecodeFirst(s).value.1)
    ensures EncodeChar(DecodeFirst(s).value.1) == s[..3]
  {
    var top, mid, lo := s[0] as int - 0xE0, s[1] as int - 0x80, s[2] as int - 0x80;
    var c := top * 0x1000 + mid * 0x40 + lo;
    assert DecodeFirst(s).value.1 == c;
    assert c / 0x1000 == top && c / 0x40 % 0x40 == mid && c % 0x40 == lo;
  }

  lemma EncodeFour(s: seq<byte>)
    requires |s| >= 4 && DecodeFirst(s).Some? && 0xF0 <= s[0] <= 0xF4
    ensures IsScalar(DecodeFirst(s).value.1)
    ensures EncodeChar(DecodeFirst(s).value.1) == s[..4]
  {
    var top, high, mid, lo := s[0] as int - 0xF0, s[1] as int - 0x80, s[2] as int - 0x80, s[3] as int - 0x80;
    var c := top * 0x4_0000 + high * 0x1000 + mid * 0x40 + lo;
    assert DecodeFirst(s).value.1 == c;
    assert IsScalar(c);
    assert c % 0x40 == lo && c / 0x40 == top * 0x1000 + high * 0x40 + mid;
    assert c / 0x40 % 0x40 == mid && c / 0x1000 == top * 0x40 + high;
    assert c / 0x1000 % 0x40 == high && c / 0x4_0000 == top;
  }

  /** Every string of scalar values round-trips through its encoding. */
  lemma {:induction false} DecodeEncode(cs: seq<int>)
    requires forall i :: 0 <= i < |cs| ==> IsScalar(cs[i])
    ensures Decode(Encode(cs)) == Some(cs)
    decreases |cs|
  {
    if cs != [] {
      var e := EncodeChar(cs[0]);
      DecodeFirstEncodeChar(cs[0], Encode(cs[1..]));
      assert (e + Encode(cs[1..]))[|e|..] == Encode(cs[1..]);
      DecodeEncode(cs[1..]);
      assert [cs[0]] + cs[1..] == cs;
    }
  }

  /** Whatever `from_utf8` accepts consists of scalar values and is their encoding: no two
      accepted byte strings decode to the same text. */
  lemma {:induction false} EncodeDecode(s: seq<byte>)
    requires Decode(s).Some?
    ensures forall i :: 0 <= i < |Decode(s).value| ==> IsScalar(Decode(s).value[i])
    ensures Encode(Decode(s).value) == s
    decreases |s|
  {
    DecodedAreScalars(s);
    if s != [] {
      var (n, c) := DecodeFirst(s).value;
      var rest := Decode(s[n..]).value;
      assert Decode(s).value == [c] + rest;
      EncodeCharDecodeFirst(s);
      EncodeDecode(s[n..]);
      EncodeCons(c, rest);
      assert s == s[..n] + s[n..];
    }
  }

  /** Everything `from_utf8` accepts decodes to scalar values. */
  lemma {:induction false} DecodedAreScalars(s: seq<byte>)
    requires Decode(s).Some?
    ensures forall i :: 0 <= i < |Decode(s).value| ==> IsScalar(Decode(s).value[i])
    decreases |s|
  {
    if s != [] {
      var (n, c) := DecodeFirst(s).value;
      EncodeCharDecodeFirst(s);
      DecodedAreScalars(s[n..]);
      assert Decode(s).value == [c] + Decode(s[n..]).value;
    }
  }

  /** Encoding one more scalar value in front appends its encoding in front. */
  lemma EncodeCons(c: int, cs: seq<int>)
    requires IsScalar(c) && forall i :: 0 <= i < |cs| ==> IsScalar(cs[i])
    ensures forall i :: 0 <= i < |[c] + cs| ==> IsScalar(([c] + cs)[i])
    ensures Encode([c] + cs) == EncodeChar(c) + Encode(cs)
  {
    assert ([c] + cs)[1..] == cs;
  }

  /** Bytes that never occur in UTF-8: C0, C1 and F5 to FF. */
  predicate IsNeverUtf8(b: byte)
  {
    b == 0xC0 || b == 0xC1 || b >= 0xF5
  }

  /** A byte string holding a byte that never occurs in UTF-8 is rejected, whatever
      surrounds that byte. */
  lemma {:induction false} NeverUtf8Rejected(s: seq<byte>, i: nat)
    requires i < |s| && IsNeverUtf8(s[i])
    ensures Decode(s) == None
    decreases |s|
  {
    if DecodeFirst(s).Some? {
      var n := DecodeFirst(s).value.0;
      assert i >= n by {
        assert forall k :: 0 <= k < n ==> !IsNeverUtf8(s[k]);
      }
      NeverUtf8Rejected(s[n..], i - n);
    }
  }

  /** `char::is_whitespace`: the code points with the Unicode White_Space property. */
  predicate IsWhitespace(c: int)
  {
    (0x09 <= c <= 0x0D) || c == 0x20 || c == 0x85 || c == 0xA0 || c == 0x1680
    || (0x2000 <= c <= 0x200A) || c == 0x2028 || c == 0x2029 || c == 0x202F
    || c == 0x205F || c == 0x3000
  }
}
