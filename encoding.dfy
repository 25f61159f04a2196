/**
 * Text encodings the client relies on when it builds a request:
 * Python's `str(int)` for the numbers it puts into query strings,
 * `str.encode()` (UTF-8) and `base64.b64encode` (section 4 of RFC 4648)
 * for the HTTP Basic credentials. Each encoder comes with a decoder and a
 * round-trip lemma, so that what the client sends can be read back exactly.
 */
module Encoding {
  import opened Wrappers

  type byte = x: int | 0 <= x < 256

  // ---------------------------------------------------------------------
  // Decimal text of integers (Python's str(int) and int(str))
  // ---------------------------------------------------------------------

  predicate IsDigit(c: char) { '0' <= c <= '9' }

  predicate AllDigits(s: string) { forall k :: 0 <= k < |s| ==> IsDigit(s[k]) }

  function DigitChar(d: int): char
    requires 0 <= d < 10
  {
    ('0' as int + d) as char
  }

  /** Decimal digits of a natural number, most significant first, no leading zeros. */
  function NatToDecimal(n: nat): string
    decreases n
  {
    if n < 10 then [DigitChar(n)] else NatToDecimal(n / 10) + [DigitChar(n % 10)]
  }

  /** Python's `str(i)` for an `int`: an optional minus sign, then the digits. */
  function IntToDecimal(i: int): string
  {
    if i < 0 then "-" + NatToDecimal(-i) else NatToDecimal(i)
  }

  /** Value of a string of digits. */
  function DigitsValue(s: string): nat
    requires AllDigits(s)
    decreases |s|
  {
    if s == [] then 0 else DigitsValue(s[..|s| - 1]) * 10 + (s[|s| - 1] as int - '0' as int)
  }

  /** Python's `int(s)` restricted to plain decimal text; None where it would raise. */
  function ParseInt(s: string): Option<int>
  {
    if |s| > 1 && s[0] == '-' && AllDigits(s[1..]) then Some(-(DigitsValue(s[1..]) as int))
    else if |s| > 0 && AllDigits(s) then Some(DigitsValue(s))
    else None
  }

  lemma {:induction false} NatToDecimalDigits(n: nat)
    ensures |NatToDecimal(n)| >= 1 && AllDigits(NatToDecimal(n))
    ensures DigitsValue(NatToDecimal(n)) == n
    decreases n
  {
    if n >= 10 {
      NatToDecimalDigits(n / 10);
      var s := NatToDecimal(n / 10) + [DigitChar(n % 10)];
      assert s[..|s| - 1] == NatToDecimal(n / 10);
    }
  }

  /** The decimal text of every integer reads back as that integer. */
  lemma IntToDecimalRoundTrip(i: int)
    ensures ParseInt(IntToDecimal(i)) == Some(i)
  {
    if i < 0 {
      NatToDecimalDigits(-i);
      assert IntToDecimal(i)[1..] == NatToDecimal(-i);
    } else {
      NatToDecimalDigits(i);
    }
  }

  // ---------------------------------------------------------------------
  // UTF-8 (Python's str.encode() / bytes.decode() with the default codec)
  // ---------------------------------------------------------------------

  /** The one to four bytes that encode a Unicode scalar value. */
  function Utf8EncodeChar(c: char): (bs: seq<byte>)
    ensures 1 <= |bs| <= 4
  {
    var n := c as int;
    if n < 0x80 then [n]
    else if n < 0x800 then [0xC0 + n / 64, 0x80 + n % 64]
    else if n < 0x1_0000 then [0xE0 + n / 4096, 0x80 + (n / 64) % 64, 0x80 + n % 64]
    else [0xF0 + n / 262144, 0x80 + (n / 4096) % 64, 0x80 + (n / 64) % 64, 0x80 + n % 64]
  }

  function Utf8Encode(s: string): seq<byte>
    decreases |s|
  {
    if s == [] then [] else Utf8EncodeChar(s[0]) + Utf8Encode(s[1..])
  }

  predicate IsContinuation(b: byte) { 0x80 <= b < 0xC0 }

  /** The six payload bits of a continuation byte. */
  function Low6(b: byte): int { b as int - 0x80 }

  function ScalarAt(n: int, len: nat): Option<(char, nat)>
  {
    if 0 <= n < 0xD800 || 0xE000 <= n < 0x11_0000 then Some((n as char, len)) else None
  }

  /** The first character of a byte string and how many bytes it takes; None if malformed. */
  function Utf8DecodeChar(bs: seq<byte>): (r: Option<(char, nat)>)
    ensures r.Some? ==> 1 <= r.value.1 <= |bs|
  {
    if bs == [] then None
    else
      var b0: int := bs[0];
      if b0 < 0x80 then ScalarAt(b0, 1)
      else if 0xC0 <= b0 < 0xE0 then
        if |bs| < 2 || !IsContinuation(bs[1]) then None
        else ScalarAt((b0 - 0xC0) * 64 + Low6(bs[1]), 2)
      else if 0xE0 <= b0 < 0xF0 then
        if |bs| < 3 || !IsContinuation(bs[1]) || !IsContinuation(bs[2]) then None
        else ScalarAt((b0 - 0xE0) * 4096 + Low6(bs[1]) * 64 + Low6(bs[2]), 3)
      else if 0xF0 <= b0 < 0xF8 then
        if |bs| < 4 || !IsContinuation(bs[1]) || !IsContinuation(bs[2]) || !IsContinuation(bs[3]) then None
        else ScalarAt((b0 - 0xF0) * 262144 + Low6(bs[1]) * 4096 + Low6(bs[2]) * 64 + Low6(bs[3]), 4)
      else None
  }

  function Utf8Decode(bs: seq<byte>): Option<string>
    decreases |bs|
  {
    if bs == [] then Some([])
    else
      var first :- Utf8DecodeChar(bs);
      var rest :- Utf8Decode(bs[first.1..]);
      Some([first.0] + rest)
  }

  lemma Utf8CharRoundTrip(c: char, rest: seq<byte>)
    ensures Utf8DecodeChar(Utf8EncodeChar(c) + rest) == Some((c, |Utf8EncodeChar(c)|))
  {
    var n := c as int;
    var bs := Utf8EncodeChar(c) + rest;
    if n < 0x80 {
    } else if n < 0x800 {
      assert (n / 64) * 64 + n % 64 == n;
    } else if n < 0x1_0000 {
      assert (n / 64) * 64 + n % 64 == n;
      assert (n / 4096) * 64 + (n / 64) % 64 == n / 64;
    } else {
      assert (n / 64) * 64 + n % 64 == n;
      assert (n / 4096) * 64 + (n / 64) % 64 == n / 64;
      assert (n / 262144) * 64 + (n / 4096) % 64 == n / 4096;
      assert bs[0] == 0xF0 + n / 262144;
    }
  }

  /** Decoding the UTF-8 encoding of any string gives the string back. */
  lemma {:induction false} Utf8RoundTrip(s: string)
    ensures Utf8Decode(Utf8Encode(s)) == Some(s)
    decreases |s|
  {
    if s != [] {
      var head := Utf8EncodeChar(s[0]);
      Utf8CharRoundTrip(s[0], Utf8Encode(s[1..]));
      assert (head + Utf8Encode(s[1..]))[|head|..] == Utf8Encode(s[1..]);
      Utf8RoundTrip(s[1..]);
      assert [s[0]] + s[1..] == s;
    }
  }

  // ---------------------------------------------------------------------
  // Base64, section 4 of RFC 4648 (alphabet of Table 1, '=' padding)
  // ---------------------------------------------------------------------

  /** Table 1 of RFC 4648: 0-25 'A'-'Z', 26-51 'a'-'z', 52-61 '0'-'9', 62 '+', 63 '/'. */
  function Base64Char(v: int): (c: char)
    requires 0 <= v < 64
    ensures c != '='
  {
    if v < 26 then ('A' as int + v) as char
    else if v < 52 then ('a' as int + v - 26) as char
    else if v < 62 then ('0' as int + v - 52) as char
    else if v == 62 then '+'
    else '/'
  }

  /** The alphabet value of a character; None outside the alphabet (also for '='). */
  function Base64Value(c: char): (r: Option<int>)
    ensures r.Some? ==> 0 <= r.value < 64
  {
    if 'A' <= c <= 'Z' then Some(c as int - 'A' as int)
    else if 'a' <= c <= 'z' then Some(c as int - 'a' as int + 26)
    else if '0' <= c <= '9' then Some(c as int - '0' as int + 52)
    else if c == '+' then Some(62)
    else if c == '/' then Some(63)
    else None
  }

  /** Three octets as four characters (the 24-bit group of section 4 of RFC 4648). */
  function EncodeGroup(b0: byte, b1: byte, b2: byte): string
  {
    [Base64Char(b0 / 4), Base64Char((b0 % 4) * 16 + b1 / 16), Base64Char((b1 % 16) * 4 + b2 / 64), Base64Char(b2 % 64)]
  }

  /** `base64.b64encode(bs).decode()`. */
  function Base64Encode(bs: seq<byte>): (s: string)
    decreases |bs|
  {
    if |bs| == 0 then ""
    else if |bs| == 1 then [Base64Char(bs[0] / 4), Base64Char((bs[0] % 4) * 16), '=', '=']
    else if |bs| == 2 then
      [Base64Char(bs[0] / 4), Base64Char((bs[0] % 4) * 16 + bs[1] / 16), Base64Char((bs[1] % 16) * 4), '=']
    else EncodeGroup(bs[0], bs[1], bs[2]) + Base64Encode(bs[3..])
  }

  /** One four-character quantum; padding is accepted only in the final one. */
  function DecodeQuantum(q: string, last: bool): Option<seq<byte>>
    requires |q| == 4
  {
    var v0 :- Base64Value(q[0]);
    var v1 :- Base64Value(q[1]);
    if last && q[2] == '=' && q[3] == '=' then Some([v0 * 4 + v1 / 16])
    else
      var v2 :- Base64Value(q[2]);
      if last && q[3] == '=' then Some([v0 * 4 + v1 / 16, (v1 % 16) * 16 + v2 / 4])
      else
        var v3 :- Base64Value(q[3]);
        Some([v0 * 4 + v1 / 16, (v1 % 16) * 16 + v2 / 4, (v2 % 4) * 64 + v3])
  }

  function Base64Decode(s: string): Option<seq<byte>>
    decreases |s|
  {
    if s == [] then Some([])
    else if |s| < 4 then None
    else
      var group :- DecodeQuantum(s[..4], |s| == 4);
      var rest :- Base64Decode(s[4..]);
      Some(group + rest)
  }

  lemma Base64ValueOfChar(v: int)
    requires 0 <= v < 64
    ensures Base64Value(Base64Char(v)) == Some(v)
  {
  }

  lemma GroupArithmetic(b0: byte, b1: byte, b2: byte)
    ensures b0 / 4 * 4 + ((b0 % 4) * 16 + b1 / 16) / 16 == b0
    ensures (((b0 % 4) * 16 + b1 / 16) % 16) * 16 + ((b1 % 16) * 4 + b2 / 64) / 4 == b1
    ensures (((b1 % 16) * 4 + b2 / 64) % 4) * 64 + b2 % 64 == b2
  {
    assert ((b0 % 4) * 16 + b1 / 16) / 16 == b0 % 4;
    assert ((b0 % 4) * 16 + b1 / 16) % 16 == b1 / 16;
    assert ((b1 % 16) * 4 + b2 / 64) / 4 == b1 % 16;
    assert ((b1 % 16) * 4 + b2 / 64) % 4 == b2 / 64;
  }

  lemma DecodeGroupOfThree(b0: byte, b1: byte, b2: byte, last: bool)
    ensures DecodeQuantum(EncodeGroup(b0, b1, b2), last) == Some([b0, b1, b2])
  {
    GroupArithmetic(b0, b1, b2);
    Base64ValueOfChar(b0 / 4);
    Base64ValueOfChar((b0 % 4) * 16 + b1 / 16);
    Base64ValueOfChar((b1 % 16) * 4 + b2 / 64);
    Base64ValueOfChar(b2 % 64);
  }

  /** Decoding consumes one quantum, then decodes the rest. */
  lemma Base64DecodeStep(quantum: string, rest: string)
    requires |quantum| == 4
    requires DecodeQuantum(quantum, rest == []).Some? && Base64Decode(rest).Some?
    ensures Base64Decode(quantum + rest) == Some(DecodeQuantum(quantum, rest == []).value + Base64Decode(rest).value)
  {
    var s := quantum + rest;
    assert s[..4] == quantum;
    assert s[4..] == rest;
  }

  /** Three leading octets decode back from their group, provided the rest decodes back. */
  lemma Base64RoundTripStep(bs: seq<byte>)
    requires |bs| >= 3
    requires Base64Decode(Base64Encode(bs[3..])) == Some(bs[3..])
    ensures Base64Decode(EncodeGroup(bs[0], bs[1], bs[2]) + Base64Encode(bs[3..])) == Some(bs)
  {
    var group, tail := EncodeGroup(bs[0], bs[1], bs[2]), Base64Encode(bs[3..]);
    DecodeGroupOfThree(bs[0], bs[1], bs[2], tail == []);
    Base64DecodeStep(group, tail);
    assert [bs[0], bs[1], bs[2]] + bs[3..] == bs;
  }

  /** The final quantum of one octet, "xy==", decodes to that octet. */
  lemma PaddedQuantumOne(b0: byte)
    ensures DecodeQuantum([Base64Char(b0 / 4), Base64Char((b0 % 4) * 16), '=', '='], true) == Some([b0])
  {
    assert (b0 % 4) * 16 / 16 == b0 % 4;
    Base64ValueOfChar(b0 / 4);
    Base64ValueOfChar((b0 % 4) * 16);
  }

  /** The final quantum of two octets, "xyz=", decodes to those octets. */
  lemma PaddedQuantumTwo(b0: byte, b1: byte)
    ensures DecodeQuantum([Base64Char(b0 / 4), Base64Char((b0 % 4) * 16 + b1 / 16), Base64Char((b1 % 16) * 4), '='], true)
         == Some([b0, b1])
  {
    GroupArithmetic(b0, b1, 0);
    Base64ValueOfChar(b0 / 4);
    Base64ValueOfChar((b0 % 4) * 16 + b1 / 16);
    Base64ValueOfChar((b1 % 16) * 4);
  }

  /** A final single octet: two characters and "==". */
  lemma Base64RoundTripOne(b0: byte)
    ensures Base64Decode(Base64Encode([b0])) == Some([b0])
  {
    var s := Base64Encode([b0]);
    assert s == [Base64Char(b0 / 4), Base64Char((b0 % 4) * 16), '=', '='];
    PaddedQuantumOne(b0);
    assert Base64Decode([]) == Some([]);
    Base64DecodeStep(s, []);
    assert s + [] == s && [b0] + [] == [b0];
  }

  /** Two final octets: three characters and "=". */
  lemma Base64RoundTripTwo(b0: byte, b1: byte)
    ensures Base64Decode(Base64Encode([b0, b1])) == Some([b0, b1])
  {
    var s := Base64Encode([b0, b1]);
    assert s == [Base64Char(b0 / 4), Base64Char((b0 % 4) * 16 + b1 / 16), Base64Char((b1 % 16) * 4), '='];
    PaddedQuantumTwo(b0, b1);
    assert Base64Decode([]) == Some([]);
    Base64DecodeStep(s, []);
    assert s + [] == s && [b0, b1] + [] == [b0, b1];
  }

  /** Decoding the Base64 encoding of any octet string gives the octets back. */
  lemma {:induction false} Base64RoundTrip(bs: seq<byte>)
    ensures Base64Decode(Base64Encode(bs)) == Some(bs)
    decreases |bs|
  {
    if |bs| == 1 {
      assert bs == [bs[0]];
      Base64RoundTripOne(bs[0]);
    } else if |bs| == 2 {
      assert bs == [bs[0], bs[1]];
      Base64RoundTripTwo(bs[0], bs[1]);
    } else if |bs| >= 3 {
      Base64RoundTrip(bs[3..]);
      Base64RoundTripStep(bs);
      assert Base64Encode(bs) == EncodeGroup(bs[0], bs[1], bs[2]) + Base64Encode(bs[3..]);
    }
  }
}
