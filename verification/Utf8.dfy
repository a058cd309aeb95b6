/** The UTF-8 encoding of Unicode scalar values (RFC 3629, section 3), with the
    strict decoder that refuses overlong forms and surrogates. */
module Utf8 {
  import opened Outcomes

  type Byte = x: int | 0 <= x < 256

  function EncodeChar(c: char): (b: seq<Byte>)
    ensures 1 <= |b| <= 4
  {
    var u := c as int;
    if u < 0x80 then [u]
    else if u < 0x800 then [0xC0 + u / 64, 0x80 + u % 64]
    else if u < 0x1_0000 then [0xE0 + u / 4096, 0x80 + u / 64 % 64, 0x80 + u % 64]
    else [0xF0 + u / 0x4_0000, 0x80 + u / 4096 % 64, 0x80 + u / 64 % 64, 0x80 + u % 64]
  }

  function Encode(s: string): seq<Byte> {
    if s == "" then [] else EncodeChar(s[0]) + Encode(s[1..])
  }

  predicate Continues(b: Byte) { 0x80 <= b < 0xC0 }

  function Six(b: Byte): (r: int)
    requires Continues(b)
    ensures 0 <= r < 64
  {
    b as int - 0x80
  }

  predicate Scalar(u: int) { 0 <= u < 0xD800 || 0xE000 <= u < 0x11_0000 }

  /** The scalar value at the front and the number of bytes that hold it. */
  function DecodeFirst(b: seq<Byte>): (r: Option<(char, nat)>)
    ensures r.Some? ==> 1 <= r.value.1 <= |b|
  {
    if b == [] then None
    else if b[0] < 0x80 then Some((b[0] as char, 1))
    else if 0xC0 <= b[0] < 0xE0 then
      if |b| >= 2 && Continues(b[1]) then
        var u: int := (b[0] as int - 0xC0) * 64 + Six(b[1]);
        if u >= 0x80 then Some((u as char, 2)) else None
      else None
    else if 0xE0 <= b[0] < 0xF0 then
      if |b| >= 3 && Continues(b[1]) && Continues(b[2]) then
        var u: int := ((b[0] as int - 0xE0) * 64 + Six(b[1])) * 64 + Six(b[2]);
        if u >= 0x800 && Scalar(u) then Some((u as char, 3)) else None
      else None
    else if 0xF0 <= b[0] < 0xF8 then
      if |b| >= 4 && Continues(b[1]) && Continues(b[2]) && Continues(b[3]) then
        var u: int := (((b[0] as int - 0xF0) * 64 + Six(b[1])) * 64 + Six(b[2])) * 64 + Six(b[3]);
        if u >= 0x1_0000 && Scalar(u) then Some((u as char, 4)) else None
      else None
    else None
  }

  function Decode(b: seq<Byte>): Option<string> {
    if b == [] then Some("")
    else match DecodeFirst(b)
      case None => None
      case Some(first) =>
        match Decode(b[first.1..])
        case None => None
        case Some(rest) => Some([first.0] + rest)
  }

  /** The digits of `u` in base 64. */
  lemma Digits(u: nat)
    ensures u == u / 64 * 64 + u % 64
    ensures u == (u / 4096 * 64 + u / 64 % 64) * 64 + u % 64
    ensures u == ((u / 0x4_0000 * 64 + u / 4096 % 64) * 64 + u / 64 % 64) * 64 + u % 64
  {
    assert u / 64 / 64 == u / 4096;
    assert u / 4096 / 64 == u / 0x4_0000;
  }

  lemma Undigits2(a: nat, x: nat)
    requires x < 64
    ensures (a * 64 + x) / 64 == a && (a * 64 + x) % 64 == x
  {
  }

  /** The first encoded character is read back, whatever follows it. */
  lemma DecodeEncodedChar(c: char, rest: seq<Byte>)
    ensures DecodeFirst(EncodeChar(c) + rest) == Some((c, |EncodeChar(c)|))
  {
    var e := EncodeChar(c);
    var b := e + rest;
    Digits(c as int);
    assert b[0] == e[0] && (|e| > 1 ==> b[1] == e[1]) && (|e| > 2 ==> b[2] == e[2]) && (|e| > 3 ==> b[3] == e[3]);
  }

  /** Decoding inverts encoding on every string. */
  lemma {:induction false} DecodeEncode(s: string)
    ensures Decode(Encode(s)) == Some(s)
  {
    if s != "" {
      DecodeEncodedChar(s[0], Encode(s[1..]));
      DecodeEncode(s[1..]);
      assert Encode(s)[|EncodeChar(s[0])|..] == Encode(s[1..]);
      assert [s[0]] + s[1..] == s;
    }
  }

  /** The decoder is strict: what it accepts is the encoding of its result. */
  lemma DecodedCharEncodes(b: seq<Byte>)
    requires DecodeFirst(b).Some?
    ensures EncodeChar(DecodeFirst(b).value.0) == b[..DecodeFirst(b).value.1]
  {
    if b[0] < 0x80 {
    } else if b[0] < 0xE0 {
      Encoded2(b[0] as int - 0xC0, Six(b[1]));
    } else if b[0] < 0xF0 {
      Encoded3(b[0] as int - 0xE0, Six(b[1]), Six(b[2]));
    } else {
      Encoded4(b[0] as int - 0xF0, Six(b[1]), Six(b[2]), Six(b[3]));
    }
  }

  lemma Encoded2(h: nat, x: nat)
    requires x < 64 && 0x80 <= h * 64 + x < 0x800
    ensures EncodeChar((h * 64 + x) as char) == [0xC0 + h, 0x80 + x]
  {
    Undigits2(h, x);
  }

  lemma Encoded3(h: nat, x: nat, y: nat)
    requires x < 64 && y < 64 && var u := (h * 64 + x) * 64 + y; 0x800 <= u < 0x1_0000 && Scalar(u)
    ensures EncodeChar(((h * 64 + x) * 64 + y) as char) == [0xE0 + h, 0x80 + x, 0x80 + y]
  {
    var u := (h * 64 + x) * 64 + y;
    Undigits2(h, x);
    Undigits2(h * 64 + x, y);
    assert u / 4096 == u / 64 / 64;
  }

  lemma Encoded4(h: nat, x: nat, y: nat, z: nat)
    requires x < 64 && y < 64 && z < 64
    requires var u := ((h * 64 + x) * 64 + y) * 64 + z; 0x1_0000 <= u && Scalar(u)
    ensures EncodeChar((((h * 64 + x) * 64 + y) * 64 + z) as char) == [0xF0 + h, 0x80 + x, 0x80 + y, 0x80 + z]
  {
    var u := ((h * 64 + x) * 64 + y) * 64 + z;
    Undigits2(h, x);
    Undigits2(h * 64 + x, y);
    Undigits2((h * 64 + x) * 64 + y, z);
    assert u / 4096 == u / 64 / 64;
    assert u / 0x4_0000 == u / 64 / 64 / 64;
  }

  lemma {:induction false} EncodeDecode(b: seq<Byte>)
    requires Decode(b).Some?
    ensures Encode(Decode(b).value) == b
  {
    hide DecodeFirst, EncodeChar;
    if b != [] {
      var n := DecodeFirst(b).value.1;
      DecodedCharEncodes(b);
      EncodeDecode(b[n..]);
      assert Decode(b).value[1..] == Decode(b[n..]).value;
      assert b == b[..n] + b[n..];
    }
  }
}
