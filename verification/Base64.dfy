/** The base64 encoder of the artifact image, with a decoder written from
    section 4 of RFC 4648 as its reference. */
module Base64 {
  import opened Outcomes

  /** The alphabet by value, as table 1 of the RFC orders it. */
  function Letter(v: bv8): (c: char)
    requires v < 64
    ensures c != '=' && c != '_'
  {
    if v < 26 then ('A' as int + v as int) as char
    else if v < 52 then ('a' as int + (v as int - 26)) as char
    else if v < 62 then ('0' as int + (v as int - 52)) as char
    else if v == 62 then '+' else '/'
  }

  function Value(c: char): (v: Option<bv8>)
    ensures v.Some? ==> v.value < 64
  {
    if 'A' <= c <= 'Z' then Some((c as int - 'A' as int) as bv8)
    else if 'a' <= c <= 'z' then Some((c as int - 'a' as int + 26) as bv8)
    else if '0' <= c <= '9' then Some((c as int - '0' as int + 52) as bv8)
    else if c == '+' then Some(62) else if c == '/' then Some(63) else None
  }

  lemma ValueOfLetter(v: bv8)
    requires v < 64
    ensures Value(Letter(v)) == Some(v)
  {
  }

  // The four six-bit values of a chunk, and the three bytes of four values.
  function Six0(a: bv8): (v: bv8) ensures v < 64 { a >> 2 }
  function Six1(a: bv8, b: bv8): (v: bv8) ensures v < 64 { ((a & 0x03) << 4) | (b >> 4) }
  function Six2(b: bv8, c: bv8): (v: bv8) ensures v < 64 { ((b & 0x0f) << 2) | (c >> 6) }
  function Six3(c: bv8): (v: bv8) ensures v < 64 { c & 0x3f }
  function Byte0(p: bv8, q: bv8): bv8 { (p << 2) | (q >> 4) }
  function Byte1(q: bv8, r: bv8): bv8 { (q << 4) | (r >> 2) }
  function Byte2(r: bv8, s: bv8): bv8 { (r << 6) | s }
  predicate Slack4(q: bv8) { q & 0x0f == 0 }
  predicate Slack2(r: bv8) { r & 0x03 == 0 }

  /** Four characters for the one, two or three bytes of a chunk. */
  function Group(chunk: seq<bv8>): (g: string)
    requires 1 <= |chunk| <= 3
    ensures |g| == 4 && forall i :: 0 <= i < 4 ==> (g[i] == '=' <==> i > |chunk|)
    ensures '_' !in g
  {
    var a := chunk[0];
    var b := if |chunk| > 1 then chunk[1] else 0;
    var c := if |chunk| > 2 then chunk[2] else 0;
    [Letter(Six0(a)), Letter(Six1(a, b)),
     if |chunk| > 1 then Letter(Six2(b, c)) else '=',
     if |chunk| > 2 then Letter(Six3(c)) else '=']
  }

  function Chunk(bytes: seq<bv8>): (c: seq<bv8>)
    requires bytes != []
    ensures 1 <= |c| <= 3 && c <= bytes && (|c| < 3 ==> c == bytes)
  {
    if |bytes| <= 3 then bytes else bytes[..3]
  }

  function Encode(bytes: seq<bv8>): string {
    if bytes == [] then "" else Group(Chunk(bytes)) + Encode(bytes[|Chunk(bytes)|..])
  }

  /** The bytes of one group; a padded group carries zero bits in its slack. */
  function Ungroup(g: string): Option<seq<bv8>>
    requires |g| == 4
  {
    match (Value(g[0]), Value(g[1]), Value(g[2]), Value(g[3]))
    case (Some(p), Some(q), Some(r), Some(s)) => Some([Byte0(p, q), Byte1(q, r), Byte2(r, s)])
    case (Some(p), Some(q), Some(r), None) =>
      if g[3] == '=' && Slack2(r) then Some([Byte0(p, q), Byte1(q, r)]) else None
    case (Some(p), Some(q), None, None) =>
      if g[2] == '=' && g[3] == '=' && Slack4(q) then Some([Byte0(p, q)]) else None
    case _ => None
  }

  /** The reference decoder: whole groups, padding in the last one only. */
  function Decode(s: string): Option<seq<bv8>> {
    if s == "" then Some([])
    else if |s| < 4 then None
    else match Ungroup(s[..4])
      case None => None
      case Some(front) =>
        if |front| < 3 then if |s| == 4 then Some(front) else None
        else match Decode(s[4..])
          case None => None
          case Some(rest) => Some(front + rest)
  }

  /** Shifting six-bit values back together gives the bytes they came from. */
  lemma Bits(a: bv8, b: bv8, c: bv8)
    ensures Byte0(Six0(a), Six1(a, b)) == a && Byte1(Six1(a, b), Six2(b, c)) == b && Byte2(Six2(b, c), Six3(c)) == c
    ensures Slack4(Six1(a, 0)) && Slack2(Six2(b, 0))
  {
  }

  lemma UngroupGroup(chunk: seq<bv8>)
    requires 1 <= |chunk| <= 3
    ensures Ungroup(Group(chunk)) == Some(chunk)
  {
    if |chunk| == 1 { UngroupOne(chunk[0]); assert chunk == [chunk[0]]; }
    else if |chunk| == 2 { UngroupTwo(chunk[0], chunk[1]); assert chunk == [chunk[0], chunk[1]]; }
    else { UngroupThree(chunk[0], chunk[1], chunk[2]); assert chunk == [chunk[0], chunk[1], chunk[2]]; }
  }

  lemma UngroupOne(a: bv8)
    ensures Ungroup(Group([a])) == Some([a])
  {
    hide Letter, Value, Six0, Six1, Six2, Six3, Byte0, Byte1, Byte2, Slack4, Slack2;
    Bits(a, 0, 0);
    ValueOfLetter(Six0(a));
    ValueOfLetter(Six1(a, 0));
    NoPadValue();
  }

  lemma UngroupTwo(a: bv8, b: bv8)
    ensures Ungroup(Group([a, b])) == Some([a, b])
  {
    hide Letter, Value, Six0, Six1, Six2, Six3, Byte0, Byte1, Byte2, Slack4, Slack2;
    Bits(a, b, 0);
    ValueOfLetter(Six0(a));
    ValueOfLetter(Six1(a, b));
    ValueOfLetter(Six2(b, 0));
    NoPadValue();
  }

  lemma UngroupThree(a: bv8, b: bv8, c: bv8)
    ensures Ungroup(Group([a, b, c])) == Some([a, b, c])
  {
    hide Letter, Value, Six0, Six1, Six2, Six3, Byte0, Byte1, Byte2, Slack4, Slack2;
    Bits(a, b, c);
    ValueOfLetter(Six0(a));
    ValueOfLetter(Six1(a, b));
    ValueOfLetter(Six2(b, c));
    ValueOfLetter(Six3(c));
    NoPadValue();
  }

  lemma NoPadValue()
    ensures Value('=') == None
  {
  }

  /** The reference decoder inverts the encoder on every byte string. */
  lemma {:induction false} DecodeEncode(bytes: seq<bv8>)
    ensures Decode(Encode(bytes)) == Some(bytes)
  {
    hide Group, Ungroup;
    if bytes != [] {
      var chunk := Chunk(bytes);
      var rest := bytes[|chunk|..];
      UngroupGroup(chunk);
      DecodeEncode(rest);
      assert Encode(bytes)[..4] == Group(chunk) && Encode(bytes)[4..] == Encode(rest);
      assert bytes == chunk + rest;
    }
  }

  /** Four characters for every started chunk of three bytes. */
  lemma {:induction false} EncodeLength(bytes: seq<bv8>)
    ensures |Encode(bytes)| == (|bytes| + 2) / 3 * 4
  {
    hide Group;
    if bytes != [] { EncodeLength(bytes[|Chunk(bytes)|..]); }
  }

  function Padding(n: nat): nat { if n % 3 == 0 then 0 else 3 - n % 3 }

  /** Padding stands in the last places only, as many as the last chunk lacks bytes. */
  lemma {:induction false} EncodePadding(bytes: seq<bv8>, i: nat)
    requires i < |Encode(bytes)|
    ensures Encode(bytes)[i] == '=' <==> i >= |Encode(bytes)| - Padding(|bytes|)
  {
    hide Group, Chunk;
    var front, rest := Group(Chunk(bytes)), bytes[|Chunk(bytes)|..];
    assert Encode(bytes) == front + Encode(rest);
    if |bytes| <= 3 {
      assert rest == [];
    } else {
      EncodeLength(rest);
      assert Padding(|bytes|) == Padding(|rest|) <= |Encode(rest)|;
      if i >= 4 { EncodePadding(rest, i - 4); }
    }
  }

  /** The encoder's loop over three-byte chunks. */
  method Base64Encode(bytes: seq<bv8>) returns (out: string)
    ensures out == Encode(bytes)
  {
    hide Group;
    out := "";
    var i := 0;
    assert bytes[0..] == bytes;
    while i < |bytes|
      invariant 0 <= i <= |bytes|
      invariant Encode(bytes) == out + Encode(bytes[i..])
    {
      var chunk := if i + 3 <= |bytes| then bytes[i..i + 3] else bytes[i..];
      assert chunk == Chunk(bytes[i..]);
      assert bytes[i..][|chunk|..] == bytes[i + |chunk|..];
      out := out + Group(chunk);
      i := i + |chunk|;
    }
    assert bytes[i..] == [];
  }

  lemma {:induction false} NoUnderscore(bytes: seq<bv8>)
    ensures '_' !in Encode(bytes)
  {
    hide Group;
    if bytes != [] { NoUnderscore(bytes[|Chunk(bytes)|..]); }
  }
}
