/** UTF-8 as RFC 3629 defines it (section 3, the encoding; section 4, the syntax of well-formed
    sequences): what Python's strict `bytes.decode('utf-8')` accepts and produces. Dafny's
    `char` is a Unicode scalar value, so a `string` is exactly what a decoder may return. */
module Utf8 {
  import opened Wrappers

  newtype byte = b: int | 0 <= b < 256

  /** `UTF8-tail = %x80-BF` */
  predicate IsTail(b: byte) {
    0x80 <= b <= 0xBF
  }

  /** The scalar value of a code point, when it is one (not a surrogate, at most U+10FFFF). */
  predicate IsScalar(cp: int) {
    (0 <= cp < 0xD800) || (0xE000 <= cp < 0x11_0000)
  }

  /** The encoded length of a scalar value (section 3's table). */
  function CharLength(c: char): nat {
    if (c as int) < 0x80 then 1
    else if (c as int) < 0x800 then 2
    else if (c as int) < 0x1_0000 then 3
    else 4
  }

  /** The bytes of one character, section 3. */
  function EncodeChar(c: char): (r: seq<byte>)
    ensures |r| == CharLength(c)
  {
    var cp := c as int;
    if cp < 0x80 then [cp as byte]
    else if cp < 0x800 then [(0xC0 + cp / 64) as byte, (0x80 + cp % 64) as byte]
    else if cp < 0x1_0000 then
      [(0xE0 + cp / 4096) as byte, (0x80 + (cp / 64) % 64) as byte, (0x80 + cp % 64) as byte]
    else
      [(0xF0 + cp / 262144) as byte, (0x80 + (cp / 4096) % 64) as byte,
       (0x80 + (cp / 64) % 64) as byte, (0x80 + cp % 64) as byte]
  }

  /** `s.encode('utf-8')` */
  function Encode(s: string): seq<byte> {
    if s == [] then [] else EncodeChar(s[0]) + Encode(s[1..])
  }

  /** The code point of a well-formed sequence of two, three or four bytes. */
  function Value2(b0: byte, b1: byte): int { (b0 as int - 0xC0) * 64 + (b1 as int - 0x80) }
  function Value3(b0: byte, b1: byte, b2: byte): int {
    (b0 as int - 0xE0) * 4096 + (b1 as int - 0x80) * 64 + (b2 as int - 0x80)
  }
  function Value4(b0: byte, b1: byte, b2: byte, b3: byte): int {
    (b0 as int - 0xF0) * 262144 + (b1 as int - 0x80) * 4096 + (b2 as int - 0x80) * 64 + (b3 as int - 0x80)
  }

  /** Section 4's `UTF8-2`, `UTF8-3` and `UTF8-4` rules, by lead byte, for the second byte. */
  predicate SecondOk(b0: byte, b1: byte) {
    if b0 == 0xE0 then 0xA0 <= b1 <= 0xBF
    else if b0 == 0xED then 0x80 <= b1 <= 0x9F
    else if b0 == 0xF0 then 0x90 <= b1 <= 0xBF
    else if b0 == 0xF4 then 0x80 <= b1 <= 0x8F
    else IsTail(b1)
  }

  /** The first character of `b` and its length in bytes, when `b` starts with a well-formed
      `UTF8-char`. */
  function DecodeOne(b: seq<byte>): (r: Option<(char, nat)>)
    ensures r.Some? ==> 1 <= r.value.1 <= |b| && r.value.1 == CharLength(r.value.0)
  {
    if b == [] then None
    else if b[0] <= 0x7F then Some((b[0] as int as char, 1))
    else if 0xC2 <= b[0] <= 0xDF then
      if |b| >= 2 && IsTail(b[1]) then Some((Value2(b[0], b[1]) as char, 2)) else None
    else if 0xE0 <= b[0] <= 0xEF then
      if |b| >= 3 && SecondOk(b[0], b[1]) && IsTail(b[2]) then
        Some((Value3(b[0], b[1], b[2]) as char, 3))
      else None
    else if 0xF0 <= b[0] <= 0xF4 then
      if |b| >= 4 && SecondOk(b[0], b[1]) && IsTail(b[2]) && IsTail(b[3]) then
        Some((Value4(b[0], b[1], b[2], b[3]) as char, 4))
      else None
    else None
  }

  /** `b.decode('utf-8')`: the characters of a well-formed sequence; `None` for any ill-formed
      one, where Python raises `UnicodeDecodeError`. */
  function Decode(b: seq<byte>): Option<string>
    decreases |b|
  {
    if b == [] then Some("")
    else
      match DecodeOne(b)
      case None => None
      case Some((c, n)) =>
        match Decode(b[n..])
        case None => None
        case Some(s) => Some([c] + s)
  }

  /** A character's encoding, followed by anything, decodes back to that character. */
  lemma DecodeOneOfEncoded(c: char, rest: seq<byte>)
    ensures DecodeOne(EncodeChar(c) + rest) == Some((c, CharLength(c)))
  {
    var cp := c as int;
    var b := EncodeChar(c) + rest;
    if cp < 0x80 {
    } else if cp < 0x800 {
      assert b[0] as int == 0xC0 + cp / 64 && b[1] as int == 0x80 + cp % 64;
      assert Value2(b[0], b[1]) == cp;
    } else if cp < 0x1_0000 {
      assert b[0] as int == 0xE0 + cp / 4096;
      assert b[1] as int == 0x80 + (cp / 64) % 64;
      assert b[2] as int == 0x80 + cp % 64;
      Split3(cp);
    } else {
      assert b[0] as int == 0xF0 + cp / 262144;
      assert b[1] as int == 0x80 + (cp / 4096) % 64;
      assert b[2] as int == 0x80 + (cp / 64) % 64;
      assert b[3] as int == 0x80 + cp % 64;
      Split4(cp);
    }
  }

  /** The 6-bit groups of a three-byte scalar put back together, and the second-byte ranges. */
  lemma Split3(cp: int)
    requires 0x800 <= cp < 0x1_0000 && IsScalar(cp)
    ensures (cp / 4096) * 4096 + ((cp / 64) % 64) * 64 + cp % 64 == cp
    ensures cp / 4096 == 0 ==> (cp / 64) % 64 >= 0x20
    ensures cp / 4096 == 0xD ==> (cp / 64) % 64 < 0x20
  {
  }

  /** The 6-bit groups of a four-byte scalar put back together, and the second-byte ranges. */
  lemma Split4(cp: int)
    requires 0x1_0000 <= cp < 0x11_0000
    ensures (cp / 262144) * 262144 + ((cp / 4096) % 64) * 4096 + ((cp / 64) % 64) * 64 + cp % 64 == cp
    ensures cp / 262144 <= 4
    ensures cp / 262144 == 0 ==> (cp / 4096) % 64 >= 0x10
    ensures cp / 262144 == 4 ==> (cp / 4096) % 64 < 0x10
  {
  }

  /** Decoding undoes encoding: every string survives the round trip. */
  lemma {:induction false} DecodeEncode(s: string)
    ensures Decode(Encode(s)) == Some(s)
  {
    if s != [] {
      var e := EncodeChar(s[0]);
      DecodeOneOfEncoded(s[0], Encode(s[1..]));
      assert (e + Encode(s[1..]))[|e|..] == Encode(s[1..]);
      DecodeEncode(s[1..]);
      assert [s[0]] + s[1..] == s;
    }
  }

  /** The character `DecodeOne` reads re-encodes to exactly the bytes it consumed. */
  lemma EncodeOfDecodedOne(b: seq<byte>)
    requires DecodeOne(b).Some?
    ensures EncodeChar(DecodeOne(b).value.0) == b[..DecodeOne(b).value.1]
  {
    var c := DecodeOne(b).value.0;
    var cp := c as int;
    if b[0] <= 0x7F {
    } else if 0xC2 <= b[0] <= 0xDF {
      assert cp == Value2(b[0], b[1]);
      assert cp / 64 == b[0] as int - 0xC0 && cp % 64 == b[1] as int - 0x80;
    } else if 0xE0 <= b[0] <= 0xEF {
      assert cp == Value3(b[0], b[1], b[2]);
      Join3(b[0] as int - 0xE0, b[1] as int - 0x80, b[2] as int - 0x80);
    } else {
      assert cp == Value4(b[0], b[1], b[2], b[3]);
      Join4(b[0] as int - 0xF0, b[1] as int - 0x80, b[2] as int - 0x80, b[3] as int - 0x80);
    }
  }

  lemma Join3(x: int, y: int, z: int)
    requires 0 <= x < 16 && 0 <= y < 64 && 0 <= z < 64
    ensures (x * 4096 + y * 64 + z) / 4096 == x
    ensures ((x * 4096 + y * 64 + z) / 64) % 64 == y
    ensures (x * 4096 + y * 64 + z) % 64 == z
  {
    var v := x * 4096 + y * 64 + z;
    var low := y * 64 + z;
    assert v == x * 4096 + low;
    assert 0 <= low < 4096;
    assert v / 4096 == x;
    assert v == (x * 64 + y) * 64 + z;
    assert v / 64 == x * 64 + y;
  }

  lemma Join4(w: int, x: int, y: int, z: int)
    requires 0 <= w < 8 && 0 <= x < 64 && 0 <= y < 64 && 0 <= z < 64
    ensures (w * 262144 + x * 4096 + y * 64 + z) / 262144 == w
    ensures ((w * 262144 + x * 4096 + y * 64 + z) / 4096) % 64 == x
    ensures ((w * 262144 + x * 4096 + y * 64 + z) / 64) % 64 == y
    ensures (w * 262144 + x * 4096 + y * 64 + z) % 64 == z
  {
    var v := w * 262144 + x * 4096 + y * 64 + z;
    var low := y * 64 + z;
    assert v == (w * 64 + x) * 4096 + low;
    assert 0 <= low < 4096;
    assert v / 4096 == w * 64 + x;
    assert v / 64 == (w * 64 + x) * 64 + y;
  }

  /** Encoding undoes decoding: a well-formed sequence is the encoding of what it decodes to,
      so no two byte sequences decode to the same string. */
  lemma {:induction false} EncodeDecode(b: seq<byte>)
    requires Decode(b).Some?
    ensures Encode(Decode(b).value) == b
    decreases |b|
  {
    if b != [] {
      var c := DecodeOne(b).value.0;
      var n := DecodeOne(b).value.1;
      var t := Decode(b[n..]).value;
      DecodeStep(b);
      EncodeOfDecodedOne(b);
      EncodeDecode(b[n..]);
      EncodeCons(c, t);
      assert b == b[..n] + b[n..];
    }
  }

  /** A non-empty well-formed sequence decodes to its first character, then the rest. */
  lemma DecodeStep(b: seq<byte>)
    requires b != [] && Decode(b).Some?
    ensures DecodeOne(b).Some? && Decode(b[DecodeOne(b).value.1..]).Some?
    ensures Decode(b).value == [DecodeOne(b).value.0] + Decode(b[DecodeOne(b).value.1..]).value
  {
  }

  lemma EncodeCons(c: char, t: string)
    ensures Encode([c] + t) == EncodeChar(c) + Encode(t)
  {
    assert ([c] + t)[0] == c && ([c] + t)[1..] == t;
  }

  /** An ASCII byte string decodes to the same characters. */
  lemma DecodeAscii(b: seq<byte>)
    requires forall k :: 0 <= k < |b| ==> b[k] <= 0x7F
    ensures Decode(b).Some? && |Decode(b).value| == |b|
    ensures forall k :: 0 <= k < |b| ==> Decode(b).value[k] as int == b[k] as int
  {
    if b != [] {
      DecodeAscii(b[1..]);
    }
  }

  /** A lone continuation byte, or a lead byte RFC 3629 forbids, is ill-formed. */
  lemma IllFormedExamples()
    ensures Decode([0x80]).None?
    ensures Decode([0xC0, 0xAF]).None?
    ensures Decode([0xED, 0xA0, 0x80]).None?
    ensures Decode([0xF5, 0x80, 0x80, 0x80]).None?
  {
  }
}
