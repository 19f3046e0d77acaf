/** Python 3's default text/bytes conversion, `str.encode()` and
    `bytes.decode()`, which is strict UTF-8 (RFC 3629). A Dafny `char` is a
    Unicode scalar value (no surrogates), so encoding never fails; decoding
    fails (Python raises UnicodeDecodeError) on any byte sequence that is not
    well-formed UTF-8: a stray continuation byte, a truncated sequence, an
    overlong form, an encoded surrogate, or a value above U+10FFFF. */
module Utf8 {
  import opened Common

  newtype byte = x: int | 0 <= x < 256

  predicate IsContinuation(x: byte) { 0x80 <= x < 0xC0 }

  /** Number of bytes UTF-8 uses for code point `n`. */
  function Width(n: int): nat
  {
    if n < 0x80 then 1 else if n < 0x800 then 2 else if n < 0x10000 then 3 else 4
  }

  /** The UTF-8 form of one scalar value. */
  function EncodeChar(c: char): (r: seq<byte>)
    ensures |r| == Width(c as int)
  {
    var n := c as int;
    if n < 0x80 then [n as byte]
    else if n < 0x800 then [(0xC0 + n / 64) as byte, (0x80 + n % 64) as byte]
    else if n < 0x10000 then
      [(0xE0 + n / 4096) as byte, (0x80 + n / 64 % 64) as byte, (0x80 + n % 64) as byte]
    else
      [(0xF0 + n / 262144) as byte, (0x80 + n / 4096 % 64) as byte,
       (0x80 + n / 64 % 64) as byte, (0x80 + n % 64) as byte]
  }

  /** `str.encode()`. */
  function Encode(s: string): (r: seq<byte>)
    ensures |r| >= |s|
  {
    if s == [] then [] else EncodeChar(s[0]) + Encode(s[1..])
  }

  /** Decodes the first scalar value of `b`, giving it with the number of
      bytes it used, or None when `b` does not start with a well-formed
      UTF-8 sequence. */
  function DecodeFirst(b: seq<byte>): (r: Option<(char, nat)>)
    requires |b| > 0
    ensures r.Some? ==> 1 <= r.value.1 <= |b|
  {
    var b0 := b[0] as int;
    if b0 < 0x80 then Some((b0 as char, 1))
    else if 0xC2 <= b0 < 0xE0 then
      if |b| >= 2 && IsContinuation(b[1]) then
        Some((((b0 - 0xC0) * 64 + (b[1] as int - 0x80)) as char, 2))
      else None
    else if 0xE0 <= b0 < 0xF0 then
      if |b| >= 3 && IsContinuation(b[1]) && IsContinuation(b[2]) then
        var n := (b0 - 0xE0) * 4096 + (b[1] as int - 0x80) * 64 + (b[2] as int - 0x80);
        if 0x800 <= n && !(0xD800 <= n < 0xE000) then Some((n as char, 3)) else None
      else None
    else if 0xF0 <= b0 < 0xF5 then
      if |b| >= 4 && IsContinuation(b[1]) && IsContinuation(b[2]) && IsContinuation(b[3]) then
        var n := (b0 - 0xF0) * 262144 + (b[1] as int - 0x80) * 4096
                 + (b[2] as int - 0x80) * 64 + (b[3] as int - 0x80);
        if 0x10000 <= n < 0x110000 then Some((n as char, 4)) else None
      else None
    else None
  }

  /** `bytes.decode()`: None stands for UnicodeDecodeError. */
  function Decode(b: seq<byte>): (r: Option<string>)
    ensures r.Some? ==> |r.value| <= |b|
    decreases |b|
  {
    if b == [] then Some([])
    else match DecodeFirst(b)
      case None => None
      case Some((c, k)) =>
        match Decode(b[k..])
        case None => None
        case Some(rest) => Some([c] + rest)
  }

  lemma DivMod64(q: int, r: int)
    requires 0 <= r < 64
    ensures (q * 64 + r) / 64 == q && (q * 64 + r) % 64 == r
  {
  }

  lemma Split64(n: int)
    requires n >= 0
    ensures n == (n / 64) * 64 + n % 64 && 0 <= n % 64 < 64
  {
  }

  /** Decoding the encoding of `c` gives back `c` and consumes exactly its bytes. */
  lemma DecodeFirstOfEncodeChar(c: char, rest: seq<byte>)
    ensures DecodeFirst(EncodeChar(c) + rest) == Some((c, |EncodeChar(c)|))
  {
    var n := c as int;
    if n < 0x80 {
    } else if n < 0x800 {
      DecodeFirstTwo(c, rest);
    } else if n < 0x10000 {
      DecodeFirstThree(c, rest);
    } else {
      DecodeFirstFour(c, rest);
    }
  }

  lemma DecodeFirstTwo(c: char, rest: seq<byte>)
    requires 0x80 <= c as int < 0x800
    ensures DecodeFirst(EncodeChar(c) + rest) == Some((c, 2))
  {
    var n := c as int;
    var b := EncodeChar(c) + rest;
    var q, r := n / 64, n % 64;
    Split64(n);
    assert b[0] as int == 0xC0 + q && b[1] as int == 0x80 + r;
    assert (b[0] as int - 0xC0) * 64 + (b[1] as int - 0x80) == n;
  }

  lemma DecodeFirstThree(c: char, rest: seq<byte>)
    requires 0x800 <= c as int < 0x10000
    ensures DecodeFirst(EncodeChar(c) + rest) == Some((c, 3))
  {
    var n := c as int;
    var b := EncodeChar(c) + rest;
    var m, r := n / 64, n % 64;
    Split64(n);
    Split64(m);
    assert n / 4096 == m / 64;
    assert b[0] as int == 0xE0 + m / 64 && b[1] as int == 0x80 + m % 64 && b[2] as int == 0x80 + r;
    assert (b[0] as int - 0xE0) * 4096 + (b[1] as int - 0x80) * 64 + (b[2] as int - 0x80) == n;
  }

  lemma DecodeFirstFour(c: char, rest: seq<byte>)
    requires 0x10000 <= c as int
    ensures DecodeFirst(EncodeChar(c) + rest) == Some((c, 4))
  {
    var n := c as int;
    var b := EncodeChar(c) + rest;
    var m := n / 64;
    var l := m / 64;
    Split64(n);
    Split64(m);
    Split64(l);
    assert n / 4096 == l;
    assert n / 262144 == l / 64;
    assert b[0] as int == 0xF0 + l / 64 && b[1] as int == 0x80 + l % 64;
    assert b[2] as int == 0x80 + m % 64 && b[3] as int == 0x80 + n % 64;
    assert (b[0] as int - 0xF0) * 262144 + (b[1] as int - 0x80) * 4096
           + (b[2] as int - 0x80) * 64 + (b[3] as int - 0x80) == n;
  }

  /** What DecodeFirst accepts is exactly the encoding of the value it returns. */
  lemma DecodeFirstIsEncodeChar(b: seq<byte>)
    requires |b| > 0 && DecodeFirst(b).Some?
    ensures b[..DecodeFirst(b).value.1] == EncodeChar(DecodeFirst(b).value.0)
  {
    if b[0] < 0x80 {
    } else if b[0] < 0xE0 {
      AcceptedTwo(b);
    } else if b[0] < 0xF0 {
      AcceptedThree(b);
    } else {
      AcceptedFour(b);
    }
  }

  lemma AcceptedTwo(b: seq<byte>)
    requires |b| > 0 && DecodeFirst(b).Some? && 0x80 <= b[0] < 0xE0
    ensures DecodeFirst(b).value.1 == 2 && b[..2] == EncodeChar(DecodeFirst(b).value.0)
  {
    var n := DecodeFirst(b).value.0 as int;
    var b0, b1 := b[0] as int, b[1] as int - 0x80;
    assert n == (b0 - 0xC0) * 64 + b1;
    DivMod64(b0 - 0xC0, b1);
  }

  lemma AcceptedThree(b: seq<byte>)
    requires |b| > 0 && DecodeFirst(b).Some? && 0xE0 <= b[0] < 0xF0
    ensures DecodeFirst(b).value.1 == 3 && b[..3] == EncodeChar(DecodeFirst(b).value.0)
  {
    var n := DecodeFirst(b).value.0 as int;
    var b0, b1, b2 := b[0] as int, b[1] as int - 0x80, b[2] as int - 0x80;
    assert n == ((b0 - 0xE0) * 64 + b1) * 64 + b2;
    DivMod64((b0 - 0xE0) * 64 + b1, b2);
    DivMod64(b0 - 0xE0, b1);
    assert n / 4096 == n / 64 / 64;
  }

  lemma AcceptedFour(b: seq<byte>)
    requires |b| > 0 && DecodeFirst(b).Some? && 0xF0 <= b[0]
    ensures DecodeFirst(b).value.1 == 4 && b[..4] == EncodeChar(DecodeFirst(b).value.0)
  {
    var n := DecodeFirst(b).value.0 as int;
    var b0, b1, b2, b3 := b[0] as int, b[1] as int - 0x80, b[2] as int - 0x80, b[3] as int - 0x80;
    assert n == (((b0 - 0xF0) * 64 + b1) * 64 + b2) * 64 + b3;
    DivMod64(((b0 - 0xF0) * 64 + b1) * 64 + b2, b3);
    DivMod64((b0 - 0xF0) * 64 + b1, b2);
    DivMod64(b0 - 0xF0, b1);
    assert n / 4096 == n / 64 / 64;
    assert n / 262144 == n / 64 / 64 / 64;
  }

  /** Round trip text -> bytes -> text: decoding an encoding never fails and
      gives back the text. */
  lemma {:induction false} DecodeEncode(s: string)
    ensures Decode(Encode(s)) == Some(s)
  {
    if s != [] {
      var e := EncodeChar(s[0]);
      DecodeFirstOfEncodeChar(s[0], Encode(s[1..]));
      assert (e + Encode(s[1..]))[|e|..] == Encode(s[1..]);
      DecodeEncode(s[1..]);
      assert [s[0]] + s[1..] == s;
    }
  }

  /** Round trip bytes -> text -> bytes: whenever decoding succeeds, encoding
      the text gives back exactly the bytes. */
  lemma {:induction false} EncodeDecode(b: seq<byte>)
    requires Decode(b).Some?
    ensures Encode(Decode(b).value) == b
    decreases |b|
  {
    if b != [] {
      DecodeCons(b);
      var c, k := DecodeFirst(b).value.0, DecodeFirst(b).value.1;
      var rest := Decode(b[k..]).value;
      DecodeFirstIsEncodeChar(b);
      EncodeDecode(b[k..]);
      EncodeAfter(b, k, c, rest);
    }
  }

  /** A successful decode is the first scalar value followed by the decode
      of the rest. */
  lemma DecodeCons(b: seq<byte>)
    requires b != [] && Decode(b).Some?
    ensures DecodeFirst(b).Some? && Decode(b[DecodeFirst(b).value.1..]).Some?
    ensures Decode(b).value == [DecodeFirst(b).value.0] + Decode(b[DecodeFirst(b).value.1..]).value
  {
  }

  /** Encoding a character in front of a text whose encoding is the rest of
      `b` gives `b`, when the character encodes to the first `k` bytes. */
  lemma EncodeAfter(b: seq<byte>, k: nat, c: char, rest: string)
    requires k <= |b| && b[..k] == EncodeChar(c) && Encode(rest) == b[k..]
    ensures Encode([c] + rest) == b
  {
    assert ([c] + rest)[1..] == rest;
    assert b == b[..k] + b[k..];
  }

  /** Decoding is strict: a byte that can never start a UTF-8 sequence
      (here 0xFF) makes the whole decode fail. */
  lemma InvalidByteRefused(b: seq<byte>)
    requires |b| > 0 && b[0] == 0xFF
    ensures Decode(b) == None
  {
  }
}
