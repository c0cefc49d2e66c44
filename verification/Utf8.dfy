/**
 The UTF-8 coding of Unicode scalar values (RFC 3629, section 4), as Go's unicode/utf8
 package decodes it: a malformed sequence yields U+FFFD and consumes one byte.
 */
module Utf8 {
  type byte = b: int | 0 <= b < 256
  type rune = r: int | 0 <= r < 0xD800 || 0xE000 <= r <= 0x10FFFF

  const REPLACEMENT: rune := 0xFFFD

  /** One decoded scalar value and the number of input bytes it took. */
  datatype Token = Token(value: rune, size: nat)

  predicate IsTail(b: byte) {
    0x80 <= b <= 0xBF
  }

  /** utf8.RuneStart: the byte does not continue a sequence. */
  predicate IsRuneStart(b: byte) {
    !IsTail(b)
  }

  /** The six payload bits of a continuation byte. */
  function Bits(b: byte): int {
    b - 0x80
  }

  function Encode(r: rune): (out: seq<byte>)
    ensures 1 <= |out| <= 4
    ensures IsRuneStart(out[0]) && forall i :: 0 < i < |out| ==> IsTail(out[i])
    ensures |out| == 1 <==> r < 0x80
    ensures r >= 0x80 ==> forall i :: 0 <= i < |out| ==> out[i] >= 0x80
  {
    if r < 0x80 then [r]
    else if r < 0x800 then [0xC0 + r / 64, 0x80 + r % 64]
    else if r < 0x1_0000 then [0xE0 + r / 4096, 0x80 + r / 64 % 64, 0x80 + r % 64]
    else [0xF0 + r / 262144, 0x80 + r / 4096 % 64, 0x80 + r / 64 % 64, 0x80 + r % 64]
  }

  /** The second byte of a well-formed sequence that starts with b. */
  predicate SecondOk(b: byte, second: byte) {
    && IsTail(second)
    && (b == 0xE0 ==> second >= 0xA0)
    && (b == 0xED ==> second <= 0x9F)
    && (b == 0xF0 ==> second >= 0x90)
    && (b == 0xF4 ==> second <= 0x8F)
  }

  /** utf8.DecodeRune on a non-empty slice. */
  function DecodeRune(raw: seq<byte>): (t: Token)
    requires raw != []
    ensures 1 <= t.size <= |raw| && t.size <= 4
    ensures t.size == 1 <==> raw[0] < 0x80 || t == Token(REPLACEMENT, 1)
  {
    var b: int := raw[0];
    if b < 0x80 then Token(b, 1)
    else if 0xC2 <= b <= 0xDF && |raw| >= 2 && IsTail(raw[1]) then
      Token(64 * (b - 0xC0) + Bits(raw[1]), 2)
    else if 0xE0 <= b <= 0xEF && |raw| >= 3 && SecondOk(b, raw[1]) && IsTail(raw[2]) then
      Token(4096 * (b - 0xE0) + 64 * Bits(raw[1]) + Bits(raw[2]), 3)
    else if 0xF0 <= b <= 0xF4 && |raw| >= 4 && SecondOk(b, raw[1]) && IsTail(raw[2]) && IsTail(raw[3]) then
      Token(262144 * (b - 0xF0) + 4096 * Bits(raw[1]) + 64 * Bits(raw[2]) + Bits(raw[3]), 4)
    else Token(REPLACEMENT, 1)
  }

  /** Decoding an encoded value gives it back, whatever bytes follow. */
  lemma DecodeEncode(r: rune, rest: seq<byte>)
    ensures DecodeRune(Encode(r) + rest) == Token(r, |Encode(r)|)
  {
    var raw := Encode(r) + rest;
    var e := Encode(r);
    assert forall i :: 0 <= i < |e| ==> raw[i] == e[i];
    if r < 0x80 {
    } else if r < 0x800 {
      assert 64 * (r / 64) + r % 64 == r;
    } else if r < 0x1_0000 {
      Digits3(r, r / 4096, r / 64 % 64, r % 64);
    } else {
      Digits4(r, r / 262144, r / 4096 % 64, r / 64 % 64, r % 64);
    }
  }

  /** A well-formed sequence is the encoding of the value it decodes to. */
  lemma EncodeDecode(raw: seq<byte>)
    requires raw != [] && (raw[0] < 0x80 || DecodeRune(raw).size > 1)
    ensures raw[..DecodeRune(raw).size] == Encode(DecodeRune(raw).value)
  {
    var t := DecodeRune(raw);
    if t.size == 2 {
      Split(t.value, raw[0] - 0xC0, Bits(raw[1]));
    } else if t.size == 3 {
      Split3(t.value, raw[0] - 0xE0, Bits(raw[1]), Bits(raw[2]));
    } else if t.size == 4 {
      Split4(t.value, raw[0] - 0xF0, Bits(raw[1]), Bits(raw[2]), Bits(raw[3]));
    }
  }

  lemma Split(r: int, high: int, low: int)
    requires 0 <= low < 64 && r == 64 * high + low
    ensures r / 64 == high && r % 64 == low
  {
  }

  lemma Split3(r: int, d0: int, d1: int, d2: int)
    requires 0 <= d1 < 64 && 0 <= d2 < 64 && r == 4096 * d0 + 64 * d1 + d2
    ensures r / 4096 == d0 && r / 64 % 64 == d1 && r % 64 == d2
  {
    Split(r, 64 * d0 + d1, d2);
    Split(r / 64, d0, d1);
    assert r / 64 / 64 == r / 4096;
  }

  lemma Split4(r: int, d0: int, d1: int, d2: int, d3: int)
    requires 0 <= d1 < 64 && 0 <= d2 < 64 && 0 <= d3 < 64
    requires r == 262144 * d0 + 4096 * d1 + 64 * d2 + d3
    ensures r / 262144 == d0 && r / 4096 % 64 == d1 && r / 64 % 64 == d2 && r % 64 == d3
  {
    Split3(r, 64 * d0 + d1, d2, d3);
    Split(r / 4096, d0, d1);
    assert r / 4096 / 64 == r / 262144;
  }

  lemma Digits3(r: int, d0: int, d1: int, d2: int)
    requires 0x800 <= r < 0x1_0000 && !(0xD800 <= r < 0xE000)
    requires d0 == r / 4096 && d1 == r / 64 % 64 && d2 == r % 64
    ensures r == 4096 * d0 + 64 * d1 + d2
    ensures 0 <= d0 < 16 && (d0 == 0 ==> d1 >= 32) && (d0 == 13 ==> d1 < 32)
  {
    assert r / 64 == 64 * (r / 64 / 64) + d1;
    assert r / 64 / 64 == d0;
  }

  lemma Digits4(r: int, d0: int, d1: int, d2: int, d3: int)
    requires 0x1_0000 <= r <= 0x10FFFF
    requires d0 == r / 262144 && d1 == r / 4096 % 64 && d2 == r / 64 % 64 && d3 == r % 64
    ensures r == 262144 * d0 + 4096 * d1 + 64 * d2 + d3
    ensures 0 <= d0 <= 4 && (d0 == 0 ==> d1 >= 16) && (d0 == 4 ==> d1 < 16)
  {
    assert r / 64 == 64 * (r / 4096) + d2;
    assert r / 4096 == 64 * d0 + d1;
  }

  /** A Go string seen as scalar values. */
  function DecodeAll(raw: seq<byte>): seq<rune> {
    if raw == [] then []
    else [DecodeRune(raw).value] + DecodeAll(raw[DecodeRune(raw).size..])
  }

  function EncodeAll(runes: seq<rune>): seq<byte> {
    if runes == [] then [] else Encode(runes[0]) + EncodeAll(runes[1..])
  }

  /** utf8.Valid: every sequence is well formed. */
  predicate Valid(raw: seq<byte>) {
    raw == [] ||
    (var t := DecodeRune(raw); (raw[0] < 0x80 || t.size > 1) && Valid(raw[t.size..]))
  }

  lemma {:induction false} DecodeAllEncodeAll(runes: seq<rune>)
    ensures DecodeAll(EncodeAll(runes)) == runes
    ensures Valid(EncodeAll(runes))
  {
    if runes != [] {
      var head, tail := Encode(runes[0]), EncodeAll(runes[1..]);
      DecodeEncode(runes[0], tail);
      assert (head + tail)[|head|..] == tail;
      assert (head + tail)[0] == head[0];
      DecodeAllEncodeAll(runes[1..]);
    }
  }

  lemma {:induction false} EncodeAllDecodeAll(raw: seq<byte>)
    requires Valid(raw)
    ensures EncodeAll(DecodeAll(raw)) == raw
  {
    if raw != [] {
      var t := DecodeRune(raw);
      EncodeDecode(raw);
      assert raw == raw[..t.size] + raw[t.size..];
      EncodeAllDecodeAll(raw[t.size..]);
    }
  }
}
