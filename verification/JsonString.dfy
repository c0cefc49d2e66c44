/**
 The interior of a JSON string token: what it decodes to (RFC 8259, section 7, as Go's
 encoding/json reads it), how Go writes one, and the interior repair that lets the texts
 of several strings be concatenated without decoding them.
 */
module JsonString {
  import opened Collections
  import opened Utf8

  const QUOTE: byte := 0x22
  const BACKSLASH: byte := 0x5C
  const SMALL_U: byte := 0x75

  predicate IsHex(b: byte) {
    0x30 <= b <= 0x39 || 0x41 <= b <= 0x46 || 0x61 <= b <= 0x66
  }

  function HexValue(b: byte): (v: nat)
    requires IsHex(b)
    ensures v < 16
  {
    if b <= 0x39 then b - 0x30 else if b <= 0x46 then b - 0x37 else b - 0x57
  }

  function HexDigit(v: nat): (b: byte)
    requires v < 16
    ensures IsHex(b) && HexValue(b) == v
  {
    if v < 10 then 0x30 + v else 0x57 + v
  }

  /** copilotUnicodeEscape: the UTF-16 code unit of a leading \uXXXX escape. */
  function UnicodeEscape(raw: seq<byte>): (unit: Option<nat>)
    ensures unit.Some? ==> |raw| >= 6 && unit.value < 0x1_0000
  {
    if |raw| < 6 || raw[0] != BACKSLASH || raw[1] != SMALL_U then None
    else if IsHex(raw[2]) && IsHex(raw[3]) && IsHex(raw[4]) && IsHex(raw[5]) then
      Some(4096 * HexValue(raw[2]) + 256 * HexValue(raw[3]) + 16 * HexValue(raw[4]) + HexValue(raw[5]))
    else None
  }

  predicate IsHigh(unit: nat) {
    0xD800 <= unit <= 0xDBFF
  }

  predicate IsLow(unit: nat) {
    0xDC00 <= unit <= 0xDFFF
  }

  /** The scalar value of a surrogate pair (RFC 2781, section 2.2). */
  function Combine(high: nat, low: nat): rune
    requires IsHigh(high) && IsLow(low)
  {
    0x1_0000 + 1024 * (high - 0xD800) + (low - 0xDC00)
  }

  predicate IsSimpleEscape(b: byte) {
    b in [0x22, 0x5C, 0x2F, 0x62, 0x66, 0x6E, 0x72, 0x74]
  }

  function SimpleEscape(b: byte): rune {
    if b == 0x62 then 0x08 else if b == 0x66 then 0x0C else if b == 0x6E then 0x0A
    else if b == 0x72 then 0x0D else if b == 0x74 then 0x09
    else if b < 0x80 then b else REPLACEMENT
  }

  /** Bytes taken by the first character or escape; 0 when json.Valid rejects it. */
  function Lexeme(raw: seq<byte>): (size: nat)
    requires raw != []
    ensures size <= |raw|
  {
    if raw[0] == BACKSLASH then
      if UnicodeEscape(raw).Some? then 6
      else if |raw| >= 2 && IsSimpleEscape(raw[1]) then 2
      else 0
    else if raw[0] >= 0x20 && raw[0] != QUOTE then 1
    else 0
  }

  /** What json.Valid accepts between the quotes of a string. */
  predicate ValidBody(raw: seq<byte>) {
    raw == [] || (Lexeme(raw) > 0 && ValidBody(raw[Lexeme(raw)..]))
  }

  /** The first decoded value: unpaired surrogates and malformed UTF-8 read as U+FFFD. */
  function NextToken(raw: seq<byte>): (t: Token)
    requires raw != []
    ensures 1 <= t.size <= |raw|
  {
    if raw[0] != BACKSLASH then DecodeRune(raw)
    else match UnicodeEscape(raw)
      case None => if |raw| == 1 then Token(REPLACEMENT, 1) else Token(SimpleEscape(raw[1]), 2)
      case Some(unit) =>
        if IsHigh(unit) && UnicodeEscape(raw[6..]).Some? && IsLow(UnicodeEscape(raw[6..]).value) then
          Token(Combine(unit, UnicodeEscape(raw[6..]).value), 12)
        else if IsHigh(unit) || IsLow(unit) then Token(REPLACEMENT, 6)
        else Token(unit, 6)
  }

  function Decode(raw: seq<byte>): seq<rune> {
    if raw == [] then [] else [NextToken(raw).value] + Decode(raw[NextToken(raw).size..])
  }

  /** A chunk that decodes to one value whatever follows it. */
  ghost predicate Stable(chunk: seq<byte>, value: rune) {
    chunk != [] && forall rest: seq<byte> :: NextToken(chunk + rest) == Token(value, |chunk|)
  }

  lemma DecodeStable(chunk: seq<byte>, value: rune, rest: seq<byte>)
    requires Stable(chunk, value)
    ensures Decode(chunk + rest) == [value] + Decode(rest)
  {
    assert NextToken(chunk + rest) == Token(value, |chunk|);
    assert (chunk + rest)[|chunk|..] == rest;
  }

  lemma Assoc<T>(a: seq<T>, b: seq<T>, c: seq<T>)
    ensures a + b + c == a + (b + c)
  {
  }

  // ---- Chunks that are stable ------------------------------------------------------

  lemma UnicodeEscapeLocal(raw: seq<byte>, rest: seq<byte>)
    requires |raw| >= 6
    ensures UnicodeEscape(raw + rest) == UnicodeEscape(raw)
  {
    assert forall i :: 0 <= i < 6 ==> (raw + rest)[i] == raw[i];
  }

  lemma StableRune(r: rune)
    requires r != BACKSLASH
    ensures Stable(Encode(r), r)
  {
    forall rest: seq<byte>
      ensures NextToken(Encode(r) + rest) == Token(r, |Encode(r)|)
    {
      assert (Encode(r) + rest)[0] == Encode(r)[0];
      DecodeEncode(r, rest);
    }
  }

  lemma StableSimple(b: byte)
    requires IsSimpleEscape(b)
    ensures Stable([BACKSLASH, b], SimpleEscape(b))
  {
    forall rest: seq<byte>
      ensures NextToken([BACKSLASH, b] + rest) == Token(SimpleEscape(b), 2)
    {
      var raw := [BACKSLASH, b] + rest;
      assert raw[0] == BACKSLASH && raw[1] == b;
    }
  }

  lemma StableUnit(chunk: seq<byte>)
    requires |chunk| == 6 && UnicodeEscape(chunk).Some?
    requires !IsHigh(UnicodeEscape(chunk).value) && !IsLow(UnicodeEscape(chunk).value)
    ensures Stable(chunk, UnicodeEscape(chunk).value)
  {
    forall rest: seq<byte>
      ensures NextToken(chunk + rest) == Token(UnicodeEscape(chunk).value, 6)
    {
      UnicodeEscapeLocal(chunk, rest);
    }
  }

  lemma StablePair(chunk: seq<byte>)
    requires |chunk| == 12 && UnicodeEscape(chunk).Some? && UnicodeEscape(chunk[6..]).Some?
    requires IsHigh(UnicodeEscape(chunk).value) && IsLow(UnicodeEscape(chunk[6..]).value)
    ensures Stable(chunk, Combine(UnicodeEscape(chunk).value, UnicodeEscape(chunk[6..]).value))
  {
    forall rest: seq<byte>
      ensures NextToken(chunk + rest) == Token(Combine(UnicodeEscape(chunk).value, UnicodeEscape(chunk[6..]).value), 12)
    {
      UnicodeEscapeLocal(chunk, rest);
      UnicodeEscapeLocal(chunk[6..], rest);
      assert (chunk + rest)[6..] == chunk[6..] + rest;
    }
  }

  // ---- Well-formedness -------------------------------------------------------------

  lemma LexemeLocal(a: seq<byte>, b: seq<byte>)
    requires a != [] && Lexeme(a) > 0
    ensures Lexeme(a + b) == Lexeme(a)
  {
    assert (a + b)[0] == a[0];
    if a[0] == BACKSLASH {
      assert (a + b)[1] == a[1];
      if UnicodeEscape(a).Some? { UnicodeEscapeLocal(a, b); }
    }
  }

  /** Well-formed bodies concatenate to a well-formed body. */
  lemma {:induction false} ValidAppend(a: seq<byte>, b: seq<byte>)
    requires ValidBody(a) && ValidBody(b)
    ensures ValidBody(a + b)
  {
    if a == [] {
      assert a + b == b;
    } else {
      LexemeLocal(a, b);
      assert (a + b)[Lexeme(a)..] == a[Lexeme(a)..] + b;
      ValidAppend(a[Lexeme(a)..], b);
    }
  }

  /** Bytes outside ASCII are plain string content. */
  lemma {:induction false} ValidHigh(a: seq<byte>)
    requires forall i :: 0 <= i < |a| ==> a[i] >= 0x80
    ensures ValidBody(a)
  {
    if a != [] { ValidHigh(a[1..]); }
  }

  lemma {:induction false} ValidDropHigh(a: seq<byte>, k: nat)
    requires ValidBody(a) && k <= |a|
    requires forall i :: 0 <= i < k ==> a[i] >= 0x80
    ensures ValidBody(a[k..])
  {
    if k > 0 {
      ValidDropHigh(a[1..], k - 1);
      assert a[1..][k - 1..] == a[k..];
    }
  }
}
