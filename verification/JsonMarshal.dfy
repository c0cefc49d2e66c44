/**
 How encoding/json writes a Go string: the contract the rest of the program relies on
 for keys, summaries and sealed state. Strings decode back, and grow at most sixfold.
 */
module JsonMarshal {
  import opened Collections
  import opened Utf8
  import opened JsonString

  datatype Written = Written(out: seq<byte>, size: nat)

  predicate IsSafe(b: byte) {
    0x20 <= b < 0x80 && b !in [QUOTE, BACKSLASH, 0x3C, 0x3E, 0x26]
  }

  /** The two-character escape letter of an ASCII byte, if it has one. */
  function ShortEscape(b: byte): (e: Option<byte>)
    ensures e.Some? ==> IsSimpleEscape(e.value) && SimpleEscape(e.value) == b
  {
    if b == QUOTE || b == BACKSLASH then Some(b)
    else if b == 0x08 then Some(0x62)
    else if b == 0x0C then Some(0x66)
    else if b == 0x0A then Some(0x6E)
    else if b == 0x0D then Some(0x72)
    else if b == 0x09 then Some(0x74)
    else None
  }

  /** \uXXXX in lower-case hexadecimal. */
  function LongEscape(unit: nat): (out: seq<byte>)
    requires unit < 0x1_0000
    ensures |out| == 6 && UnicodeEscape(out) == Some(unit)
  {
    HexDigits(unit);
    FourDigits(unit / 4096, unit / 256 % 16, unit / 16 % 16, unit % 16);
    [BACKSLASH, SMALL_U, HexDigit(unit / 4096), HexDigit(unit / 256 % 16), HexDigit(unit / 16 % 16),
      HexDigit(unit % 16)]
  }

  lemma HexDigits(unit: nat)
    requires unit < 0x1_0000
    ensures 0 <= unit / 4096 < 16
    ensures unit == 4096 * (unit / 4096) + 256 * (unit / 256 % 16) + 16 * (unit / 16 % 16) + unit % 16
  {
    assert unit / 16 == 16 * (unit / 256) + unit / 16 % 16;
    assert unit / 256 == 16 * (unit / 4096) + unit / 256 % 16;
  }

  lemma FourDigits(d0: nat, d1: nat, d2: nat, d3: nat)
    requires d0 < 16 && d1 < 16 && d2 < 16 && d3 < 16
    ensures UnicodeEscape([BACKSLASH, SMALL_U, HexDigit(d0), HexDigit(d1), HexDigit(d2), HexDigit(d3)])
            == Some(4096 * d0 + 256 * d1 + 16 * d2 + d3)
  {
  }

  function MarshalHead(text: seq<byte>): (w: Written)
    requires text != []
    ensures 1 <= w.size <= |text|
  {
    var b := text[0];
    if b < 0x80 then
      if IsSafe(b) then Written([b], 1)
      else if ShortEscape(b).Some? then Written([BACKSLASH, ShortEscape(b).value], 1)
      else Written(LongEscape(b), 1)
    else
      var t := DecodeRune(text);
      if t.size == 1 then Written(LongEscape(REPLACEMENT), 1)
      else if t.value == 0x2028 || t.value == 0x2029 then Written(LongEscape(t.value), t.size)
      else Written(text[..t.size], t.size)
  }

  function MarshalBody(text: seq<byte>): seq<byte> {
    if text == [] then [] else MarshalHead(text).out + MarshalBody(text[MarshalHead(text).size..])
  }

  /** The whole string token. */
  function Marshal(text: seq<byte>): seq<byte> {
    [QUOTE] + MarshalBody(text) + [QUOTE]
  }

  lemma HeadStable(text: seq<byte>)
    requires text != []
    ensures var w := MarshalHead(text);
            && w.size == DecodeRune(text).size
            && Stable(w.out, DecodeRune(text).value)
            && ValidBody(w.out)
            && |w.out| <= 6 * w.size
  {
    var b := text[0];
    var w := MarshalHead(text);
    if b >= 0x80 {
      HighStable(text);
    } else if IsSafe(b) {
      assert Encode(b) == [b];
      StableRune(b);
      assert [b][1..] == [];
    } else if ShortEscape(b).Some? {
      StableSimple(ShortEscape(b).value);
      assert w.out[2..] == [];
    } else {
      StableUnit(w.out);
      assert w.out[6..] == [];
    }
  }

  lemma HighStable(text: seq<byte>)
    requires text != [] && text[0] >= 0x80
    ensures var w := MarshalHead(text);
            && w.size == DecodeRune(text).size
            && Stable(w.out, DecodeRune(text).value)
            && ValidBody(w.out)
            && |w.out| <= 6 * w.size
  {
    var t, w := DecodeRune(text), MarshalHead(text);
    if w.out == text[..t.size] && t.size > 1 {
      EncodeDecode(text);
      StableRune(t.value);
      ValidHigh(w.out);
    } else {
      StableUnit(w.out);
      assert w.out[6..] == [];
    }
  }

  /** Decoding a marshalled string gives its text, malformed sequences as U+FFFD. */
  lemma {:induction false} MarshalDecodes(text: seq<byte>)
    ensures Decode(MarshalBody(text)) == DecodeAll(text)
    ensures ValidBody(MarshalBody(text))
    ensures |MarshalBody(text)| <= 6 * |text|
  {
    if text != [] {
      var w := MarshalHead(text);
      HeadStable(text);
      MarshalDecodes(text[w.size..]);
      DecodeStable(w.out, DecodeRune(text).value, MarshalBody(text[w.size..]));
      ValidAppend(w.out, MarshalBody(text[w.size..]));
    }
  }

  /** A valid Go string survives marshalling and decoding unchanged. */
  lemma MarshalRoundTrip(text: seq<byte>)
    requires Valid(text)
    ensures EncodeAll(Decode(MarshalBody(text))) == text
  {
    MarshalDecodes(text);
    EncodeAllDecodeAll(text);
  }

  function Zeros(n: nat): (z: seq<byte>)
    ensures |z| == n
  {
    if n == 0 then [] else [0] + Zeros(n - 1)
  }

  /** NUL bytes are the worst case: six bytes each. */
  lemma {:induction false} ZerosExpandSixfold(n: nat)
    ensures |MarshalBody(Zeros(n))| == 6 * n
  {
    if n > 0 {
      ZerosExpandSixfold(n - 1);
      assert Zeros(n)[1..] == Zeros(n - 1);
    }
  }
}
