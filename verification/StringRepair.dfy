/**
 appendCopilotJSONStringText: copying JSON string interiors into one string without
 decoding them, so that broken Unicode in one part cannot combine with the next part.
 */
module StringRepair {
  import opened Collections
  import opened Utf8
  import opened JsonString
  import opened Buffers

  /** The escape sequence \ufffd and the character it stands for. */
  const ESCAPED_REPLACEMENT: seq<byte> := [0x5C, 0x75, 0x66, 0x66, 0x66, 0x64]
  const ENCODED_REPLACEMENT: seq<byte> := [0xEF, 0xBF, 0xBD]

  /** What is written for the first character of raw, and the bytes it stands for. */
  datatype Piece = Piece(out: seq<byte>, size: nat)

  function RepairHead(raw: seq<byte>): (p: Piece)
    requires raw != []
    ensures 1 <= p.size <= |raw|
  {
    if raw[0] == BACKSLASH then
      match UnicodeEscape(raw)
      case None => if |raw| == 1 then Piece(raw, 1) else Piece(raw[..2], 2)
      case Some(unit) =>
        if IsHigh(unit) && UnicodeEscape(raw[6..]).Some? && IsLow(UnicodeEscape(raw[6..]).value) then
          Piece(raw[..12], 12)
        else if IsHigh(unit) || IsLow(unit) then Piece(ESCAPED_REPLACEMENT, 6)
        else Piece(raw[..6], 6)
    else if raw[0] >= 0x80 && DecodeRune(raw).size == 1 then Piece(ENCODED_REPLACEMENT, 1)
    else Piece(raw[..DecodeRune(raw).size], DecodeRune(raw).size)
  }

  function Repair(raw: seq<byte>): seq<byte> {
    if raw == [] then [] else RepairHead(raw).out + Repair(raw[RepairHead(raw).size..])
  }

  /** The branches of one loop turn: how many bytes to skip, and whether to replace them. */
  method Inspect(raw: seq<byte>, index: nat) returns (size: nat, broken: bool)
    requires index < |raw|
    ensures size == RepairHead(raw[index..]).size
    ensures !broken ==> RepairHead(raw[index..]).out == raw[index..index + size]
    ensures broken ==> RepairHead(raw[index..]).out ==
                       if raw[index] == BACKSLASH then ESCAPED_REPLACEMENT else ENCODED_REPLACEMENT
  {
    if raw[index] == BACKSLASH {
      var unit := UnicodeEscape(raw[index..]);
      if unit.None? {
        return if index + 1 == |raw| then 1 else 2, false;
      }
      if IsHigh(unit.value) {
        assert raw[index..][6..] == raw[index + 6..];
        var next := UnicodeEscape(raw[index + 6..]);
        if next.Some? && IsLow(next.value) {
          return 12, false;
        }
      } else if !IsLow(unit.value) {
        return 6, false;
      }
      return 6, true;
    }
    if raw[index] >= 0x80 {
      size := DecodeRune(raw[index..]).size;
      return size, size == 1;
    }
    return 1, false;
  }

  /** After index bytes, emitted is what the whole repair starts with. */
  ghost predicate Progress(prefix: seq<byte>, emitted: seq<byte>, raw: seq<byte>, index: nat) {
    index <= |raw| && emitted + Repair(raw[index..]) == prefix + Repair(raw)
  }

  lemma Advance(prefix: seq<byte>, emitted: seq<byte>, raw: seq<byte>, index: nat)
    requires index < |raw| && Progress(prefix, emitted, raw, index)
    ensures var p := RepairHead(raw[index..]);
            Progress(prefix, emitted + p.out, raw, index + p.size)
  {
    var p := RepairHead(raw[index..]);
    assert raw[index..][p.size..] == raw[index + p.size..];
    assert emitted + (p.out + Repair(raw[index + p.size..])) == emitted + p.out + Repair(raw[index + p.size..]);
  }

  /** The byte loop: untouched runs are copied whole, broken characters are replaced. */
  method AppendJsonStringText(output: Buffer, raw: seq<byte>)
    modifies output
    ensures output.content == old(output.content) + Repair(raw)
  {
    var start, index := 0, 0;
    ghost var prefix := output.content;
    ghost var emitted := prefix;
    assert raw[0..] == raw && raw[..0] == [];
    while index < |raw|
      invariant 0 <= start <= index <= |raw|
      invariant output.content + raw[start..index] == emitted
      invariant Progress(prefix, emitted, raw, index)
    {
      start, index, emitted := AppendPiece(output, raw, start, index, prefix, emitted);
    }
    Finished(prefix, emitted, raw, index);
    assert raw[start..] == raw[start..index];
    output.Write(raw[start..]);
  }

  lemma Finished(prefix: seq<byte>, emitted: seq<byte>, raw: seq<byte>, index: nat)
    requires index == |raw| && Progress(prefix, emitted, raw, index)
    ensures emitted == prefix + Repair(raw)
  {
    assert raw[index..] == [];
  }

  /** One turn of the loop: a broken character ends the run of untouched bytes. */
  method AppendPiece(output: Buffer, raw: seq<byte>, start0: nat, index0: nat, ghost prefix: seq<byte>,
                     ghost emitted0: seq<byte>)
      returns (start: nat, index: nat, ghost emitted: seq<byte>)
    requires start0 <= index0 < |raw| && output.content + raw[start0..index0] == emitted0 &&
      Progress(prefix, emitted0, raw, index0)
    modifies output
    ensures start <= index <= |raw| && index > index0
    ensures output.content + raw[start..index] == emitted && Progress(prefix, emitted, raw, index)
  {
    start := start0;
    Advance(prefix, emitted0, raw, index0);
    var size, broken := Inspect(raw, index0);
    index := index0 + size;
    ghost var out := RepairHead(raw[index0..]).out;
    emitted := emitted0 + out;
    if broken {
      Replace(output, raw[start0..index0], if raw[index0] == BACKSLASH then ESCAPED_REPLACEMENT
        else ENCODED_REPLACEMENT);
      start := index;
      NothingYet(output.content, raw, start);
    } else {
      Extend(output.content, raw, start0, index0, index);
    }
  }

  method Replace(output: Buffer, run: seq<byte>, replacement: seq<byte>)
    modifies output
    ensures output.content == old(output.content) + run + replacement
  {
    output.Write(run);
    output.Write(replacement);
  }

  lemma NothingYet(content: seq<byte>, raw: seq<byte>, start: nat)
    requires start <= |raw|
    ensures content + raw[start..start] == content
  {
  }

  lemma Extend(content: seq<byte>, raw: seq<byte>, start: nat, index: nat, next: nat)
    requires start <= index <= next <= |raw|
    ensures content + raw[start..next] == content + raw[start..index] + raw[index..next]
  {
    assert raw[start..next] == raw[start..index] + raw[index..next];
  }

  // ---- What the repaired text decodes to ------------------------------------------

  lemma ReplacementStable()
    ensures Stable(ESCAPED_REPLACEMENT, REPLACEMENT) && ValidBody(ESCAPED_REPLACEMENT)
    ensures Stable(ENCODED_REPLACEMENT, REPLACEMENT) && ValidBody(ENCODED_REPLACEMENT)
  {
    StableUnit(ESCAPED_REPLACEMENT);
    StableRune(REPLACEMENT);
    assert Encode(REPLACEMENT) == ENCODED_REPLACEMENT;
    assert ESCAPED_REPLACEMENT[6..] == [];
    ValidHigh(ENCODED_REPLACEMENT);
  }

  /** Every written piece is well formed and decodes, on its own, to what it replaces. */
  lemma PieceStable(raw: seq<byte>)
    requires raw != [] && ValidBody(raw)
    ensures var p := RepairHead(raw);
            && p.size == NextToken(raw).size
            && Stable(p.out, NextToken(raw).value)
            && ValidBody(p.out)
            && ValidBody(raw[p.size..])
  {
    ReplacementStable();
    if raw[0] == BACKSLASH {
      EscapeStable(raw);
    } else {
      var t := DecodeRune(raw);
      if raw[0] < 0x80 || t.size > 1 {
        EncodeDecode(raw);
        StableRune(t.value);
      }
      if raw[0] < 0x80 {
        assert raw[..1][1..] == [];
      } else {
        HighSequence(raw);
        ValidHigh(raw[..t.size]);
        ValidDropHigh(raw, t.size);
      }
    }
  }

  lemma HighSequence(raw: seq<byte>)
    requires raw != [] && raw[0] >= 0x80
    ensures forall i :: 0 <= i < DecodeRune(raw).size ==> raw[i] >= 0x80
  {
  }

  lemma EscapeStable(raw: seq<byte>)
    requires raw != [] && ValidBody(raw) && raw[0] == BACKSLASH
    ensures var p := RepairHead(raw);
            && p.size == NextToken(raw).size
            && Stable(p.out, NextToken(raw).value)
            && ValidBody(p.out)
            && ValidBody(raw[p.size..])
  {
    if UnicodeEscape(raw).None? {
      assert raw[..2] == [BACKSLASH, raw[1]];
      StableSimple(raw[1]);
      assert raw[..2][2..] == [];
    } else {
      UnitValid(raw);
      if RepairHead(raw).size == 12 {
        PairStable(raw);
      } else if RepairHead(raw).out == raw[..6] {
        StableUnit(raw[..6]);
      } else {
        ReplacementStable();
      }
    }
  }

  lemma PairStable(raw: seq<byte>)
    requires ValidBody(raw) && raw != [] && UnicodeEscape(raw).Some? && UnicodeEscape(raw[6..]).Some?
    requires IsHigh(UnicodeEscape(raw).value) && IsLow(UnicodeEscape(raw[6..]).value)
    ensures ValidBody(raw[..12]) && ValidBody(raw[12..])
    ensures Stable(raw[..12], Combine(UnicodeEscape(raw).value, UnicodeEscape(raw[6..]).value))
  {
    UnitValid(raw);
    UnitValid(raw[6..]);
    var first, second := raw[..6], raw[6..][..6];
    assert raw[..12] == first + second && raw[6..][6..] == raw[12..];
    ValidAppend(first, second);
    assert raw[..12][6..] == second;
    UnicodeEscapeLocal(first, second);
    StablePair(raw[..12]);
  }

  lemma UnitValid(raw: seq<byte>)
    requires ValidBody(raw) && raw != [] && UnicodeEscape(raw).Some?
    ensures ValidBody(raw[..6]) && ValidBody(raw[6..])
    ensures UnicodeEscape(raw[..6]) == UnicodeEscape(raw)
  {
    UnicodeEscapeLocal(raw[..6], raw[6..]);
    assert raw[..6] + raw[6..] == raw;
    assert raw[..6][6..] == [];
  }

  /** A repaired text decodes to the same characters, and never joins with what follows. */
  lemma {:induction false} RepairIsolates(raw: seq<byte>, rest: seq<byte>)
    requires ValidBody(raw)
    ensures Decode(Repair(raw) + rest) == Decode(raw) + Decode(rest)
    ensures ValidBody(Repair(raw))
  {
    if raw == [] {
      assert Repair(raw) + rest == rest;
    } else {
      var p := RepairHead(raw);
      PieceStable(raw);
      RepairIsolates(raw[p.size..], rest);
      var tail := Repair(raw[p.size..]);
      Assoc(p.out, tail, rest);
      DecodeStable(p.out, NextToken(raw).value, tail + rest);
      Assoc([NextToken(raw).value], Decode(raw[p.size..]), Decode(rest));
      ValidAppend(p.out, Repair(raw[p.size..]));
    }
  }

  function RepairAll(parts: seq<seq<byte>>): seq<byte> {
    if parts == [] then [] else Repair(parts[0]) + RepairAll(parts[1..])
  }

  function DecodeParts(parts: seq<seq<byte>>): seq<rune> {
    if parts == [] then [] else Decode(parts[0]) + DecodeParts(parts[1..])
  }

  /** The joined interiors are one JSON string that decodes to the parts' own texts in order. */
  lemma {:induction false} JoinedPartsDecode(parts: seq<seq<byte>>)
    requires forall i :: 0 <= i < |parts| ==> ValidBody(parts[i])
    ensures Decode(RepairAll(parts)) == DecodeParts(parts)
    ensures ValidBody(RepairAll(parts))
  {
    if parts != [] {
      JoinedPartsDecode(parts[1..]);
      RepairIsolates(parts[0], RepairAll(parts[1..]));
      ValidAppend(Repair(parts[0]), RepairAll(parts[1..]));
    }
  }

  /** Without the repair, a high and a low surrogate in two parts would become one character. */
  lemma PlainJoinCombines()
    ensures var high := [0x5C, 0x75, 0x64, 0x38, 0x33, 0x64];
            var low := [0x5C, 0x75, 0x64, 0x65, 0x30, 0x30];
            && ValidBody(high) && ValidBody(low)
            && Decode(high + low) == [0x1F600]
            && Decode(high) + Decode(low) == [REPLACEMENT, REPLACEMENT]
  {
    var high: seq<byte> := [0x5C, 0x75, 0x64, 0x38, 0x33, 0x64];
    var low: seq<byte> := [0x5C, 0x75, 0x64, 0x65, 0x30, 0x30];
    assert high[6..] == [] && low[6..] == [];
    assert (high + low)[6..] == low && (high + low)[12..] == [];
    assert UnicodeEscape(high) == Some(0xD83D) && UnicodeEscape(low) == Some(0xDE00);
    UnicodeEscapeLocal(high, low);
    assert NextToken(high + low) == Token(0x1F600, 12);
  }
}
