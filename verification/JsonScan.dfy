/**
 The byte loops of the JSON rewriter (skipSpace, scanString, scanValueEnd) and what they
 find in a rendered tree.
 */
module JsonScan {
  import opened Collections
  import opened Utf8
  import opened JsonString
  import opened JsonTree

  function GapLength(rest: seq<byte>): (n: nat)
    ensures n <= |rest|
  {
    if rest == [] || !IsSpace(rest[0]) then 0 else 1 + GapLength(rest[1..])
  }

  method SkipSpace(raw: seq<byte>, start: nat) returns (index: nat)
    requires start <= |raw|
    ensures index == start + GapLength(raw[start..])
  {
    index := start;
    while index < |raw| && IsSpace(raw[index])
      invariant start <= index <= |raw|
      invariant index + GapLength(raw[index..]) == start + GapLength(raw[start..])
    {
      assert raw[index..][1..] == raw[index + 1..];
      index := index + 1;
    }
  }

  /** Bytes up to and including the closing quote. */
  function StringLength(rest: seq<byte>, escaped: bool): (n: Option<nat>)
    ensures n.Some? ==> 0 < n.value <= |rest|
  {
    if rest == [] then None
    else if !escaped && rest[0] == QUOTE then Some(1)
    else match StringLength(rest[1..], !escaped && rest[0] == BACKSLASH)
      case None => None
      case Some(n) => Some(n + 1)
  }

  method ScanString(raw: seq<byte>, start: nat) returns (end: nat, ok: bool)
    ensures ok <==> start < |raw| && raw[start] == QUOTE && StringLength(raw[start + 1..], false).Some?
    ensures ok ==> end == start + 1 + StringLength(raw[start + 1..], false).value
    ensures !ok ==> end == start
  {
    if start >= |raw| || raw[start] != QUOTE {
      return start, false;
    }
    var escaped := false;
    var index := start + 1;
    while index < |raw|
      invariant start < index <= |raw|
      invariant match StringLength(raw[start + 1..], false)
                case None => StringLength(raw[index..], escaped).None?
                case Some(n) => StringLength(raw[index..], escaped) == Some(start + 1 + n - index)
    {
      assert raw[index..][1..] == raw[index + 1..];
      if escaped {
        escaped := false;
      } else if raw[index] == BACKSLASH {
        escaped := true;
      } else if raw[index] == QUOTE {
        return index + 1, true;
      }
      index := index + 1;
    }
    return start, false;
  }

  method ScanValueEnd(raw: seq<byte>, start: nat) returns (end: nat)
    requires start <= |raw|
    ensures end == start + ScanLength(raw[start..], 0, false, false)
  {
    var depth: nat, inString, escaped := 0, false, false;
    end := start;
    while end < |raw|
      invariant start <= end <= |raw|
      invariant inString || !escaped
      invariant end + ScanLength(raw[end..], depth, inString, escaped) ==
        start + ScanLength(raw[start..], 0, false, false)
    {
      var value := raw[end];
      assert raw[end..][1..] == raw[end + 1..];
      if inString {
        if escaped {
          escaped := false;
        } else if value == BACKSLASH {
          escaped := true;
        } else if value == QUOTE {
          inString := false;
        }
      } else if value == QUOTE {
        inString := true;
      } else if value == OPEN_BRACE || value == OPEN_BRACKET {
        depth := depth + 1;
      } else if value == CLOSE_BRACE || value == CLOSE_BRACKET {
        if depth == 0 { return; }
        depth := depth - 1;
      } else if value == COMMA {
        if depth == 0 { return; }
      }
      end := end + 1;
    }
  }

  // ---- bytes.TrimSpace on text whose ends are ASCII ------------------------------------

  function TrimLeft(raw: seq<byte>): seq<byte> {
    if raw != [] && IsBlank(raw[0]) then TrimLeft(raw[1..]) else raw
  }

  function TrimRight(raw: seq<byte>): seq<byte> {
    if raw != [] && IsBlank(raw[|raw| - 1]) then TrimRight(raw[..|raw| - 1]) else raw
  }

  function Trim(raw: seq<byte>): seq<byte> {
    TrimRight(TrimLeft(raw))
  }

  /** ASCII characters that bytes.TrimSpace removes: more than JSON white space. */
  predicate IsBlank(b: byte) {
    IsSpace(b) || b == 0x0B || b == 0x0C
  }

  lemma {:induction false} TrimLeftGap(gap: seq<byte>, rest: seq<byte>)
    requires IsGap(gap) && rest != [] && !IsBlank(rest[0])
    ensures TrimLeft(gap + rest) == rest
  {
    if gap == [] {
      assert gap + rest == rest;
    } else {
      assert (gap + rest)[1..] == gap[1..] + rest;
      TrimLeftGap(gap[1..], rest);
    }
  }

  lemma {:induction false} TrimRightGap(text: seq<byte>, gap: seq<byte>)
    requires IsGap(gap) && text != [] && !IsBlank(text[|text| - 1])
    ensures TrimRight(text + gap) == text
  {
    if gap == [] {
      assert text + gap == text;
    } else {
      assert (text + gap)[..|text + gap| - 1] == text + gap[..|gap| - 1];
      TrimRightGap(text, gap[..|gap| - 1]);
    }
  }

  /** No value starts or ends with white space. */
  lemma RenderEnds(t: Tree)
    requires Wf(t)
    ensures Render(t) != []
    ensures !IsBlank(Render(t)[0]) && !IsBlank(Render(t)[|Render(t)| - 1])
  {
    if t.Atom? { AtomPlain(t.text); }
  }

  /** Trimming takes exactly the layout around a value. */
  lemma TrimItem(item: Item)
    requires WfItem(item)
    ensures Trim(RenderItem(item)) == Render(item.value)
  {
    var text := Render(item.value);
    RenderEnds(item.value);
    Assoc(item.before, text, item.after);
    assert (text + item.after)[0] == text[0];
    TrimLeftGap(item.before, text + item.after);
    TrimRightGap(text, item.after);
  }

  lemma TrimSpaced(t: Tree, after: seq<byte>)
    requires Wf(t) && IsGap(after)
    ensures Trim(Render(t) + after) == Render(t)
  {
    TrimItem(Item([], t, after));
    assert [] + Render(t) + after == Render(t) + after;
  }

  // ---- What the scans find ---------------------------------------------------------------

  lemma {:induction false} GapAhead(gap: seq<byte>, rest: seq<byte>)
    requires IsGap(gap) && (rest == [] || !IsSpace(rest[0]))
    ensures GapLength(gap + rest) == |gap|
  {
    if gap == [] {
      assert gap + rest == rest;
    } else {
      assert (gap + rest)[1..] == gap[1..] + rest;
      GapAhead(gap[1..], rest);
    }
  }

  lemma LexemeAhead(body: seq<byte>, rest: seq<byte>)
    requires body != [] && Lexeme(body) > 0
    ensures StringLength(body + rest, false) ==
            match StringLength(body[Lexeme(body)..] + rest, false)
            case None => None
            case Some(n) => Some(n + Lexeme(body))
  {
    var n := Lexeme(body);
    var all := body + rest;
    assert all[n..] == body[n..] + rest;
    if n > 1 {
      assert all[1..][1..] == all[2..];
      if n == 6 { HexAhead(all); }
    }
  }

  lemma HexAhead(all: seq<byte>)
    requires |all| >= 6 && UnicodeEscape(all).Some?
    ensures StringLength(all[2..], false) ==
            match StringLength(all[6..], false) case None => None case Some(n) => Some(n + 4)
  {
    assert all[2..][1..] == all[3..] && all[3..][1..] == all[4..];
    assert all[4..][1..] == all[5..] && all[5..][1..] == all[6..];
    var s5, s4, s3 := StringLength(all[5..], false), StringLength(all[4..], false), StringLength(all[3..], false);
    assert s5.None? <==> StringLength(all[6..], false).None?;
    assert s4.None? <==> s5.None?;
    assert s3.None? <==> s4.None?;
  }

  lemma {:induction false} StringAhead(body: seq<byte>, rest: seq<byte>)
    requires ValidBody(body)
    ensures StringLength(body + ([QUOTE] + rest), false) == Some(|body| + 1)
  {
    if body == [] {
      assert body + ([QUOTE] + rest) == [QUOTE] + rest;
    } else {
      LexemeAhead(body, [QUOTE] + rest);
      StringAhead(body[Lexeme(body)..], rest);
    }
  }
}
