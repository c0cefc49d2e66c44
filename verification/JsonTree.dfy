/**
 JSON texts as trees with their layout (RFC 8259, sections 2 to 7), and the depth, string
 and escape scan that the rewriter uses to find where a value ends.
 */
module JsonTree {
  import opened Collections
  import opened Utf8
  import opened JsonString

  const OPEN_BRACE: byte := 0x7B
  const CLOSE_BRACE: byte := 0x7D
  const OPEN_BRACKET: byte := 0x5B
  const CLOSE_BRACKET: byte := 0x5D
  const COMMA: byte := 0x2C
  const COLON: byte := 0x3A

  /** A value without its surrounding white space, an array element, an object member. */
  datatype Tree =
    | Atom(text: seq<byte>)
    | Str(body: seq<byte>)
    | Arr(gap: seq<byte>, items: seq<Item>)
    | Obj(gap: seq<byte>, members: seq<Member>)
  datatype Item = Item(before: seq<byte>, value: Tree, after: seq<byte>)
  datatype Member = Member(before: seq<byte>, key: seq<byte>, colonBefore: seq<byte>,
                           colonAfter: seq<byte>, value: Tree, after: seq<byte>)

  predicate IsSpace(b: byte) {
    b in [0x20, 0x09, 0x0A, 0x0D]
  }

  predicate IsGap(raw: seq<byte>) {
    forall i :: 0 <= i < |raw| ==> IsSpace(raw[i])
  }

  // ---- Numbers and literals ---------------------------------------------------------

  predicate IsDigits(raw: seq<byte>) {
    raw != [] && forall i :: 0 <= i < |raw| ==> 0x30 <= raw[i] <= 0x39
  }

  predicate IsInteger(raw: seq<byte>) {
    IsDigits(raw) && (raw[0] == 0x30 ==> |raw| == 1)
  }

  predicate IsFraction(raw: seq<byte>) {
    raw == [] || (raw[0] == 0x2E && IsDigits(raw[1..]))
  }

  predicate IsExponent(raw: seq<byte>) {
    raw == [] || ((raw[0] == 0x65 || raw[0] == 0x45) &&
                  (IsDigits(raw[1..]) || (|raw| >= 2 && (raw[1] == 0x2B || raw[1] == 0x2D) && IsDigits(raw[2..]))))
  }

  ghost predicate IsNumber(raw: seq<byte>) {
    exists i: nat, f: nat, e: nat :: i <= f <= e <= |raw| && IsNumberAt(raw, i, f, e)
  }

  ghost predicate IsNumberAt(raw: seq<byte>, i: nat, f: nat, e: nat)
    requires i <= f <= e <= |raw|
  {
    && (i == 1 ==> raw[0] == 0x2D)
    && i <= 1
    && IsInteger(raw[i..f]) && IsFraction(raw[f..e]) && IsExponent(raw[e..])
  }

  ghost predicate IsAtom(raw: seq<byte>) {
    || raw == [0x74, 0x72, 0x75, 0x65]
    || raw == [0x66, 0x61, 0x6C, 0x73, 0x65]
    || raw == [0x6E, 0x75, 0x6C, 0x6C]
    || IsNumber(raw)
  }

  /** Bytes of numbers and literals: nothing the scanners look for. */
  predicate IsPlain(b: byte) {
    0x30 <= b <= 0x39 || 0x61 <= b <= 0x7A || b in [0x2D, 0x2B, 0x2E, 0x45]
  }

  lemma DigitsPlain(raw: seq<byte>)
    requires raw == [] || IsDigits(raw)
    ensures forall i :: 0 <= i < |raw| ==> IsPlain(raw[i])
  {
  }

  lemma NumberPlain(raw: seq<byte>, i: nat, f: nat, e: nat)
    requires i <= f <= e <= |raw| && IsNumberAt(raw, i, f, e)
    ensures raw != [] && forall k :: 0 <= k < |raw| ==> IsPlain(raw[k])
  {
    var fraction, exponent := raw[f..e], raw[e..];
    if fraction != [] { DigitsPlain(fraction[1..]); }
    forall k | 0 <= k < |raw|
      ensures IsPlain(raw[k])
    {
      if k < i {
      } else if k < f {
        assert raw[k] == raw[i..f][k - i];
      } else if k < e {
        assert raw[k] == fraction[k - f];
        if k > f { assert raw[k] == fraction[1..][k - f - 1]; }
      } else {
        ExponentPlain(exponent);
        assert raw[k] == exponent[k - e];
      }
    }
  }

  lemma ExponentPlain(raw: seq<byte>)
    requires IsExponent(raw)
    ensures forall k :: 0 <= k < |raw| ==> IsPlain(raw[k])
  {
    forall k | 0 <= k < |raw|
      ensures IsPlain(raw[k])
    {
      if k > 0 {
        assert raw[k] == raw[1..][k - 1];
        if k > 1 { assert raw[k] == raw[2..][k - 2]; }
      }
    }
  }

  lemma AtomPlain(raw: seq<byte>)
    requires IsAtom(raw)
    ensures raw != [] && forall k :: 0 <= k < |raw| ==> IsPlain(raw[k])
  {
    if IsNumber(raw) {
      var i: nat, f: nat, e: nat :| i <= f <= e <= |raw| && IsNumberAt(raw, i, f, e);
      NumberPlain(raw, i, f, e);
    }
  }

  // ---- Texts ------------------------------------------------------------------------

  function Render(t: Tree): seq<byte>
    decreases t, 0
  {
    match t
    case Atom(text) => text
    case Str(body) => Quoted(body)
    case Arr(gap, items) => [OPEN_BRACKET] + (if items == [] then gap else RenderItems(items)) + [CLOSE_BRACKET]
    case Obj(gap, members) => [OPEN_BRACE] + (if members == [] then gap else RenderMembers(members)) + [CLOSE_BRACE]
  }

  function Quoted(body: seq<byte>): seq<byte> {
    [QUOTE] + body + [QUOTE]
  }

  function RenderItem(item: Item): seq<byte>
    decreases item, 1
  {
    item.before + Render(item.value) + item.after
  }

  function RenderItems(items: seq<Item>): seq<byte>
    requires items != []
    decreases items, 2
  {
    RenderItem(items[0]) + (if |items| == 1 then [] else [COMMA] + RenderItems(items[1..]))
  }

  function RenderMember(m: Member): seq<byte>
    decreases m, 1
  {
    m.before + Quoted(m.key) + m.colonBefore + [COLON] + m.colonAfter + Render(m.value) + m.after
  }

  function RenderMembers(members: seq<Member>): seq<byte>
    requires members != []
    decreases members, 2
  {
    RenderMember(members[0]) + (if |members| == 1 then [] else [COMMA] + RenderMembers(members[1..]))
  }

  ghost predicate Wf(t: Tree)
    decreases t, 0
  {
    match t
    case Atom(text) => IsAtom(text)
    case Str(body) => ValidBody(body)
    case Arr(gap, items) => IsGap(gap) && forall i :: 0 <= i < |items| ==> WfItem(items[i])
    case Obj(gap, members) => IsGap(gap) && forall i :: 0 <= i < |members| ==> WfMember(members[i])
  }

  ghost predicate WfItem(item: Item)
    decreases item, 1
  {
    IsGap(item.before) && Wf(item.value) && IsGap(item.after)
  }

  ghost predicate WfMember(m: Member)
    decreases m, 1
  {
    && IsGap(m.before) && ValidBody(m.key) && IsGap(m.colonBefore) && IsGap(m.colonAfter)
    && Wf(m.value) && IsGap(m.after)
  }

  /** json.Valid: a value with white space around it. */
  ghost predicate IsJson(raw: seq<byte>) {
    exists item: Item :: WfItem(item) && RenderItem(item) == raw
  }

  // ---- The scan ---------------------------------------------------------------------

  /** How many bytes scanValueEnd passes over, given the state of its loop. */
  function ScanLength(rest: seq<byte>, depth: nat, inString: bool, escaped: bool): (n: nat)
    ensures n <= |rest|
  {
    if rest == [] then 0
    else
      var b := rest[0];
      if inString then
        if escaped then 1 + ScanLength(rest[1..], depth, true, false)
        else 1 + ScanLength(rest[1..], depth, b != QUOTE, b == BACKSLASH)
      else if b == QUOTE then 1 + ScanLength(rest[1..], depth, true, escaped)
      else if b == OPEN_BRACE || b == OPEN_BRACKET then 1 + ScanLength(rest[1..], depth + 1, false, escaped)
      else if b == CLOSE_BRACE || b == CLOSE_BRACKET then
        if depth == 0 then 0 else 1 + ScanLength(rest[1..], depth - 1, false, escaped)
      else if b == COMMA && depth == 0 then 0
      else 1 + ScanLength(rest[1..], depth, false, escaped)
  }

  /** The scan passes over chunk at this depth and is then in the same state. */
  ghost predicate Passes(chunk: seq<byte>, depth: nat) {
    forall rest: seq<byte> :: ScanLength(chunk + rest, depth, false, false) ==
      |chunk| + ScanLength(rest, depth, false, false)
  }

  lemma PassesJoin(a: seq<byte>, b: seq<byte>, depth: nat)
    requires Passes(a, depth) && Passes(b, depth)
    ensures Passes(a + b, depth)
  {
    forall rest: seq<byte>
      ensures ScanLength(a + b + rest, depth, false, false) == |a + b| + ScanLength(rest, depth, false, false)
    {
      Assoc(a, b, rest);
      assert ScanLength(a + (b + rest), depth, false, false) == |a| + ScanLength(b + rest, depth, false, false);
    }
  }

  lemma PassesOne(b: byte, depth: nat)
    requires b !in [QUOTE, OPEN_BRACE, OPEN_BRACKET, CLOSE_BRACE, CLOSE_BRACKET]
    requires b != COMMA || depth > 0
    ensures Passes([b], depth)
  {
    forall rest: seq<byte>
      ensures ScanLength([b] + rest, depth, false, false) == 1 + ScanLength(rest, depth, false, false)
    {
      assert ([b] + rest)[1..] == rest;
    }
  }

  lemma {:induction false} PassesQuiet(raw: seq<byte>, depth: nat)
    requires forall i :: 0 <= i < |raw| ==> IsSpace(raw[i]) || IsPlain(raw[i])
    ensures Passes(raw, depth)
  {
    if raw == [] {
      forall rest: seq<byte>
        ensures ScanLength(raw + rest, depth, false, false) == ScanLength(rest, depth, false, false)
      {
        assert raw + rest == rest;
      }
    } else {
      PassesOne(raw[0], depth);
      PassesQuiet(raw[1..], depth);
      PassesJoin([raw[0]], raw[1..], depth);
      assert [raw[0]] + raw[1..] == raw;
    }
  }

  /** Inside a string, one lexeme leaves the scan inside the string and unescaped. */
  lemma ScanLexeme(body: seq<byte>, rest: seq<byte>, depth: nat)
    requires body != [] && Lexeme(body) > 0
    ensures ScanLength(body + rest, depth, true, false)
            == Lexeme(body) + ScanLength(body[Lexeme(body)..] + rest, depth, true, false)
  {
    var n := Lexeme(body);
    var all := body + rest;
    assert all[n..] == body[n..] + rest;
    if n == 1 {
    } else {
      assert all[1..][1..] == all[2..];
      if n == 6 { ScanHex(all, depth); }
    }
  }

  lemma ScanHex(all: seq<byte>, depth: nat)
    requires |all| >= 6 && UnicodeEscape(all).Some?
    ensures ScanLength(all[2..], depth, true, false) == 4 + ScanLength(all[6..], depth, true, false)
  {
    assert all[2..][1..] == all[3..] && all[3..][1..] == all[4..];
    assert all[4..][1..] == all[5..] && all[5..][1..] == all[6..];
    assert ScanLength(all[2..], depth, true, false) == 1 + ScanLength(all[3..], depth, true, false);
    assert ScanLength(all[3..], depth, true, false) == 1 + ScanLength(all[4..], depth, true, false);
    assert ScanLength(all[4..], depth, true, false) == 1 + ScanLength(all[5..], depth, true, false);
  }

  lemma {:induction false} ScanBody(body: seq<byte>, rest: seq<byte>, depth: nat)
    requires ValidBody(body)
    ensures ScanLength(body + ([QUOTE] + rest), depth, true, false) ==
      |body| + 1 + ScanLength(rest, depth, false, false)
  {
    if body == [] {
      assert body + ([QUOTE] + rest) == [QUOTE] + rest;
      assert ([QUOTE] + rest)[1..] == rest;
    } else {
      ScanLexeme(body, [QUOTE] + rest, depth);
      ScanBody(body[Lexeme(body)..], rest, depth);
    }
  }

  lemma PassesQuoted(body: seq<byte>, depth: nat)
    requires ValidBody(body)
    ensures Passes(Quoted(body), depth)
  {
    forall rest: seq<byte>
      ensures ScanLength(Quoted(body) + rest, depth, false, false) == |body| + 2 + ScanLength(rest, depth, false, false)
    {
      assert (Quoted(body) + rest)[1..] == body + ([QUOTE] + rest);
      ScanBody(body, rest, depth);
    }
  }

  /** Bracketed text is passed when its inside is passed one level deeper. */
  lemma PassesBracketed(open: byte, inside: seq<byte>, close: byte, depth: nat)
    requires (open == OPEN_BRACE && close == CLOSE_BRACE) || (open == OPEN_BRACKET && close == CLOSE_BRACKET)
    requires Passes(inside, depth + 1)
    ensures Passes([open] + inside + [close], depth)
  {
    forall rest: seq<byte>
      ensures ScanLength([open] + inside + [close] + rest, depth, false, false)
              == |inside| + 2 + ScanLength(rest, depth, false, false)
    {
      var all := [open] + inside + [close] + rest;
      assert all[1..] == inside + ([close] + rest);
      assert ([close] + rest)[1..] == rest;
      assert ScanLength([close] + rest, depth + 1, false, false) == 1 + ScanLength(rest, depth, false, false);
    }
  }

  /** Every value is passed at every depth. */
  lemma {:induction false} PassesTree(t: Tree, depth: nat)
    requires Wf(t)
    ensures Passes(Render(t), depth)
    decreases t, 0
  {
    match t
    case Atom(text) =>
      AtomPlain(text);
      PassesQuiet(text, depth);
    case Str(body) =>
      PassesQuoted(body, depth);
    case Arr(gap, items) =>
      if items == [] {
        PassesQuiet(gap, depth + 1);
        PassesBracketed(OPEN_BRACKET, gap, CLOSE_BRACKET, depth);
      } else {
        PassesItems(items, depth + 1);
        PassesBracketed(OPEN_BRACKET, RenderItems(items), CLOSE_BRACKET, depth);
      }
    case Obj(gap, members) =>
      if members == [] {
        PassesQuiet(gap, depth + 1);
        PassesBracketed(OPEN_BRACE, gap, CLOSE_BRACE, depth);
      } else {
        PassesMembers(members, depth + 1);
        PassesBracketed(OPEN_BRACE, RenderMembers(members), CLOSE_BRACE, depth);
      }
  }

  lemma {:induction false} PassesItem(item: Item, depth: nat)
    requires WfItem(item)
    ensures Passes(RenderItem(item), depth)
    decreases item, 1
  {
    PassesQuiet(item.before, depth);
    PassesTree(item.value, depth);
    PassesQuiet(item.after, depth);
    PassesJoin(item.before, Render(item.value), depth);
    PassesJoin(item.before + Render(item.value), item.after, depth);
  }

  lemma {:induction false} PassesItems(items: seq<Item>, depth: nat)
    requires items != [] && depth > 0 && forall i :: 0 <= i < |items| ==> WfItem(items[i])
    ensures Passes(RenderItems(items), depth)
    decreases items, 2
  {
    PassesItem(items[0], depth);
    if |items| == 1 {
      assert RenderItem(items[0]) + [] == RenderItem(items[0]);
    } else {
      PassesOne(COMMA, depth);
      PassesItems(items[1..], depth);
      PassesJoin([COMMA], RenderItems(items[1..]), depth);
      PassesJoin(RenderItem(items[0]), [COMMA] + RenderItems(items[1..]), depth);
    }
  }

  lemma {:induction false} PassesMember(m: Member, depth: nat)
    requires WfMember(m)
    ensures Passes(RenderMember(m), depth)
    decreases m, 1
  {
    PassesQuiet(m.before, depth);
    PassesQuoted(m.key, depth);
    PassesQuiet(m.colonBefore, depth);
    PassesOne(COLON, depth);
    PassesQuiet(m.colonAfter, depth);
    PassesTree(m.value, depth);
    PassesQuiet(m.after, depth);
    PassesJoin(m.before, Quoted(m.key), depth);
    PassesJoin(m.before + Quoted(m.key), m.colonBefore, depth);
    PassesJoin(m.before + Quoted(m.key) + m.colonBefore, [COLON], depth);
    PassesJoin(m.before + Quoted(m.key) + m.colonBefore + [COLON], m.colonAfter, depth);
    PassesJoin(m.before + Quoted(m.key) + m.colonBefore + [COLON] + m.colonAfter, Render(m.value), depth);
    PassesJoin(m.before + Quoted(m.key) + m.colonBefore + [COLON] + m.colonAfter + Render(m.value), m.after, depth);
  }

  lemma {:induction false} PassesMembers(members: seq<Member>, depth: nat)
    requires members != [] && depth > 0 && forall i :: 0 <= i < |members| ==> WfMember(members[i])
    ensures Passes(RenderMembers(members), depth)
    decreases members, 2
  {
    PassesMember(members[0], depth);
    if |members| == 1 {
      assert RenderMember(members[0]) + [] == RenderMember(members[0]);
    } else {
      PassesOne(COMMA, depth);
      PassesMembers(members[1..], depth);
      PassesJoin([COMMA], RenderMembers(members[1..]), depth);
      PassesJoin(RenderMember(members[0]), [COMMA] + RenderMembers(members[1..]), depth);
    }
  }

  /**
   The scan of any value in any layout stops exactly at the delimiter that follows it.
   */
  lemma ScanStopsAtDelimiter(t: Tree, after: seq<byte>, delimiter: byte, rest: seq<byte>)
    requires Wf(t) && IsGap(after) && delimiter in [COMMA, CLOSE_BRACE, CLOSE_BRACKET]
    ensures ScanLength(Render(t) + after + ([delimiter] + rest), 0, false, false) == |Render(t)| + |after|
  {
    PassesSpaced(t, after);
    StopsAfter(Render(t) + after, delimiter, rest);
  }

  lemma PassesSpaced(t: Tree, after: seq<byte>)
    requires Wf(t) && IsGap(after)
    ensures Passes(Render(t) + after, 0)
  {
    PassesTree(t, 0);
    PassesQuiet(after, 0);
    PassesJoin(Render(t), after, 0);
  }

  lemma StopsAfter(chunk: seq<byte>, delimiter: byte, rest: seq<byte>)
    requires Passes(chunk, 0) && delimiter in [COMMA, CLOSE_BRACE, CLOSE_BRACKET]
    ensures ScanLength(chunk + ([delimiter] + rest), 0, false, false) == |chunk|
  {
    var tail := [delimiter] + rest;
    assert tail[0] == delimiter;
    assert ScanLength(tail, 0, false, false) == 0;
  }
}
