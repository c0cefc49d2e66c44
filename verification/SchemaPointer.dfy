/**
 JSON values as the standard decoder returns them, and the local references "#/..." that
 point into one (RFC 6901, sections 4 and 6).
 */
module SchemaPointer {
  import opened Collections

  datatype Json =
    | Null
    | Bool(flag: bool)
    | Num(text: string)
    | Str(value: string)
    | Arr(items: seq<Json>)
    | Obj(fields: map<string, Json>)

  type Schema = map<string, Json>

  // ---- Reference tokens ------------------------------------------------------------------

  /** strings.ReplaceAll for a two-character pattern. */
  function ReplaceAll(s: string, first: char, second: char, replacement: string): string {
    if s == [] then []
    else if |s| >= 2 && s[0] == first && s[1] == second
      then replacement + ReplaceAll(s[2..], first, second, replacement)
    else [s[0]] + ReplaceAll(s[1..], first, second, replacement)
  }

  /** The escape test of lookup. It also passes some malformed segments, such as "~~01". */
  predicate EscapesOk(segment: string) {
    '~' !in ReplaceAll(ReplaceAll(segment, '~', '0', ""), '~', '1', "")
  }

  function Unescape(segment: string): string {
    ReplaceAll(ReplaceAll(segment, '~', '1', "/"), '~', '0', "~")
  }

  function Split(s: string): (segments: seq<string>)
    ensures segments != []
  {
    if s == [] then [[]]
    else if s[0] == '/' then [[]] + Split(s[1..])
    else [[s[0]] + Split(s[1..])[0]] + Split(s[1..])[1..]
  }

  predicate IsHexDigit(c: char) {
    '0' <= c <= '9' || 'a' <= c <= 'f' || 'A' <= c <= 'F'
  }

  function HexDigit(c: char): (v: nat)
    requires IsHexDigit(c)
    ensures v < 16
  {
    if c <= '9' then c as int - '0' as int
    else if c <= 'F' then c as int - 'A' as int + 10
    else c as int - 'a' as int + 10
  }

  /** url.PathUnescape; characters stand for the bytes of a Go string. */
  function PathUnescape(s: string): Option<string> {
    if s == [] then Some([])
    else if s[0] != '%' then
      match PathUnescape(s[1..]) case None => None case Some(t) => Some([s[0]] + t)
    else if |s| >= 3 && IsHexDigit(s[1]) && IsHexDigit(s[2]) then
      match PathUnescape(s[3..])
      case None => None
      case Some(t) => Some([(16 * HexDigit(s[1]) + HexDigit(s[2])) as char] + t)
    else None
  }

  /** A canonical decimal array index: what survives Atoi and Itoa unchanged. */
  function ParseIndex(segment: string): Option<nat> {
    if segment != [] && (forall i :: 0 <= i < |segment| ==> '0' <= segment[i] <= '9') &&
      (segment[0] == '0' ==> |segment| == 1)
    then Some(Decimal(segment))
    else None
  }

  function Decimal(digits: string): nat
    requires forall i :: 0 <= i < |digits| ==> '0' <= digits[i] <= '9'
  {
    if digits == [] then 0
    else 10 * Decimal(digits[..|digits| - 1]) + (digits[|digits| - 1] as int - '0' as int)
  }

  /** The index as ParseIndex reads it. */
  function Numeral(n: nat): (digits: string)
    ensures digits != [] && forall i :: 0 <= i < |digits| ==> '0' <= digits[i] <= '9'
  {
    if n < 10 then [('0' as int + n) as char] else Numeral(n / 10) + [('0' as int + n % 10) as char]
  }

  lemma {:induction false} NumeralParses(n: nat)
    ensures ParseIndex(Numeral(n)) == Some(n)
  {
    var digits := Numeral(n);
    if n < 10 {
      assert digits[..0] == [] && Decimal([]) == 0;
    } else {
      NumeralParses(n / 10);
      assert digits[..|digits| - 1] == Numeral(n / 10);
      assert digits[0] == Numeral(n / 10)[0];
      assert Numeral(n / 10) != "0";
    }
  }

  // ---- Walking --------------------------------------------------------------------------------

  /** Follows decoded tokens; step counts the ones already taken. */
  function Walk(value: Json, tokens: seq<string>, step: nat): Option<Json>
    decreases |tokens|
  {
    if tokens == [] then Some(value)
    else
      match value
      case Obj(fields) =>
        if step > 0 && "$id" in fields && fields["$id"].Str? then None
        else if tokens[0] !in fields then None
        else Walk(fields[tokens[0]], tokens[1..], step + 1)
      case Arr(items) =>
        var index := ParseIndex(tokens[0]);
        if index.None? || index.value >= |items| then None
        else Walk(items[index.value], tokens[1..], step + 1)
      case _ => None
  }

  /** The tokens of a local pointer, or None where lookup rejects its syntax. */
  function Tokens(ref: string): Option<seq<string>> {
    if |ref| < 2 || ref[..2] != "#/" then None
    else
      match PathUnescape(ref[2..])
      case None => None
      case Some(pointer) => Decoded(Split(pointer))
  }

  function Decoded(segments: seq<string>): (tokens: Option<seq<string>>)
    ensures tokens.Some? ==> |tokens.value| == |segments|
  {
    if segments == [] then Some([])
    else if !EscapesOk(segments[0]) then None
    else
      match Decoded(segments[1..])
      case None => None
      case Some(rest) => Some([Unescape(segments[0])] + rest)
  }

  /** lookup, as a walk over decoded tokens. */
  function Target(root: Schema, ref: string): Option<Json> {
    match Tokens(ref)
    case None => None
    case Some(tokens) => Walk(Obj(root), tokens, 0)
  }

  /** The segment loop of lookup: escape test, unescape, and one step each. */
  method Lookup(root: Schema, ref: string) returns (target: Option<Json>)
    ensures target == Target(root, ref)
  {
    if |ref| < 2 || ref[..2] != "#/" {
      return None;
    }
    var pointer := PathUnescape(ref[2..]);
    if pointer.None? {
      return None;
    }
    var segments := Split(pointer.value);
    var value := Obj(root);
    for step := 0 to |segments|
      invariant Target(root, ref) ==
                (match Decoded(segments[step..]) case None => None case Some(ts) => Walk(value, ts, step))
    {
      var segment := segments[step];
      assert segments[step..][1..] == segments[step + 1..];
      if !EscapesOk(segment) {
        return None;
      }
      var token := Unescape(segment);
      if value.Obj? {
        if step > 0 && "$id" in value.fields && value.fields["$id"].Str? {
          return None;
        }
        if token !in value.fields {
          return None;
        }
        value := value.fields[token];
      } else if value.Arr? {
        var index := ParseIndex(token);
        if index.None? || index.value >= |value.items| {
          return None;
        }
        value := value.items[index.value];
      } else {
        return None;
      }
    }
    return Some(value);
  }

  // ---- Every token can be written ---------------------------------------------------------------

  function Escape(token: string): string {
    if token == [] then []
    else (if token[0] == '~' then "~0" else if token[0] == '/' then "~1" else [token[0]]) + Escape(token[1..])
  }

  /** Escape after the first replacement of Unescape. */
  function HalfEscape(token: string): string {
    if token == [] then [] else (if token[0] == '~' then "~0" else [token[0]]) + HalfEscape(token[1..])
  }

  lemma {:induction false} FirstReplacement(token: string)
    ensures ReplaceAll(Escape(token), '~', '1', "/") == HalfEscape(token)
  {
    if token != [] {
      var rest := Escape(token[1..]);
      FirstReplacement(token[1..]);
      if token[0] == '~' {
        assert ("~0" + rest)[1..] == "0" + rest && ("0" + rest)[1..] == rest;
        assert ['~'] + (['0'] + HalfEscape(token[1..])) == "~0" + HalfEscape(token[1..]);
      } else if token[0] == '/' {
        assert ("~1" + rest)[2..] == rest;
      } else {
        assert ([token[0]] + rest)[1..] == rest;
      }
    }
  }

  lemma {:induction false} SecondReplacement(token: string)
    ensures ReplaceAll(HalfEscape(token), '~', '0', "~") == token
  {
    if token != [] {
      var rest := HalfEscape(token[1..]);
      SecondReplacement(token[1..]);
      if token[0] == '~' {
        assert ("~0" + rest)[2..] == rest;
      } else {
        assert ([token[0]] + rest)[1..] == rest;
      }
    }
  }

  /** Unescaping inverts escaping for every token. */
  lemma UnescapeEscape(token: string)
    ensures Unescape(Escape(token)) == token
  {
    FirstReplacement(token);
    SecondReplacement(token);
  }

  /** What the two removals of the escape test leave of an escaped token. */
  function Plain(token: string, slashes: bool): string {
    if token == [] then []
    else
      (if token[0] == '~' then [] else if token[0] == '/' then (if slashes then "~1" else []) else [token[0]])
      + Plain(token[1..], slashes)
  }

  lemma EscapePasses(token: string)
    ensures EscapesOk(Escape(token)) && '/' !in Escape(token)
  {
    FirstRemoval(token);
    SecondRemoval(token);
  }

  lemma {:induction false} FirstRemoval(token: string)
    ensures ReplaceAll(Escape(token), '~', '0', "") == Plain(token, true)
    ensures '/' !in Escape(token)
  {
    if token != [] {
      FirstRemoval(token[1..]);
      FirstRemovalStep(token, Escape(token[1..]), Plain(token[1..], true));
    }
  }

  lemma FirstRemovalStep(token: string, e: string, p: string)
    requires token != [] && e == Escape(token[1..]) && p == Plain(token[1..], true) && '/' !in e
    requires ReplaceAll(e, '~', '0', "") == p
    ensures ReplaceAll(Escape(token), '~', '0', "") == Plain(token, true)
    ensures '/' !in Escape(token)
  {
    if token[0] == '~' {
      TildeRemoved(e);
    } else if token[0] == '/' {
      SlashKept(e);
    } else {
      OtherKept(token[0], e);
    }
  }

  lemma TildeRemoved(e: string)
    ensures ReplaceAll("~0" + e, '~', '0', "") == [] + ReplaceAll(e, '~', '0', "")
  {
    assert ("~0" + e)[2..] == e;
  }

  lemma SlashKept(e: string)
    ensures ReplaceAll("~1" + e, '~', '0', "") == "~1" + ReplaceAll(e, '~', '0', "")
  {
    assert ("~1" + e)[1..] == "1" + e;
    OtherKept('1', e);
    assert ['~'] + (['1'] + ReplaceAll(e, '~', '0', "")) == "~1" + ReplaceAll(e, '~', '0', "");
  }

  lemma OtherKept(c: char, e: string)
    requires c != '~'
    ensures ReplaceAll([c] + e, '~', '0', "") == [c] + ReplaceAll(e, '~', '0', "")
  {
    assert ([c] + e)[1..] == e;
  }

  lemma {:induction false} SecondRemoval(token: string)
    ensures ReplaceAll(Plain(token, true), '~', '1', "") == Plain(token, false)
    ensures '~' !in Plain(token, false)
  {
    if token != [] {
      SecondRemoval(token[1..]);
      var p, q := Plain(token[1..], true), Plain(token[1..], false);
      assert [] + p == p && [] + q == q;
      if token[0] == '/' {
        assert ("~1" + p)[2..] == p;
      } else if token[0] != '~' {
        assert ([token[0]] + p)[1..] == p;
      }
    }
  }

  function JoinPointer(tokens: seq<string>): string
    requires tokens != []
  {
    Escape(tokens[0]) + (if |tokens| == 1 then [] else "/" + JoinPointer(tokens[1..]))
  }

  function EscapeAll(tokens: seq<string>): seq<string> {
    if tokens == [] then [] else [Escape(tokens[0])] + EscapeAll(tokens[1..])
  }

  lemma {:induction false} SplitHead(head: string, rest: string)
    requires '/' !in head
    ensures rest == [] ==> Split(head + rest) == [head]
    ensures rest != [] && rest[0] == '/' ==> Split(head + rest) == [head] + Split(rest[1..])
  {
    if head == [] {
      assert head + rest == rest;
    } else {
      assert (head + rest)[1..] == head[1..] + rest && (head + rest)[0] == head[0];
      SplitHead(head[1..], rest);
      assert [head[0]] + head[1..] == head;
    }
  }

  lemma {:induction false} SplitJoin(tokens: seq<string>)
    requires tokens != []
    ensures Split(JoinPointer(tokens)) == EscapeAll(tokens)
  {
    EscapePasses(tokens[0]);
    if |tokens| == 1 {
      SplitHead(Escape(tokens[0]), []);
      assert EscapeAll(tokens[1..]) == [];
    } else {
      var rest := JoinPointer(tokens[1..]);
      SplitHead(Escape(tokens[0]), "/" + rest);
      assert ("/" + rest)[1..] == rest;
      SplitJoin(tokens[1..]);
    }
  }

  lemma {:induction false} DecodedEscapes(tokens: seq<string>)
    ensures Decoded(EscapeAll(tokens)) == Some(tokens)
  {
    if tokens != [] {
      EscapePasses(tokens[0]);
      UnescapeEscape(tokens[0]);
      DecodedEscapes(tokens[1..]);
      assert EscapeAll(tokens)[1..] == EscapeAll(tokens[1..]);
      assert [tokens[0]] + tokens[1..] == tokens;
    }
  }

  /** Percent-encoding as far as a fragment needs it here. */
  function PercentEncode(s: string): string {
    if s == [] then [] else (if s[0] == '%' then "%25" else [s[0]]) + PercentEncode(s[1..])
  }

  lemma {:induction false} PercentRoundTrip(s: string)
    ensures PathUnescape(PercentEncode(s)) == Some(s)
  {
    if s != [] {
      var rest := PercentEncode(s[1..]);
      PercentRoundTrip(s[1..]);
      assert [s[0]] + s[1..] == s;
      if s[0] == '%' {
        assert ("%25" + rest)[3..] == rest;
        assert ("%25" + rest)[1] == '2' && ("%25" + rest)[2] == '5';
        assert (16 * HexDigit('2') + HexDigit('5')) as char == '%';
      } else {
        assert ([s[0]] + rest)[1..] == rest;
      }
    }
  }

  /** For every token list there is a reference that lookup follows token by token. */
  lemma EveryPathIsReferable(root: Schema, tokens: seq<string>)
    requires tokens != []
    ensures Target(root, "#/" + PercentEncode(JoinPointer(tokens))) == Walk(Obj(root), tokens, 0)
  {
    var ref := "#/" + PercentEncode(JoinPointer(tokens));
    assert ref[2..] == PercentEncode(JoinPointer(tokens)) && ref[..2] == "#/";
    PercentRoundTrip(JoinPointer(tokens));
    SplitJoin(tokens);
    DecodedEscapes(tokens);
  }

  /** A token that needs no escape. */
  predicate Plainly(token: string) {
    '~' !in token && '/' !in token && '%' !in token
  }

  lemma {:induction false} PlainEscape(token: string)
    requires Plainly(token)
    ensures Escape(token) == token
  {
    if token != [] {
      assert token[0] in token;
      PlainEscape(token[1..]);
      assert [token[0]] + token[1..] == token;
    }
  }

  lemma {:induction false} PlainPercent(s: string)
    requires '%' !in s
    ensures PercentEncode(s) == s
  {
    if s != [] {
      assert s[0] in s;
      PlainPercent(s[1..]);
      assert [s[0]] + s[1..] == s;
    }
  }

  /** A reference of two tokens as it is usually written. */
  lemma PlainReference(root: Schema, first: string, second: string)
    requires Plainly(first) && Plainly(second)
    ensures Target(root, "#/" + (first + ("/" + second))) == Walk(Obj(root), [first, second], 0)
  {
    var tokens := [first, second];
    assert tokens[1..] == [second];
    PlainEscape(first);
    PlainEscape(second);
    assert JoinPointer([second]) == second + [] == second;
    assert JoinPointer(tokens) == first + ("/" + second);
    PlainPercent(first + ("/" + second));
    EveryPathIsReferable(root, tokens);
  }

  // ---- What a reference finds -------------------------------------------------------------------

  /** The value of a hexadecimal digit, in either case. */
  predicate HexIs(c: char, v: nat) {
    v < 16 && (c == "0123456789abcdef"[v] || c == "0123456789ABCDEF"[v])
  }

  /** A text written with some of its characters as a percent sign and two digits, and the percent sign always so. */
  ghost predicate Written(encoded: string, s: string)
    decreases |s|
  {
    if s == [] then encoded == []
    else
      || (encoded != [] && encoded[0] == s[0] != '%' && Written(encoded[1..], s[1..]))
      || (|encoded| >= 3 && encoded[0] == '%' && Written(encoded[3..], s[1..]) &&
          exists a: nat, b: nat :: HexIs(encoded[1], a) && HexIs(encoded[2], b) && s[0] as int == 16 * a + b)
  }

  lemma HexExactly(c: char)
    ensures IsHexDigit(c) <==> exists v: nat :: HexIs(c, v)
    ensures forall v: nat :: HexIs(c, v) ==> IsHexDigit(c) && HexDigit(c) == v
  {
    if IsHexDigit(c) { assert HexIs(c, HexDigit(c)); }
  }

  lemma {:induction false} WrittenReads(encoded: string, s: string)
    requires Written(encoded, s)
    ensures PathUnescape(encoded) == Some(s)
    decreases |s|
  {
    if s != [] {
      assert s == [s[0]] + s[1..];
      if encoded[0] != '%' {
        WrittenReads(encoded[1..], s[1..]);
      } else {
        WrittenReads(encoded[3..], s[1..]);
        HexExactly(encoded[1]);
        HexExactly(encoded[2]);
      }
    }
  }

  lemma {:induction false} ReadsWritten(encoded: string, s: string)
    requires PathUnescape(encoded) == Some(s)
    ensures Written(encoded, s)
    decreases |encoded|
  {
    if encoded != [] {
      if encoded[0] != '%' {
        ReadsWritten(encoded[1..], PathUnescape(encoded[1..]).value);
        assert s[1..] == PathUnescape(encoded[1..]).value;
      } else {
        ReadsWritten(encoded[3..], PathUnescape(encoded[3..]).value);
        assert s[1..] == PathUnescape(encoded[3..]).value;
        assert HexIs(encoded[1], HexDigit(encoded[1])) && HexIs(encoded[2], HexDigit(encoded[2]));
      }
    }
  }

  /** Percent-decoding reads exactly the texts written so. */
  lemma UnescapedExactly(encoded: string, s: string)
    ensures PathUnescape(encoded) == Some(s) <==> Written(encoded, s)
  {
    if Written(encoded, s) { WrittenReads(encoded, s); }
    if PathUnescape(encoded) == Some(s) { ReadsWritten(encoded, s); }
  }

  lemma {:induction false} ParsedIsNumeral(digits: string)
    requires digits != [] && (forall i :: 0 <= i < |digits| ==> '0' <= digits[i] <= '9')
    requires digits[0] == '0' ==> |digits| == 1
    ensures Numeral(Decimal(digits)) == digits
    ensures |digits| > 1 ==> Decimal(digits) >= 10
  {
    var front, last := digits[..|digits| - 1], digits[|digits| - 1];
    assert digits == front + [last];
    if front == [] {
      assert Decimal(front) == 0;
    } else {
      ParsedIsNumeral(front);
      assert front[0] != '0';
      FrontPositive(front);
    }
  }

  lemma FrontPositive(front: string)
    requires front != [] && (forall i :: 0 <= i < |front| ==> '0' <= front[i] <= '9') && front[0] != '0'
    requires |front| > 1 ==> Decimal(front) >= 10
    ensures Decimal(front) > 0
  {
    if |front| == 1 { assert front[..0] == [] && Decimal(front[..0]) == 0; }
  }

  lemma IndexExactly(token: string, i: nat)
    ensures ParseIndex(token) == Some(i) <==> token == Numeral(i)
  {
    NumeralParses(i);
    if ParseIndex(token) == Some(i) { ParsedIsNumeral(token); }
  }

  /**
   One step of a path: to a field of an object, but not past a nested identifier, or to an element
   of an array by its index as it is usually written.
   */
  ghost predicate StepsTo(value: Json, token: string, nested: bool, next: Json) {
    match value
    case Obj(fields) =>
      token in fields && next == fields[token] && !(nested && "$id" in fields && fields["$id"].Str?)
    case Arr(items) => exists i: nat :: i < |items| && token == Numeral(i) && next == items[i]
    case _ => false
  }

  lemma OneStep(value: Json, token: string, step: nat, next: Json)
    ensures Walk(value, [token], step) == Some(next) <==> StepsTo(value, token, step > 0, next)
  {
    assert [token][1..] == [];
    if value.Arr? {
      if ParseIndex(token).Some? { IndexExactly(token, ParseIndex(token).value); }
      if i: nat :| i < |value.items| && token == Numeral(i) && next == value.items[i] { IndexExactly(token, i); }
    }
  }

  lemma {:induction false} WalkOn(value: Json, tokens: seq<string>, token: string, step: nat)
    ensures Walk(value, tokens + [token], step) ==
      if Walk(value, tokens, step).None? then None
      else Walk(Walk(value, tokens, step).value, [token], step + |tokens|)
    decreases |tokens|
  {
    if tokens == [] {
      assert tokens + [token] == [token];
    } else {
      assert (tokens + [token])[1..] == tokens[1..] + [token];
      match value
      case Obj(fields) => if tokens[0] in fields { WalkOn(fields[tokens[0]], tokens[1..], token, step + 1); }
      case Arr(items) =>
        var index := ParseIndex(tokens[0]);
        if index.Some? && index.value < |items| { WalkOn(items[index.value], tokens[1..], token, step + 1); }
      case _ =>
    }
  }

  /** A path finds what its steps lead to, one after the other. */
  lemma PathExactly(root: Schema, tokens: seq<string>, token: string, next: Json)
    ensures Walk(Obj(root), [], 0) == Some(Obj(root))
    ensures Walk(Obj(root), tokens + [token], 0) == Some(next) <==>
      Walk(Obj(root), tokens, 0).Some? && StepsTo(Walk(Obj(root), tokens, 0).value, token, tokens != [], next)
  {
    WalkOn(Obj(root), tokens, token, 0);
    if Walk(Obj(root), tokens, 0).Some? { OneStep(Walk(Obj(root), tokens, 0).value, token, |tokens|, next); }
  }
}
