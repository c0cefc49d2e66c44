/**
 Reading without building an object: Lookup finds the last value of one key, VisitArray
 hands out the elements of an array.
 */
module JsonLookup {
  import opened Collections
  import opened Utf8
  import opened JsonString
  import opened JsonTree
  import opened JsonScan
  import opened FieldEdits
  import opened JsonDoc
  import opened JsonObject

  /** Lookup compares raw key bytes and decodes only keys that hold an escape. */
  function LookupKey(body: Bytes): Bytes {
    if BACKSLASH in body then KeyOf(body) else body
  }

  function LookupFields(members: seq<Member>): (fs: seq<Field<Bytes, Bytes>>)
    ensures |fs| == |members|
    ensures forall i :: 0 <= i < |fs| ==> fs[i] == Field(LookupKey(members[i].key), Render(members[i].value))
  {
    seq(|members|, i requires 0 <= i < |members| => Field(LookupKey(members[i].key), Render(members[i].value)))
  }

  function Find(m: map<Bytes, Bytes>, key: Bytes): Option<Bytes> {
    if key in m then Some(m[key]) else None
  }

  /** raw must be validated JSON: the ghost tree is what it stands for. */
  method Lookup(raw: Bytes, key: Bytes, ghost tree: Tree) returns (value: Option<Bytes>)
    requires Wf(tree) && Render(tree) == Trim(raw)
    ensures value == if tree.Obj? then Find(LastWins(LookupFields(tree.members)), key) else None
  {
    var trimmed := Trim(raw);
    RenderEnds(tree);
    if |trimmed| < 2 || trimmed[0] != OPEN_BRACE {
      NotObject(tree);
      return None;
    }
    OnlyObject(tree);
    FirstMember(tree.members, tree.gap);
    value := LookupMembers(trimmed, key, tree.gap, tree.members);
  }

  method LookupMembers(raw: Bytes, key: Bytes, ghost gap: Bytes, ghost members: seq<Member>)
      returns (value: Option<Bytes>)
    requires Wf(Obj(gap, members)) && raw != [] && raw[1..] == Remaining(members, gap, 0)
    ensures value == Find(LastWins(LookupFields(members)), key)
  {
    value := None;
    var index := 1;
    ghost var k := 0;
    while true
      invariant k < |members| || (members == [] && k == 0)
      invariant 1 <= index <= |raw| && raw[index..] == Remaining(members, gap, k)
      invariant value == Find(LastWins(LookupFields(members[..k])), key)
      decreases |members| - k
    {
      var empty := AtEnd(raw, index, gap, members, k);
      if empty {
        return;
      }
      var body, found, next := ParseNext(raw, index, gap, members, k);
      LookupSnoc(members, k);
      if LookupKey(body) == key { value := Some(found); }
      k := k + 1;
      if raw[next] == CLOSE_BRACE {
        return;
      }
      index := next + 1;
    }
  }

  lemma LookupSnoc(members: seq<Member>, k: nat)
    requires k < |members|
    ensures LastWins(LookupFields(members[..k + 1])) ==
            LastWins(LookupFields(members[..k]))[LookupKey(members[k].key) := Render(members[k].value)]
    ensures k + 1 == |members| ==> members[..k + 1] == members
  {
    assert LookupFields(members[..k + 1])[..k] == LookupFields(members[..k]);
  }

  // ---- Lookup agrees with Parse and Value ---------------------------------------------------

  lemma {:induction false} PlainDecode(body: Bytes)
    requires BACKSLASH !in body
    ensures Decode(body) == DecodeAll(body)
  {
    if body != [] {
      assert body[0] in body;
      PlainDecode(body[DecodeRune(body).size..]);
    }
  }

  /** A key that both ways of reading agree on: it is decoded by both, or it is valid UTF-8. */
  predicate Agrees(body: Bytes) {
    BACKSLASH in body || Utf8.Valid(body)
  }

  /** Both ways of reading a key give the same bytes exactly then. */
  lemma LookupKeyIsKey(body: Bytes)
    ensures LookupKey(body) == KeyOf(body) <==> Agrees(body)
    ensures Utf8.Valid(KeyOf(body))
  {
    DecodeAllEncodeAll(Decode(body));
    if BACKSLASH !in body {
      PlainDecode(body);
      if Utf8.Valid(body) { EncodeAllDecodeAll(body); }
    }
  }

  /** The keys of a last-wins map are those of its fields. */
  lemma {:induction false} LastWinsKeys<K, V>(fields: seq<Field<K, V>>)
    ensures forall k :: k in LastWins(fields) <==> exists i :: 0 <= i < |fields| && fields[i].key == k
  {
    if fields != [] {
      var n := |fields| - 1;
      LastWinsKeys(fields[..n]);
      forall i | 0 <= i < |fields|
        ensures fields[i].key in LastWins(fields)
      {
        if i < n { assert fields[..n][i] == fields[i]; }
      }
    }
  }

  /** A member with a broken key is found under it by one way of reading only. */
  lemma BrokenKeyDiffers(members: seq<Member>, j: nat)
    requires j < |members| && !Agrees(members[j].key)
    ensures members[j].key in LastWins(LookupFields(members)) && members[j].key !in LastWins(Fields(members))
  {
    LastWinsKeys(LookupFields(members));
    LastWinsKeys(Fields(members));
    assert LookupFields(members)[j].key == members[j].key;
    forall i | 0 <= i < |members|
      ensures Fields(members)[i].key != members[j].key
    {
      LookupKeyIsKey(members[i].key);
    }
  }

  /** Lookup and Parse read the same map exactly if they agree on every key. */
  lemma LookupAgreesWithParse(members: seq<Member>)
    ensures LastWins(LookupFields(members)) == LastWins(Fields(members)) <==>
            forall i :: 0 <= i < |members| ==> Agrees(members[i].key)
  {
    if forall i :: 0 <= i < |members| ==> Agrees(members[i].key) {
      forall i | 0 <= i < |members|
        ensures LookupFields(members)[i] == Fields(members)[i]
      {
        LookupKeyIsKey(members[i].key);
      }
      assert LookupFields(members) == Fields(members);
    } else {
      var j: nat :| j < |members| && !Agrees(members[j].key);
      BrokenKeyDiffers(members, j);
    }
  }

  /** On a key that is not valid UTF-8 they differ: the raw byte against its replacement. */
  lemma LookupDiffersOnBrokenKey()
    ensures ValidBody([0xFF]) && LookupKey([0xFF]) == [0xFF] && KeyOf([0xFF]) == Encode(REPLACEMENT)
  {
    var body: Bytes := [0xFF];
    assert body[1..] == [];
    assert NextToken(body) == Token(REPLACEMENT, 1);
    assert Decode(body) == [REPLACEMENT] + Decode([]);
    assert EncodeAll([REPLACEMENT]) == Encode(REPLACEMENT) + EncodeAll([]);
  }

  // ---- VisitArray -----------------------------------------------------------------------------

  ghost function ItemsLeft(items: seq<Item>, gap: Bytes, k: nat): Bytes
    requires k < |items| || items == []
  {
    (if items == [] then gap else RenderItems(items[k..])) + [CLOSE_BRACKET]
  }

  ghost function AfterItem(items: seq<Item>, k: nat): (tail: Bytes)
    requires k < |items|
    ensures tail != [] && tail[0] == (if k + 1 < |items| then COMMA else CLOSE_BRACKET)
  {
    if k + 1 < |items| then [COMMA] + ItemsLeft(items, [], k + 1) else [CLOSE_BRACKET]
  }

  lemma ItemsSplit(items: seq<Item>, gap: Bytes, k: nat)
    requires k < |items|
    ensures ItemsLeft(items, gap, k) ==
      items[k].before + (Render(items[k].value) + items[k].after + AfterItem(items, k))
  {
    var item := items[k];
    assert items[k..][0] == item;
    if k + 1 < |items| {
      var rest := RenderItems(items[k + 1..]);
      assert items[k..][1..] == items[k + 1..];
      assert RenderItems(items[k..]) == RenderItem(item) + ([COMMA] + rest);
      SplitAssoc(item.before, Render(item.value), item.after, [COMMA] + rest);
      assert [COMMA] + rest + [CLOSE_BRACKET] == AfterItem(items, k);
    } else {
      assert RenderItems(items[k..]) == RenderItem(item) + [];
      SplitAssoc(item.before, Render(item.value), item.after, []);
      assert [] + [CLOSE_BRACKET] == AfterItem(items, k);
    }
  }

  lemma SplitAssoc(before: Bytes, text: Bytes, after: Bytes, more: Bytes)
    ensures before + text + after + more + [CLOSE_BRACKET] == before + (text + after + (more + [CLOSE_BRACKET]))
    ensures more == [] ==> more + [CLOSE_BRACKET] == [CLOSE_BRACKET]
  {
  }

  /** Elements visited before, and including, the first one that visit rejects. */
  function Visited(items: seq<Item>, visit: Bytes -> bool): seq<Bytes> {
    if items == [] then []
    else [Render(items[0].value)] + (if visit(Render(items[0].value)) then Visited(items[1..], visit) else [])
  }

  predicate Accepts(items: seq<Item>, n: nat, visit: Bytes -> bool)
    requires n <= |items|
  {
    forall i :: 0 <= i < n ==> visit(Render(items[i].value))
  }

  /** Values are visited in order until one is rejected; ok is false then, or for no array. */
  method VisitArray(raw: Bytes, visit: Bytes -> bool, ghost tree: Option<Tree>, valid: bool)
      returns (visited: seq<Bytes>, ok: bool)
    requires valid <==> tree.Some?
    requires tree.Some? ==> Wf(tree.value) && Render(tree.value) == Trim(raw)
    ensures !(tree.Some? && tree.value.Arr?) ==> !ok && visited == []
    ensures tree.Some? && tree.value.Arr? ==>
              && visited == Visited(tree.value.items, visit)
              && (ok <==> Accepts(tree.value.items, |tree.value.items|, visit))
  {
    var trimmed := Trim(raw);
    if !valid {
      return [], false;
    }
    RenderEnds(tree.value);
    if |trimmed| < 2 || trimmed[0] != OPEN_BRACKET {
      NotArray(tree.value);
      return [], false;
    }
    OnlyArray(tree.value);
    FirstItem(tree.value.items, tree.value.gap);
    visited, ok := VisitItems(trimmed, visit, tree.value.gap, tree.value.items);
  }

  lemma NotArray(t: Tree)
    requires Wf(t) && Render(t) != [] && (|Render(t)| < 2 || Render(t)[0] != OPEN_BRACKET)
    ensures !t.Arr?
  {
  }

  lemma OnlyArray(t: Tree)
    requires Wf(t) && Render(t) != [] && Render(t)[0] == OPEN_BRACKET
    ensures t.Arr?
  {
  }

  lemma {:induction false} VisitedSnoc(items: seq<Item>, k: nat, visit: Bytes -> bool)
    requires k < |items| && Accepts(items, k, visit)
    ensures Visited(items[..k + 1], visit) == Visited(items[..k], visit) + [Render(items[k].value)]
  {
    if k > 0 {
      assert items[..k + 1][1..] == items[1..][..k] && items[..k][1..] == items[1..][..k - 1];
      VisitedSnoc(items[1..], k - 1, visit);
    }
  }

  lemma {:induction false} VisitedStops(items: seq<Item>, k: nat, visit: Bytes -> bool)
    requires k < |items| && Accepts(items, k, visit)
    requires !visit(Render(items[k].value))
    ensures Visited(items, visit) == Visited(items[..k + 1], visit)
  {
    if k > 0 {
      assert items[..k + 1][1..] == items[1..][..k];
      VisitedStops(items[1..], k - 1, visit);
    }
  }

  /** The loop of VisitArray is at element k. */
  ghost predicate AtItem(raw: Bytes, index: nat, gap: Bytes, items: seq<Item>, k: nat) {
    && (k < |items| || (items == [] && k == 0))
    && 1 <= index <= |raw| && raw[index..] == ItemsLeft(items, gap, k)
  }

  ghost predicate VisitedTo(items: seq<Item>, k: nat, visit: Bytes -> bool, visited: seq<Bytes>) {
    k <= |items| && Accepts(items, k, visit) && visited == Visited(items[..k], visit)
  }

  lemma VisitStart(raw: Bytes, visit: Bytes -> bool, gap: Bytes, items: seq<Item>)
    requires raw != [] && raw[1..] == ItemsLeft(items, gap, 0)
    ensures AtItem(raw, 1, gap, items, 0) && VisitedTo(items, 0, visit, [])
  {
    assert items[..0] == [];
  }

  method VisitItems(raw: Bytes, visit: Bytes -> bool, ghost gap: Bytes, ghost items: seq<Item>)
      returns (visited: seq<Bytes>, ok: bool)
    requires Wf(Arr(gap, items)) && raw != [] && raw[1..] == ItemsLeft(items, gap, 0)
    ensures visited == Visited(items, visit)
    ensures ok <==> Accepts(items, |items|, visit)
  {
    visited, ok := [], true;
    var index, finished := 1, false;
    ghost var k := 0;
    VisitStart(raw, visit, gap, items);
    while !finished
      invariant !finished ==> AtItem(raw, index, gap, items, k) && VisitedTo(items, k, visit, visited)
      invariant finished ==> visited == Visited(items, visit) && (ok <==> Accepts(items, |items|, visit))
      decreases !finished, |items| - k
    {
      finished, visited, ok, index := VisitNext(raw, index, visited, visit, gap, items, k);
      k := k + 1;
    }
  }

  /** One turn of the loop. */
  method VisitNext(raw: Bytes, index: nat, before: seq<Bytes>, visit: Bytes -> bool, ghost gap: Bytes,
                   ghost items: seq<Item>, ghost k: nat)
      returns (finished: bool, visited: seq<Bytes>, ok: bool, next: nat)
    requires Wf(Arr(gap, items)) && AtItem(raw, index, gap, items, k) && VisitedTo(items, k, visit, before)
    ensures !finished ==> AtItem(raw, next, gap, items, k + 1) && VisitedTo(items, k + 1, visit, visited)
    ensures finished ==> visited == Visited(items, visit) && (ok <==> Accepts(items, |items|, visit))
  {
    next := index;
    var empty, value, end := NextItem(raw, index, gap, items, k);
    if empty { return true, before, true, next; }
    visited, ok := VisitOne(before, value, visit, items, k);
    finished := !ok || raw[end] == CLOSE_BRACKET;
    if ok && finished { AllItems(items, k + 1); }
    next := end + 1;
  }

  lemma AllItems(items: seq<Item>, k: nat)
    requires k == |items|
    ensures items[..k] == items
  {
  }

  /** The call of visit for element k; a rejection is the last one. */
  method VisitOne(before: seq<Bytes>, value: Bytes, visit: Bytes -> bool, ghost items: seq<Item>, ghost k: nat)
      returns (visited: seq<Bytes>, ok: bool)
    requires k < |items| && Accepts(items, k, visit) && before == Visited(items[..k], visit) &&
      value == Render(items[k].value)
    ensures ok == visit(value) && visited == Visited(items[..k + 1], visit)
    ensures ok ==> Accepts(items, k + 1, visit)
    ensures !ok ==> visited == Visited(items, visit) && !Accepts(items, |items|, visit)
  {
    VisitedSnoc(items, k, visit);
    visited, ok := before + [value], visit(value);
    if !ok { VisitedStops(items, k, visit); }
  }

  /** One turn of the loop: the end of an empty array, or element k and its delimiter. */
  method NextItem(raw: Bytes, index: nat, ghost gap: Bytes, ghost items: seq<Item>, ghost k: nat)
      returns (empty: bool, value: Bytes, end: nat)
    requires Wf(Arr(gap, items)) && (k < |items| || items == [])
    requires index <= |raw| && raw[index..] == ItemsLeft(items, gap, k)
    ensures empty <==> items == []
    ensures !empty ==>
              && value == Render(items[k].value)
              && end < |raw| && raw[end] == (if k + 1 < |items| then COMMA else CLOSE_BRACKET)
              && (k + 1 < |items| ==> raw[end + 1..] == ItemsLeft(items, gap, k + 1))
  {
    var start;
    empty, start := ItemStart(raw, index, gap, items, k);
    if empty {
      return true, [], 0;
    }
    ghost var tail := AfterItem(items, k);
    value, end := TakeValue(raw, start, items[k].value, items[k].after, tail);
    assert raw[end] == raw[end..][0];
    if k + 1 < |items| {
      Suffix(raw, end, [COMMA], ItemsLeft(items, gap, k + 1));
    }
  }

  lemma FirstItem(items: seq<Item>, gap: Bytes)
    ensures Render(Arr(gap, items))[1..] == ItemsLeft(items, gap, 0)
  {
    assert items[0..] == items;
  }

  /** Skipping white space finds the closing bracket exactly when there are no elements. */
  method ItemStart(raw: Bytes, index: nat, ghost gap: Bytes, ghost items: seq<Item>, ghost k: nat)
      returns (empty: bool, start: nat)
    requires Wf(Arr(gap, items)) && (k < |items| || items == [])
    requires index <= |raw| && raw[index..] == ItemsLeft(items, gap, k)
    ensures empty <==> items == []
    ensures !empty ==> start <= |raw| && raw[start..] == Render(items[k].value) + items[k].after + AfterItem(items, k)
  {
    ghost var space := if items == [] then gap else items[k].before;
    ghost var rest := if items == [] then [CLOSE_BRACKET]
      else Render(items[k].value) + items[k].after + AfterItem(items, k);
    if items != [] {
      ItemsSplit(items, gap, k);
      RenderEnds(items[k].value);
      ValueNotBracket(items[k].value);
      assert rest[0] == Render(items[k].value)[0];
    }
    start := SkipTo(raw, index, space, rest);
    assert raw[start] == raw[start..][0];
    empty := raw[start] == CLOSE_BRACKET;
  }

  lemma ValueNotBracket(t: Tree)
    requires Wf(t) && Render(t) != []
    ensures Render(t)[0] != CLOSE_BRACKET
  {
    if t.Atom? { AtomPlain(t.text); }
  }
}
