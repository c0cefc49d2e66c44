/**
 The top-level JSON object editor: Parse keeps values as slices of the source, Set and
 Delete record edits, and printing writes the last value of every key.
 */
module JsonObject {
  import opened Collections
  import opened Utf8
  import opened JsonString
  import opened JsonMarshal
  import opened JsonTree
  import opened JsonScan
  import opened FieldEdits
  import opened JsonDoc
  import opened Buffers

  // ---- One member ------------------------------------------------------------------------

  /** The slices that one turn of the parsing loop takes. */
  lemma MemberSlices(m: Member, tail: seq<byte>)
    ensures var afterKey := m.colonBefore + ([COLON] + (m.colonAfter + (Render(m.value) + m.after + tail)));
            RenderMember(m) + tail == m.before + ([QUOTE] + (m.key + ([QUOTE] + afterKey)))
  {
    var value := Render(m.value) + m.after + tail;
    var colon := [COLON] + (m.colonAfter + value);
    var left := m.before + Quoted(m.key) + m.colonBefore;
    assert RenderMember(m) + tail == left + [COLON] + m.colonAfter + Render(m.value) + m.after + tail;
    assert left + [COLON] + m.colonAfter + Render(m.value) + m.after + tail == left + colon;
    assert left + colon == m.before + Quoted(m.key) + (m.colonBefore + colon);
    assert Quoted(m.key) + (m.colonBefore + colon) == [QUOTE] + (m.key + ([QUOTE] + (m.colonBefore + colon)));
    Assoc(m.before, Quoted(m.key), m.colonBefore + colon);
  }

  lemma Suffix(raw: seq<byte>, index: nat, head: seq<byte>, rest: seq<byte>)
    requires index <= |raw| && raw[index..] == head + rest
    ensures index + |head| <= |raw| && raw[index..index + |head|] == head && raw[index + |head|..] == rest
  {
    assert raw[index..][|head|..] == rest;
    assert raw[index..][..|head|] == head;
  }

  /** Key and value of the member at start, and where its white space ends. */
  method ParseMember(raw: seq<byte>, start: nat, ghost m: Member, ghost tail: seq<byte>)
      returns (keyStart: nat, keyEnd: nat, value: seq<byte>, next: nat)
    requires WfMember(m) && start <= |raw| && raw[start..] == RenderMember(m) + tail
    requires tail != [] && tail[0] in [COMMA, CLOSE_BRACE]
    ensures keyStart < keyEnd - 1 < |raw| && raw[keyStart + 1..keyEnd - 1] == m.key
    ensures value == Render(m.value)
    ensures next == start + |RenderMember(m)|
  {
    ghost var spaced := Render(m.value) + m.after + tail;
    ghost var afterKey := m.colonBefore + ([COLON] + (m.colonAfter + spaced));
    MemberSlices(m, tail);
    keyStart := SkipTo(raw, start, m.before, [QUOTE] + (m.key + ([QUOTE] + afterKey)));
    var ok;
    keyEnd, ok := ScanKey(raw, keyStart, m.key, afterKey);
    assert ok;
    var colon := SkipTo(raw, keyEnd, m.colonBefore, [COLON] + (m.colonAfter + spaced));
    Suffix(raw, colon, [COLON], m.colonAfter + spaced);
    assert raw[colon] == raw[colon..colon + 1][0];
    var valueStart;
    value, valueStart, next := ParseValue(raw, colon + 1, m, tail);
    MemberLength(m);
  }

  lemma MemberLength(m: Member)
    ensures |RenderMember(m)| ==
            |m.before| + (|m.key| + 2) + |m.colonBefore| + 1 + |m.colonAfter| + |Render(m.value)| + |m.after|
  {
  }

  method SkipTo(raw: seq<byte>, start: nat, ghost gap: seq<byte>, ghost rest: seq<byte>) returns (index: nat)
    requires start <= |raw| && raw[start..] == gap + rest && IsGap(gap)
    requires rest == [] || !IsSpace(rest[0])
    ensures index == start + |gap| <= |raw| && raw[index..] == rest
  {
    GapAhead(gap, rest);
    Suffix(raw, start, gap, rest);
    index := SkipSpace(raw, start);
  }

  method ScanKey(raw: seq<byte>, start: nat, ghost body: seq<byte>, ghost rest: seq<byte>) returns (end: nat, ok: bool)
    requires start <= |raw| && raw[start..] == [QUOTE] + (body + ([QUOTE] + rest)) && ValidBody(body)
    ensures ok && end == start + |body| + 2 <= |raw|
    ensures raw[start + 1..end - 1] == body && raw[end..] == rest
  {
    Suffix(raw, start, [QUOTE], body + ([QUOTE] + rest));
    assert raw[start] == raw[start..start + 1][0];
    StringAhead(body, rest);
    end, ok := ScanString(raw, start);
    Suffix(raw, start + 1, body, [QUOTE] + rest);
    Suffix(raw, start + 1 + |body|, [QUOTE], rest);
  }

  method ParseValue(raw: seq<byte>, start: nat, ghost m: Member, ghost tail: seq<byte>)
      returns (value: seq<byte>, valueStart: nat, next: nat)
    requires WfMember(m) && start <= |raw|
    requires raw[start..] == m.colonAfter + (Render(m.value) + m.after + tail)
    requires tail != [] && tail[0] in [COMMA, CLOSE_BRACE]
    ensures value == Render(m.value)
    ensures next == start + |m.colonAfter| + |Render(m.value)| + |m.after|
  {
    ghost var text := Render(m.value);
    RenderEnds(m.value);
    assert (text + m.after + tail)[0] == text[0];
    valueStart := SkipTo(raw, start, m.colonAfter, text + m.after + tail);
    var valueEnd;
    value, valueEnd := TakeValue(raw, valueStart, m.value, m.after, tail);
    assert [] + tail == tail;
    next := SkipTo(raw, valueEnd, [], tail);
  }

  /** The slice up to the delimiter, trimmed, is the value. */
  method TakeValue(raw: seq<byte>, start: nat, ghost t: Tree, ghost after: seq<byte>, ghost tail: seq<byte>)
      returns (value: seq<byte>, end: nat)
    requires Wf(t) && IsGap(after) && start <= |raw| && raw[start..] == Render(t) + after + tail
    requires tail != [] && tail[0] in [COMMA, CLOSE_BRACE, CLOSE_BRACKET]
    ensures value == Render(t)
    ensures end == start + |Render(t)| + |after| <= |raw| && raw[end..] == tail
  {
    ghost var spaced := Render(t) + after;
    ValueScan(t, after, tail);
    end := ScanValueEnd(raw, start);
    Suffix(raw, start, spaced, tail);
    TrimSpaced(t, after);
    assert raw[start..end] == spaced;
    value := Trim(raw[start..end]);
  }

  lemma ValueScan(t: Tree, after: seq<byte>, tail: seq<byte>)
    requires Wf(t) && IsGap(after) && tail != [] && tail[0] in [COMMA, CLOSE_BRACE, CLOSE_BRACKET]
    ensures ScanLength(Render(t) + after + tail, 0, false, false) == |Render(t)| + |after|
  {
    assert tail == [tail[0]] + tail[1..];
    ScanStopsAtDelimiter(t, after, tail[0], tail[1..]);
  }

  // ---- The object --------------------------------------------------------------------------

  class Object {
    var fields: seq<Field<Bytes, Bytes>>
    var last: map<Bytes, nat>
    var counts: map<Bytes, nat>
    var sets: map<Bytes, Bytes>
    var setOrder: seq<Bytes>
    var deleted: set<Bytes>

    function View(): Doc<Bytes, Bytes>
      reads this
    {
      Doc(fields, last, counts, sets, setOrder, deleted)
    }

    ghost predicate Valid()
      reads this
    {
      Consistent(View()) && Counted(View()) && ValuesJson(View())
    }

    /** The object that parsing leaves, before any edit. */
    constructor (d: Doc<Bytes, Bytes>)
      requires Consistent(d) && Counted(d) && ValuesJson(d)
      ensures Valid() && View() == d
    {
      fields, last, counts, sets, setOrder, deleted := d.fields, d.last, d.counts, d.sets, d.setOrder, d.deleted;
    }

    method Duplicate(key: Bytes) returns (duplicate: bool)
      requires Valid()
      ensures duplicate <==> Occurrences(fields, key) > 1
    {
      if key !in counts { NoOccurrence(fields, key); }
      duplicate := key in counts && counts[key] > 1;
    }

    method HasOnlyFields(keys: seq<Bytes>) returns (only: bool)
      requires Valid()
      ensures only <==> forall k :: k in Meaning(View()) ==> k in keys
    {
      only := (forall k :: k in last.Keys ==> k in deleted || k in keys) && forall k :: k in sets.Keys ==> k in keys;
      if !only {
        var k :| (k in last && k !in deleted && k !in keys) || (k in sets && k !in keys);
        assert k in Meaning(View());
      }
    }

    method Value(key: Bytes) returns (value: Option<Bytes>)
      requires Valid()
      ensures value == if key in Meaning(View()) then Some(Meaning(View())[key]) else None
    {
      if key in deleted {
        return None;
      }
      if key in sets {
        return Some(sets[key]);
      }
      if key !in last {
        return None;
      }
      return Some(fields[last[key]].value);
    }

    /** valid is json.Valid's answer about the value. */
    method Set(key: Bytes, value: Bytes, valid: bool) returns (ok: bool)
      requires Valid() && (valid <==> IsJson(value))
      modifies this
      ensures ok == valid
      ensures Valid() && View() == if ok then WithSet(old(View()), key, value) else old(View())
      ensures Meaning(View()) == if ok then old(Meaning(View()))[key := value] else old(Meaning(View()))
    {
      if !valid {
        return false;
      }
      SetMeaning(View(), key, value);
      if key !in sets { setOrder := setOrder + [key]; }
      sets := sets[key := value];
      deleted := deleted - {key};
      return true;
    }

    method Delete(key: Bytes)
      requires Valid()
      modifies this
      ensures Valid() && View() == WithDelete(old(View()), key)
      ensures Meaning(View()) == old(Meaning(View())) - {key}
    {
      DeleteMeaning(View(), key);
      sets := sets - {key};
      deleted := deleted + {key};
    }

    method AppendTo(output: Buffer)
      requires Valid() && output as object != this
      modifies output
      ensures output.content == old(output.content) + Print(Printed(View()))
    {
      ghost var start := output.content;
      output.Write([OPEN_BRACE]);
      ghost var done;
      var written;
      written, done := WriteKept(View(), output, start + [OPEN_BRACE]);
      WriteAdded(View(), output, written, start + [OPEN_BRACE], done);
      output.Write([CLOSE_BRACE]);
      PrintAssoc(start, RenderFields(Printed(View())));
    }
  }

  lemma PrintAssoc(start: Bytes, text: Bytes)
    ensures start + [OPEN_BRACE] + text + [CLOSE_BRACE] == start + ([OPEN_BRACE] + text + [CLOSE_BRACE])
  {
  }

  /** The last field of every key that is not deleted, with its replacement if it has one. */
  method WriteKept(d: Doc<Bytes, Bytes>, output: Buffer, ghost prefix: Bytes)
      returns (written: bool, ghost done: seq<Field<Bytes, Bytes>>)
    requires Consistent(d) && output.content == prefix
    modifies output
    ensures done == Kept(d, |d.fields|) && written == (done != []) && output.content == prefix + RenderFields(done)
  {
    done := [];
    written := false;
    for i := 0 to |d.fields|
      invariant done == Kept(d, i)
      invariant written == (done != []) && output.content == prefix + RenderFields(done)
    {
      var f := d.fields[i];
      if d.last[f.key] == i && f.key !in d.deleted {
        var value := if f.key in d.sets then d.sets[f.key] else f.value;
        done := WriteField(output, written, f.key, value, prefix, done);
        written := true;
      }
    }
  }

  /** Keys that only edits brought, in the order of their first Set. */
  method WriteAdded(d: Doc<Bytes, Bytes>, output: Buffer, before: bool, ghost prefix: Bytes,
                    ghost kept: seq<Field<Bytes, Bytes>>)
    requires Edited(d) && before == (kept != []) && output.content == prefix + RenderFields(kept)
    modifies output
    ensures output.content == prefix + RenderFields(kept + Added(d, |d.setOrder|))
  {
    var written := before;
    ghost var added: seq<Field<Bytes, Bytes>> := [];
    assert kept + added == kept;
    for i := 0 to |d.setOrder|
      invariant added == Added(d, i)
      invariant written == (kept + added != []) && output.content == prefix + RenderFields(kept + added)
    {
      var key := d.setOrder[i];
      assert key in d.setOrder;
      if key !in d.last && key !in d.deleted {
        ghost var done := WriteField(output, written, key, d.sets[key], prefix, kept + added);
        Assoc(kept, added, [Field(key, d.sets[key])]);
        added := added + [Field(key, d.sets[key])];
        written := true;
      }
    }
  }

  method WriteField(output: Buffer, written: bool, key: Bytes, value: Bytes,
                    ghost prefix: Bytes, ghost done: seq<Field<Bytes, Bytes>>)
      returns (ghost next: seq<Field<Bytes, Bytes>>)
    requires written == (done != []) && output.content == prefix + RenderFields(done)
    modifies output
    ensures next == done + [Field(key, value)]
    ensures output.content == prefix + RenderFields(next)
  {
    ghost var start, separator := output.content, if written then [COMMA] else [];
    if written { output.Write([COMMA]); }
    output.Write(Marshal(key));
    output.Write([COLON]);
    output.Write(value);
    next := done + [Field(key, value)];
    RenderFieldsSnoc(done, Field(key, value));
    FieldAssoc(prefix, RenderFields(done), separator, Marshal(key), value);
  }

  lemma FieldAssoc(prefix: Bytes, done: Bytes, separator: Bytes, key: Bytes, value: Bytes)
    ensures prefix + done + separator + key + [COLON] + value == prefix + (done + separator + (key + [COLON] + value))
    ensures separator == [] ==> prefix + done == prefix + done + separator
  {
  }

  // ---- Parsing -----------------------------------------------------------------------------

  /** What is left to parse before member k. */
  ghost function Remaining(members: seq<Member>, gap: Bytes, k: nat): Bytes
    requires k < |members| || members == []
  {
    (if members == [] then gap else RenderMembers(members[k..])) + [CLOSE_BRACE]
  }

  /** What follows member k: a comma and the next members, or the closing brace. */
  ghost function Following(members: seq<Member>, k: nat): (tail: Bytes)
    requires k < |members|
    ensures tail != [] && tail[0] == (if k + 1 < |members| then COMMA else CLOSE_BRACE)
  {
    if k + 1 < |members| then [COMMA] + (RenderMembers(members[k + 1..]) + [CLOSE_BRACE]) else [CLOSE_BRACE]
  }

  lemma RemainingSplits(members: seq<Member>, gap: Bytes, k: nat)
    requires k < |members|
    ensures Remaining(members, gap, k) == RenderMember(members[k]) + Following(members, k)
  {
    assert members[k..][0] == members[k];
    if k + 1 < |members| {
      assert members[k..][1..] == members[k + 1..];
      var head, rest := RenderMember(members[k]), RenderMembers(members[k + 1..]);
      assert head + ([COMMA] + rest) + [CLOSE_BRACE] == head + ([COMMA] + (rest + [CLOSE_BRACE]));
    }
  }

  lemma ValueIsJson(t: Tree)
    requires Wf(t)
    ensures IsJson(Render(t))
  {
    var item := Item([], t, []);
    assert RenderItem(item) == [] + Render(t) + [];
    assert RenderItem(item) == Render(t);
    assert WfItem(item);
  }

  /**
   Parse. The ghost tree is what json.Valid certifies about the trimmed text; no tree means
   it is not JSON. The error returns behind a passed json.Valid are never taken.
   */
  method Parse(raw: Bytes, ghost tree: Option<Tree>, valid: bool) returns (result: Option<Object>)
    requires valid <==> tree.Some?
    requires tree.Some? ==> Wf(tree.value) && Render(tree.value) == Trim(raw)
    ensures result.Some? <==> tree.Some? && tree.value.Obj?
    ensures result.Some? ==>
              && fresh(result.value) && result.value.Valid()
              && result.value.fields == Fields(tree.value.members)
              && Meaning(result.value.View()) == LastWins(Fields(tree.value.members))
  {
    var trimmed := Trim(raw);
    if !valid {
      return None;
    }
    RenderEnds(tree.value);
    if |trimmed| < 2 || trimmed[0] != OPEN_BRACE {
      NotObject(tree.value);
      return None;
    }
    OnlyObject(tree.value);
    FirstMember(tree.value.members, tree.value.gap);
    var parsed := ParseMembers(trimmed, tree.value.gap, tree.value.members);
    FieldsJson(tree.value.members);
    BuiltConsistent(Fields(tree.value.members));
    BuiltShape(Fields(tree.value.members));
    ParsedMeaning(parsed);
    var built := new Object(parsed);
    return Some(built);
  }

  lemma FieldsJson(members: seq<Member>)
    requires forall i :: 0 <= i < |members| ==> WfMember(members[i])
    ensures AllJson(Fields(members))
  {
    forall i | 0 <= i < |members|
      ensures IsJson(Fields(members)[i].value)
    {
      ValueIsJson(members[i].value);
    }
  }

  lemma NotObject(t: Tree)
    requires Wf(t) && Render(t) != [] && (|Render(t)| < 2 || Render(t)[0] != OPEN_BRACE)
    ensures !t.Obj?
  {
  }

  lemma OnlyObject(t: Tree)
    requires Wf(t) && Render(t) != [] && Render(t)[0] == OPEN_BRACE
    ensures t.Obj?
  {
  }

  /** The first byte that is not white space tells an empty object from a member. */
  lemma HeadByte(members: seq<Member>, gap: Bytes, k: nat)
    requires Wf(Obj(gap, members)) && (k < |members| || members == [])
    ensures var rest := Remaining(members, gap, k);
            && GapLength(rest) < |rest|
            && (rest[GapLength(rest)] == CLOSE_BRACE <==> members == [])
            && (members == [] ==> GapLength(rest) == |rest| - 1)
  {
    if members == [] {
      GapAhead(gap, [CLOSE_BRACE]);
    } else {
      var m, tail := members[k], Following(members, k);
      RemainingSplits(members, gap, k);
      MemberSlices(m, tail);
      var afterKey := m.colonBefore + ([COLON] + (m.colonAfter + (Render(m.value) + m.after + tail)));
      GapAhead(m.before, [QUOTE] + (m.key + ([QUOTE] + afterKey)));
    }
  }

  /** The parsing loop of Parse, on the trimmed text of an object. */
  method ParseMembers(raw: Bytes, ghost gap: Bytes, ghost members: seq<Member>) returns (parsed: Doc<Bytes, Bytes>)
    requires Wf(Obj(gap, members)) && raw != [] && raw[1..] == Remaining(members, gap, 0)
    ensures parsed == Built(Fields(members))
  {
    parsed := Empty();
    var index := 1;
    ghost var k := 0;
    while true
      invariant k < |members| || (members == [] && k == 0)
      invariant 1 <= index <= |raw| && raw[index..] == Remaining(members, gap, k)
      invariant parsed == Built(Fields(members[..k]))
      decreases |members| - k
    {
      var empty := AtEnd(raw, index, gap, members, k);
      if empty {
        return;
      }
      var body, value, next := ParseNext(raw, index, gap, members, k);
      parsed := WithField(parsed, Field(KeyOf(body), value));
      BuiltSnoc(members, k);
      k := k + 1;
      if raw[next] == CLOSE_BRACE {
        return;
      }
      index := next + 1;
    }
  }

  lemma FirstMember(members: seq<Member>, gap: Bytes)
    ensures Render(Obj(gap, members))[1..] == Remaining(members, gap, 0)
  {
    assert members[0..] == members;
  }

  lemma BuiltSnoc(members: seq<Member>, k: nat)
    requires k < |members|
    ensures Built(Fields(members[..k + 1])) == WithField(Built(Fields(members[..k])), FieldOf(members[k]))
    ensures k + 1 == |members| ==> members[..k + 1] == members
  {
    assert Fields(members[..k + 1])[..k] == Fields(members[..k]);
  }

  /** Skipping white space finds the closing brace exactly when there are no members. */
  method AtEnd(raw: Bytes, index: nat, ghost gap: Bytes, ghost members: seq<Member>, ghost k: nat) returns (end: bool)
    requires Wf(Obj(gap, members)) && (k < |members| || members == [])
    requires index <= |raw| && raw[index..] == Remaining(members, gap, k)
    ensures end <==> members == []
  {
    HeadByte(members, gap, k);
    var at := SkipSpace(raw, index);
    assert raw[at] == raw[index..][at - index];
    end := raw[at] == CLOSE_BRACE;
  }

  /** One turn of the loop: member k, and the delimiter that follows it. */
  method ParseNext(raw: Bytes, index: nat, ghost gap: Bytes, ghost members: seq<Member>, ghost k: nat)
      returns (body: Bytes, value: Bytes, next: nat)
    requires Wf(Obj(gap, members)) && k < |members|
    requires index <= |raw| && raw[index..] == Remaining(members, gap, k)
    ensures body == members[k].key && value == Render(members[k].value)
    ensures next < |raw| && raw[next] == if k + 1 < |members| then COMMA else CLOSE_BRACE
    ensures k + 1 < |members| ==> raw[next + 1..] == Remaining(members, gap, k + 1)
    ensures k + 1 == |members| ==> next == |raw| - 1
  {
    ghost var tail := Following(members, k);
    RemainingSplits(members, gap, k);
    var keyStart, keyEnd;
    keyStart, keyEnd, value, next := ParseMember(raw, index, members[k], tail);
    body := raw[keyStart + 1..keyEnd - 1];
    Suffix(raw, index, RenderMember(members[k]), tail);
    assert raw[next] == raw[next..][0];
    if k + 1 < |members| {
      Suffix(raw, next, [COMMA], Remaining(members, gap, k + 1));
    }
  }

  /** Printing an edited object and parsing the result keeps its meaning. */
  method PrintThenParse(edited: Object) returns (reparsed: Object)
    requires edited.Valid() && forall k :: k in Meaning(edited.View()) ==> Valid(k)
    ensures fresh(reparsed) && reparsed.Valid()
    ensures Meaning(reparsed.View()) == TrimValues(Meaning(edited.View()))
  {
    var output := new Buffer();
    edited.AppendTo(output);
    PrintIsObject(edited.View());
    PrintKeepsMeaning(edited.View());
    ghost var t := TreeFor(Printed(edited.View()));
    PrintIsTrimmed(t);
    assert output.content == Render(t);
    var result := Parse(output.content, Some(t), true);
    reparsed := result.value;
  }

  lemma PrintIsTrimmed(t: Tree)
    requires Wf(t)
    ensures Trim(Render(t)) == Render(t)
  {
    TrimSpaced(t, []);
    assert Render(t) + [] == Render(t);
  }
}
