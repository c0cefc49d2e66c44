/**
 The edited object as JSON text: the fields a tree stands for, and the proof that what is
 printed after any edits is one JSON object with the edited meaning.
 */
module JsonDoc {
  import opened Utf8
  import opened JsonString
  import opened JsonMarshal
  import opened JsonTree
  import opened JsonScan
  import opened FieldEdits

  type Bytes = seq<byte>

  /** The Go string that a key token decodes to. */
  function KeyOf(body: Bytes): Bytes {
    EncodeAll(Decode(body))
  }

  function FieldOf(m: Member): Field<Bytes, Bytes> {
    Field(KeyOf(m.key), Render(m.value))
  }

  function Fields(members: seq<Member>): (fs: seq<Field<Bytes, Bytes>>)
    ensures |fs| == |members| && forall i :: 0 <= i < |fs| ==> fs[i] == FieldOf(members[i])
  {
    seq(|members|, i requires 0 <= i < |members| => FieldOf(members[i]))
  }

  ghost predicate AllJson(fields: seq<Field<Bytes, Bytes>>) {
    forall i :: 0 <= i < |fields| ==> IsJson(fields[i].value)
  }

  ghost predicate ValuesJson(d: Doc<Bytes, Bytes>) {
    AllJson(d.fields) && forall k :: k in d.sets ==> IsJson(d.sets[k])
  }

  lemma {:induction false} KeptJson(d: Doc<Bytes, Bytes>, n: nat)
    requires Consistent(d) && ValuesJson(d) && n <= |d.fields|
    ensures AllJson(Kept(d, n))
  {
    if n > 0 { KeptJson(d, n - 1); }
  }

  lemma {:induction false} AddedJson(d: Doc<Bytes, Bytes>, n: nat)
    requires Consistent(d) && ValuesJson(d) && n <= |d.setOrder|
    ensures AllJson(Added(d, n))
  {
    if n > 0 {
      AddedJson(d, n - 1);
      assert d.setOrder[n - 1] in d.setOrder;
    }
  }

  function RenderField(f: Field<Bytes, Bytes>): Bytes {
    Marshal(f.key) + [COLON] + f.value
  }

  function RenderFields(fields: seq<Field<Bytes, Bytes>>): Bytes {
    if fields == [] then []
    else
      RenderFields(fields[..|fields| - 1]) + (if |fields| == 1 then [] else [COMMA])
      + RenderField(fields[|fields| - 1])
  }

  function Print(fields: seq<Field<Bytes, Bytes>>): Bytes {
    [OPEN_BRACE] + RenderFields(fields) + [CLOSE_BRACE]
  }

  // ---- The printed text is a JSON object with those fields --------------------------------------

  ghost function MemberFor(f: Field<Bytes, Bytes>): (m: Member)
    requires IsJson(f.value)
    ensures WfMember(m) && RenderMember(m) == RenderField(f)
    ensures m.key == MarshalBody(f.key) && Render(m.value) == Trim(f.value)
  {
    var item: Item :| WfItem(item) && RenderItem(item) == f.value;
    MarshalDecodes(f.key);
    TrimItem(item);
    RenderMemberFor(f, item);
    Member([], MarshalBody(f.key), [], item.before, item.value, item.after)
  }

  lemma RenderMemberFor(f: Field<Bytes, Bytes>, item: Item)
    requires RenderItem(item) == f.value
    ensures RenderMember(Member([], MarshalBody(f.key), [], item.before, item.value, item.after)) == RenderField(f)
  {
    var key := Quoted(MarshalBody(f.key));
    assert [] + key + [] == key;
    assert key + [COLON] + item.before + Render(item.value) + item.after
        == key + [COLON] + (item.before + Render(item.value) + item.after);
  }

  ghost function MembersFor(fields: seq<Field<Bytes, Bytes>>): (ms: seq<Member>)
    requires AllJson(fields)
    ensures |ms| == |fields| && forall i :: 0 <= i < |ms| ==> ms[i] == MemberFor(fields[i])
  {
    seq(|fields|, i requires 0 <= i < |fields| => MemberFor(fields[i]))
  }

  lemma {:induction false} RenderMembersSnoc(ms: seq<Member>, m: Member)
    requires ms != []
    ensures RenderMembers(ms + [m]) == RenderMembers(ms) + [COMMA] + RenderMember(m)
  {
    var all := ms + [m];
    assert all[1..] == ms[1..] + [m];
    if |ms| == 1 {
      assert all[1..] == [m];
      RenderOne(m);
    } else {
      RenderMembersSnoc(ms[1..], m);
    }
  }

  lemma {:induction false} PrintRenders(fields: seq<Field<Bytes, Bytes>>)
    requires AllJson(fields)
    ensures fields != [] ==> RenderMembers(MembersFor(fields)) == RenderFields(fields)
  {
    if |fields| == 1 {
      assert MembersFor(fields) == [MemberFor(fields[0])];
      RenderOne(MemberFor(fields[0]));
      assert RenderFields(fields) == [] + [] + RenderField(fields[0]);
    } else if |fields| > 1 {
      var front, f := fields[..|fields| - 1], fields[|fields| - 1];
      assert front + [f] == fields;
      PrintRenders(front);
      PrintStep(front, f);
    }
  }

  lemma PrintStep(front: seq<Field<Bytes, Bytes>>, f: Field<Bytes, Bytes>)
    requires front != [] && AllJson(front) && IsJson(f.value)
    requires RenderMembers(MembersFor(front)) == RenderFields(front)
    ensures AllJson(front + [f]) && RenderMembers(MembersFor(front + [f])) == RenderFields(front + [f])
  {
    MembersSnoc(front, f);
    RenderMembersSnoc(MembersFor(front), MemberFor(f));
    RenderFieldsSnoc(front, f);
  }

  lemma RenderFieldsSnoc(front: seq<Field<Bytes, Bytes>>, f: Field<Bytes, Bytes>)
    ensures RenderFields(front + [f]) == RenderFields(front) + (if front == [] then [] else [COMMA]) + RenderField(f)
  {
    assert (front + [f])[..|front|] == front;
  }

  lemma RenderOne(m: Member)
    ensures RenderMembers([m]) == RenderMember(m)
  {
    assert RenderMembers([m]) == RenderMember(m) + [];
  }

  lemma MembersSnoc(front: seq<Field<Bytes, Bytes>>, f: Field<Bytes, Bytes>)
    requires AllJson(front) && IsJson(f.value)
    ensures AllJson(front + [f]) && MembersFor(front + [f]) == MembersFor(front) + [MemberFor(f)]
  {
  }

  ghost function TreeFor(fields: seq<Field<Bytes, Bytes>>): Tree
    requires AllJson(fields)
  {
    Obj([], MembersFor(fields))
  }

  function TrimValues(m: map<Bytes, Bytes>): map<Bytes, Bytes> {
    map k | k in m :: Trim(m[k])
  }

  lemma {:induction false} TrimmedLastWins(fields: seq<Field<Bytes, Bytes>>, trimmed: seq<Field<Bytes, Bytes>>)
    requires |trimmed| == |fields|
    requires forall i :: 0 <= i < |fields| ==> trimmed[i] == Field(fields[i].key, Trim(fields[i].value))
    ensures LastWins(trimmed) == TrimValues(LastWins(fields))
  {
    if fields != [] {
      TrimmedLastWins(fields[..|fields| - 1], trimmed[..|fields| - 1]);
    }
  }

  /** The printed bytes are one JSON object that holds exactly the printed fields. */
  lemma PrintIsObject(d: Doc<Bytes, Bytes>)
    requires Consistent(d) && ValuesJson(d)
    ensures AllJson(Printed(d))
    ensures Wf(TreeFor(Printed(d))) && Render(TreeFor(Printed(d))) == Print(Printed(d))
  {
    PrintedJson(d);
    TreeRenders(Printed(d));
  }

  lemma PrintedJson(d: Doc<Bytes, Bytes>)
    requires Consistent(d) && ValuesJson(d)
    ensures AllJson(Printed(d))
  {
    KeptJson(d, |d.fields|);
    AddedJson(d, |d.setOrder|);
  }

  lemma TreeRenders(fields: seq<Field<Bytes, Bytes>>)
    requires AllJson(fields)
    ensures Wf(TreeFor(fields)) && Render(TreeFor(fields)) == Print(fields)
  {
    PrintRenders(fields);
  }

  /**
   Whatever edits were made, reading the printed object last-wins gives the edited
   object's meaning, values without surrounding white space. Keys must be valid UTF-8.
   */
  lemma PrintKeepsMeaning(d: Doc<Bytes, Bytes>)
    requires Consistent(d) && AllJson(Printed(d)) && forall k :: k in Meaning(d) ==> Valid(k)
    ensures LastWins(Fields(TreeFor(Printed(d)).members)) == TrimValues(Meaning(d))
  {
    var fields := Printed(d);
    PrintedMeaning(d);
    PrintedFields(fields, Meaning(d));
    TrimmedLastWins(fields, Fields(MembersFor(fields)));
  }

  lemma PrintedFields(fields: seq<Field<Bytes, Bytes>>, meaning: map<Bytes, Bytes>)
    requires AllJson(fields) && Describes(fields, meaning) && forall k :: k in meaning ==> Valid(k)
    ensures forall i :: 0 <= i < |fields| ==>
              Fields(MembersFor(fields))[i] == Field(fields[i].key, Trim(fields[i].value))
  {
    forall i | 0 <= i < |fields|
      ensures Fields(MembersFor(fields))[i] == Field(fields[i].key, Trim(fields[i].value))
    {
      MarshalRoundTrip(fields[i].key);
    }
  }
}
