/** Whatever chunks arrive, a strict client can read the events, and what it puts together is the response. */
module CopilotProtocol {
  import opened Collections
  import opened CopilotEvents

  // ---- The state and what the client has seen of it ----------------------------------------------------

  predicate MsgOk(m: Msg) {
    && (m.textIndex.None? ==> m.text == "") && (m.refusalIndex.None? ==> m.refusal == "")
    && match (m.textIndex, m.refusalIndex)
       case (None, None) => m.nextContent == 0
       case (Some(t), None) => t == 0 && m.nextContent == 1
       case (None, Some(r)) => r == 0 && m.nextContent == 1
       case (Some(t), Some(r)) => t + r == 1 && m.nextContent == 2
  }

  /** Slots and their owners match, both ways. */
  predicate OwnersOk(s: State) {
    && (forall o :: 0 <= o < |s.owners| ==>
          match s.owners[o]
          case Message => s.message.Some? && s.message.value.output == o
          case Index(i) => i in s.tools && s.tools[i].output == o)
    && (s.message.Some? ==>
       s.message.value.output < |s.owners| && s.owners[s.message.value.output] == Message && MsgOk(s.message.value))
    && (forall i :: i in s.tools ==> s.tools[i].output < |s.owners| && s.owners[s.tools[i].output] == Index(i))
    && (forall i :: i in s.tools && !s.tools[i].added ==> s.tools[i].arguments == "" && !s.tools[i].custom)
  }

  /** The client has been shown the slot. */
  predicate Shown(s: State, o: nat) {
    o < |s.owners| && match s.owners[o]
                      case Message => s.message.Some?
                      case Index(i) => i in s.tools && s.tools[i].added
  }

  /** What the deltas of a slot add up to so far. */
  function ShapeNow(s: State, o: nat): Shape
    requires Shown(s, o)
  {
    match s.owners[o]
    case Message => Says(Parts(s.message.value))
    case Index(i) =>
      var t := s.tools[i];
      if t.custom then Asks(t.responseName, t.namespace, "") else Calls(t.responseName, t.namespace, t.arguments)
  }

  /** The client's slot o. */
  predicate SlotOk(env: Env, s: State, c: Client, o: nat) {
    && (o in c.items <==> Shown(s, o))
    && (o in c.done ==> o in c.items)
    && (Shown(s, o) && o in c.items ==>
       c.items[o] == if o in c.done then OutputItem(env, s, o).shape else ShapeNow(s, o))
  }

  predicate PhaseOk(s: State, c: Client) {
    c.phase == if s.failed then Ended else if s.started then Open else New
  }

  ghost predicate Linked(env: Env, s: State, c: Client) {
    && ReadAll(s.events) == Some(c) && c.count == |s.events| && PhaseOk(s, c) && OwnersOk(s)
    && (!s.started ==> s.owners == [])
    && forall o: nat :: SlotOk(env, s, c, o)
  }

  /** Adding an event that the client accepts. */
  lemma Emitted(s: State, c: Client, b: Body)
    requires ReadAll(s.events) == Some(c) && c.count == |s.events| && React(c, b).Some?
    ensures ReadAll(Emit(s, b).events) == Some(React(c, b).value.(count := c.count + 1))
    ensures |Emit(s, b).events| == c.count + 1
  {
    ReadMore(s.events, Event(|s.events|, b));
  }

  lemma FirstLinked(env: Env, fallback: string)
    ensures Linked(env, First(fallback), BLANK)
  {
  }

  lemma StartLinked(env: Env, s: State, c: Client) returns (c': Client)
    requires Linked(env, s, c) && !s.failed && c.done == {}
    ensures Running(env, Start(s), c')
  {
    if s.started {
      c' := c;
    } else {
      var s1 := s.(started := true);
      Emitted(s1, c, Created);
      var c1 := React(c, Created).value.(count := c.count + 1);
      Emitted(Emit(s1, Created), c1, InProgress);
      c' := React(c1, InProgress).value.(count := c1.count + 1);
      forall o: nat
        ensures SlotOk(env, Start(s), c', o)
      {
        assert SlotOk(env, s, c, o);
      }
    }
  }

  /** The converter is running and nothing has been finished. */
  ghost predicate Running(env: Env, s: State, c: Client) {
    Linked(env, s, c) && s.started && !s.failed && c.done == {}
  }

  lemma EnsureLinked(env: Env, s: State, c: Client) returns (c': Client)
    requires Running(env, s, c)
    ensures Running(env, EnsureMessage(env, s), c') && EnsureMessage(env, s).message.Some?
  {
    if s.message.Some? {
      c' := c;
    } else {
      var o0 := |s.owners|;
      var item := Item(env.messageId(s.responseId), Says([]));
      var s1 := s.(message := Some(Msg(env.messageId(s.responseId), o0, "", "", None, None, 0)),
        owners := s.owners + [Message]);
      assert SlotOk(env, s, c, o0);
      Emitted(s1, c, ItemAdded(o0, item));
      c' := React(c, ItemAdded(o0, item)).value.(count := c.count + 1);
      var s' := EnsureMessage(env, s);
      forall o: nat
        ensures SlotOk(env, s', c', o)
      {
        assert SlotOk(env, s, c, o);
      }
    }
  }

  /** A client after one accepted event. */
  function After(c: Client, b: Body): Client
    requires React(c, b).Some?
  {
    React(c, b).value.(count := c.count + 1)
  }

  /** Writing to the message touches its own slot only. */
  lemma MessageSlots(env: Env, s: State, c: Client, m: Msg, b: Body, s': State)
    requires Running(env, s, c) && s.message.Some? && m.output == s.message.value.output && MsgOk(m)
    requires s' == Emit(s.(message := Some(m)), b) && React(c, b).Some?
    requires React(c, b).value == c.(items := c.items[m.output := Says(Parts(m))])
    ensures Running(env, s', After(c, b))
  {
    Emitted(s.(message := Some(m)), c, b);
    forall o: nat
      ensures SlotOk(env, s', After(c, b), o)
    {
      assert SlotOk(env, s, c, o);
    }
  }

  lemma OpenTextLinked(env: Env, s: State, c: Client) returns (c': Client)
    requires Running(env, s, c) && s.message.Some?
    ensures Running(env, OpenText(s), c') && OpenText(s).message.Some? && OpenText(s).message.value.textIndex.Some?
  {
    var m := s.message.value;
    assert SlotOk(env, s, c, m.output);
    if m.textIndex.Some? {
      c' := c;
    } else {
      var b := PartAdded(m.id, m.output, m.nextContent, Written(""));
      var m' := m.(textIndex := Some(m.nextContent), nextContent := m.nextContent + 1);
      assert Parts(m') == Parts(m) + [Written("")];
      MessageSlots(env, s, c, m', b, OpenText(s));
      c' := After(c, b);
    }
  }

  lemma OpenRefusalLinked(env: Env, s: State, c: Client) returns (c': Client)
    requires Running(env, s, c) && s.message.Some?
    ensures Running(env, OpenRefusal(s), c') && OpenRefusal(s).message.Some? &&
      OpenRefusal(s).message.value.refusalIndex.Some?
  {
    var m := s.message.value;
    assert SlotOk(env, s, c, m.output);
    if m.refusalIndex.Some? {
      c' := c;
    } else {
      var b := PartAdded(m.id, m.output, m.nextContent, Refused(""));
      var m' := m.(refusalIndex := Some(m.nextContent), nextContent := m.nextContent + 1);
      assert Parts(m') == Parts(m) + [Refused("")];
      MessageSlots(env, s, c, m', b, OpenRefusal(s));
      c' := After(c, b);
    }
  }

  lemma TextDeltaLinked(env: Env, s: State, c: Client, delta: string, s': State) returns (c': Client)
    requires Running(env, s, c) && s.message.Some? && s.message.value.textIndex.Some?
    requires var m := s.message.value;
             s' == Emit(s.(message := Some(m.(text := m.text + delta))),
               TextDelta(m.id, m.output, m.textIndex.value, delta))
    ensures Running(env, s', c')
  {
    var m := s.message.value;
    var m' := m.(text := m.text + delta);
    var b := TextDelta(m.id, m.output, m.textIndex.value, delta);
    assert SlotOk(env, s, c, m.output);
    assert Parts(m') == Parts(m)[m.textIndex.value := Written(m.text + delta)];
    MessageSlots(env, s, c, m', b, s');
    c' := After(c, b);
  }

  lemma WriteTextLinked(env: Env, s: State, c: Client, delta: string) returns (c': Client)
    requires Running(env, s, c)
    ensures Running(env, WriteText(env, s, delta), c')
  {
    var c1 := EnsureLinked(env, s, c);
    var c2 := OpenTextLinked(env, EnsureMessage(env, s), c1);
    c' := TextDeltaLinked(env, OpenText(EnsureMessage(env, s)), c2, delta, WriteText(env, s, delta));
  }

  lemma RefusalDeltaLinked(env: Env, s: State, c: Client, delta: string, s': State) returns (c': Client)
    requires Running(env, s, c) && s.message.Some? && s.message.value.refusalIndex.Some?
    requires var m := s.message.value;
             s' == Emit(s.(message := Some(m.(refusal := m.refusal + delta))),
               RefusalDelta(m.id, m.output, m.refusalIndex.value, delta))
    ensures Running(env, s', c')
  {
    var m := s.message.value;
    var m' := m.(refusal := m.refusal + delta);
    var b := RefusalDelta(m.id, m.output, m.refusalIndex.value, delta);
    assert SlotOk(env, s, c, m.output);
    assert Parts(m') == Parts(m)[m.refusalIndex.value := Refused(m.refusal + delta)];
    MessageSlots(env, s, c, m', b, s');
    c' := After(c, b);
  }

  lemma WriteRefusalLinked(env: Env, s: State, c: Client, delta: string) returns (c': Client)
    requires Running(env, s, c)
    ensures Running(env, WriteRefusal(env, s, delta), c')
  {
    var c1 := EnsureLinked(env, s, c);
    var c2 := OpenRefusalLinked(env, EnsureMessage(env, s), c1);
    c' := RefusalDeltaLinked(env, OpenRefusal(EnsureMessage(env, s)), c2, delta, WriteRefusal(env, s, delta));
  }

  // ---- Tool calls ------------------------------------------------------------------------------------------

  /** A new or renamed tool that the client has not been shown changes nothing for it. */
  lemma NameToolLinked(env: Env, s: State, c: Client, call: CallDelta)
    requires Running(env, s, c)
    ensures Running(env, NameTool(env, s, call), c) && call.index in NameTool(env, s, call).tools
  {
    var s' := NameTool(env, s, call);
    forall o: nat
      ensures SlotOk(env, s', c, o)
    {
      assert SlotOk(env, s, c, o);
    }
  }

  /** A change to one tool touches its own slot only. */
  predicate OnlyTool(s: State, s': State, i: int) {
    && i in s.tools && s'.owners == s.owners && s'.message == s.message && s'.tools.Keys == s.tools.Keys
    && s'.tools[i].output == s.tools[i].output && forall j :: j in s.tools && j != i ==> s'.tools[j] == s.tools[j]
  }

  lemma OtherSlots(env: Env, s: State, c: Client, s': State, c': Client, i: int, o: nat)
    requires OwnersOk(s) && SlotOk(env, s, c, o) && OnlyTool(s, s', i) && o != s.tools[i].output
    requires s'.responseId == s.responseId
    requires (o in c'.items <==> o in c.items) && (o in c'.done <==> o in c.done) &&
      (o in c.items && o in c'.items ==> c'.items[o] == c.items[o])
    ensures SlotOk(env, s', c', o)
  {
  }

  lemma AddToolLinked(env: Env, s: State, c: Client, i: int) returns (c': Client)
    requires Linked(env, s, c) && s.started && !s.failed && i in s.tools
    ensures Linked(env, AddTool(env, s, i), c') && c'.done == c.done
    ensures OnlyTool(s, AddTool(env, s, i), i) && AddTool(env, s, i).tools[i].added
    ensures AddTool(env, s, i).started && !AddTool(env, s, i).failed
    ensures AddTool(env, s, i).tools[i].arguments == s.tools[i].arguments
  {
    var o0 := s.tools[i].output;
    assert SlotOk(env, s, c, o0);
    if s.tools[i].added {
      c' := c;
    } else {
      var s' := AddTool(env, s, i);
      var t := s'.tools[i];
      var b := ItemAdded(o0, Item(s.tools[i].id, NewShape(t)));
      Emitted(s.(tools := s'.tools), c, b);
      c' := After(c, b);
      assert s.tools[i].arguments == "" ==> ShapeNow(s', o0) == NewShape(t);
      forall o: nat
        ensures SlotOk(env, s', c', o)
      {
        assert SlotOk(env, s, c, o);
        if o != o0 { OtherSlots(env, s, c, s', c', i, o); }
      }
    }
  }

  lemma WriteCallLinked(env: Env, s: State, c: Client, call: CallDelta) returns (c': Client)
    requires Running(env, s, c)
    ensures Running(env, WriteCall(env, s, call), c')
  {
    NameToolLinked(env, s, c, call);
    var named := NameTool(env, s, call);
    if call.arguments == "" {
      c' := c;
    } else {
      var c1 := AddToolLinked(env, named, c, call.index);
      c' := ArgumentsLinked(env, AddTool(env, named, call.index), c1, call.index, call.arguments);
    }
  }

  lemma ArgumentsLinked(env: Env, s: State, c: Client, i: int, arguments: string) returns (c': Client)
    requires Running(env, s, c) && i in s.tools && s.tools[i].added
    ensures Running(env, WriteArguments(s, i, arguments), c')
  {
    var t := s.tools[i];
    var s' := WriteArguments(s, i, arguments);
    assert SlotOk(env, s, c, t.output);
    if t.custom {
      c' := c;
    } else {
      Emitted(s.(tools := s'.tools), c, ArgumentsDelta(t.id, t.output, arguments));
      c' := After(c, ArgumentsDelta(t.id, t.output, arguments));
    }
    forall o: nat
      ensures SlotOk(env, s', c', o)
    {
      assert SlotOk(env, s, c, o);
      if o != t.output { OtherSlots(env, s, c, s', c', i, o); }
    }
  }

  lemma {:induction false} WriteCallsLinked(env: Env, s: State, c: Client, calls: seq<CallDelta>) returns (c': Client)
    requires Running(env, s, c)
    ensures Running(env, WriteCalls(env, s, calls), c')
    decreases |calls|
  {
    if calls == [] {
      c' := c;
    } else {
      var c1 := WriteCallLinked(env, s, c, calls[0]);
      c' := WriteCallsLinked(env, WriteCall(env, s, calls[0]), c1, calls[1..]);
    }
  }

  // ---- Chunks ------------------------------------------------------------------------------------------------

  lemma RenameLinked(env: Env, s: State, c: Client, id: string)
    requires Linked(env, s, c) && !s.started && c.done == {}
    ensures Linked(env, s.(responseId := id), c)
  {
    forall o: nat
      ensures SlotOk(env, s.(responseId := id), c, o)
    {
      assert SlotOk(env, s, c, o);
    }
  }

  lemma FailLinked(env: Env, s: State, c: Client) returns (c': Client)
    requires Linked(env, s, c) && !s.failed && c.done == {}
    ensures Linked(env, Emit(s.(failed := true), Error), c') && c'.done == {}
  {
    Emitted(s.(failed := true), c, Error);
    c' := After(c, Error);
    forall o: nat
      ensures SlotOk(env, Emit(s.(failed := true), Error), c', o)
    {
      assert SlotOk(env, s, c, o);
    }
  }

  lemma FinishReasonLinked(env: Env, s: State, c: Client, reason: string)
    requires Linked(env, s, c)
    ensures Linked(env, s.(finishReason := reason), c)
  {
    forall o: nat
      ensures SlotOk(env, s.(finishReason := reason), c, o)
    {
      assert SlotOk(env, s, c, o);
    }
  }

  lemma ChoiceLinked(env: Env, s: State, c: Client, choice: Choice) returns (c': Client)
    requires Linked(env, s, c) && !s.failed && c.done == {}
    ensures Running(env, Choose(env, s, choice), c')
  {
    var s1 := Start(s);
    c' := StartLinked(env, s, c);
    var s2 := MaybeWrite(env, s1, choice.content);
    if choice.content != "" { c' := WriteTextLinked(env, s1, c', choice.content); }
    var s3 := MaybeRefuse(env, s2, choice.refusal);
    if choice.refusal != "" { c' := WriteRefusalLinked(env, s2, c', choice.refusal); }
    c' := WriteCallsLinked(env, s3, c', choice.calls);
  }

  lemma ConsumeLinked(env: Env, s: State, c: Client, chunk: Chunk) returns (c': Client)
    requires Linked(env, s, c) && !s.failed && c.done == {}
    ensures Linked(env, Consume(env, s, chunk), c') && c'.done == {}
  {
    if chunk.error {
      c' := FailLinked(env, s, c);
    } else {
      var named := if !s.started && chunk.id != "" then s.(responseId := env.responseId(chunk.id, s.responseId)) else s;
      if !s.started { RenameLinked(env, s, c, named.responseId); }
      if chunk.choice.None? {
        c' := c;
      } else {
        c' := ChoiceLinked(env, named, c, chunk.choice.value);
        FinishReasonLinked(env, Choose(env, named, chunk.choice.value), c', chunk.choice.value.finish);
      }
    }
  }

  /** At any point of any stream the client has understood every event. */
  lemma {:induction false} StreamUnderstood(env: Env, s: State, c: Client, chunks: seq<Chunk>) returns (c': Client)
    requires Linked(env, s, c) && c.done == {}
    ensures Linked(env, ConsumeAll(env, s, chunks), c') && c'.done == {}
    decreases |chunks|
  {
    if chunks == [] || s.failed {
      c' := c;
    } else {
      var c1 := ConsumeLinked(env, s, c, chunks[0]);
      c' := StreamUnderstood(env, Consume(env, s, chunks[0]), c1, chunks[1..]);
    }
  }
}
