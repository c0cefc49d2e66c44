/** The stream converter with the fields it updates in place. */
module CopilotConverter {
  import opened Collections
  import opened CopilotEvents

  /** Slots and what is in them match, both ways. */
  predicate Slots(s: State) {
    && (forall o :: 0 <= o < |s.owners| ==>
          match s.owners[o]
          case Message => s.message.Some? && s.message.value.output == o
          case Index(i) => i in s.tools && s.tools[i].output == o)
    && (s.message.Some? ==> s.message.value.output < |s.owners| && s.owners[s.message.value.output] == Message)
    && (forall i :: i in s.tools ==> s.tools[i].output < |s.owners| && s.owners[s.tools[i].output] == Index(i))
  }

  method Any<T>(items: set<T>) returns (item: T)
    requires items != {}
    ensures item in items
  {
    item :| item in items;
  }

  lemma FinishToolsNext(env: Env, s: State, o: nat)
    requires o < |s.owners|
    ensures FinishTools(env, s, o) == FinishTools(env, FinishSlot(env, s, o), o + 1)
  {
  }

  class Converter {
    const env: Env
    var responseId: string
    var started: bool
    var failed: bool
    var finishReason: string
    var nextOutput: nat
    var sequence: nat
    var message: Option<Msg>
    var tools: map<int, Tool>
    /** What has been written to the client. */
    var events: seq<Event>
    /** Who was given each slot. */
    ghost var owners: seq<Owner>

    ghost function View(): State
      reads this
    {
      State(responseId, started, failed, finishReason, owners, message, tools, events)
    }

    ghost predicate Valid()
      reads this
    {
      nextOutput == |owners| && sequence == |events| && Slots(View())
    }

    constructor (env: Env, fallback: string)
      ensures Valid() && View() == First(fallback) && this.env == env
    {
      this.env := env;
      responseId, started, failed, finishReason := fallback, false, false, "";
      nextOutput, sequence, message, tools, events, owners := 0, 0, None, map[], [], [];
    }

    /** emit. */
    method Send(b: Body)
      requires Valid()
      modifies this`events, this`sequence
      ensures Valid() && View() == Emit(old(View()), b)
    {
      events := events + [Event(sequence, b)];
      sequence := sequence + 1;
    }

    method Begin()
      requires Valid()
      modifies this
      ensures Valid() && View() == Start(old(View()))
    {
      if started { return; }
      started := true;
      Send(Created);
      Send(InProgress);
    }

    method NeedMessage()
      requires Valid()
      modifies this
      ensures Valid() && View() == EnsureMessage(env, old(View())) && message.Some?
    {
      if message.Some? { return; }
      message := Some(Msg(env.messageId(responseId), nextOutput, "", "", None, None, 0));
      owners := owners + [Message];
      nextOutput := nextOutput + 1;
      Send(ItemAdded(message.value.output, Item(message.value.id, Says([]))));
    }

    method BeginTextPart()
      requires Valid() && message.Some?
      modifies this
      ensures Valid() && View() == OpenText(old(View())) && message.Some? && message.value.textIndex.Some?
    {
      if message.value.textIndex.None? {
        var index := message.value.nextContent;
        message := Some(message.value.(textIndex := Some(index), nextContent := index + 1));
        Send(PartAdded(message.value.id, message.value.output, index, Written("")));
      }
    }

    method BeginRefusalPart()
      requires Valid() && message.Some?
      modifies this
      ensures Valid() && View() == OpenRefusal(old(View())) && message.Some? && message.value.refusalIndex.Some?
    {
      if message.value.refusalIndex.None? {
        var index := message.value.nextContent;
        message := Some(message.value.(refusalIndex := Some(index), nextContent := index + 1));
        Send(PartAdded(message.value.id, message.value.output, index, Refused("")));
      }
    }

    method WriteTextDelta(delta: string)
      requires Valid()
      modifies this
      ensures Valid() && View() == WriteText(env, old(View()), delta)
    {
      NeedMessage();
      BeginTextPart();
      message := Some(message.value.(text := message.value.text + delta));
      Send(TextDelta(message.value.id, message.value.output, message.value.textIndex.value, delta));
    }

    method WriteRefusalDelta(delta: string)
      requires Valid()
      modifies this
      ensures Valid() && View() == WriteRefusal(env, old(View()), delta)
    {
      NeedMessage();
      BeginRefusalPart();
      message := Some(message.value.(refusal := message.value.refusal + delta));
      Send(RefusalDelta(message.value.id, message.value.output, message.value.refusalIndex.value, delta));
    }

    /** addTool. */
    method ShowCall(i: int)
      requires Valid() && i in tools
      modifies this
      ensures Valid() && View() == AddTool(env, old(View()), i) && nextOutput == old(nextOutput)
    {
      var t := tools[i];
      if t.added { return; }
      if t.name in env.known {
        var info := env.known[t.name];
        t := t.(added := true, responseName := info.name, namespace := info.namespace, custom := info.custom);
      } else {
        t := t.(added := true, responseName := t.name, namespace := "", custom := false);
      }
      tools := tools[i := t];
      Send(ItemAdded(t.output,
        Item(t.id, if t.custom then Asks(t.responseName, t.namespace, "")
          else Calls(t.responseName, t.namespace, ""))));
    }

    /** The slot, the id and the name. */
    method NameCall(call: CallDelta)
      requires Valid()
      modifies this
      ensures Valid() && View() == NameTool(env, old(View()), call)
    {
      var i := call.index;
      if i !in tools {
        tools := tools[i := Tool(env.callId(i), "", "", "", "", nextOutput, false, false)];
        owners := owners + [Index(i)];
        nextOutput := nextOutput + 1;
      }
      var t := tools[i];
      if call.id != "" { t := t.(id := call.id); }
      tools := tools[i := t.(name := t.name + call.name)];
    }

    /** One turn of writeToolDeltas' loop. */
    method WriteToolDelta(call: CallDelta)
      requires Valid()
      modifies this
      ensures Valid() && View() == WriteCall(env, old(View()), call)
    {
      NameCall(call);
      if call.arguments != "" { WriteToolArguments(call.index, call.arguments); }
    }

    method WriteToolArguments(i: int, arguments: string)
      requires Valid() && i in tools
      modifies this
      ensures Valid() && View() == WriteArguments(AddTool(env, old(View()), i), i, arguments)
    {
      ShowCall(i);
      tools := tools[i := tools[i].(arguments := tools[i].arguments + arguments)];
      if !tools[i].custom { Send(ArgumentsDelta(tools[i].id, tools[i].output, arguments)); }
    }

    method WriteToolDeltas(calls: seq<CallDelta>)
      requires Valid()
      modifies this
      ensures Valid() && View() == WriteCalls(env, old(View()), calls)
    {
      ghost var done := WriteCalls(env, View(), calls);
      assert calls[0..] == calls;
      for k := 0 to |calls|
        invariant Valid() && WriteCalls(env, View(), calls[k..]) == done
      {
        WriteToolDelta(calls[k]);
      }
    }

    method Take(chunk: Chunk)
      requires Valid()
      modifies this
      ensures Valid() && View() == Consume(env, old(View()), chunk)
    {
      if chunk.error {
        failed := true;
        Send(Error);
        return;
      }
      if !started && chunk.id != "" { responseId := env.responseId(chunk.id, responseId); }
      if chunk.choice.None? { return; }
      var choice := chunk.choice.value;
      TakeDelta(choice);
      if choice.finish != "" { finishReason := choice.finish; }
    }

    method TakeDelta(choice: Choice)
      requires Valid()
      modifies this
      ensures Valid() && View() == Choose(env, old(View()), choice)
    {
      Begin();
      if choice.content != "" { WriteTextDelta(choice.content); }
      if choice.refusal != "" { WriteRefusalDelta(choice.refusal); }
      WriteToolDeltas(choice.calls);
    }

    /** finishMessage, before the item's own done event. */
    method FinishParts()
      requires Valid() && message.Some?
      modifies this`events, this`sequence
      ensures Valid() &&
        Emit(View(), ItemDone(message.value.output, MessageItem(env, old(View())))) == FinishMessage(env, old(View()))
    {
      var m := message.value;
      if m.textIndex.Some? {
        Send(TextDone(m.id, m.output, m.textIndex.value, m.text));
        Send(PartDone(m.id, m.output, m.textIndex.value, Written(m.text)));
      }
      if m.refusalIndex.Some? {
        Send(RefusalDone(m.id, m.output, m.refusalIndex.value, m.refusal));
        Send(PartDone(m.id, m.output, m.refusalIndex.value, Refused(m.refusal)));
      }
    }

    method FinishWholeMessage() returns (item: Item)
      requires Valid() && message.Some?
      modifies this`events, this`sequence
      ensures Valid() && View() == FinishMessage(env, old(View())) && item == MessageItem(env, View())
    {
      FinishParts();
      item := Item(message.value.id, Says(Parts(message.value)));
      Send(ItemDone(message.value.output, item));
    }

    /** The tool with a slot, looked for among all tools in any order. */
    method FindCall(o: nat) returns (found: Option<int>)
      ensures found.Some? ==> found.value in tools && tools[found.value].output == o
      ensures found.None? ==> forall i :: i in tools ==> tools[i].output != o
    {
      var left: set<int> := tools.Keys;
      while left != {}
        invariant left <= tools.Keys && forall i :: i in tools && i !in left ==> tools[i].output != o
        decreases |left|
      {
        var i: int := Any(left);
        if tools[i].output == o { return Some(i); }
        left := left - {i};
      }
      return None;
    }

    /** The body of finish's loop for a tool. */
    method FinishCall(i: int) returns (item: Item)
      requires Valid() && i in tools
      modifies this
      ensures Valid() && View() == FinishTool(env, old(View()), i) && i in tools && item == ToolItem(env, tools[i])
      ensures owners == old(owners) && message == old(message) && tools.Keys == old(tools).Keys &&
        nextOutput == old(nextOutput)
      ensures forall j :: j in tools && j != i ==> tools[j] == old(tools)[j]
      ensures responseId == old(responseId) && finishReason == old(finishReason)
    {
      ShowCall(i);
      var t := tools[i];
      if t.custom {
        var input := env.input(t.arguments);
        Send(InputDelta(t.id, t.output, input));
        Send(InputDone(t.id, t.output, input));
        item := Item(t.id, Asks(t.responseName, t.namespace, input));
      } else {
        Send(ArgumentsDone(t.id, t.output, t.arguments));
        item := Item(t.id, Calls(t.responseName, t.namespace, t.arguments));
      }
      Send(ItemDone(t.output, item));
    }

    /** The slots before o and the message's are filled in. */
    ghost predicate Filled(output: seq<Item>, o: nat)
      reads this
    {
      && |output| == |owners| && o <= |owners|
      && forall p :: 0 <= p < |owners| && (p < o || owners[p] == Message) ==> output[p] == OutputItem(env, View(), p)
    }

    /** One turn of finish's loop. */
    method FinishAt(o: nat, output: seq<Item>) returns (filled: seq<Item>)
      requires Valid() && o < |owners| && Filled(output, o)
      modifies this
      ensures Valid() && View() == FinishSlot(env, old(View()), o) && owners == old(owners) && Filled(filled, o + 1) &&
        finishReason == old(finishReason)
    {
      var found := FindCall(o);
      if found.None? { return output; }
      var item := FinishCall(found.value);
      filled := output[o := item];
    }

    method FinishAll(first: seq<Item>) returns (output: seq<Item>)
      requires Valid() && Filled(first, 0)
      modifies this
      ensures Valid() && View() == FinishTools(env, old(View()), 0) && finishReason == old(finishReason)
      ensures Filled(output, |owners|)
    {
      ghost var done := FinishTools(env, View(), 0);
      output := first;
      var n := nextOutput;
      for o := 0 to n
        invariant finishReason == old(finishReason)
        invariant Valid() && |owners| == n && Filled(output, o) && FinishTools(env, View(), o) == done
      {
        FinishToolsNext(env, View(), o);
        output := FinishAt(o, output);
      }
    }

    /** Once all slots are filled in the output is the response's. */
    lemma AllFilled(output: seq<Item>)
      requires Filled(output, |owners|)
      ensures output == Output(env, View())
    {
    }

    /** The message's part of the output. */
    method FirstOutput() returns (output: seq<Item>)
      requires Valid()
      modifies this`events, this`sequence
      ensures Valid() && View() == FinishMessage(env, old(View())) && Filled(output, 0)
    {
      output := seq(nextOutput, o => Item("", Says([])));
      if message.Some? {
        var item := FinishWholeMessage();
        output := output[message.value.output := item];
      }
    }

    /** finish: the response, if the stream began and gave a reason for ending. */
    method End() returns (ok: bool)
      requires Valid()
      modifies this
      ensures Valid() && ok == Finish(env, old(View())).Some?
      ensures View() == if ok then Finish(env, old(View())).value else old(View())
    {
      ok := started && finishReason != "";
      if ok {
        var output := FirstOutput();
        output := FinishAll(output);
        AllFilled(output);
        Send(Terminal(Status(finishReason), output));
      }
    }
  }

  lemma ConsumeNext(env: Env, s: State, chunks: seq<Chunk>, k: nat)
    requires k < |chunks| && !s.failed
    ensures ConsumeAll(env, s, chunks[k..]) == ConsumeAll(env, Consume(env, s, chunks[k]), chunks[k + 1..])
  {
    assert chunks[k..][0] == chunks[k] && chunks[k..][1..] == chunks[k + 1..];
  }

  lemma ConsumeEnd(env: Env, s: State, chunks: seq<Chunk>, k: nat)
    requires k <= |chunks| && (k == |chunks| || s.failed)
    ensures ConsumeAll(env, s, chunks[k..]) == s
  {
  }

  /** writeCopilotResponsesStream: all chunks up to an error, then the end; not ok if there was no end. */
  method Stream(env: Env, fallback: string, chunks: seq<Chunk>) returns (c: Converter, ok: bool)
    ensures fresh(c) && c.Valid()
    ensures var s := ConsumeAll(env, First(fallback), chunks);
            && c.View() == (if !s.failed && Finish(env, s).Some? then Finish(env, s).value else s)
            && ok == (s.failed || Finish(env, s).Some?)
  {
    c := new Converter(env, fallback);
    ghost var all := ConsumeAll(env, First(fallback), chunks);
    var k := 0;
    assert chunks[0..] == chunks;
    while k < |chunks| && !c.failed
      invariant k <= |chunks| && c.Valid() && c.env == env && fresh(c) && ConsumeAll(env, c.View(), chunks[k..]) == all
      decreases |chunks| - k
    {
      ConsumeNext(env, c.View(), chunks, k);
      c.Take(chunks[k]);
      k := k + 1;
    }
    ConsumeEnd(env, c.View(), chunks, k);
    ok := true;
    if !c.failed { ok := c.End(); }
  }
}
