/** The stream's output against the batch converter's, and what clients make of it, for every run of chunks. */
module CopilotOutput {
  import opened Collections
  import opened CopilotEvents
  import opened CopilotProtocol
  import opened CopilotFinish
  import opened CopilotHeard
  import opened CopilotBatch
  import opened CopilotSame
  import opened CopilotIds
  import opened CopilotKnown
  import opened CopilotEnd

  // ---- The batch converter's output --------------------------------------------------------------------------

  /** What the chunks add up to, as a chat completion would carry it. */
  function Accumulated(atoms: seq<Atom>): ChatMessage {
    var order := Order(atoms);
    ChatMessage(Texts(atoms), Refusals(atoms),
                seq(|order|, k requires 0 <= k < |order| => Whole(atoms, order[k])))
  }

  /** A call as the batch converter is given it. */
  function Whole(atoms: seq<Atom>, i: int): ChatCall {
    ChatCall(IdOf(atoms, i), NameOf(atoms, i), ArgumentsOf(atoms, i))
  }


  /** A call that is whole, and whose name meant the same when its first arguments came. */
  predicate CallInOrder(env: Env, atoms: seq<Atom>, i: int) {
    IdOf(atoms, i) != "" && NameOf(atoms, i) != "" && Named(env, NameInTime(atoms, i)) == Named(env, NameOf(atoms, i))
  }

  /** No call before the message, no text after a refusal began, and every call in order. */
  predicate InOrder(env: Env, atoms: seq<Atom>) {
    && (Speaks(atoms) ==> !CallFirst(atoms)) && !RefusalFirst(atoms)
    && forall k :: 0 <= k < |Order(atoms)| ==> CallInOrder(env, atoms, Order(atoms)[k])
  }

  lemma CallExactly(env: Env, i: int, id: string, name: string, arguments: string, inTime: string, t: Tool)
    requires ToolIs(env, i, id, name, arguments, inTime, t)
    ensures id != "" ==>
      (ToolItem(env, ShowTool(env, t)) == CallItem(env, ChatCall(id, name, arguments)) <==>
        Named(env, inTime) == Named(env, name))
    ensures ToolItem(env, ShowTool(env, t)).shape.Says? == false
  {
  }

  lemma ContentIs(m: ChatMessage)
    ensures Content(m) == if m.text == "" && m.refusal == "" then [] else if m.refusal == "" then [Written(m.text)]
                          else if m.text == "" then [Refused(m.refusal)] else [Written(m.text), Refused(m.refusal)]
  {
  }

  lemma MessageExactly(text: string, refusal: string, refusalFirst: bool, s: State, m: ChatMessage)
    requires MessageIs(text, refusal, refusalFirst, s) && m.text == text && m.refusal == refusal
    ensures s.message.Some? ==> (Parts(s.message.value) == Content(m) <==> !refusalFirst)
    ensures s.message.None? <==> Content(m) == []
    ensures s.message.None? ==> !refusalFirst
  {
    ContentIs(m);
  }

  /** The stream's state at its end, seen as slots and what is in them. */
  ghost predicate Ending(env: Env, atoms: seq<Atom>, s: State, done: State) {
    Heard(env, atoms, s) && Showing(env, s, done, |s.owners|)
  }

  /** The stream's item for call i: the batch converter's if the name meant the same in time. */
  predicate CallListed(env: Env, atoms: seq<Atom>, i: int, item: Item) {
    && !item.shape.Says?
    && (IdOf(atoms, i) != "" ==>
       (item == CallItem(env, Whole(atoms, i)) <==> Named(env, NameInTime(atoms, i)) == Named(env, NameOf(atoms, i))))
  }

  /** The stream's items in terms of the atoms, with the message, if any, in slot k. */
  predicate Listed(env: Env, atoms: seq<Atom>, order: seq<int>, k: nat, message: Item, items: seq<Item>) {
    if !Speaks(atoms) then |items| == |order| && forall o :: 0 <= o < |items| ==>
      CallListed(env, atoms, order[o], items[o])
    else
      && k <= |order| && |items| == |order| + 1 && items[k] == message && (k == 0 <==> !CallFirst(atoms))
      && (forall o :: 0 <= o < k ==> CallListed(env, atoms, order[o], items[o]))
      && (forall o :: k < o < |items| ==> CallListed(env, atoms, order[o - 1], items[o]))
  }

  /** A slot of a call holds what the call says. */
  lemma CallSlotItem(env: Env, atoms: seq<Atom>, s: State, done: State, o: nat)
    requires Ending(env, atoms, s, done) && o < |s.owners| && s.owners[o].Index? && s.owners[o].index in Order(atoms)
    ensures |Output(env, done)| == |s.owners| && CallListed(env, atoms, s.owners[o].index, Output(env, done)[o])
  {
    var i := s.owners[o].index;
    assert i in s.tools;
    CallExactly(env, i, IdOf(atoms, i), NameOf(atoms, i), ArgumentsOf(atoms, i), NameInTime(atoms, i), s.tools[i]);
    assert Output(env, done)[o] == ToolItem(env, ShowTool(env, s.tools[i]));
  }

  lemma ItemsListed(env: Env, atoms: seq<Atom>, s: State, done: State, m: ChatMessage)
      returns (k: nat, parts: seq<Part>)
    requires Ending(env, atoms, s, done) && MessageNamed(env, s) && m == Accumulated(atoms)
    ensures Listed(env, atoms, Order(atoms), k, Item(env.messageId(s.responseId), Says(parts)), Output(env, done))
    ensures if Speaks(atoms) then Content(m) != [] && (parts == Content(m) <==> !RefusalFirst(atoms))
            else Content(m) == [] && !RefusalFirst(atoms)
  {
    MessageExactly(Texts(atoms), Refusals(atoms), RefusalFirst(atoms), s, m);
    k, parts := if s.message.Some? then s.message.value.output else 0, if s.message.Some? then Parts(s.message.value)
      else [];
    forall o | 0 <= o < |s.owners| && s.owners[o].Index?
      ensures s.owners[o].index in Order(atoms) ==> CallListed(env, atoms, s.owners[o].index, Output(env, done)[o])
    {
      if s.owners[o].index in Order(atoms) { CallSlotItem(env, atoms, s, done, o); }
    }
  }

  /** The batch converter's output, slot by slot. */
  lemma BatchItems(env: Env, id: string, m: ChatMessage, items: seq<Item>, first: nat)
    requires forall k :: 0 <= k < |m.calls| ==> Complete(m.calls[k])
    requires first == (if Content(m) == [] then 0 else 1) && |items| == first + |m.calls|
    requires first == 1 ==> items[0] == Item(env.messageId(id), Says(Content(m)))
    requires forall o :: first <= o < |items| ==> items[o] == CallItem(env, m.calls[o - first])
    ensures Batch(env, id, m) == Some(items)
  {
    var batch := Batch(env, id, m).value;
    assert |batch| == |items|;
    forall o | first <= o < |batch|
      ensures batch[o] == items[o]
    {
    }
    SameSeq(items, batch, first);
  }

  lemma SameSeq(a: seq<Item>, b: seq<Item>, first: nat)
    requires |a| == |b| && first <= 1 && (first == 1 && |a| > 0 ==> a[0] == b[0]) && forall o :: first <= o < |a| ==>
      a[o] == b[o]
    ensures a == b
  {
  }

  /** In order, the outputs are the same. */
  lemma InOrderSame(env: Env, atoms: seq<Atom>, id: string, k: nat, parts: seq<Part>, items: seq<Item>, m: ChatMessage)
    requires Listed(env, atoms, Order(atoms), k, Item(env.messageId(id), Says(parts)), items) && InOrder(env, atoms) &&
      m == Accumulated(atoms)
    requires if Speaks(atoms) then Content(m) != [] && parts == Content(m) else Content(m) == []
    ensures Batch(env, id, m) == Some(items)
  {
    forall k | 0 <= k < |m.calls|
      ensures Complete(m.calls[k]) && CallInOrder(env, atoms, Order(atoms)[k])
    {
    }
    BatchItems(env, id, m, items, if Content(m) == [] then 0 else 1);
  }

  /** A message in the batch converter's first slot is in the stream's first slot. */
  lemma MessageWasFirst(env: Env, atoms: seq<Atom>, order: seq<int>, k: nat, message: Item, items: seq<Item>)
    requires Listed(env, atoms, order, k, message, items) && Speaks(atoms) && items[0].shape.Says?
    ensures k == 0 && items[0] == message && !CallFirst(atoms)
  {
  }

  lemma CallWasInOrder(env: Env, atoms: seq<Atom>, i: int, item: Item)
    requires CallListed(env, atoms, i, item) && Complete(Whole(atoms, i)) && item == CallItem(env, Whole(atoms, i))
    ensures CallInOrder(env, atoms, i)
  {
  }

  lemma CallAt(env: Env, atoms: seq<Atom>, order: seq<int>, k: nat, message: Item, items: seq<Item>, j: nat)
    requires Listed(env, atoms, order, k, message, items) && (Speaks(atoms) ==> k == 0) && j < |order|
    ensures var o := j + if Speaks(atoms) then 1 else 0;
            o < |items| && CallListed(env, atoms, order[j], items[o])
  {
  }

  /** The calls of the batch converter's output. */
  lemma BatchCall(env: Env, id: string, m: ChatMessage, items: seq<Item>, j: nat)
    requires Batch(env, id, m) == Some(items) && j < |m.calls|
    ensures Complete(m.calls[j])
    ensures var o := j + if Content(m) == [] then 0 else 1;
            o < |items| && items[o] == CallItem(env, m.calls[j])
  {
  }

  lemma BatchMessage(env: Env, id: string, m: ChatMessage, items: seq<Item>)
    requires Batch(env, id, m) == Some(items) && Content(m) != []
    ensures items != [] && items[0] == Item(env.messageId(id), Says(Content(m)))
  {
  }

  /** The stream's items are the batch converter's. */
  predicate Matching(env: Env, atoms: seq<Atom>, order: seq<int>, id: string, k: nat, parts: seq<Part>,
                     items: seq<Item>, m: ChatMessage) {
    && Listed(env, atoms, order, k, Item(env.messageId(id), Says(parts)), items) && Batch(env, id, m) == Some(items)
    && |m.calls| == |order| && (forall j :: 0 <= j < |order| ==> m.calls[j] == Whole(atoms, order[j]))
    && (Speaks(atoms) <==> Content(m) != [])
  }

  lemma SameMessage(env: Env, atoms: seq<Atom>, order: seq<int>, id: string, k: nat, parts: seq<Part>, items: seq<Item>,
                    m: ChatMessage)
    requires Matching(env, atoms, order, id, k, parts, items, m) && Speaks(atoms)
    ensures k == 0 && parts == Content(m) && !CallFirst(atoms)
  {
    BatchMessage(env, id, m, items);
    MessageWasFirst(env, atoms, order, k, Item(env.messageId(id), Says(parts)), items);
  }

  lemma SameCall(env: Env, atoms: seq<Atom>, order: seq<int>, id: string, k: nat, parts: seq<Part>, items: seq<Item>,
                 m: ChatMessage, j: nat)
    requires Matching(env, atoms, order, id, k, parts, items, m) && (Speaks(atoms) ==> k == 0) && j < |order|
    ensures CallInOrder(env, atoms, order[j])
  {
    BatchCall(env, id, m, items, j);
    CallAt(env, atoms, order, k, Item(env.messageId(id), Says(parts)), items, j);
    CallWasInOrder(env, atoms, order[j], CallItem(env, m.calls[j]));
  }

  /** When the outputs are the same, the stream was in order. */
  lemma SameInOrder(env: Env, atoms: seq<Atom>, order: seq<int>, id: string, k: nat, parts: seq<Part>, items: seq<Item>,
                    m: ChatMessage)
    requires Matching(env, atoms, order, id, k, parts, items, m)
    requires if Speaks(atoms) then parts == Content(m) <==> !RefusalFirst(atoms) else !RefusalFirst(atoms)
    ensures (Speaks(atoms) ==> !CallFirst(atoms)) && !RefusalFirst(atoms)
    ensures forall j :: 0 <= j < |order| ==> CallInOrder(env, atoms, order[j])
  {
    if Speaks(atoms) { SameMessage(env, atoms, order, id, k, parts, items, m); }
    forall j | 0 <= j < |order|
      ensures CallInOrder(env, atoms, order[j])
    {
      SameCall(env, atoms, order, id, k, parts, items, m, j);
    }
  }

  lemma MessageEnded(env: Env, s: State, s': State)
    requires s' == FinishMessage(env, s)
    ensures Showing(env, s, s', 0)
  {
    FinishMessageFields(env, s, s');
  }

  lemma FinishMessageFields(env: Env, s: State, s': State)
    requires s' == FinishMessage(env, s)
    ensures s' == s.(events := s'.events)
  {
    if s.message.Some? {
      var m := s.message.value;
      assert SayText(s, m) == s.(events := SayText(s, m).events);
      assert SayRefusal(SayText(s, m), m) == SayText(s, m).(events := SayRefusal(SayText(s, m), m).events);
    }
  }

  lemma ShownAll(env: Env, s: State, done: State)
    requires done == FinishTools(env, FinishMessage(env, s), 0)
    ensures Showing(env, s, done, |s.owners|)
  {
    MessageEnded(env, s, FinishMessage(env, s));
    SlotsShown(env, s, FinishMessage(env, s), 0, done);
  }

  // ---- The response's id --------------------------------------------------------------------------------------

  /** The converter's naming of responses. */
  ghost predicate Names(env: Env) {
    forall chat, current :: env.responseId(chat, current) == ResponseId(chat, TrimPrefix(current, "resp_"))
  }

  /** The chat completion's id: the last one before the first choice that is not blank. */
  function ChatId(before: string, chunks: seq<Chunk>): string
    decreases |chunks|
  {
    if chunks == [] || chunks[0].error then before
    else
      var next := if Blank(chunks[0].id) then before else chunks[0].id;
      if chunks[0].choice.Some? then next else ChatId(next, chunks[1..])
  }

  lemma {:induction false} OpeningIsChat(env: Env, before: string, fallback: string, chunks: seq<Chunk>)
    requires Names(env)
    ensures OpeningId(env, ResponseId(before, fallback), chunks) == ResponseId(ChatId(before, chunks), fallback)
    decreases |chunks|
  {
    if chunks != [] && !chunks[0].error {
      Renaming(chunks[0].id, before, fallback);
      OpeningIsChat(env, if Blank(chunks[0].id) then before else chunks[0].id, fallback, chunks[1..]);
    }
  }

  lemma StreamNamed(env: Env, fallback: string, chunks: seq<Chunk>, s: State)
    requires Names(env) && s == ConsumeAll(env, First(ResponseId("", fallback)), chunks)
    ensures s.responseId == ResponseId(ChatId("", chunks), fallback)
  {
    FirstKnown(env, ResponseId("", fallback));
    StreamId(env, [], First(ResponseId("", fallback)), chunks, s);
    OpeningIsChat(env, "", fallback, chunks);
  }

  // ---- Theorems -----------------------------------------------------------------------------------------------

  lemma EndingReached(env: Env, first: string, chunks: seq<Chunk>, s: State, done: State, atoms: seq<Atom>)
    requires s == ConsumeAll(env, First(first), chunks) && done == FinishTools(env, FinishMessage(env, s), 0)
    requires atoms == AllSaid(chunks)
    ensures Ending(env, atoms, s, done) && MessageNamed(env, s)
  {
    AllKnown(env, first, chunks, s, atoms);
    ShownAll(env, s, done);
  }

  lemma SameIfInOrder(env: Env, atoms: seq<Atom>, s: State, done: State, m: ChatMessage)
    requires Ending(env, atoms, s, done) && MessageNamed(env, s) && m == Accumulated(atoms)
    ensures Batch(env, s.responseId, m) == Some(Output(env, done)) <==> InOrder(env, atoms)
  {
    var k, parts := ItemsListed(env, atoms, s, done, m);
    if InOrder(env, atoms) {
      InOrderSame(env, atoms, s.responseId, k, parts, Output(env, done), m);
    } else if Batch(env, s.responseId, m) == Some(Output(env, done)) {
      SameInOrder(env, atoms, Order(atoms), s.responseId, k, parts, Output(env, done), m);
    }
  }

  /**
   The stream's output is the batch converter's output for the accumulated completion, its
   id included, exactly when nothing came out of order: the message began before any call,
   its text before its refusal, every call has an id and a name, and the name known when a
   call's first arguments came meant the same tool as the whole name does.
   */
  lemma StreamIsBatch(env: Env, fallback: string, chunks: seq<Chunk>, s: State, done: State)
    requires Names(env) && s == ConsumeAll(env, First(ResponseId("", fallback)), chunks)
    requires done == FinishTools(env, FinishMessage(env, s), 0)
    ensures s.responseId == ResponseId(ChatId("", chunks), fallback)
    ensures (Batch(env, ResponseId(ChatId("", chunks), fallback), Accumulated(AllSaid(chunks))) ==
             Some(Output(env, done))) <==> InOrder(env, AllSaid(chunks))
  {
    StreamNamed(env, fallback, chunks, s);
    EndingReached(env, ResponseId("", fallback), chunks, s, done, AllSaid(chunks));
    SameIfInOrder(env, AllSaid(chunks), s, done, Accumulated(AllSaid(chunks)));
  }

  /**
   Every run of chunks, whatever ids its calls are given: a client that goes by output and
   content indexes alone understands each event of the stream as it comes; an error ends
   it; and if the stream can end, the last event carries the response that the client has
   put together.
   */
  lemma EveryStream(env: Env, first: string, chunks: seq<Chunk>) returns (c: Client)
    ensures var s := ConsumeAll(env, First(first), chunks);
            && ReadAll(s.events).Some? && (s.failed ==> ReadAll(s.events).value.phase == Ended)
            && (!s.failed && Finish(env, s).Some? ==>
                  var events, items := Finish(env, s).value.events,
                    Output(env, FinishTools(env, FinishMessage(env, s), 0));
                  && ReadAll(events) == Some(c) && c.phase == Ended && events != []
                  && events[|events| - 1].body == Terminal(Status(s.finishReason), items)
                  && Together(c.items, items) && c.done == c.items.Keys && |items| == |s.owners|)
  {
    var s := ConsumeAll(env, First(first), chunks);
    FirstLinked(env, first);
    c := StreamUnderstood(env, First(first), BLANK, chunks);
    if !s.failed && Finish(env, s).Some? {
      var items;
      c, items := FinishUnderstood(env, s, c);
    }
  }

  /**
   A client that checks ids reads an unfinished stream exactly if no passed-on arguments came
   under another id than their call was first shown with.
   */
  lemma ReadsWhileSteady(env: Env, first: string, chunks: seq<Chunk>)
    ensures ReadStrictly(ConsumeAll(env, First(first), chunks).events).Some? <==> Steady(env, AllSaid(chunks))
  {
    var s := ConsumeAll(env, First(first), chunks);
    var c := EveryStream(env, first, chunks);
    AllKnown(env, first, chunks, s, AllSaid(chunks));
    StrictIsBoth(s.events);
  }

  lemma ToolId(env: Env, atoms: seq<Atom>, i: int, tool: Tool)
    requires ToolIs(env, i, IdOf(atoms, i), NameOf(atoms, i), ArgumentsOf(atoms, i), NameInTime(atoms, i), tool)
    ensures tool.id == Id(env, atoms, i) && (!tool.added ==> IdInTime(env, atoms, i) == tool.id)
  {
  }

  lemma ToolIds(env: Env, atoms: seq<Atom>, s: State)
    requires ToolsAre(env, atoms, s)
    ensures FirstFits(s, FirstIds(env, atoms, s.tools))
    ensures forall i :: i in s.tools ==> s.tools[i].id == Id(env, atoms, i)
  {
    forall i | i in s.tools
      ensures s.tools[i].id == Id(env, atoms, i) && (!s.tools[i].added ==> IdInTime(env, atoms, i) == s.tools[i].id)
    {
      ToolId(env, atoms, i, s.tools[i]);
    }
  }

  predicate KeepsId(s: State, first: map<int, string>, i: int) {
    i in s.tools && i in first && first[i] == s.tools[i].id
  }

  /** All slots agree exactly if all calls do. */
  lemma AgreedExactly(s: State, first: map<int, string>)
    requires Placed(s)
    ensures Agreed(s, first, |s.owners|) <==> forall i :: i in s.tools ==> KeepsId(s, first, i)
  {
    if Agreed(s, first, |s.owners|) {
      forall i | i in s.tools
        ensures KeepsId(s, first, i)
      {
        var p := s.tools[i].output;
        assert s.owners[p] == Index(i);
      }
    }
  }

  lemma SteadyAgrees(env: Env, atoms: seq<Atom>, s: State, order: seq<int>)
    requires ToolsAre(env, atoms, s) && Placed(s) && order == Order(atoms)
    ensures Agreed(s, FirstIds(env, atoms, s.tools), |s.owners|) <==>
      forall k :: 0 <= k < |order| ==> Id(env, atoms, order[k]) == IdInTime(env, atoms, order[k])
  {
    var first := FirstIds(env, atoms, s.tools);
    ToolIds(env, atoms, s);
    AgreedExactly(s, first);
    if Agreed(s, first, |s.owners|) {
      forall k | 0 <= k < |order|
        ensures Id(env, atoms, order[k]) == IdInTime(env, atoms, order[k])
      {
        var i := order[k];
        assert KeepsId(s, first, i);
      }
    }
    if forall k :: 0 <= k < |order| ==> Id(env, atoms, order[k]) == IdInTime(env, atoms, order[k]) {
      forall i | i in s.tools
        ensures KeepsId(s, first, i)
      {
        var k :| 0 <= k < |order| && order[k] == i;
      }
    }
  }

  lemma TagsExact(env: Env, atoms: seq<Atom>, s: State, done: State, whole: State)
    requires Known(env, atoms, s) && Owned(s) && done == FinishTools(env, FinishMessage(env, s), 0)
    requires whole == Emit(done, Terminal(Status(s.finishReason), Output(env, done)))
    ensures TagAll(whole.events).Some? <==> SteadyToTheEnd(env, atoms)
    ensures TagAll(whole.events).Some? ==> SameIds(TagAll(whole.events).value, Output(env, done))
  {
    var first := FirstIds(env, atoms, s.tools);
    KnownTags(env, atoms, s, first);
    TagsOfEnd(env, s, first, done, whole);
  }

  /** What is known before the end, without the atoms. */
  lemma KnownTags(env: Env, atoms: seq<Atom>, s: State, first: map<int, string>)
    requires Known(env, atoms, s) && first == FirstIds(env, atoms, s.tools)
    ensures Placed(s) && MessageTagged(s, TagAll(s.events)) && FirstFits(s, first)
    ensures TagAll(s.events).Some? ==> ToolsTagged(s, TagAll(s.events).value, first)
    ensures TagAll(s.events).Some? && Agreed(s, first, |s.owners|) <==> SteadyToTheEnd(env, atoms)
  {
    SteadyAgrees(env, atoms, s, Order(atoms));
    ToolIds(env, atoms, s);
  }

  lemma TagsOfEnd(env: Env, s: State, first: map<int, string>, done: State, whole: State)
    requires Placed(s) && MessageTagged(s, TagAll(s.events)) && FirstFits(s, first) && Owned(s)
    requires TagAll(s.events).Some? ==> ToolsTagged(s, TagAll(s.events).value, first)
    requires done == FinishTools(env, FinishMessage(env, s), 0)
    requires whole == Emit(done, Terminal(Status(s.finishReason), Output(env, done)))
    ensures TagAll(whole.events).Some? <==> TagAll(s.events).Some? && Agreed(s, first, |s.owners|)
    ensures TagAll(whole.events).Some? ==> SameIds(TagAll(whole.events).value, Output(env, done))
  {
    DoneTags(env, s, first, done);
    EndTags(env, s, first, done, Status(s.finishReason), whole);
  }

  /**
   A client that checks ids accepts a stream that has ended exactly if each call was shown
   under one id throughout. The items it has put together are then those of the response,
   ids included.
   */
  lemma AcceptedIfSteady(env: Env, first: string, chunks: seq<Chunk>, s: State, done: State, whole: State)
    requires s == ConsumeAll(env, First(first), chunks) && !s.failed && Finish(env, s) == Some(whole)
    requires done == FinishTools(env, FinishMessage(env, s), 0)
    ensures ReadStrictly(whole.events).Some? <==> SteadyToTheEnd(env, AllSaid(chunks))
    ensures ReadStrictly(whole.events).Some? ==>
      ReadStrictly(whole.events).value.client.phase == Ended &&
        WholeTogether(ReadStrictly(whole.events).value, Output(env, done))
  {
    var c := EveryStream(env, first, chunks);
    AllKnown(env, first, chunks, s, AllSaid(chunks));
    AllOwned(env, first, chunks, s);
    TagsExact(env, AllSaid(chunks), s, done, whole);
    StrictIsBoth(whole.events);
  }

  lemma AllOwned(env: Env, first: string, chunks: seq<Chunk>, s: State)
    requires s == ConsumeAll(env, First(first), chunks)
    ensures Owned(s)
  {
    FirstLinked(env, first);
    var c := StreamUnderstood(env, First(first), BLANK, chunks);
  }

  // ---- Ids in practice ------------------------------------------------------------------------------------------

  /** Both give an id to the same call. */
  predicate NameSameCall(a: Atom, b: Atom) {
    a.Call? && b.Call? && a.call.index == b.call.index && a.call.id != "" && b.call.id != ""
  }

  /** Arguments come when their call has been given an id. */
  predicate IdBefore(atoms: seq<Atom>, k: nat)
    requires k < |atoms|
  {
    atoms[k].Call? && atoms[k].call.arguments != "" ==> IdOf(atoms[..k + 1], atoms[k].call.index) != ""
  }

  /** Each call has one id, given no later than its first arguments. */
  predicate GivenOnce(atoms: seq<Atom>) {
    && (forall j, k :: 0 <= j < k < |atoms| && NameSameCall(atoms[j], atoms[k]) ==>
       atoms[j].call.id == atoms[k].call.id)
    && (forall k :: 0 <= k < |atoms| ==> IdBefore(atoms, k))
  }

  /** An id was given by one of the atoms. */
  lemma {:induction false} IdWasGiven(atoms: seq<Atom>, i: int) returns (k: nat)
    requires IdOf(atoms, i) != ""
    ensures k < |atoms| && atoms[k].Call? && atoms[k].call.index == i && atoms[k].call.id == IdOf(atoms, i) != ""
    decreases |atoms|
  {
    k := |atoms| - 1;
    var last := atoms[k];
    if !(last.Call? && last.call.index == i && last.call.id != "") { k := IdWasGiven(atoms[..k], i); }
  }

  lemma GivenOncePrefix(atoms: seq<Atom>)
    requires GivenOnce(atoms) && atoms != []
    ensures GivenOnce(atoms[..|atoms| - 1])
  {
    var before := atoms[..|atoms| - 1];
    forall k | 0 <= k < |before|
      ensures IdBefore(before, k)
    {
      assert IdBefore(atoms, k) && before[..k + 1] == atoms[..k + 1];
    }
  }

  /** A call with arguments has the id that it was first shown with. */
  lemma {:induction false} GivenOnceStays(env: Env, atoms: seq<Atom>, i: int)
    requires GivenOnce(atoms) && ArgumentsOf(atoms, i) != ""
    ensures IdOf(atoms, i) != "" && IdInTime(env, atoms, i) == IdOf(atoms, i)
    decreases |atoms|
  {
    var before, k := atoms[..|atoms| - 1], |atoms| - 1;
    GivenOncePrefix(atoms);
    assert IdBefore(atoms, k) && atoms[..k + 1] == atoms;
    if ArgumentsOf(before, i) != "" {
      GivenOnceStays(env, before, i);
      var j := IdWasGiven(before, i);
      assert atoms[j] == before[j];
    }
  }

  /** Under one id for each call, given in time, clients that check ids accept every stream that ends. */
  lemma {:induction false} GivenOnceIsSteady(env: Env, atoms: seq<Atom>)
    requires GivenOnce(atoms)
    ensures SteadyToTheEnd(env, atoms)
    decreases |atoms|
  {
    if atoms != [] {
      GivenOncePrefix(atoms);
      GivenOnceIsSteady(env, atoms[..|atoms| - 1]);
      var last := atoms[|atoms| - 1];
      if last.Call? && last.call.arguments != "" { GivenOnceStays(env, atoms, last.call.index); }
      forall k | 0 <= k < |Order(atoms)|
        ensures Id(env, atoms, Order(atoms)[k]) == IdInTime(env, atoms, Order(atoms)[k])
      {
        if ArgumentsOf(atoms, Order(atoms)[k]) != "" { GivenOnceStays(env, atoms, Order(atoms)[k]); }
      }
    }
  }

  function OneCall(call: CallDelta, finish: string): Chunk {
    Chunk(false, "", Some(Choice("", "", [call], finish)))
  }

  const EARLY := Call(CallDelta(0, "", "f", "{"))
  const LATE := Call(CallDelta(0, "call_abc", "", "}"))

  lemma LateSaid(chunks: seq<Chunk>)
    requires chunks == [OneCall(EARLY.call, ""), OneCall(LATE.call, "tool_calls")]
    ensures AllSaid(chunks) == [EARLY, LATE]
  {
    assert Said(chunks[0]) == [EARLY] && Said(chunks[1]) == [LATE];
    assert chunks[1..] == [chunks[1]];
    assert AllSaid([chunks[1]]) == [LATE];
  }

  lemma EarlyHeard(env: Env)
    ensures Order([EARLY]) == [0] && IdOf([EARLY], 0) == "" && NameOf([EARLY], 0) == "f" &&
      ArgumentsOf([EARLY], 0) == "{"
    ensures NameInTime([EARLY], 0) == "f" && IdInTime(env, [EARLY], 0) == env.callId(0) && !RefusalFirst([EARLY]) &&
      !Speaks([EARLY])
  {
    Called([], EARLY.call);
    assert [] + [EARLY] == [EARLY];
    IdCalled(env, [], EARLY.call, [EARLY]);
  }

  lemma LateFacts(env: Env, atoms: seq<Atom>)
    requires atoms == [EARLY, LATE]
    ensures Order(atoms) == [0] && IdOf(atoms, 0) == "call_abc"
    ensures NameOf(atoms, 0) == "f" && NameInTime(atoms, 0) == "f"
    ensures IdInTime(env, atoms, 0) == env.callId(0) && !RefusalFirst(atoms) && !Speaks(atoms)
  {
    EarlyHeard(env);
    Called([EARLY], LATE.call);
    assert [EARLY] + [LATE] == atoms;
    IdCalled(env, [EARLY], LATE.call, atoms);
    assert "f" + "" == "f";
  }

  /** One call and no message: in order if the call is. */
  lemma OneCallInOrder(env: Env, atoms: seq<Atom>)
    requires Order(atoms) == [0] && !RefusalFirst(atoms) && !Speaks(atoms) && CallInOrder(env, atoms, 0)
    ensures InOrder(env, atoms)
  {
  }

  lemma OneCallChanged(env: Env, atoms: seq<Atom>)
    requires Order(atoms) == [0] && Id(env, atoms, 0) != IdInTime(env, atoms, 0)
    ensures !SteadyToTheEnd(env, atoms)
  {
    assert Order(atoms)[0] == 0;
  }

  lemma LateHeard(env: Env, atoms: seq<Atom>)
    requires env.callId(0) == "call_0" && atoms == [EARLY, LATE]
    ensures InOrder(env, atoms) && !SteadyToTheEnd(env, atoms)
  {
    LateFacts(env, atoms);
    OneCallInOrder(env, atoms);
    OneCallChanged(env, atoms);
  }

  /** A run of two chunks without errors ends if the second gives a reason. */
  lemma TwoChunks(env: Env, first: string, chunks: seq<Chunk>, s: State)
    requires |chunks| == 2 && (forall k :: 0 <= k < 2 ==> !chunks[k].error && chunks[k].choice.Some?)
    requires chunks[1].choice.value.finish != "" && s == ConsumeAll(env, First(first), chunks)
    ensures !s.failed && Finish(env, s).Some?
  {
    var s1 := Consume(env, First(first), chunks[0]);
    FirstKnown(env, first);
    ChunkKnown(env, [], First(first), chunks[0], s1, [] + Said(chunks[0]));
    ChunkKnown(env, [] + Said(chunks[0]), s1, chunks[1], Consume(env, s1, chunks[1]),
      ([] + Said(chunks[0])) + Said(chunks[1]));
    assert chunks[1..][0] == chunks[1] && chunks[1..][1..] == [];
    assert s == ConsumeAll(env, s1, chunks[1..]);
    assert s == Consume(env, s1, chunks[1]);
  }

  /**
   Arguments before the id: the call is shown as call_0 and finished as call_abc, although the
   output is the batch converter's.
   */
  lemma LateIdIsRefused(env: Env, first: string, chunks: seq<Chunk>, s: State)
    requires env.callId(0) == "call_0"
    requires chunks ==
      [OneCall(CallDelta(0, "", "f", "{"), ""), OneCall(CallDelta(0, "call_abc", "", "}"), "tool_calls")]
    requires s == ConsumeAll(env, First(first), chunks)
    ensures InOrder(env, AllSaid(chunks)) && Finish(env, s).Some? && ReadStrictly(Finish(env, s).value.events) == None
  {
    LateSaid(chunks);
    LateHeard(env, [EARLY, LATE]);
    TwoChunks(env, first, chunks, s);
    AcceptedIfSteady(env, first, chunks, s, FinishTools(env, FinishMessage(env, s), 0), Finish(env, s).value);
  }

  // ---- A stream out of order ------------------------------------------------------------------------------------

  const TOOL := CallDelta(0, "call_abc", "f", "{}")

  lemma ToolThenText(env: Env)
    ensures var atoms := [Call(TOOL), Text("hi")];
            && !InOrder(env, atoms)
            && Accumulated(atoms) == ChatMessage("hi", "", [ChatCall("call_abc", "f", "{}")])
  {
    var none: seq<Atom> := [];
    assert none + [Call(TOOL)] == [Call(TOOL)] && [Call(TOOL)] + [Text("hi")] == [Call(TOOL), Text("hi")];
    Called([], TOOL);
    Spoken([Call(TOOL)], Text("hi"));
    NotCalled([Call(TOOL)], Text("hi"), 0);
    assert "" + "hi" == "hi" && "" + "f" == "f" && "" + "{}" == "{}";
    assert Order([Call(TOOL), Text("hi")]) == [0];
  }

  /** A call before the message: the batch converter succeeds, with another order than the stream. */
  lemma CallBeforeTextDiffers(env: Env, fallback: string, chunks: seq<Chunk>, s: State, done: State)
    requires Names(env) && chunks == [OneCall(TOOL, ""), Chunk(false, "", Some(Choice("hi", "", [], "stop")))]
    requires s == ConsumeAll(env, First(ResponseId("", fallback)), chunks)
    requires done == FinishTools(env, FinishMessage(env, s), 0)
    ensures var batch := Batch(env, ResponseId(ChatId("", chunks), fallback), Accumulated(AllSaid(chunks)));
            batch.Some? && batch != Some(Output(env, done))
  {
    var atoms := AllSaid(chunks);
    ToolThenTextSaid(chunks);
    ToolThenText(env);
    ToolBatch(env, ResponseId(ChatId("", chunks), fallback), Accumulated(atoms));
    StreamIsBatch(env, fallback, chunks, s, done);
  }

  lemma ToolThenTextSaid(chunks: seq<Chunk>)
    requires chunks == [OneCall(TOOL, ""), Chunk(false, "", Some(Choice("hi", "", [], "stop")))]
    ensures AllSaid(chunks) == [Call(TOOL), Text("hi")]
  {
    assert Said(chunks[0]) == [Call(TOOL)] && Said(chunks[1]) == [Text("hi")];
    assert chunks[1..] == [chunks[1]];
    assert AllSaid([chunks[1]]) == [Text("hi")];
  }

  lemma ToolBatch(env: Env, id: string, m: ChatMessage)
    requires m == ChatMessage("hi", "", [ChatCall("call_abc", "f", "{}")])
    ensures Batch(env, id, m).Some?
  {
    assert Complete(m.calls[0]);
  }
}
