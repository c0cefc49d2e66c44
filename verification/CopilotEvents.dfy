/** The stream converter from chat chunks to Responses events, and the client that reads its events. */
module CopilotEvents {
  import opened Collections

  /** What a known tool is called on the client's side. */
  datatype Info = Info(name: string, namespace: string, custom: bool)

  datatype Part = Written(text: string) | Refused(text: string)

  /** An output item without its id and status. */
  datatype Shape =
    | Says(parts: seq<Part>)
    | Calls(name: string, namespace: string, arguments: string)
    | Asks(name: string, namespace: string, input: string)

  datatype Item = Item(id: string, shape: Shape)

  /** The events, without fields that never change. */
  datatype Body =
    | Created | InProgress
    | ItemAdded(output: nat, item: Item)
    | PartAdded(id: string, output: nat, content: nat, part: Part)
    | TextDelta(id: string, output: nat, content: nat, delta: string)
    | RefusalDelta(id: string, output: nat, content: nat, delta: string)
    | ArgumentsDelta(id: string, output: nat, delta: string)
    | InputDelta(id: string, output: nat, delta: string)
    | PartDone(id: string, output: nat, content: nat, part: Part)
    | TextDone(id: string, output: nat, content: nat, text: string)
    | RefusalDone(id: string, output: nat, content: nat, text: string)
    | ArgumentsDone(id: string, output: nat, arguments: string)
    | InputDone(id: string, output: nat, input: string)
    | ItemDone(output: nat, item: Item)
    | Terminal(status: string, items: seq<Item>)
    | Error

  datatype Event = Event(sequence: nat, body: Body)

  // ---- A strict client -------------------------------------------------------------------------------------

  datatype Phase = New | Opening | Open | Ended

  /** What a client has put together from the deltas; `done` are the finished slots. */
  datatype Client = Client(phase: Phase, count: nat, items: map<nat, Shape>, done: set<nat>)

  const BLANK := Client(New, 0, map[], {})

  function AddText(p: Part, delta: string): Part {
    match p
    case Written(t) => Written(t + delta)
    case Refused(t) => Refused(t + delta)
  }

  /** The item at a slot that is still being written. */
  function Writing(c: Client, o: nat): Option<Shape> {
    if c.phase == Open && o in c.items && o !in c.done then Some(c.items[o]) else None
  }

  /** The part of a message that is still being written. */
  function WritingPart(c: Client, o: nat, k: nat): Option<Part> {
    match Writing(c, o)
    case Some(Says(parts)) => if k < |parts| then Some(parts[k]) else None
    case _ => None
  }

  function SetPart(c: Client, o: nat, k: nat, p: Part): Client
    requires o in c.items && c.items[o].Says? && k < |c.items[o].parts|
  {
    c.(items := c.items[o := Says(c.items[o].parts[k := p])])
  }

  /** The slots are exactly those of the list, and hold its items. */
  predicate Together(slots: map<nat, Shape>, items: seq<Item>) {
    && (forall o :: o in slots ==> o < |items|)
    && (forall o :: 0 <= o < |items| ==> o in slots && slots[o] == items[o].shape)
  }

  /**
   One event, in order: slots are begun once, deltas go to open items only, done events repeat
   what the deltas add up to, and nothing follows the end.
   */
  function React(c: Client, b: Body): Option<Client> {
    match b
    case Created => if c.phase == New then Some(c.(phase := Opening)) else None
    case InProgress => if c.phase == Opening then Some(c.(phase := Open)) else None
    case ItemAdded(o, item) =>
      if c.phase == Open && o !in c.items then Some(c.(items := c.items[o := item.shape])) else None
    case PartAdded(_, o, k, p) =>
      if Writing(c, o).Some? && Writing(c, o).value.Says? && k == |Writing(c, o).value.parts|
      then Some(c.(items := c.items[o := Says(c.items[o].parts + [p])])) else None
    case TextDelta(_, o, k, d) =>
      if WritingPart(c, o, k).Some? && WritingPart(c, o, k).value.Written?
      then Some(SetPart(c, o, k, AddText(WritingPart(c, o, k).value, d))) else None
    case RefusalDelta(_, o, k, d) =>
      if WritingPart(c, o, k).Some? && WritingPart(c, o, k).value.Refused?
      then Some(SetPart(c, o, k, AddText(WritingPart(c, o, k).value, d))) else None
    case ArgumentsDelta(_, o, d) =>
      if Writing(c, o).Some? && Writing(c, o).value.Calls?
      then Some(c.(items := c.items[o := c.items[o].(arguments := c.items[o].arguments + d)])) else None
    case InputDelta(_, o, d) =>
      if Writing(c, o).Some? && Writing(c, o).value.Asks?
      then Some(c.(items := c.items[o := c.items[o].(input := c.items[o].input + d)])) else None
    case PartDone(_, o, k, p) => if WritingPart(c, o, k) == Some(p) then Some(c) else None
    case TextDone(_, o, k, t) => if WritingPart(c, o, k) == Some(Written(t)) then Some(c) else None
    case RefusalDone(_, o, k, t) => if WritingPart(c, o, k) == Some(Refused(t)) then Some(c) else None
    case ArgumentsDone(_, o, a) =>
      if Writing(c, o).Some? && Writing(c, o).value.Calls? && Writing(c, o).value.arguments == a then Some(c) else None
    case InputDone(_, o, i) =>
      if Writing(c, o).Some? && Writing(c, o).value.Asks? && Writing(c, o).value.input == i then Some(c) else None
    case ItemDone(o, item) => if Writing(c, o) == Some(item.shape) then Some(c.(done := c.done + {o})) else None
    case Terminal(_, items) =>
      if c.phase == Open && c.done == c.items.Keys && Together(c.items, items)
      then Some(c.(phase := Ended)) else None
    case Error => if c.phase == Ended then None else Some(c.(phase := Ended))
  }

  /** Sequence numbers count up from zero without gaps. */
  function Read(c: Client, e: Event): Option<Client> {
    if e.sequence != c.count then None
    else
      var next := React(c, e.body);
      if next.None? then None else Some(next.value.(count := c.count + 1))
  }

  function ReadAll(events: seq<Event>): Option<Client> {
    if events == [] then Some(BLANK)
    else
      var before := ReadAll(events[..|events| - 1]);
      if before.None? then None else Read(before.value, events[|events| - 1])
  }

  lemma ReadMore(events: seq<Event>, e: Event)
    ensures ReadAll(events + [e]) == if ReadAll(events).None? then None else Read(ReadAll(events).value, e)
  {
    assert (events + [e])[..|events|] == events;
  }

  // ---- The converter ------------------------------------------------------------------------------------------

  /** The message under way: its slot, its texts, and where in its content each goes once it has a part. */
  datatype Msg = Msg(id: string, output: nat, text: string, refusal: string, textIndex: Option<nat>,
    refusalIndex: Option<nat>, nextContent: nat)

  datatype Tool = Tool(id: string, name: string, responseName: string, namespace: string, arguments: string,
    output: nat,
                       added: bool, custom: bool)

  /** Who owns an output slot. */
  datatype Owner = Message | Index(index: int)

  /** The converter's fields; `owners` lists the owners of the slots given out so far. */
  datatype State = State(
    responseId: string, started: bool, failed: bool, finishReason: string, owners: seq<Owner>, message: Option<Msg>,
    tools: map<int, Tool>, events: seq<Event>)

  /**
   What the converter is given: the client's tools, the default id of a call, and how a custom
   tool's input is taken from its arguments.
   */
  datatype Env = Env(known: map<string, Info>, callId: int -> string, input: string -> string,
    responseId: (string, string) -> string,
                     messageId: string -> string)

  datatype CallDelta = CallDelta(index: int, id: string, name: string, arguments: string)

  datatype Chunk = Chunk(error: bool, id: string, choice: Option<Choice>)
  datatype Choice = Choice(content: string, refusal: string, calls: seq<CallDelta>, finish: string)

  function Emit(s: State, b: Body): State {
    s.(events := s.events + [Event(|s.events|, b)])
  }

  function Start(s: State): State {
    if s.started then s else Emit(Emit(s.(started := true), Created), InProgress)
  }

  function EnsureMessage(env: Env, s: State): State {
    if s.message.Some? then s
    else
      Emit(s.(message := Some(Msg(env.messageId(s.responseId), |s.owners|, "", "", None, None, 0)),
        owners := s.owners + [Message]),
           ItemAdded(|s.owners|, Item(env.messageId(s.responseId), Says([]))))
  }

  /** The part for the message's text is begun with the first text. */
  function OpenText(s: State): State
    requires s.message.Some?
  {
    var m := s.message.value;
    if m.textIndex.Some? then s
    else
      Emit(s.(message := Some(m.(textIndex := Some(m.nextContent), nextContent := m.nextContent + 1))),
           PartAdded(m.id, m.output, m.nextContent, Written("")))
  }

  function OpenRefusal(s: State): State
    requires s.message.Some?
  {
    var m := s.message.value;
    if m.refusalIndex.Some? then s
    else
      Emit(s.(message := Some(m.(refusalIndex := Some(m.nextContent), nextContent := m.nextContent + 1))),
           PartAdded(m.id, m.output, m.nextContent, Refused("")))
  }

  function WriteText(env: Env, s: State, delta: string): State {
    var begun := OpenText(EnsureMessage(env, s));
    var m := begun.message.value;
    Emit(begun.(message := Some(m.(text := m.text + delta))), TextDelta(m.id, m.output, m.textIndex.value, delta))
  }

  function WriteRefusal(env: Env, s: State, delta: string): State {
    var begun := OpenRefusal(EnsureMessage(env, s));
    var m := begun.message.value;
    Emit(begun.(message := Some(m.(refusal := m.refusal + delta))),
      RefusalDelta(m.id, m.output, m.refusalIndex.value, delta))
  }

  /** The shape of a call as the client first sees it. */
  function NewShape(t: Tool): Shape {
    if t.custom then Asks(t.responseName, t.namespace, "") else Calls(t.responseName, t.namespace, "")
  }

  /** What the client is told a tool is called: an unknown name is passed on. */
  function Named(env: Env, name: string): Info {
    if name in env.known then env.known[name] else Info(name, "", false)
  }

  /** A tool as it is once shown. */
  function ShowTool(env: Env, t: Tool): Tool {
    if t.added then t
    else
      var info := Named(env, t.name);
      t.(added := true, responseName := info.name, namespace := info.namespace, custom := info.custom)
  }

  /** addTool: the call's name is looked up when it is first shown. */
  function AddTool(env: Env, s: State, i: int): State
    requires i in s.tools
  {
    var t := s.tools[i];
    if t.added then s
    else
      var shown := ShowTool(env, t);
      Emit(s.(tools := s.tools[i := shown]), ItemAdded(t.output, Item(t.id, NewShape(shown))))
  }

  /** The slot, the id and the name of a tool delta. */
  function NameTool(env: Env, s: State, call: CallDelta): State {
    var i := call.index;
    var begun := if i in s.tools then s
                  else s.(tools := s.tools[i := Tool(env.callId(i), "", "", "", "", |s.owners|, false, false)],
                          owners := s.owners + [Index(i)]);
    var t := begun.tools[i];
    begun.(tools := begun.tools[i := t.(id := if call.id != "" then call.id else t.id, name := t.name + call.name)])
  }

  /** The end of writeToolDeltas: a custom tool's arguments stay hidden until the end. */
  function WriteArguments(s: State, i: int, arguments: string): State
    requires i in s.tools
  {
    var t := s.tools[i];
    var written := s.(tools := s.tools[i := t.(arguments := t.arguments + arguments)]);
    if t.custom then written else Emit(written, ArgumentsDelta(t.id, t.output, arguments))
  }

  function WriteCall(env: Env, s: State, call: CallDelta): State {
    var named := NameTool(env, s, call);
    if call.arguments == "" then named else WriteArguments(AddTool(env, named, call.index), call.index, call.arguments)
  }

  function WriteCalls(env: Env, s: State, calls: seq<CallDelta>): State
    decreases |calls|
  {
    if calls == [] then s else WriteCalls(env, WriteCall(env, s, calls[0]), calls[1..])
  }

  function MaybeWrite(env: Env, s: State, content: string): State {
    if content != "" then WriteText(env, s, content) else s
  }

  function MaybeRefuse(env: Env, s: State, refusal: string): State {
    if refusal != "" then WriteRefusal(env, s, refusal) else s
  }

  /** What the delta of a choice adds: text, then refusal, then calls. */
  function Choose(env: Env, s: State, choice: Choice): State {
    var s1 := Start(s);
    WriteCalls(env, MaybeRefuse(env, MaybeWrite(env, s1, choice.content), choice.refusal), choice.calls)
  }

  /** consume. */
  function Consume(env: Env, s: State, chunk: Chunk): State {
    if chunk.error then Emit(s.(failed := true), Error)
    else
      var named := if !s.started && chunk.id != "" then s.(responseId := env.responseId(chunk.id, s.responseId)) else s;
      if chunk.choice.None? then named
      else
        var chosen := Choose(env, named, chunk.choice.value);
        if chunk.choice.value.finish != "" then chosen.(finishReason := chunk.choice.value.finish) else chosen
  }

  // ---- The end ------------------------------------------------------------------------------------------------

  /** The content of the message, in the order its parts were begun. */
  function Parts(m: Msg): seq<Part> {
    match (m.textIndex, m.refusalIndex)
    case (None, None) => []
    case (Some(_), None) => [Written(m.text)]
    case (None, Some(_)) => [Refused(m.refusal)]
    case (Some(t), Some(r)) =>
      if t < r then [Written(m.text), Refused(m.refusal)] else [Refused(m.refusal), Written(m.text)]
  }

  function MessageItem(env: Env, s: State): Item
    requires s.message.Some?
  {
    Item(s.message.value.id, Says(Parts(s.message.value)))
  }

  function SayText(s: State, m: Msg): State {
    if m.textIndex.None? then s
    else
      Emit(Emit(s, TextDone(m.id, m.output, m.textIndex.value, m.text)),
        PartDone(m.id, m.output, m.textIndex.value, Written(m.text)))
  }

  function SayRefusal(s: State, m: Msg): State {
    if m.refusalIndex.None? then s
    else
      Emit(Emit(s, RefusalDone(m.id, m.output, m.refusalIndex.value, m.refusal)),
           PartDone(m.id, m.output, m.refusalIndex.value, Refused(m.refusal)))
  }

  /** finishMessage. */
  function FinishMessage(env: Env, s: State): State {
    if s.message.None? then s
    else
      var m := s.message.value;
      Emit(SayRefusal(SayText(s, m), m), ItemDone(m.output, MessageItem(env, s)))
  }

  function ToolItem(env: Env, t: Tool): Item {
    Item(t.id, if t.custom then Asks(t.responseName, t.namespace, env.input(t.arguments))
      else Calls(t.responseName, t.namespace, t.arguments))
  }

  /** The events that finish a tool, once it has been shown. */
  function SayTool(env: Env, added: State, t: Tool): State {
    var said := if t.custom
                then Emit(Emit(added, InputDelta(t.id, t.output, env.input(t.arguments))),
                  InputDone(t.id, t.output, env.input(t.arguments)))
                else Emit(added, ArgumentsDone(t.id, t.output, t.arguments));
    Emit(said, ItemDone(t.output, ToolItem(env, t)))
  }

  /** One turn of finish's loop, for the tool that owns the slot. */
  function FinishTool(env: Env, s: State, i: int): State
    requires i in s.tools
  {
    var added := AddTool(env, s, i);
    SayTool(env, added, added.tools[i])
  }

  /** One turn of finish's loop: the message is finished already, a tool is finished now. */
  function FinishSlot(env: Env, s: State, o: nat): State
    requires o < |s.owners|
  {
    if s.owners[o].Index? && s.owners[o].index in s.tools then FinishTool(env, s, s.owners[o].index) else s
  }

  /** finish's loop over the slots from o on. */
  function FinishTools(env: Env, s: State, o: nat): State
    decreases |s.owners| - o
  {
    if o >= |s.owners| then s else FinishTools(env, FinishSlot(env, s, o), o + 1)
  }

  /** The item in a slot of the response. */
  function OutputItem(env: Env, s: State, o: nat): Item
    requires o < |s.owners|
  {
    match s.owners[o]
    case Message => if s.message.Some? then MessageItem(env, s) else Item("", Says([]))
    case Index(i) => if i in s.tools then ToolItem(env, s.tools[i]) else Item("", Says([]))
  }

  function Output(env: Env, s: State): seq<Item> {
    seq(|s.owners|, o requires 0 <= o < |s.owners| => OutputItem(env, s, o))
  }

  /** responseStatus. */
  function Status(finish: string): string {
    if finish == "length" || finish == "content_filter" then "incomplete" else "completed"
  }

  /** finish; None when the stream had no start or no finish reason. */
  function Finish(env: Env, s: State): Option<State> {
    if !s.started || s.finishReason == "" then None
    else
      var done := FinishTools(env, FinishMessage(env, s), 0);
      Some(Emit(done, Terminal(Status(s.finishReason), Output(env, done))))
  }

  /** Before the first chunk, with an id of the converter's own. */
  function First(fallback: string): State {
    State(fallback, false, false, "", [], None, map[], [])
  }

  /** All chunks up to the first error. */
  function ConsumeAll(env: Env, s: State, chunks: seq<Chunk>): State
    decreases |chunks|
  {
    if chunks == [] || s.failed then s else ConsumeAll(env, Consume(env, s, chunks[0]), chunks[1..])
  }
}
