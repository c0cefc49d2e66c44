/** The ids that the events carry: what a client that checks them accepts. */
module CopilotIds {
  import opened Collections
  import opened CopilotEvents
  import opened CopilotHeard
  import opened CopilotSame

  // ---- A client that checks ids ----------------------------------------------------------------------------

  /** The id under which each slot was begun. */
  type Ids = map<nat, string>

  function Same(ids: Ids, o: nat, id: string): Option<Ids> {
    if o in ids && ids[o] == id then Some(ids) else None
  }

  predicate SameIds(ids: Ids, items: seq<Item>) {
    forall o :: 0 <= o < |items| ==> o in ids && ids[o] == items[o].id
  }

  /** Every event about a slot names the item that the slot was begun with. */
  function Tag(ids: Ids, b: Body): Option<Ids> {
    match b
    case ItemAdded(o, item) => Some(ids[o := item.id])
    case PartAdded(id, o, _, _) => Same(ids, o, id)
    case TextDelta(id, o, _, _) => Same(ids, o, id)
    case RefusalDelta(id, o, _, _) => Same(ids, o, id)
    case ArgumentsDelta(id, o, _) => Same(ids, o, id)
    case InputDelta(id, o, _) => Same(ids, o, id)
    case PartDone(id, o, _, _) => Same(ids, o, id)
    case TextDone(id, o, _, _) => Same(ids, o, id)
    case RefusalDone(id, o, _, _) => Same(ids, o, id)
    case ArgumentsDone(id, o, _) => Same(ids, o, id)
    case InputDone(id, o, _) => Same(ids, o, id)
    case ItemDone(o, item) => Same(ids, o, item.id)
    case Terminal(_, items) => if SameIds(ids, items) then Some(ids) else None
    case _ => Some(ids)
  }

  function TagAll(events: seq<Event>): Option<Ids> {
    if events == [] then Some(map[])
    else
      var before := TagAll(events[..|events| - 1]);
      if before.None? then None else Tag(before.value, events[|events| - 1].body)
  }

  /** A client that reads the events and checks their ids: its items are whole. */
  datatype Strict = Strict(client: Client, ids: Ids)

  function ReadStrictly(events: seq<Event>): Option<Strict> {
    if events == [] then Some(Strict(BLANK, map[]))
    else
      var before, last := ReadStrictly(events[..|events| - 1]), events[|events| - 1];
      if before.None? || Read(before.value.client, last).None? || Tag(before.value.ids, last.body).None? then None
      else Some(Strict(Read(before.value.client, last).value, Tag(before.value.ids, last.body).value))
  }

  /** It accepts what the client that ignores ids accepts, if the ids are right. */
  lemma {:induction false} StrictIsBoth(events: seq<Event>)
    ensures ReadStrictly(events) ==
            if ReadAll(events).Some? && TagAll(events).Some?
            then Some(Strict(ReadAll(events).value, TagAll(events).value)) else None
    decreases |events|
  {
    if events != [] { StrictIsBoth(events[..|events| - 1]); }
  }

  /** The slots are exactly those of the list, and hold its items, ids included. */
  predicate WholeTogether(strict: Strict, items: seq<Item>) {
    Together(strict.client.items, items) && SameIds(strict.ids, items)
  }

  // ---- The ids of calls -------------------------------------------------------------------------------------

  /** The present id of a call: the last one given, or one of the converter's own. */
  function Id(env: Env, atoms: seq<Atom>, i: int): string {
    if IdOf(atoms, i) == "" then env.callId(i) else IdOf(atoms, i)
  }

  /** The id that the client is first shown: the one at the first arguments; the present one when none came. */
  function IdInTime(env: Env, atoms: seq<Atom>, i: int): string {
    if ArgumentsOf(atoms, i) == "" then Id(env, atoms, i)
    else
      var before := atoms[..|atoms| - 1];
      if ArgumentsOf(before, i) == "" then Id(env, atoms, i) else IdInTime(env, before, i)
  }

  /**
   At each arguments delta that is passed on, the call's id is the one first shown; a custom
   tool's arguments are not passed on.
   */
  predicate Steady(env: Env, atoms: seq<Atom>) {
    if atoms == [] then true
    else
      var before, last := atoms[..|atoms| - 1], atoms[|atoms| - 1];
      Steady(env, before) &&
      (last.Call? && last.call.arguments != "" && !Named(env, NameInTime(atoms, last.call.index)).custom ==>
         Id(env, atoms, last.call.index) == IdInTime(env, atoms, last.call.index))
  }

  /** And every call ends with the id that it was first shown with. */
  predicate SteadyToTheEnd(env: Env, atoms: seq<Atom>) {
    Steady(env, atoms) && forall k :: 0 <= k < |Order(atoms)| ==>
      Id(env, atoms, Order(atoms)[k]) == IdInTime(env, atoms, Order(atoms)[k])
  }

  // ---- Tags of one delta -------------------------------------------------------------------------------------

  lemma Tagged(s: State, b: Body)
    ensures TagAll(Emit(s, b).events) == if TagAll(s.events).None? then None else Tag(TagAll(s.events).value, b)
  {
    assert (s.events + [Event(|s.events|, b)])[..|s.events|] == s.events;
  }

  /** The message's slot has the message's id. */
  predicate MessageTagged(s: State, t: Option<Ids>) {
    t.Some? && s.message.Some? ==>
      s.message.value.output in t.value && t.value[s.message.value.output] == s.message.value.id
  }

  /** The tags once there is a message. */
  function WithMessage(env: Env, s: State, t: Option<Ids>): Option<Ids> {
    if t.None? || s.message.Some? then t else Some(t.value[|s.owners| := env.messageId(s.responseId)])
  }

  lemma EnsureTags(env: Env, s: State, t: Option<Ids>, s': State)
    requires t == TagAll(s.events) && MessageTagged(s, t) && s' == EnsureMessage(env, s)
    ensures TagAll(s'.events) == WithMessage(env, s, t) && MessageTagged(s', WithMessage(env, s, t))
  {
    if s.message.None? {
      var s1 := s.(message := s'.message, owners := s'.owners);
      Tagged(s1, ItemAdded(|s.owners|, Item(env.messageId(s.responseId), Says([]))));
    }
  }

  lemma OpenTextTags(s: State, t: Option<Ids>, s': State)
    requires s.message.Some? && t == TagAll(s.events) && MessageTagged(s, t) && s' == OpenText(s)
    ensures TagAll(s'.events) == t && MessageTagged(s', t)
  {
    var m := s.message.value;
    if m.textIndex.None? { Tagged(s.(message := s'.message), PartAdded(m.id, m.output, m.nextContent, Written(""))); }
  }

  lemma OpenRefusalTags(s: State, t: Option<Ids>, s': State)
    requires s.message.Some? && t == TagAll(s.events) && MessageTagged(s, t) && s' == OpenRefusal(s)
    ensures TagAll(s'.events) == t && MessageTagged(s', t)
  {
    var m := s.message.value;
    if m.refusalIndex.None? {
      Tagged(s.(message := s'.message), PartAdded(m.id, m.output, m.nextContent, Refused("")));
    }
  }

  /** The part that text goes to has been begun. */
  predicate Begun(s: State) {
    s.message.Some? && s.message.value.textIndex.Some?
  }

  predicate RefusalBegun(s: State) {
    s.message.Some? && s.message.value.refusalIndex.Some?
  }

  lemma TextBegun(env: Env, s: State, t: Option<Ids>, begun: State)
    requires t == TagAll(s.events) && MessageTagged(s, t) && begun == OpenText(EnsureMessage(env, s))
    ensures TagAll(begun.events) == WithMessage(env, s, t) && MessageTagged(begun, WithMessage(env, s, t)) &&
      Begun(begun)
  {
    EnsureTags(env, s, t, EnsureMessage(env, s));
    OpenTextTags(EnsureMessage(env, s), WithMessage(env, s, t), begun);
  }

  lemma RefusalIsBegun(env: Env, s: State, t: Option<Ids>, begun: State)
    requires t == TagAll(s.events) && MessageTagged(s, t) && begun == OpenRefusal(EnsureMessage(env, s))
    ensures TagAll(begun.events) == WithMessage(env, s, t) && MessageTagged(begun, WithMessage(env, s, t)) &&
      RefusalBegun(begun)
  {
    EnsureTags(env, s, t, EnsureMessage(env, s));
    OpenRefusalTags(EnsureMessage(env, s), WithMessage(env, s, t), begun);
  }

  lemma TextDeltaTags(begun: State, m': Msg, delta: string, t: Option<Ids>, s': State)
    requires t == TagAll(begun.events) && MessageTagged(begun, t) && Begun(begun)
    requires m' == begun.message.value.(text := begun.message.value.text + delta)
    requires s' == Emit(begun.(message := Some(m')), TextDelta(m'.id, m'.output, m'.textIndex.value, delta))
    ensures TagAll(s'.events) == t && MessageTagged(s', t)
  {
    Tagged(begun.(message := Some(m')), TextDelta(m'.id, m'.output, m'.textIndex.value, delta));
  }

  lemma RefusalDeltaTags(begun: State, m': Msg, delta: string, t: Option<Ids>, s': State)
    requires t == TagAll(begun.events) && MessageTagged(begun, t) && RefusalBegun(begun)
    requires m' == begun.message.value.(refusal := begun.message.value.refusal + delta)
    requires s' == Emit(begun.(message := Some(m')), RefusalDelta(m'.id, m'.output, m'.refusalIndex.value, delta))
    ensures TagAll(s'.events) == t && MessageTagged(s', t)
  {
    Tagged(begun.(message := Some(m')), RefusalDelta(m'.id, m'.output, m'.refusalIndex.value, delta));
  }

  lemma TextTags(env: Env, s: State, delta: string, t: Option<Ids>, t': Option<Ids>, s': State)
    requires t == TagAll(s.events) && MessageTagged(s, t) && s' == WriteText(env, s, delta) &&
      t' == WithMessage(env, s, t)
    ensures TagAll(s'.events) == t' && MessageTagged(s', t')
  {
    var begun := OpenText(EnsureMessage(env, s));
    TextBegun(env, s, t, begun);
    TextDeltaTags(begun, begun.message.value.(text := begun.message.value.text + delta), delta, t', s');
  }

  lemma RefusalTags(env: Env, s: State, delta: string, t: Option<Ids>, t': Option<Ids>, s': State)
    requires t == TagAll(s.events) && MessageTagged(s, t) && s' == WriteRefusal(env, s, delta) &&
      t' == WithMessage(env, s, t)
    ensures TagAll(s'.events) == t' && MessageTagged(s', t')
  {
    var begun := OpenRefusal(EnsureMessage(env, s));
    RefusalIsBegun(env, s, t, begun);
    RefusalDeltaTags(begun, begun.message.value.(refusal := begun.message.value.refusal + delta), delta, t', s');
  }

  /** Showing a tool begins its slot under its present id. */
  lemma AddTags(env: Env, s: State, i: int, t: Option<Ids>, s': State)
    requires i in s.tools && t == TagAll(s.events) && s' == AddTool(env, s, i)
    ensures TagAll(s'.events) == if t.None? || s.tools[i].added then t
      else Some(t.value[s.tools[i].output := s.tools[i].id])
  {
    if !s.tools[i].added {
      var shown := ShowTool(env, s.tools[i]);
      Tagged(s.(tools := s'.tools), ItemAdded(shown.output, Item(shown.id, NewShape(shown))));
    }
  }

  lemma ArgumentsTags(s: State, i: int, more: string, t: Option<Ids>, s': State)
    requires i in s.tools && t == TagAll(s.events) && s' == WriteArguments(s, i, more)
    ensures TagAll(s'.events) == if t.None? || s.tools[i].custom then t
      else Same(t.value, s.tools[i].output, s.tools[i].id)
  {
    if !s.tools[i].custom { Tagged(s.(tools := s'.tools), ArgumentsDelta(s.tools[i].id, s.tools[i].output, more)); }
  }

  /** The tags after a call delta: a tool's slot is begun with its first arguments. */
  function CallTag(s: State, call: CallDelta, t: Option<Ids>, after: Tool): Option<Ids> {
    if t.None? || call.arguments == "" then t
    else
      var ids := if call.index in s.tools && s.tools[call.index].added then t.value
                 else t.value[after.output := after.id];
      if after.custom then Some(ids) else Same(ids, after.output, after.id)
  }

  lemma NameTags(env: Env, s: State, call: CallDelta, named: State)
    requires named == NameTool(env, s, call)
    ensures named.events == s.events && call.index in named.tools
    ensures named.tools[call.index].added == (call.index in s.tools && s.tools[call.index].added)
  {
  }

  lemma AddedTool(env: Env, s: State, i: int, added: State)
    requires i in s.tools && added == AddTool(env, s, i)
    ensures added.tools == s.tools[i := ShowTool(env, s.tools[i])]
  {
  }

  lemma WriteTags(env: Env, named: State, i: int, more: string, t: Option<Ids>, t1: Option<Ids>, s': State)
    requires i in named.tools && t == TagAll(named.events) && s' == WriteArguments(AddTool(env, named, i), i, more)
    requires t1 == if t.None? || named.tools[i].added then t
      else Some(t.value[named.tools[i].output := named.tools[i].id])
    ensures i in s'.tools && s'.tools[i].output == named.tools[i].output && s'.tools[i].id == named.tools[i].id
    ensures TagAll(s'.events) == if t1.None? || s'.tools[i].custom then t1
      else Same(t1.value, s'.tools[i].output, s'.tools[i].id)
  {
    var added := AddTool(env, named, i);
    AddTags(env, named, i, t, added);
    AddedTool(env, named, i, added);
    ArgumentsTags(added, i, more, t1, s');
  }

  lemma CallTags(env: Env, s: State, call: CallDelta, t: Option<Ids>, s': State)
    requires t == TagAll(s.events) && s' == WriteCall(env, s, call)
    ensures call.index in s'.tools && TagAll(s'.events) == CallTag(s, call, t, s'.tools[call.index])
  {
    var i := call.index;
    var named := NameTool(env, s, call);
    NameTags(env, s, call, named);
    if call.arguments != "" {
      WriteTags(env, named, i, call.arguments, t,
                if t.None? || named.tools[i].added then t
                else Some(t.value[named.tools[i].output := named.tools[i].id]), s');
    }
  }

  // ---- The tags of a run of atoms ----------------------------------------------------------------------------

  /** Every slot in use was given out to its user. */
  predicate Placed(s: State) {
    && (s.message.Some? ==> s.message.value.output < |s.owners| && s.owners[s.message.value.output] == Message)
    && (forall i :: i in s.tools ==> s.tools[i].output < |s.owners| && s.owners[s.tools[i].output] == Index(i))
  }

  /** Tools that have been shown are tagged with these ids. */
  predicate ToolsTagged(s: State, ids: Ids, first: map<int, string>) {
    && (forall o :: o in ids ==> o < |s.owners|)
    && (forall i :: i in s.tools && s.tools[i].added ==>
       i in first && s.tools[i].output in ids && ids[s.tools[i].output] == first[i])
  }

  lemma WriteTextPlaced(env: Env, s: State, delta: string, s': State)
    requires Placed(s) && s' == WriteText(env, s, delta)
    ensures Placed(s') && s'.tools == s.tools && s'.owners == if s.message.Some? then s.owners else s.owners + [Message]
  {
  }

  lemma WriteRefusalPlaced(env: Env, s: State, delta: string, s': State)
    requires Placed(s) && s' == WriteRefusal(env, s, delta)
    ensures Placed(s') && s'.tools == s.tools && s'.owners == if s.message.Some? then s.owners else s.owners + [Message]
  {
  }

  /** A new message's slot is no tool's. */
  lemma ToolsStayTagged(env: Env, s: State, t: Option<Ids>, first: map<int, string>, s': State)
    requires Placed(s) && t.Some? && ToolsTagged(s, t.value, first) && s'.tools == s.tools
    requires s'.owners == if s.message.Some? then s.owners else s.owners + [Message]
    ensures ToolsTagged(s', WithMessage(env, s, t).value, first)
  {
  }

  /** The slot and the look of the tool of a call delta. */
  lemma CallSlotKept(env: Env, s: State, call: CallDelta, s': State)
    requires s' == WriteCall(env, s, call)
    ensures call.index in s'.tools && s'.tools[call.index].output == if call.index in s.tools
      then s.tools[call.index].output else |s.owners|
    ensures s'.tools[call.index].added == ((call.index in s.tools && s.tools[call.index].added) || call.arguments != "")
  {
    var named := NameTool(env, s, call);
    NameTags(env, s, call, named);
    if call.arguments != "" { AddedTool(env, named, call.index, AddTool(env, named, call.index)); }
  }

  lemma WriteCallPlaced(s: State, i: int, s': State)
    requires Placed(s) && SlotFor(s, i, s') && i in s'.tools
    requires s'.tools[i].output == if i in s.tools then s.tools[i].output else |s.owners|
    ensures Placed(s')
  {
  }

  /** The ids first shown change for the call's own tool only, when it is shown. */
  predicate FirstAfter(s: State, i: int, s': State, first: map<int, string>, first': map<int, string>) {
    && i in s'.tools && (forall j :: j in s.tools && j != i ==> j in first && j in first' && first'[j] == first[j])
    && i in first' &&
       (if i in s.tools && s.tools[i].added then i in first && first'[i] == first[i] else first'[i] == s'.tools[i].id)
  }

  lemma CallTagged(s: State, call: CallDelta, t: Option<Ids>, first: map<int, string>, s': State, first': map<int,
                   string>)
    requires Placed(s) && SlotFor(s, call.index, s') && t.Some? && ToolsTagged(s, t.value, first) && MessageTagged(s, t)
    requires FirstAfter(s, call.index, s', first, first')
    requires s'.tools[call.index].output == if call.index in s.tools then s.tools[call.index].output else |s.owners|
    requires s'.tools[call.index].added ==
      ((call.index in s.tools && s.tools[call.index].added) || call.arguments != "")
    ensures var t', tool := CallTag(s, call, t, s'.tools[call.index]), s'.tools[call.index];
            && (t'.Some? <==> (call.arguments != "" && !tool.custom ==> tool.id == first'[call.index]))
            && (t'.Some? ==> ToolsTagged(s', t'.value, first') && MessageTagged(s', t'))
  {
  }

  // ---- The same in terms of atoms ------------------------------------------------------------------------------

  function FirstIds(env: Env, atoms: seq<Atom>, tools: map<int, Tool>): map<int, string> {
    map i | i in tools :: IdInTime(env, atoms, i)
  }

  /** The ids are right so far exactly if the atoms are steady, and slots were begun under the ids first known. */
  ghost predicate IdsAre(env: Env, atoms: seq<Atom>, s: State) {
    var t := TagAll(s.events);
    && Placed(s) && MessageTagged(s, t) && (t.Some? <==> Steady(env, atoms))
    && (t.Some? ==> ToolsTagged(s, t.value, FirstIds(env, atoms, s.tools)))
  }

  lemma IdNotCalled(env: Env, atoms: seq<Atom>, a: Atom, i: int)
    requires a.Call? ==> a.call.index != i
    ensures Id(env, atoms + [a], i) == Id(env, atoms, i) && IdInTime(env, atoms + [a], i) == IdInTime(env, atoms, i)
  {
    OneMore(atoms, a);
    NotCalled(atoms, a, i);
  }

  lemma IdCalled(env: Env, atoms: seq<Atom>, call: CallDelta, after: seq<Atom>)
    requires after == atoms + [Call(call)]
    ensures IdInTime(env, after, call.index) ==
            if ArgumentsOf(atoms, call.index) != "" then IdInTime(env, atoms, call.index)
            else Id(env, after, call.index)
    ensures Steady(env, after) <==>
      Steady(env, atoms) && (call.arguments != "" && !Named(env, NameInTime(after, call.index)).custom ==>
                               Id(env, after, call.index) == IdInTime(env, after, call.index))
  {
    OneMore(atoms, Call(call));
    Called(atoms, call);
  }

  lemma SpokenSteady(env: Env, atoms: seq<Atom>, a: Atom)
    requires !a.Call?
    ensures Steady(env, atoms + [a]) == Steady(env, atoms)
  {
    OneMore(atoms, a);
  }

  lemma SpokenFirst(env: Env, atoms: seq<Atom>, a: Atom, tools: map<int, Tool>)
    requires !a.Call?
    ensures FirstIds(env, atoms + [a], tools) == FirstIds(env, atoms, tools)
  {
    forall i | i in tools
      ensures IdInTime(env, atoms + [a], i) == IdInTime(env, atoms, i)
    {
      IdNotCalled(env, atoms, a, i);
    }
  }

  lemma TextIds(env: Env, atoms: seq<Atom>, s: State, delta: string, s': State, after: seq<Atom>)
    requires IdsAre(env, atoms, s) && s' == WriteText(env, s, delta) && after == atoms + [Text(delta)]
    ensures IdsAre(env, after, s')
  {
    SpokenSteady(env, atoms, Text(delta));
    SpokenFirst(env, atoms, Text(delta), s.tools);
    WriteTextPlaced(env, s, delta, s');
    var t := TagAll(s.events);
    TextTags(env, s, delta, t, WithMessage(env, s, t), s');
    if t.Some? { ToolsStayTagged(env, s, t, FirstIds(env, atoms, s.tools), s'); }
  }

  lemma RefusalIds(env: Env, atoms: seq<Atom>, s: State, delta: string, s': State, after: seq<Atom>)
    requires IdsAre(env, atoms, s) && s' == WriteRefusal(env, s, delta) && after == atoms + [Refusal(delta)]
    ensures IdsAre(env, after, s')
  {
    SpokenSteady(env, atoms, Refusal(delta));
    SpokenFirst(env, atoms, Refusal(delta), s.tools);
    WriteRefusalPlaced(env, s, delta, s');
    var t := TagAll(s.events);
    RefusalTags(env, s, delta, t, WithMessage(env, s, t), s');
    if t.Some? { ToolsStayTagged(env, s, t, FirstIds(env, atoms, s.tools), s'); }
  }

  /** What the call's tool says of the ids. */
  lemma CallFirstIds(env: Env, atoms: seq<Atom>, s: State, call: CallDelta, s': State, after: seq<Atom>)
    requires ToolsAre(env, atoms, s) && s' == WriteCall(env, s, call) && after == atoms + [Call(call)] &&
      SlotFor(s, call.index, s')
    ensures FirstAfter(s, call.index, s', FirstIds(env, atoms, s.tools), FirstIds(env, after, s'.tools))
    ensures call.index in s'.tools && s'.tools[call.index].id == Id(env, after, call.index)
    ensures call.arguments != "" ==> s'.tools[call.index].custom == Named(env, NameInTime(after, call.index)).custom
  {
    var i := call.index;
    CallTools(env, atoms, s, call, s');
    IdCalled(env, atoms, call, after);
    CallSlotKept(env, s, call, s');
    forall j | j in s.tools && j != i
      ensures IdInTime(env, after, j) == IdInTime(env, atoms, j)
    {
      IdNotCalled(env, atoms, Call(call), j);
    }
    if i !in s.tools { NeverCalled(atoms, i); }
  }

  lemma CallIds(env: Env, atoms: seq<Atom>, s: State, call: CallDelta, s': State, after: seq<Atom>)
    requires ToolsAre(env, atoms, s) && IdsAre(env, atoms, s) && s' == WriteCall(env, s, call) &&
      after == atoms + [Call(call)]
    ensures IdsAre(env, after, s')
  {
    var t := TagAll(s.events);
    CallSlot(env, s, call, s');
    CallSlotKept(env, s, call, s');
    WriteCallPlaced(s, call.index, s');
    CallTags(env, s, call, t, s');
    IdCalled(env, atoms, call, after);
    CallFirstIds(env, atoms, s, call, s', after);
    if t.Some? { CallTagged(s, call, t, FirstIds(env, atoms, s.tools), s', FirstIds(env, after, s'.tools)); }
  }
}
