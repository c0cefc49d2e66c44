/** The end of a stream: every tool is shown, and the ids of the last events. */
module CopilotEnd {
  import opened Collections
  import opened CopilotEvents
  import opened CopilotHeard
  import opened CopilotSame
  import opened CopilotIds

  /** The tools of the slots before o have been shown. */
  predicate Showing(env: Env, s0: State, s: State, o: nat) {
    && s.owners == s0.owners && s.message == s0.message && s.responseId == s0.responseId &&
       s.tools.Keys == s0.tools.Keys
    && (forall i :: i in s0.tools ==> s.tools[i] == s0.tools[i] || s.tools[i] == ShowTool(env, s0.tools[i]))
    && (forall p :: 0 <= p < o && p < |s0.owners| && s0.owners[p].Index? && s0.owners[p].index in s0.tools ==>
          s.tools[s0.owners[p].index] == ShowTool(env, s0.tools[s0.owners[p].index]))
  }

  lemma ToolFinished(env: Env, s: State, i: int, s': State)
    requires i in s.tools && s' == FinishTool(env, s, i)
    ensures s'.owners == s.owners && s'.message == s.message && s'.responseId == s.responseId
    ensures s'.tools == s.tools[i := ShowTool(env, s.tools[i])]
  {
  }

  lemma SlotShown(env: Env, s0: State, s: State, o: nat, s': State)
    requires Showing(env, s0, s, o) && o < |s.owners| && s' == FinishSlot(env, s, o)
    ensures Showing(env, s0, s', o + 1)
  {
    if s.owners[o].Index? && s.owners[o].index in s.tools { ToolFinished(env, s, s.owners[o].index, s'); }
  }

  lemma {:induction false} SlotsShown(env: Env, s0: State, s: State, o: nat, s': State)
    requires Showing(env, s0, s, o) && o <= |s.owners| && s' == FinishTools(env, s, o)
    ensures Showing(env, s0, s', |s0.owners|)
    decreases |s.owners| - o
  {
    if o < |s.owners| {
      var next := FinishSlot(env, s, o);
      SlotShown(env, s0, s, o, next);
      SlotsShown(env, s0, next, o + 1, s');
    }
  }

  // ---- Ids at the end -----------------------------------------------------------------------------------------

  /** Two more events about a slot. */
  lemma TaggedTwice(s: State, a: Body, b: Body, ids: Ids, o: nat, id: string)
    requires TagAll(s.events) == Some(ids) && Tag(ids, a) == Same(ids, o, id) && Tag(ids, b) == Same(ids, o, id)
    ensures TagAll(Emit(Emit(s, a), b).events) == Same(ids, o, id)
  {
    Tagged(s, a);
    Tagged(Emit(s, a), b);
  }

  lemma Untagged(s: State, a: Body, b: Body)
    requires TagAll(s.events) == None
    ensures TagAll(Emit(Emit(s, a), b).events) == None
  {
    Tagged(s, a);
    Tagged(Emit(s, a), b);
  }

  lemma PartsTags(s: State, t: Option<Ids>, m: Msg, a: Body, b: Body, s': State)
    requires t == TagAll(s.events) && s.message == Some(m) && MessageTagged(s, t) && s' == Emit(Emit(s, a), b)
    requires t.Some? ==> Tag(t.value, a) == Same(t.value, m.output, m.id) == Tag(t.value, b)
    ensures TagAll(s'.events) == t && s'.message == Some(m) && MessageTagged(s', t)
  {
    if t.Some? { TaggedTwice(s, a, b, t.value, m.output, m.id); } else { Untagged(s, a, b); }
  }

  lemma SayTextTags(s: State, t: Option<Ids>, m: Msg, s': State)
    requires t == TagAll(s.events) && s.message == Some(m) && MessageTagged(s, t) && s' == SayText(s, m)
    ensures TagAll(s'.events) == t && s' == s.(events := s'.events)
  {
    if m.textIndex.Some? {
      PartsTags(s, t, m, TextDone(m.id, m.output, m.textIndex.value, m.text),
        PartDone(m.id, m.output, m.textIndex.value, Written(m.text)), s');
    }
  }

  lemma SayRefusalTags(s: State, t: Option<Ids>, m: Msg, s': State)
    requires t == TagAll(s.events) && s.message == Some(m) && MessageTagged(s, t) && s' == SayRefusal(s, m)
    ensures TagAll(s'.events) == t && s' == s.(events := s'.events)
  {
    if m.refusalIndex.Some? {
      PartsTags(s, t, m, RefusalDone(m.id, m.output, m.refusalIndex.value, m.refusal),
                PartDone(m.id, m.output, m.refusalIndex.value, Refused(m.refusal)), s');
    }
  }

  lemma FinishMessageTags(env: Env, s: State, t: Option<Ids>, s': State)
    requires t == TagAll(s.events) && MessageTagged(s, t) && s' == FinishMessage(env, s)
    ensures TagAll(s'.events) == t && s' == s.(events := s'.events)
  {
    if s.message.Some? {
      var m := s.message.value;
      var s1 := SayText(s, m);
      SayTextTags(s, t, m, s1);
      SayRefusalTags(s1, t, m, SayRefusal(s1, m));
      Tagged(SayRefusal(s1, m), ItemDone(m.output, MessageItem(env, s)));
    }
  }

  lemma SayTags(env: Env, added: State, tool: Tool, t: Option<Ids>, s': State)
    requires t == TagAll(added.events) && s' == SayTool(env, added, tool)
    ensures TagAll(s'.events) == if t.None? then t else Same(t.value, tool.output, tool.id)
  {
    var last := ItemDone(tool.output, ToolItem(env, tool));
    if tool.custom {
      var a := InputDelta(tool.id, tool.output, env.input(tool.arguments));
      var b := InputDone(tool.id, tool.output, env.input(tool.arguments));
      if t.Some? { TaggedTwice(added, a, b, t.value, tool.output, tool.id); } else { Untagged(added, a, b); }
      Tagged(Emit(Emit(added, a), b), last);
    } else {
      var a := ArgumentsDone(tool.id, tool.output, tool.arguments);
      Tagged(added, a);
      Tagged(Emit(added, a), last);
    }
  }

  lemma FinishToolTags(env: Env, s: State, i: int, t: Option<Ids>, t1: Option<Ids>, s': State)
    requires i in s.tools && t == TagAll(s.events) && s' == FinishTool(env, s, i)
    requires t1 == if t.None? || s.tools[i].added then t else Some(t.value[s.tools[i].output := s.tools[i].id])
    ensures TagAll(s'.events) == if t1.None? then t1 else Same(t1.value, s.tools[i].output, s.tools[i].id)
  {
    var added := AddTool(env, s, i);
    AddTags(env, s, i, t, added);
    AddedTool(env, s, i, added);
    assert s' == SayTool(env, added, added.tools[i]);
    SayTags(env, added, added.tools[i], t1, s');
  }

  /** The slots before o end with the ids they began with. */
  predicate Agreed(s0: State, first: map<int, string>, o: nat) {
    forall p :: 0 <= p < o && p < |s0.owners| && s0.owners[p].Index? && s0.owners[p].index in s0.tools ==>
      s0.owners[p].index in first && first[s0.owners[p].index] == s0.tools[s0.owners[p].index].id
  }

  /** A call that has not been shown is first shown as it is. */
  predicate FirstFits(s: State, first: map<int, string>) {
    forall i :: i in s.tools ==> i in first && (!s.tools[i].added ==> first[i] == s.tools[i].id)
  }

  /** Finishing has come to slot o. */
  ghost predicate EndTagged(env: Env, s0: State, s: State, o: nat, first: map<int, string>) {
    var t0, t := TagAll(s0.events), TagAll(s.events);
    && Showing(env, s0, s, o) && Placed(s) && MessageTagged(s, t) && (t.Some? <==> t0.Some? && Agreed(s0, first, o))
    && (t.Some? ==> ToolsTagged(s, t.value, first))
  }

  lemma AgreedNext(s0: State, first: map<int, string>, o: nat)
    requires o < |s0.owners|
    ensures Agreed(s0, first, o + 1) <==>
      Agreed(s0, first, o) &&
      (s0.owners[o].Index? && s0.owners[o].index in s0.tools ==>
         s0.owners[o].index in first && first[s0.owners[o].index] == s0.tools[s0.owners[o].index].id)
  {
  }

  /** The tags after the tool of a slot has been finished. */
  lemma ToolEndTagged(env: Env, s: State, i: int, t: Option<Ids>, first: map<int, string>, s': State)
    requires i in s.tools && t == TagAll(s.events) && s' == FinishTool(env, s, i) && Placed(s) && MessageTagged(s, t)
    requires i in first && (!s.tools[i].added ==> first[i] == s.tools[i].id) &&
      (t.Some? ==> ToolsTagged(s, t.value, first))
    ensures var t' := TagAll(s'.events);
            && Placed(s') && MessageTagged(s', t') && (t'.Some? <==> t.Some? && first[i] == s.tools[i].id)
            && (t'.Some? ==> ToolsTagged(s', t'.value, first))
  {
    ToolFinished(env, s, i, s');
    FinishToolTags(env, s, i, t, if t.None? || s.tools[i].added then t
      else Some(t.value[s.tools[i].output := s.tools[i].id]), s');
  }

  lemma SlotEndTagged(env: Env, s0: State, s: State, o: nat, first: map<int, string>, s': State)
    requires EndTagged(env, s0, s, o, first) && FirstFits(s0, first) && o < |s.owners| && s' == FinishSlot(env, s, o)
    ensures EndTagged(env, s0, s', o + 1, first)
  {
    AgreedNext(s0, first, o);
    SlotShown(env, s0, s, o, s');
    if s.owners[o].Index? && s.owners[o].index in s.tools {
      ToolEndTagged(env, s, s.owners[o].index, TagAll(s.events), first, s');
    }
  }

  lemma {:induction false} SlotsEndTagged(env: Env, s0: State, s: State, o: nat, first: map<int, string>, s': State)
    requires EndTagged(env, s0, s, o, first) && FirstFits(s0, first) && o <= |s.owners| && s' == FinishTools(env, s, o)
    ensures EndTagged(env, s0, s', |s0.owners|, first)
    decreases |s.owners| - o
  {
    if o < |s.owners| {
      var next := FinishSlot(env, s, o);
      SlotEndTagged(env, s0, s, o, first, next);
      SlotsEndTagged(env, s0, next, o + 1, first, s');
    }
  }

  /** Each slot given out is in use by the one it was given to. */
  predicate Owned(s: State) {
    forall o :: 0 <= o < |s.owners| ==>
      match s.owners[o]
      case Message => s.message.Some? && s.message.value.output == o
      case Index(i) => i in s.tools && s.tools[i].output == o
  }

  /** With every slot's id kept the terminal response names the same items. */
  lemma OutputTagged(env: Env, s0: State, s: State, first: map<int, string>)
    requires EndTagged(env, s0, s, |s0.owners|, first) && Owned(s0) && TagAll(s.events).Some?
    ensures SameIds(TagAll(s.events).value, Output(env, s))
  {
    var ids, items := TagAll(s.events).value, Output(env, s);
    forall o | 0 <= o < |items|
      ensures o in ids && ids[o] == items[o].id
    {
      match s.owners[o]
      case Message =>
      case Index(i) =>
        assert s.tools[i] == ShowTool(env, s0.tools[i]);
        assert s0.owners[o].index in first && first[i] == s0.tools[i].id;
    }
  }

  lemma DoneTags(env: Env, s: State, first: map<int, string>, done: State)
    requires Placed(s) && MessageTagged(s, TagAll(s.events)) && FirstFits(s, first)
    requires TagAll(s.events).Some? ==> ToolsTagged(s, TagAll(s.events).value, first)
    requires done == FinishTools(env, FinishMessage(env, s), 0)
    ensures EndTagged(env, s, done, |s.owners|, first)
  {
    var s1 := FinishMessage(env, s);
    FinishMessageTags(env, s, TagAll(s.events), s1);
    SlotsEndTagged(env, s, s1, 0, first, done);
  }

  /**
   The ids of a whole stream are right exactly if they were right before its end and no call
   ends with another id than it was first shown with.
   */
  lemma EndTags(env: Env, s: State, first: map<int, string>, done: State, status: string, whole: State)
    requires EndTagged(env, s, done, |s.owners|, first) && Owned(s) &&
      whole == Emit(done, Terminal(status, Output(env, done)))
    ensures TagAll(whole.events).Some? <==> TagAll(s.events).Some? && Agreed(s, first, |s.owners|)
    ensures TagAll(whole.events).Some? ==> SameIds(TagAll(whole.events).value, Output(env, done))
  {
    if TagAll(done.events).Some? { OutputTagged(env, s, done, first); }
    Tagged(done, Terminal(status, Output(env, done)));
  }
}
