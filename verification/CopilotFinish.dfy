/** The end of a stream: every slot is finished once, and the terminal response is what the client has put together. */
module CopilotFinish {
  import opened Collections
  import opened CopilotEvents
  import opened CopilotProtocol

  /** Finishing is under way: these slots are done. */
  ghost predicate Finishing(env: Env, s: State, c: Client, done: set<nat>) {
    Linked(env, s, c) && s.started && !s.failed && c.done == done
  }

  /** An event that only confirms what the client has. */
  lemma Confirmed(env: Env, s: State, c: Client, done: set<nat>, b: Body)
    requires Finishing(env, s, c, done) && React(c, b) == Some(c)
    ensures Finishing(env, Emit(s, b), After(c, b), done)
  {
    Emitted(s, c, b);
    forall o: nat
      ensures SlotOk(env, Emit(s, b), After(c, b), o)
    {
      assert SlotOk(env, s, c, o);
    }
  }

  /** The done event of a slot whose deltas add up to the item. */
  lemma SlotDone(env: Env, s: State, c: Client, done: set<nat>, o0: nat, id: string)
    requires Finishing(env, s, c, done) && Shown(s, o0) && o0 !in done &&
      ShapeNow(s, o0) == OutputItem(env, s, o0).shape
    ensures var b := ItemDone(o0, Item(id, ShapeNow(s, o0)));
            React(c, b).Some? && Finishing(env, Emit(s, b), After(c, b), done + {o0})
  {
    var b := ItemDone(o0, Item(id, ShapeNow(s, o0)));
    assert SlotOk(env, s, c, o0);
    Emitted(s, c, b);
    forall o: nat
      ensures SlotOk(env, Emit(s, b), After(c, b), o)
    {
      assert SlotOk(env, s, c, o);
    }
  }

  lemma FinishTextLinked(env: Env, s: State, c: Client) returns (c': Client)
    requires Running(env, s, c) && s.message.Some?
    ensures Finishing(env, SayText(s, s.message.value), c', {}) && SayText(s, s.message.value).message == s.message
  {
    var m := s.message.value;
    assert SlotOk(env, s, c, m.output);
    c' := c;
    if m.textIndex.Some? {
      var b := TextDone(m.id, m.output, m.textIndex.value, m.text);
      Confirmed(env, s, c, {}, b);
      var c1 := After(c, b);
      var b2 := PartDone(m.id, m.output, m.textIndex.value, Written(m.text));
      Confirmed(env, Emit(s, b), c1, {}, b2);
      c' := After(c1, b2);
    }
  }

  lemma FinishRefusalLinked(env: Env, s: State, c: Client) returns (c': Client)
    requires Finishing(env, s, c, {}) && s.message.Some?
    ensures Finishing(env, SayRefusal(s, s.message.value), c', {}) &&
      SayRefusal(s, s.message.value).message == s.message
  {
    var m := s.message.value;
    assert SlotOk(env, s, c, m.output);
    c' := c;
    if m.refusalIndex.Some? {
      var b := RefusalDone(m.id, m.output, m.refusalIndex.value, m.refusal);
      Confirmed(env, s, c, {}, b);
      var c1 := After(c, b);
      var b2 := PartDone(m.id, m.output, m.refusalIndex.value, Refused(m.refusal));
      Confirmed(env, Emit(s, b), c1, {}, b2);
      c' := After(c1, b2);
    }
  }

  /** The slot of the message, if there is one. */
  function MessageSlots(s: State): set<nat> {
    if s.message.Some? then {s.message.value.output} else {}
  }

  lemma FinishMessageLinked(env: Env, s: State, c: Client) returns (c': Client)
    requires Running(env, s, c)
    ensures Finishing(env, FinishMessage(env, s), c', MessageSlots(s))
    ensures FinishMessage(env, s).owners == s.owners && FinishMessage(env, s).message == s.message
  {
    if s.message.None? {
      c' := c;
    } else {
      var m := s.message.value;
      var s1 := SayText(s, m);
      var c1 := FinishTextLinked(env, s, c);
      var s2 := SayRefusal(s1, m);
      var c2 := FinishRefusalLinked(env, s1, c1);
      var id := m.id;
      assert Shown(s2, m.output) && ShapeNow(s2, m.output) == Says(Parts(m));
      SlotDone(env, s2, c2, {}, m.output, id);
      c' := After(c2, ItemDone(m.output, Item(id, ShapeNow(s2, m.output))));
      assert {} + {m.output} == MessageSlots(s);
    }
  }

  /** A custom tool's input is shown only at the end, all at once. */
  lemma InputShown(env: Env, s: State, c: Client, done: set<nat>, i: int) returns (c': Client)
    requires Finishing(env, s, c, done) && i in s.tools && s.tools[i].added && s.tools[i].output !in done &&
      s.tools[i].custom
    ensures var t := s.tools[i];
            var input := env.input(t.arguments);
            Finishing(env,
              Emit(Emit(Emit(s, InputDelta(t.id, t.output, input)), InputDone(t.id, t.output, input)),
                ItemDone(t.output, ToolItem(env, t))),
                      c', done + {t.output})
  {
    var t := s.tools[i];
    var input := env.input(t.arguments);
    assert SlotOk(env, s, c, t.output);
    assert "" + input == input;
    var b1, b2, b3 := InputDelta(t.id, t.output, input), InputDone(t.id, t.output, input),
      ItemDone(t.output, ToolItem(env, t));
    Emitted(s, c, b1);
    var c1 := After(c, b1);
    Emitted(Emit(s, b1), c1, b2);
    var c2 := After(c1, b2);
    Emitted(Emit(Emit(s, b1), b2), c2, b3);
    c' := After(c2, b3);
    var s' := Emit(Emit(Emit(s, b1), b2), b3);
    forall o: nat
      ensures SlotOk(env, s', c', o)
    {
      assert SlotOk(env, s, c, o);
    }
  }

  lemma ArgumentsShown(env: Env, s: State, c: Client, done: set<nat>, i: int) returns (c': Client)
    requires Finishing(env, s, c, done) && i in s.tools && s.tools[i].added && s.tools[i].output !in done &&
      !s.tools[i].custom
    ensures var t := s.tools[i];
            Finishing(env,
              Emit(Emit(s, ArgumentsDone(t.id, t.output, t.arguments)), ItemDone(t.output, ToolItem(env, t))), c',
                done + {t.output})
  {
    var t := s.tools[i];
    assert SlotOk(env, s, c, t.output);
    var b := ArgumentsDone(t.id, t.output, t.arguments);
    Confirmed(env, s, c, done, b);
    var s1, c1 := Emit(s, b), After(c, b);
    assert ShapeNow(s1, t.output) == ToolItem(env, t).shape;
    SlotDone(env, s1, c1, done, t.output, t.id);
    c' := After(c1, ItemDone(t.output, ToolItem(env, t)));
  }

  lemma FinishToolLinked(env: Env, s: State, c: Client, done: set<nat>, i: int) returns (c': Client)
    requires Finishing(env, s, c, done) && i in s.tools && s.tools[i].output !in done
    ensures Finishing(env, FinishTool(env, s, i), c', done + {s.tools[i].output})
    ensures FinishTool(env, s, i).owners == s.owners && FinishTool(env, s, i).message == s.message
    ensures FinishTool(env, s, i).finishReason == s.finishReason
  {
    var c1 := AddToolLinked(env, s, c, i);
    var added := AddTool(env, s, i);
    if added.tools[i].custom {
      c' := InputShown(env, added, c1, done, i);
    } else {
      c' := ArgumentsShown(env, added, c1, done, i);
    }
  }

  function UpTo(n: nat): (slots: set<nat>)
    ensures forall k: nat :: k in slots <==> k < n
  {
    if n == 0 then {} else UpTo(n - 1) + {n - 1}
  }

  /** The slots before o, and the message's. */
  function Before(s: State, o: nat): set<nat> {
    UpTo(o) + MessageSlots(s)
  }

  lemma FinishSlotLinked(env: Env, s: State, c: Client, o: nat, next: State) returns (c': Client)
    requires o < |s.owners| && Finishing(env, s, c, Before(s, o)) && next == FinishSlot(env, s, o)
    ensures Finishing(env, next, c', Before(next, o + 1)) && SameSlots(s, next)
  {
    match s.owners[o]
    case Message =>
      assert Before(s, o) == Before(s, o + 1);
      c' := c;
    case Index(i) =>
      assert o !in Before(s, o);
      c' := FinishToolLinked(env, s, c, Before(s, o), i);
      assert Before(s, o) + {o} == Before(FinishTool(env, s, i), o + 1);
  }

  /** From s on the finishing loop has left these fields alone. */
  predicate SameSlots(s: State, s': State) {
    s'.owners == s.owners && s'.message == s.message && s'.finishReason == s.finishReason
  }

  /** All slots are done. */
  ghost predicate AllFinished(env: Env, s: State, c: Client) {
    Finishing(env, s, c, Before(s, |s.owners|))
  }

  /** What every turn of the finishing loop keeps holds at its end. */
  lemma {:induction false} FinishKeeps(env: Env, s: State, o: nat, kept: (State, nat) -> bool)
    requires o <= |s.owners| && kept(s, o)
    requires forall t: State, k: nat :: k < |t.owners| && kept(t, k) ==>
      kept(FinishSlot(env, t, k), k + 1) && |FinishSlot(env, t, k).owners| == |t.owners|
    ensures kept(FinishTools(env, s, o), |s.owners|)
    decreases |s.owners| - o
  {
    if o < |s.owners| { FinishKeeps(env, FinishSlot(env, s, o), o + 1, kept); }
  }

  ghost predicate FinishedTo(env: Env, s0: State, s: State, o: nat) {
    SameSlots(s0, s) && exists c :: Finishing(env, s, c, Before(s, o))
  }

  lemma FinishedNext(env: Env, s0: State, s: State, o: nat, next: State)
    requires o < |s.owners| && FinishedTo(env, s0, s, o) && next == FinishSlot(env, s, o)
    ensures FinishedTo(env, s0, next, o + 1) && |next.owners| == |s.owners|
  {
    var c :| Finishing(env, s, c, Before(s, o));
    var c' := FinishSlotLinked(env, s, c, o, next);
  }

  lemma FinishedAll(env: Env, s: State, s': State)
    requires FinishedTo(env, s, s, 0) && s' == FinishTools(env, s, 0)
    ensures FinishedTo(env, s, s', |s.owners|)
  {
    var kept := (t: State, k: nat) => FinishedTo(env, s, t, k);
    forall t: State, k: nat | k < |t.owners| && kept(t, k)
      ensures kept(FinishSlot(env, t, k), k + 1) && |FinishSlot(env, t, k).owners| == |t.owners|
    {
      FinishedNext(env, s, t, k, FinishSlot(env, t, k));
    }
    FinishKeeps(env, s, 0, kept);
  }

  lemma FinishToolsLinked(env: Env, s: State, c: Client, s': State) returns (c': Client)
    requires Finishing(env, s, c, Before(s, 0)) && s' == FinishTools(env, s, 0)
    ensures AllFinished(env, s', c') && SameSlots(s, s')
  {
    assert FinishedTo(env, s, s, 0);
    FinishedAll(env, s, s');
    c' :| Finishing(env, s', c', Before(s', |s.owners|));
  }

  /** When every slot is done the client accepts the terminal response. */
  lemma EndAccepted(env: Env, s: State, c: Client, status: string)
    requires AllFinished(env, s, c)
    ensures Together(c.items, Output(env, s)) && c.done == c.items.Keys
    ensures React(c, Terminal(status, Output(env, s))) == Some(c.(phase := Ended))
  {
    var items := Output(env, s);
    forall o: nat
      ensures o in c.items ==> o < |items|
      ensures o in c.done <==> o in c.items
      ensures o < |items| ==> o in c.items && c.items[o] == items[o].shape
    {
      assert SlotOk(env, s, c, o);
      assert s.message.Some? ==> s.message.value.output < |s.owners|;
    }
  }

  /**
   The end of every stream that ends: the client accepts the last event, all slots from
   zero on have been opened and finished once, and what it put together from the deltas is
   the output of the terminal response.
   */
  lemma FinishUnderstood(env: Env, s: State, c: Client) returns (c': Client, items: seq<Item>)
    requires Running(env, s, c) && s.finishReason != ""
    ensures Finish(env, s).Some? && ReadAll(Finish(env, s).value.events) == Some(c')
    ensures c'.phase == Ended && c'.count == |Finish(env, s).value.events| > 0
    ensures Finish(env, s).value.events[c'.count - 1] == Event(c'.count - 1, Terminal(Status(s.finishReason), items))
    ensures |items| == |s.owners| && Together(c'.items, items) && c'.done == c'.items.Keys
  {
    var c1 := FinishMessageLinked(env, s, c);
    var s1 := FinishMessage(env, s);
    assert Before(s1, 0) == MessageSlots(s);
    var s2 := FinishTools(env, s1, 0);
    var c2 := FinishToolsLinked(env, s1, c1, s2);
    items := Output(env, s2);
    EndAccepted(env, s2, c2, Status(s.finishReason));
    Emitted(s2, c2, Terminal(Status(s.finishReason), items));
    c' := After(c2, Terminal(Status(s.finishReason), items));
  }
}
