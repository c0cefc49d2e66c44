/** When the stream's output is the batch converter's: exactly then, for every run of chunks. */
module CopilotSame {
  import opened Collections
  import opened CopilotEvents
  import opened CopilotHeard
  import opened CopilotBatch

  // ---- The converter's state, in terms of what it has been told ---------------------------------------------

  /**
   Slots are given out in the order of the calls, with the message put in where it began: first,
   unless a call came first.
   */
  predicate OwnersAre(order: seq<int>, callFirst: bool, s: State) {
    if s.message.None?
    then
      && |s.owners| == |order| && (callFirst <==> order != [])
      && forall o :: 0 <= o < |order| ==> s.owners[o] == Index(order[o])
    else
      var k := s.message.value.output;
      && k <= |order| && |s.owners| == |order| + 1 && s.owners[k] == Message
      && (k == 0 <==> !callFirst)
      && (forall o :: 0 <= o < k ==> s.owners[o] == Index(order[o]))
      && (forall o :: k < o < |s.owners| ==> s.owners[o] == Index(order[o - 1]))
  }

  predicate MessageIs(text: string, refusal: string, refusalFirst: bool, s: State) {
    if s.message.None? then text == "" && refusal == "" && !refusalFirst
    else
      var m := s.message.value;
      && m.text == text && m.refusal == refusal && (text != "" || refusal != "")
      && (m.textIndex.Some? <==> text != "") && (m.refusalIndex.Some? <==> refusal != "")
      && (m.textIndex.Some? ==> m.textIndex.value < m.nextContent)
      && (m.refusalIndex.Some? ==> m.refusalIndex.value < m.nextContent)
      && (refusalFirst <==> m.textIndex.Some? && m.refusalIndex.Some? && m.refusalIndex.value < m.textIndex.value)
      && (m.textIndex.Some? && m.refusalIndex.Some? ==> m.refusalIndex.value != m.textIndex.value)
  }

  predicate ToolIs(env: Env, i: int, id: string, name: string, arguments: string, inTime: string, t: Tool) {
    && t.id == (if id == "" then env.callId(i) else id)
    && t.name == name && t.arguments == arguments && (t.added <==> arguments != "")
    && (if t.added then Info(t.responseName, t.namespace, t.custom) == Named(env, inTime) else inTime == name)
  }

  // ---- One delta ------------------------------------------------------------------------------------------------

  lemma TextWritten(env: Env, s: State, delta: string, text: string, refusal: string, refusalFirst: bool, s': State)
    requires MessageIs(text, refusal, refusalFirst, s) && delta != "" && s' == WriteText(env, s, delta)
    ensures MessageIs(text + delta, refusal, refusalFirst || (text == "" && refusal != ""), s') && s'.tools == s.tools
  {
  }

  lemma RefusalWritten(env: Env, s: State, delta: string, text: string, refusal: string, refusalFirst: bool, s': State)
    requires MessageIs(text, refusal, refusalFirst, s) && delta != "" && s' == WriteRefusal(env, s, delta)
    ensures MessageIs(text, refusal + delta, refusalFirst, s') && s'.tools == s.tools
  {
  }

  lemma MessageBegun(env: Env, s: State, order: seq<int>, callFirst: bool)
    requires OwnersAre(order, callFirst, s)
    ensures OwnersAre(order, callFirst, EnsureMessage(env, s))
  {
  }

  /** The slots stay as they are but for a new call's. */
  predicate SlotFor(s: State, i: int, s': State) {
    && s'.message == s.message && s'.owners == (if i in s.tools then s.owners else s.owners + [Index(i)])
    && s'.tools.Keys == s.tools.Keys + {i} && forall j :: j in s.tools && j != i ==> s'.tools[j] == s.tools[j]
  }

  lemma NameSlot(env: Env, s: State, call: CallDelta, s': State)
    requires s' == NameTool(env, s, call)
    ensures SlotFor(s, call.index, s')
  {
  }

  lemma AddSlot(env: Env, s: State, i: int, s': State)
    requires i in s.tools && s' == AddTool(env, s, i)
    ensures SlotFor(s, i, s')
  {
  }

  lemma ArgumentsSlot(s: State, i: int, more: string, s': State)
    requires i in s.tools && s' == WriteArguments(s, i, more)
    ensures SlotFor(s, i, s')
  {
  }

  lemma SlotTwice(s: State, i: int, s1: State, s': State)
    requires SlotFor(s, i, s1) && SlotFor(s1, i, s')
    ensures SlotFor(s, i, s')
  {
  }

  lemma CallSlot(env: Env, s: State, call: CallDelta, s': State)
    requires s' == WriteCall(env, s, call)
    ensures SlotFor(s, call.index, s')
  {
    var i := call.index;
    var named := NameTool(env, s, call);
    NameSlot(env, s, call, named);
    if call.arguments != "" {
      var added := AddTool(env, named, i);
      AddSlot(env, named, i, added);
      ArgumentsSlot(added, i, call.arguments, s');
      SlotTwice(named, i, added, s');
      SlotTwice(s, i, named, s');
    }
  }

  lemma SlotGiven(s: State, i: int, s': State, order: seq<int>, callFirst: bool)
    requires OwnersAre(order, callFirst, s) && SlotFor(s, i, s') && (i in s.tools <==> i in order)
    requires callFirst || order != [] || s.message.Some?
    ensures OwnersAre(if i in order then order else order + [i], callFirst, s')
  {
  }

  lemma FirstSlotGiven(s: State, i: int, s': State)
    requires OwnersAre([], false, s) && SlotFor(s, i, s') && i !in s.tools && s.message.None?
    ensures OwnersAre([i], true, s')
  {
  }

  /** The call's own entry; nothing was known of a new call. */
  lemma CallNamed(env: Env, s: State, call: CallDelta, id: string, name: string, arguments: string, inTime: string,
                  s': State)
    requires s' == NameTool(env, s, call)
    requires if call.index in s.tools then ToolIs(env, call.index, id, name, arguments, inTime, s.tools[call.index])
             else id == name == arguments == inTime == ""
    ensures call.index in s'.tools
    ensures ToolIs(env, call.index, if call.id != "" then call.id else id, name + call.name, arguments,
                   if arguments != "" then inTime else name + call.name, s'.tools[call.index])
  {
  }

  lemma ArgumentsAdded(env: Env, s: State, i: int, more: string, id: string, name: string, arguments: string,
                       inTime: string, s': State)
    requires i in s.tools && more != "" && s' == WriteArguments(AddTool(env, s, i), i, more)
    requires ToolIs(env, i, id, name, arguments, inTime, s.tools[i])
    ensures i in s'.tools && ToolIs(env, i, id, name, arguments + more, inTime, s'.tools[i])
  {
    assert AddTool(env, s, i).tools[i] == ShowTool(env, s.tools[i]);
  }

  lemma CallWritten(env: Env, s: State, call: CallDelta, id: string, name: string, arguments: string, inTime: string,
                    s': State)
    requires s' == WriteCall(env, s, call)
    requires if call.index in s.tools then ToolIs(env, call.index, id, name, arguments, inTime, s.tools[call.index])
             else id == name == arguments == inTime == ""
    ensures call.index in s'.tools
    ensures ToolIs(env, call.index, if call.id != "" then call.id else id, name + call.name, arguments + call.arguments,
                   if arguments != "" then inTime else name + call.name, s'.tools[call.index])
  {
    CallNamed(env, s, call, id, name, arguments, inTime, NameTool(env, s, call));
    if call.arguments == "" {
      assert arguments + call.arguments == arguments;
    } else {
      ArgumentsAdded(env, NameTool(env, s, call), call.index, call.arguments, if call.id != "" then call.id
        else id, name + call.name, arguments,
                     if arguments != "" then inTime else name + call.name, s');
    }
  }

  // ---- A run of atoms -------------------------------------------------------------------------------------------

  ghost predicate ToolsAre(env: Env, atoms: seq<Atom>, s: State) {
    && (forall i :: i in s.tools <==> i in Order(atoms))
    && (forall i :: i in s.tools ==>
          ToolIs(env, i, IdOf(atoms, i), NameOf(atoms, i), ArgumentsOf(atoms, i), NameInTime(atoms, i), s.tools[i]))
  }

  /** The state says what the atoms say. */
  ghost predicate Heard(env: Env, atoms: seq<Atom>, s: State) {
    && OwnersAre(Order(atoms), CallFirst(atoms), s) && MessageIs(Texts(atoms), Refusals(atoms), RefusalFirst(atoms), s)
    && ToolsAre(env, atoms, s) && (atoms == [] || Order(atoms) != [] || s.message.Some?)
  }

  /** Text and refusals leave the calls alone, and so does another call. */
  lemma NotCalled(atoms: seq<Atom>, a: Atom, i: int)
    requires a.Call? ==> a.call.index != i
    ensures IdOf(atoms + [a], i) == IdOf(atoms, i) && NameOf(atoms + [a], i) == NameOf(atoms, i)
    ensures ArgumentsOf(atoms + [a], i) == ArgumentsOf(atoms, i) && NameInTime(atoms + [a], i) == NameInTime(atoms, i)
  {
    OneMore(atoms, a);
  }

  lemma NeverCalled(atoms: seq<Atom>, i: int)
    requires i !in Order(atoms)
    ensures IdOf(atoms, i) == "" && NameOf(atoms, i) == "" && ArgumentsOf(atoms, i) == "" && NameInTime(atoms, i) == ""
  {
  }

  lemma Called(atoms: seq<Atom>, call: CallDelta)
    ensures var i, after := call.index, atoms + [Call(call)];
            && IdOf(after, i) == (if call.id != "" then call.id else IdOf(atoms, i)) &&
               NameOf(after, i) == NameOf(atoms, i) + call.name
            && ArgumentsOf(after, i) == ArgumentsOf(atoms, i) + call.arguments
            && NameInTime(after, i) ==
               (if ArgumentsOf(atoms, i) != "" then NameInTime(atoms, i) else NameOf(atoms, i) + call.name)
            && Order(after) == (if i in Order(atoms) then Order(atoms) else Order(atoms) + [i])
            && Texts(after) == Texts(atoms) && Refusals(after) == Refusals(atoms) &&
               RefusalFirst(after) == RefusalFirst(atoms)
  {
    OneMore(atoms, Call(call));
  }

  lemma Spoken(atoms: seq<Atom>, a: Atom)
    requires !a.Call?
    ensures var after := atoms + [a];
            && Order(after) == Order(atoms) && CallFirst(after) == CallFirst(atoms)
            && Texts(after) == (if a.Text? then Texts(atoms) + a.text else Texts(atoms))
            && Refusals(after) == (if a.Refusal? then Refusals(atoms) + a.text else Refusals(atoms))
            && RefusalFirst(after) == (RefusalFirst(atoms) || (a.Text? && Texts(atoms) == "" && Refusals(atoms) != ""))
  {
    OneMore(atoms, a);
  }

  lemma SameTools(env: Env, atoms: seq<Atom>, a: Atom, s: State, s': State)
    requires ToolsAre(env, atoms, s) && s'.tools == s.tools && !a.Call?
    ensures ToolsAre(env, atoms + [a], s')
  {
    Spoken(atoms, a);
    forall i | i in s.tools
      ensures ToolIs(env, i, IdOf(atoms + [a], i), NameOf(atoms + [a], i), ArgumentsOf(atoms + [a], i),
        NameInTime(atoms + [a], i), s.tools[i])
    {
      NotCalled(atoms, a, i);
    }
  }

  lemma TextMessage(env: Env, atoms: seq<Atom>, s: State, delta: string, s': State, after: seq<Atom>)
    requires MessageIs(Texts(atoms), Refusals(atoms), RefusalFirst(atoms), s) && delta != "" &&
      s' == WriteText(env, s, delta)
    requires after == atoms + [Text(delta)]
    ensures MessageIs(Texts(after), Refusals(after), RefusalFirst(after), s') && s'.tools == s.tools
  {
    Spoken(atoms, Text(delta));
    TextWritten(env, s, delta, Texts(atoms), Refusals(atoms), RefusalFirst(atoms), s');
  }

  lemma RefusalMessage(env: Env, atoms: seq<Atom>, s: State, delta: string, s': State, after: seq<Atom>)
    requires MessageIs(Texts(atoms), Refusals(atoms), RefusalFirst(atoms), s) && delta != "" &&
      s' == WriteRefusal(env, s, delta)
    requires after == atoms + [Refusal(delta)]
    ensures MessageIs(Texts(after), Refusals(after), RefusalFirst(after), s') && s'.tools == s.tools
  {
    Spoken(atoms, Refusal(delta));
    RefusalWritten(env, s, delta, Texts(atoms), Refusals(atoms), RefusalFirst(atoms), s');
  }

  lemma TextOwners(env: Env, s: State, delta: string, order: seq<int>, callFirst: bool, s': State)
    requires OwnersAre(order, callFirst, s) && s' == WriteText(env, s, delta)
    ensures OwnersAre(order, callFirst, s') && s'.message.Some?
  {
    MessageBegun(env, s, order, callFirst);
  }

  lemma RefusalOwners(env: Env, s: State, delta: string, order: seq<int>, callFirst: bool, s': State)
    requires OwnersAre(order, callFirst, s) && s' == WriteRefusal(env, s, delta)
    ensures OwnersAre(order, callFirst, s') && s'.message.Some?
  {
    MessageBegun(env, s, order, callFirst);
  }

  lemma TextHeard(env: Env, atoms: seq<Atom>, s: State, delta: string, s': State, after: seq<Atom>)
    requires Heard(env, atoms, s) && delta != "" && s' == WriteText(env, s, delta) && after == atoms + [Text(delta)]
    ensures Heard(env, after, s')
  {
    TextMessage(env, atoms, s, delta, s', after);
    TextOwners(env, s, delta, Order(atoms), CallFirst(atoms), s');
    SpokenOwners(atoms, Text(delta));
    SameTools(env, atoms, Text(delta), s, s');
  }

  lemma RefusalHeard(env: Env, atoms: seq<Atom>, s: State, delta: string, s': State, after: seq<Atom>)
    requires Heard(env, atoms, s) && delta != "" && s' == WriteRefusal(env, s, delta) &&
      after == atoms + [Refusal(delta)]
    ensures Heard(env, after, s')
  {
    RefusalMessage(env, atoms, s, delta, s', after);
    RefusalOwners(env, s, delta, Order(atoms), CallFirst(atoms), s');
    SpokenOwners(atoms, Refusal(delta));
    SameTools(env, atoms, Refusal(delta), s, s');
  }

  lemma SpokenOwners(atoms: seq<Atom>, a: Atom)
    requires !a.Call?
    ensures Order(atoms + [a]) == Order(atoms) && CallFirst(atoms + [a]) == CallFirst(atoms)
  {
    Spoken(atoms, a);
  }

  lemma OwnCall(env: Env, atoms: seq<Atom>, s: State, call: CallDelta, s': State, after: seq<Atom>)
    requires ToolsAre(env, atoms, s) && s' == WriteCall(env, s, call) && after == atoms + [Call(call)]
    ensures call.index in s'.tools
    ensures var i := call.index;
            ToolIs(env, i, IdOf(after, i), NameOf(after, i), ArgumentsOf(after, i), NameInTime(after, i), s'.tools[i])
  {
    var i := call.index;
    Called(atoms, call);
    if i !in s.tools { NeverCalled(atoms, i); }
    CallWritten(env, s, call, IdOf(atoms, i), NameOf(atoms, i), ArgumentsOf(atoms, i), NameInTime(atoms, i), s');
  }

  lemma CallOrder(atoms: seq<Atom>, call: CallDelta)
    ensures Order(atoms + [Call(call)]) == if call.index in Order(atoms) then Order(atoms)
      else Order(atoms) + [call.index]
  {
    Called(atoms, call);
  }

  lemma OtherCall(env: Env, atoms: seq<Atom>, s: State, call: CallDelta, s': State, after: seq<Atom>, i: int)
    requires ToolsAre(env, atoms, s) && SlotFor(s, call.index, s') && after == atoms + [Call(call)] && i in s.tools &&
      i != call.index
    ensures i in s'.tools &&
      ToolIs(env, i, IdOf(after, i), NameOf(after, i), ArgumentsOf(after, i), NameInTime(after, i), s'.tools[i])
  {
    NotCalled(atoms, Call(call), i);
  }

  lemma CallTools(env: Env, atoms: seq<Atom>, s: State, call: CallDelta, s': State)
    requires ToolsAre(env, atoms, s) && s' == WriteCall(env, s, call)
    ensures ToolsAre(env, atoms + [Call(call)], s')
  {
    CallSlot(env, s, call, s');
    OwnCall(env, atoms, s, call, s', atoms + [Call(call)]);
    CallToolsHeard(env, atoms, s, call, s', atoms + [Call(call)]);
  }

  lemma CallToolsHeard(env: Env, atoms: seq<Atom>, s: State, call: CallDelta, s': State, after: seq<Atom>)
    requires ToolsAre(env, atoms, s) && SlotFor(s, call.index, s') && after == atoms + [Call(call)] &&
      call.index in s'.tools
    requires var i := call.index;
             ToolIs(env, i, IdOf(after, i), NameOf(after, i), ArgumentsOf(after, i), NameInTime(after, i), s'.tools[i])
    ensures ToolsAre(env, after, s')
  {
    CallOrder(atoms, call);
    forall i | i in s'.tools
      ensures ToolIs(env, i, IdOf(after, i), NameOf(after, i), ArgumentsOf(after, i), NameInTime(after, i), s'.tools[i])
    {
      if i != call.index { OtherCall(env, atoms, s, call, s', after, i); }
    }
  }

  lemma CallOwners(env: Env, atoms: seq<Atom>, s: State, call: CallDelta, s': State)
    requires Heard(env, atoms, s) && s' == WriteCall(env, s, call)
    ensures OwnersAre(if call.index in Order(atoms) then Order(atoms) else Order(atoms) + [call.index], atoms == [] ||
      CallFirst(atoms), s')
  {
    CallSlot(env, s, call, s');
    if atoms == [] {
      FirstSlotGiven(s, call.index, s');
    } else {
      SlotGiven(s, call.index, s', Order(atoms), CallFirst(atoms));
    }
  }

  lemma CallHeard(env: Env, atoms: seq<Atom>, s: State, call: CallDelta, s': State, after: seq<Atom>)
    requires Heard(env, atoms, s) && s' == WriteCall(env, s, call) && after == atoms + [Call(call)]
    ensures Heard(env, after, s')
  {
    Called(atoms, call);
    CallTools(env, atoms, s, call, s');
    CallSlot(env, s, call, s');
    CallOwners(env, atoms, s, call, s');
    assert CallFirst(after) == (atoms == [] || CallFirst(atoms));
  }

  lemma CallsSplit(atoms: seq<Atom>, calls: seq<CallDelta>)
    requires calls != []
    ensures atoms + CopilotHeard.Calls(calls) == (atoms + [Call(calls[0])]) + CopilotHeard.Calls(calls[1..])
  {
  }

  lemma NoCalls(atoms: seq<Atom>)
    ensures atoms + CopilotHeard.Calls([]) == atoms
  {
  }
}
