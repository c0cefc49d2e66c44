/** Whole streams: what the converter's state says of all that it has been told. */
module CopilotKnown {
  import opened Collections
  import opened CopilotEvents
  import opened CopilotHeard
  import opened CopilotSame
  import opened CopilotIds

  /** The message was named after the response, which keeps its id from then on. */
  predicate MessageNamed(env: Env, s: State) {
    s.message.Some? ==> s.started && s.message.value.id == env.messageId(s.responseId)
  }

  /** The state and the events' ids say what the atoms say. */
  ghost predicate Known(env: Env, atoms: seq<Atom>, s: State) {
    Heard(env, atoms, s) && IdsAre(env, atoms, s) && MessageNamed(env, s)
  }

  // ---- Fields that a delta leaves alone -----------------------------------------------------------------------

  predicate Kept(s: State, s': State) {
    s'.failed == s.failed && s'.started == s.started && s'.responseId == s.responseId
  }

  lemma TextKept(env: Env, s: State, delta: string, s': State)
    requires s.started && MessageNamed(env, s) && s' == WriteText(env, s, delta)
    ensures Kept(s, s') && MessageNamed(env, s')
  {
  }

  lemma RefusalKept(env: Env, s: State, delta: string, s': State)
    requires s.started && MessageNamed(env, s) && s' == WriteRefusal(env, s, delta)
    ensures Kept(s, s') && MessageNamed(env, s')
  {
  }

  lemma AddKept(env: Env, s: State, i: int, s': State)
    requires i in s.tools && s' == AddTool(env, s, i)
    ensures Kept(s, s') && s'.message == s.message
  {
  }

  lemma ArgumentsKept(s: State, i: int, more: string, s': State)
    requires i in s.tools && s' == WriteArguments(s, i, more)
    ensures Kept(s, s') && s'.message == s.message
  {
  }

  lemma CallKept(env: Env, s: State, call: CallDelta, s': State)
    requires s' == WriteCall(env, s, call)
    ensures Kept(s, s') && s'.message == s.message
  {
    var named := NameTool(env, s, call);
    assert Kept(s, named) && named.message == s.message;
    if call.arguments != "" {
      var added := AddTool(env, named, call.index);
      AddKept(env, named, call.index, added);
      ArgumentsKept(added, call.index, call.arguments, s');
    }
  }

  // ---- Chunks -------------------------------------------------------------------------------------------------

  /** The same slots, message and tools, and no event about a slot between. */
  predicate Alike(s: State, s': State) {
    && s'.owners == s.owners && s'.message == s.message && s'.tools == s.tools && TagAll(s'.events) == TagAll(s.events)
    && (s.message.Some? && s.started ==> s'.started && s'.responseId == s.responseId)
  }

  lemma AlikeKnown(env: Env, atoms: seq<Atom>, s: State, s': State)
    requires Known(env, atoms, s) && Alike(s, s')
    ensures Known(env, atoms, s')
  {
  }

  lemma StartAlike(s: State)
    ensures Alike(s, Start(s))
  {
    if !s.started {
      Tagged(s.(started := true), Created);
      Tagged(Emit(s.(started := true), Created), InProgress);
    }
  }

  lemma FailAlike(s: State)
    ensures Alike(s, Emit(s.(failed := true), Error))
  {
    Tagged(s.(failed := true), Error);
  }

  lemma MaybeText(env: Env, atoms: seq<Atom>, s: State, content: string, s': State, after: seq<Atom>)
    requires Known(env, atoms, s) && s.started && after == atoms + TextSaid(content) &&
      s' == MaybeWrite(env, s, content)
    ensures Known(env, after, s') && Kept(s, s')
  {
    if content == "" {
      Nothing(atoms);
    } else {
      TextHeard(env, atoms, s, content, s', after);
      TextIds(env, atoms, s, content, s', after);
      TextKept(env, s, content, s');
    }
  }

  lemma MaybeRefusal(env: Env, atoms: seq<Atom>, s: State, refusal: string, s': State, after: seq<Atom>)
    requires Known(env, atoms, s) && s.started && after == atoms + RefusalSaid(refusal) &&
      s' == MaybeRefuse(env, s, refusal)
    ensures Known(env, after, s') && Kept(s, s')
  {
    if refusal == "" {
      Nothing(atoms);
    } else {
      RefusalHeard(env, atoms, s, refusal, s', after);
      RefusalIds(env, atoms, s, refusal, s', after);
      RefusalKept(env, s, refusal, s');
    }
  }

  lemma CallKnown(env: Env, atoms: seq<Atom>, s: State, call: CallDelta, s': State, after: seq<Atom>)
    requires Known(env, atoms, s) && s' == WriteCall(env, s, call) && after == atoms + [Call(call)]
    ensures Known(env, after, s') && Kept(s, s')
  {
    CallHeard(env, atoms, s, call, s', after);
    CallIds(env, atoms, s, call, s', after);
    CallKept(env, s, call, s');
  }

  lemma {:induction false} CallsKnown(env: Env, atoms: seq<Atom>, s: State, calls: seq<CallDelta>, s': State,
                                      after: seq<Atom>)
    requires Known(env, atoms, s) && s' == WriteCalls(env, s, calls) && after == atoms + CopilotHeard.Calls(calls)
    ensures Known(env, after, s') && Kept(s, s')
    decreases |calls|
  {
    if calls == [] {
      NoCalls(atoms);
    } else {
      var s1, next := WriteCall(env, s, calls[0]), atoms + [Call(calls[0])];
      CallKnown(env, atoms, s, calls[0], s1, next);
      CallsSplit(atoms, calls);
      CallsKnown(env, next, s1, calls[1..], s', after);
    }
  }

  lemma Nothing(atoms: seq<Atom>)
    ensures atoms + [] == atoms
  {
  }

  lemma Regroup(a: seq<Atom>, b: seq<Atom>, c: seq<Atom>, d: seq<Atom>)
    ensures a + (b + c + d) == ((a + b) + c) + d
  {
  }

  lemma ChoiceKnown(env: Env, atoms: seq<Atom>, s: State, choice: Choice, s': State, after: seq<Atom>)
    requires Known(env, atoms, s) && s' == Choose(env, s, choice)
    requires after ==
      atoms + (TextSaid(choice.content) + RefusalSaid(choice.refusal) + CopilotHeard.Calls(choice.calls))
    ensures Known(env, after, s') && s'.started && s'.failed == s.failed && s'.responseId == s.responseId
  {
    var s1 := Start(s);
    StartAlike(s);
    AlikeKnown(env, atoms, s, s1);
    var s2 := MaybeWrite(env, s1, choice.content);
    var s3 := MaybeRefuse(env, s2, choice.refusal);
    var a2 := atoms + TextSaid(choice.content);
    var a3 := a2 + RefusalSaid(choice.refusal);
    Regroup(atoms, TextSaid(choice.content), RefusalSaid(choice.refusal), CopilotHeard.Calls(choice.calls));
    MaybeText(env, atoms, s1, choice.content, s2, a2);
    MaybeRefusal(env, a2, s2, choice.refusal, s3, a3);
    CallsKnown(env, a3, s3, choice.calls, s', after);
  }

  /** What a chunk makes of the response's id. */
  function Renamed(env: Env, s: State, chunk: Chunk): string {
    if !s.started && !chunk.error && chunk.id != "" then env.responseId(chunk.id, s.responseId) else s.responseId
  }

  lemma ErrorKnown(env: Env, atoms: seq<Atom>, s: State, s': State)
    requires Known(env, atoms, s) && s' == Emit(s.(failed := true), Error)
    ensures Known(env, atoms, s')
  {
    FailAlike(s);
    AlikeKnown(env, atoms, s, s');
  }

  lemma RenameKnown(env: Env, atoms: seq<Atom>, s: State, id: string)
    requires Known(env, atoms, s) && !s.started
    ensures Known(env, atoms, s.(responseId := id))
  {
    AlikeKnown(env, atoms, s, s.(responseId := id));
  }

  lemma ReasonKnown(env: Env, atoms: seq<Atom>, s: State, reason: string)
    requires Known(env, atoms, s)
    ensures Known(env, atoms, s.(finishReason := reason))
  {
    AlikeKnown(env, atoms, s, s.(finishReason := reason));
  }

  lemma ChunkKnown(env: Env, atoms: seq<Atom>, s: State, chunk: Chunk, s': State, after: seq<Atom>)
    requires Known(env, atoms, s) && s' == Consume(env, s, chunk) && after == atoms + Said(chunk)
    ensures Known(env, after, s') && s'.failed == (s.failed || chunk.error) && s'.responseId == Renamed(env, s, chunk)
    ensures !chunk.error ==> s'.started == (s.started || chunk.choice.Some?)
  {
    if chunk.error {
      Nothing(atoms);
      ErrorKnown(env, atoms, s, s');
    } else {
      var named := if !s.started && chunk.id != "" then s.(responseId := env.responseId(chunk.id, s.responseId)) else s;
      if !s.started { RenameKnown(env, atoms, s, named.responseId); }
      if chunk.choice.None? {
        Nothing(atoms);
      } else {
        var chosen := Choose(env, named, chunk.choice.value);
        ChoiceKnown(env, atoms, named, chunk.choice.value, chosen, after);
        ReasonKnown(env, after, chosen, chunk.choice.value.finish);
      }
    }
  }

  lemma SaidFirst(atoms: seq<Atom>, chunks: seq<Chunk>)
    requires chunks != []
    ensures atoms + AllSaid(chunks) == if chunks[0].error then atoms + Said(chunks[0])
      else (atoms + Said(chunks[0])) + AllSaid(chunks[1..])
  {
  }

  lemma {:induction false} StreamKnown(env: Env, atoms: seq<Atom>, s: State, chunks: seq<Chunk>, s': State,
                                       after: seq<Atom>)
    requires Known(env, atoms, s) && !s.failed && after == atoms + AllSaid(chunks) && s' == ConsumeAll(env, s, chunks)
    ensures Known(env, after, s')
    decreases |chunks|
  {
    if chunks == [] {
      Nothing(atoms);
    } else {
      var s1, next := Consume(env, s, chunks[0]), atoms + Said(chunks[0]);
      SaidFirst(atoms, chunks);
      ChunkKnown(env, atoms, s, chunks[0], s1, next);
      if !s1.failed { StreamKnown(env, next, s1, chunks[1..], s', after); }
    }
  }

  lemma FirstKnown(env: Env, fallback: string)
    ensures Known(env, [], First(fallback))
  {
  }

  lemma Unpadded(atoms: seq<Atom>)
    ensures [] + atoms == atoms
  {
  }

  lemma AllKnown(env: Env, first: string, chunks: seq<Chunk>, s: State, atoms: seq<Atom>)
    requires s == ConsumeAll(env, First(first), chunks) && atoms == AllSaid(chunks)
    ensures Known(env, atoms, s)
  {
    Unpadded(atoms);
    FirstKnown(env, first);
    StreamKnown(env, [], First(first), chunks, s, atoms);
  }

  // ---- The response's id --------------------------------------------------------------------------------------

  /** The response's id after these chunks: it can change up to the first choice. */
  function OpeningId(env: Env, current: string, chunks: seq<Chunk>): string
    decreases |chunks|
  {
    if chunks == [] || chunks[0].error then current
    else
      var next := if chunks[0].id != "" then env.responseId(chunks[0].id, current) else current;
      if chunks[0].choice.Some? then next else OpeningId(env, next, chunks[1..])
  }

  lemma {:induction false} StreamId(env: Env, atoms: seq<Atom>, s: State, chunks: seq<Chunk>, s': State)
    requires Known(env, atoms, s) && !s.failed && s' == ConsumeAll(env, s, chunks)
    ensures s'.responseId == if s.started then s.responseId else OpeningId(env, s.responseId, chunks)
    decreases |chunks|
  {
    if chunks != [] {
      var s1, next := Consume(env, s, chunks[0]), atoms + Said(chunks[0]);
      ChunkKnown(env, atoms, s, chunks[0], s1, next);
      if !s1.failed { StreamId(env, next, s1, chunks[1..], s'); }
    }
  }
}
