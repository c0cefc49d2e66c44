/** How a stream ends, told from its chunks, and the whole response that the batch converter makes of the same. */
module CopilotEnding {
  import opened Collections
  import opened CopilotEvents
  import opened CopilotHeard
  import opened CopilotBatch
  import opened CopilotKnown
  import opened CopilotProtocol
  import opened CopilotOutput

  // ---- The reason for ending ----------------------------------------------------------------------

  predicate HasReason(chunk: Chunk) {
    chunk.choice.Some? && chunk.choice.value.finish != ""
  }

  predicate NoErrors(chunks: seq<Chunk>) {
    forall k :: 0 <= k < |chunks| ==> !chunks[k].error
  }

  /** Chunk k is the last that gives a reason for ending. */
  predicate LastReason(chunks: seq<Chunk>, k: nat) {
    k < |chunks| && HasReason(chunks[k]) && forall j :: k < j < |chunks| ==> !HasReason(chunks[j])
  }

  function ReasonAfter(before: string, chunks: seq<Chunk>): string
    decreases |chunks|
  {
    if chunks == [] then before
    else ReasonAfter(if HasReason(chunks[0]) then chunks[0].choice.value.finish else before, chunks[1..])
  }

  lemma {:induction false} NoReason(before: string, chunks: seq<Chunk>)
    requires forall j :: 0 <= j < |chunks| ==> !HasReason(chunks[j])
    ensures ReasonAfter(before, chunks) == before
    decreases |chunks|
  {
    if chunks != [] { NoReason(before, chunks[1..]); }
  }

  lemma {:induction false} ReasonIsLast(before: string, chunks: seq<Chunk>, k: nat)
    requires LastReason(chunks, k)
    ensures ReasonAfter(before, chunks) == chunks[k].choice.value.finish
    decreases |chunks|
  {
    if k == 0 {
      NoReason(chunks[0].choice.value.finish, chunks[1..]);
    } else {
      assert chunks[1..][k - 1] == chunks[k];
      ReasonIsLast(if HasReason(chunks[0]) then chunks[0].choice.value.finish else before, chunks[1..], k - 1);
    }
  }

  // ---- What the chunks leave in the state -----------------------------------------------------------

  predicate SameReason(s: State, s': State) {
    s'.finishReason == s.finishReason && s'.failed == s.failed && s'.started == s.started
  }

  lemma TextSameReason(env: Env, s: State, delta: string)
    ensures SameReason(s, WriteText(env, s, delta)) && SameReason(s, WriteRefusal(env, s, delta))
  {
  }

  lemma CallSameReason(env: Env, s: State, call: CallDelta)
    ensures SameReason(s, WriteCall(env, s, call))
  {
    var named := NameTool(env, s, call);
    assert SameReason(s, named);
    if call.arguments != "" {
      var added := AddTool(env, named, call.index);
      assert SameReason(named, added);
      assert SameReason(added, WriteArguments(added, call.index, call.arguments));
    }
  }

  lemma {:induction false} CallsSameReason(env: Env, s: State, calls: seq<CallDelta>)
    ensures SameReason(s, WriteCalls(env, s, calls))
    decreases |calls|
  {
    if calls != [] {
      CallSameReason(env, s, calls[0]);
      CallsSameReason(env, WriteCall(env, s, calls[0]), calls[1..]);
    }
  }

  lemma ChoiceSameReason(env: Env, s: State, choice: Choice, s': State)
    requires s' == Choose(env, s, choice)
    ensures s'.started && s'.finishReason == s.finishReason && s'.failed == s.failed
  {
    var s1 := Start(s);
    TextSameReason(env, s1, choice.content);
    var s2 := MaybeWrite(env, s1, choice.content);
    TextSameReason(env, s2, choice.refusal);
    CallsSameReason(env, MaybeRefuse(env, s2, choice.refusal), choice.calls);
  }

  lemma ChunkReason(env: Env, s: State, chunk: Chunk, s': State)
    requires !chunk.error && s' == Consume(env, s, chunk)
    ensures s'.failed == s.failed && s'.started == (s.started || chunk.choice.Some?)
    ensures s'.finishReason == if HasReason(chunk) then chunk.choice.value.finish else s.finishReason
  {
    var named := if !s.started && chunk.id != "" then s.(responseId := env.responseId(chunk.id, s.responseId)) else s;
    if chunk.choice.Some? {
      ChoiceSameReason(env, named, chunk.choice.value, Choose(env, named, chunk.choice.value));
    }
  }

  lemma {:induction false} StreamReason(env: Env, s: State, chunks: seq<Chunk>, s': State)
    requires NoErrors(chunks) && !s.failed && s' == ConsumeAll(env, s, chunks)
    ensures !s'.failed && s'.finishReason == ReasonAfter(s.finishReason, chunks)
    ensures s'.started <==> s.started || exists k :: 0 <= k < |chunks| && chunks[k].choice.Some?
    decreases |chunks|
  {
    if chunks != [] {
      var next := Consume(env, s, chunks[0]);
      ChunkReason(env, s, chunks[0], next);
      StreamReason(env, next, chunks[1..], s');
      if k :| 0 <= k < |chunks[1..]| && chunks[1..][k].choice.Some? { assert chunks[k + 1].choice.Some?; }
      if k :| 0 <= k < |chunks| && chunks[k].choice.Some? { assert k > 0 ==> chunks[1..][k - 1].choice.Some?; }
    }
  }

  // ---- The last event -------------------------------------------------------------------------------

  /**
   A stream without errors ends if some chunk gives a reason. The last event is then the
   terminal one, incomplete if the last reason given is that the length or the content filter
   cut it off, and completed otherwise.
   */
  lemma EndsAsFinished(env: Env, first: string, chunks: seq<Chunk>, s: State, k: nat)
    requires s == ConsumeAll(env, First(first), chunks) && NoErrors(chunks) && LastReason(chunks, k)
    ensures !s.failed && Finish(env, s).Some?
    ensures var events, finish := Finish(env, s).value.events, chunks[k].choice.value.finish;
            && events != [] && events[|events| - 1].body.Terminal?
            && events[|events| - 1].body.status ==
                (if finish == "length" || finish == "content_filter" then "incomplete" else "completed")
  {
    StreamReason(env, First(first), chunks, s);
    ReasonIsLast("", chunks, k);
  }

  /** Without a reason a stream without errors does not end. */
  lemma NoReasonNoEnd(env: Env, first: string, chunks: seq<Chunk>, s: State)
    requires s == ConsumeAll(env, First(first), chunks) && NoErrors(chunks)
    requires forall k :: 0 <= k < |chunks| ==> !HasReason(chunks[k])
    ensures !s.failed && Finish(env, s) == None
  {
    StreamReason(env, First(first), chunks, s);
    NoReason("", chunks);
  }

  /** The first error is the last event, whatever comes after it. */
  lemma {:induction false} ErrorIsLast(env: Env, s: State, chunks: seq<Chunk>, s': State, k: nat)
    requires !s.failed && s' == ConsumeAll(env, s, chunks) && k < |chunks| && chunks[k].error && NoErrors(chunks[..k])
    ensures s'.failed && s'.events != [] && s'.events[|s'.events| - 1].body == Error
    ensures ConsumeAll(env, s, chunks[..k + 1]) == s'
    decreases |chunks|
  {
    var next := Consume(env, s, chunks[0]);
    if k > 0 {
      assert !chunks[0].error by { assert chunks[..k][0] == chunks[0]; }
      ChunkReason(env, s, chunks[0], next);
      assert chunks[1..][k - 1] == chunks[k] && chunks[1..][..k - 1] == chunks[..k][1..];
      ErrorIsLast(env, next, chunks[1..], s', k - 1);
    }
    assert chunks[..k + 1][0] == chunks[0] && chunks[..k + 1][1..] == chunks[1..][..k];
  }

  // ---- The batch converter's response -----------------------------------------------------------------

  datatype ChatChoice = ChatChoice(message: Option<ChatMessage>, finish: string)
  datatype Completion = Completion(id: string, choice: Option<ChatChoice>)
  datatype Response = Response(id: string, status: string, output: seq<Item>)

  function Respond(env: Env, fallback: string, completion: Completion): Option<Response> {
    match completion.choice
    case Some(ChatChoice(Some(message), finish)) =>
      var id := ResponseId(completion.id, fallback);
      (match Batch(env, id, message)
       case None => None
       case Some(output) => Some(Response(id, Status(finish), output)))
    case _ => None
  }

  /** ChatCompletionToResponse: an error without a choice, without a message, and for an incomplete call. */
  method ChatCompletionToResponse(env: Env, fallback: string, completion: Completion) returns (r: Option<Response>)
    ensures r == Respond(env, fallback, completion)
    ensures r.Some? <==> (completion.choice.Some? && completion.choice.value.message.Some? &&
                          forall k :: 0 <= k < |completion.choice.value.message.value.calls| ==>
                            Complete(completion.choice.value.message.value.calls[k]))
    ensures r.Some? ==>
              r.value.status ==
              if completion.choice.value.finish in ["length", "content_filter"] then "incomplete" else "completed"
  {
    if completion.choice.None? || completion.choice.value.message.None? { return None; }
    var id := ResponseId(completion.id, fallback);
    var output := ChatMessageToOutput(env, id, completion.choice.value.message.value);
    if output.None? { return None; }
    return Some(Response(id, Status(completion.choice.value.finish), output.value));
  }

  /** The completion that would carry what the chunks say, with the last reason given. */
  function Gathered(chunks: seq<Chunk>, k: nat): Completion
    requires LastReason(chunks, k)
  {
    Completion(ChatId("", chunks), Some(ChatChoice(Some(Accumulated(AllSaid(chunks))), chunks[k].choice.value.finish)))
  }

  /** The stream's response as the terminal event carries it. */
  function Streamed(s: State, whole: State): Option<Response> {
    if whole.events == [] || !whole.events[|whole.events| - 1].body.Terminal? then None
    else
      var last := whole.events[|whole.events| - 1].body;
      Some(Response(s.responseId, last.status, last.items))
  }

  lemma FinishStreams(env: Env, s: State, whole: State, done: State)
    requires Finish(env, s) == Some(whole) && done == FinishTools(env, FinishMessage(env, s), 0)
    ensures Streamed(s, whole) == Some(Response(s.responseId, Status(s.finishReason), Output(env, done)))
  {
  }

  /**
   The response of the terminal event, id, status and output, is the batch converter's for the
   accumulated completion exactly if nothing came out of order.
   */
  lemma ResponseIsBatch(env: Env, fallback: string, chunks: seq<Chunk>, s: State, k: nat)
    requires Names(env) && s == ConsumeAll(env, First(ResponseId("", fallback)), chunks)
    requires NoErrors(chunks) && LastReason(chunks, k)
    ensures Finish(env, s).Some?
    ensures Streamed(s, Finish(env, s).value) == Respond(env, fallback, Gathered(chunks, k)) <==>
      InOrder(env, AllSaid(chunks))
  {
    EndsAsFinished(env, ResponseId("", fallback), chunks, s, k);
    StreamReason(env, First(ResponseId("", fallback)), chunks, s);
    ReasonIsLast("", chunks, k);
    var done := FinishTools(env, FinishMessage(env, s), 0);
    FinishStreams(env, s, Finish(env, s).value, done);
    StreamIsBatch(env, fallback, chunks, s, done);
  }
}
