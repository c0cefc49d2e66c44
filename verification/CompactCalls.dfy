/** The loop that turns chunks into one rolling summary, against any upstream, any clock and any cancellation. */
module CompactCalls {
  import opened Utf8
  import opened CompactParts
  import opened CompactRun

  /** Characters that strings.TrimSpace removes. */
  predicate IsWhite(r: rune) {
    || 0x09 <= r <= 0x0D || r == 0x20 || r == 0x85 || r == 0xA0 || r == 0x1680 || 0x2000 <= r <= 0x200A
    || r == 0x2028 || r == 0x2029 || r == 0x202F || r == 0x205F || r == 0x3000
  }

  predicate Blank(text: seq<byte>) {
    forall r :: r in DecodeAll(text) ==> IsWhite(r)
  }

  /** A text is blank exactly if its characters are all white space: blanks, line ends, and the wide ones of Unicode. */
  lemma BlankExactly(runes: seq<rune>)
    ensures Blank(EncodeAll(runes)) <==>
      forall k :: 0 <= k < |runes| ==>
        runes[k] in {0x09, 0x0A, 0x0B, 0x0C, 0x0D, 0x20, 0x85, 0xA0, 0x1680, 0x2028, 0x2029, 0x202F, 0x205F, 0x3000} ||
        0x2000 <= runes[k] <= 0x200A
  {
    DecodeAllEncodeAll(runes);
    forall k | 0 <= k < |runes|
      ensures runes[k] in DecodeAll(EncodeAll(runes))
    {
    }
  }

  /** What one summary request brings back. */
  datatype Answer = Answered(text: seq<byte>, input: int, output: int) | Rejected(capacity: bool) | Broken

  /** The n-th turn of the loop: was the context done before the call, what came back, was it done afterwards. */
  datatype Reply = Reply(doneBefore: bool, answer: Answer, doneAfter: bool)

  /** A request that was sent: its parts, the previous summary it carried, and the answer. */
  datatype Call = Call(parts: seq<Part>, previous: seq<byte>, answer: Answer)

  datatype Summary = Summary(text: seq<byte>, input: int, output: int)

  datatype Result = Done(summary: Summary) | Unsupported | Canceled | Invalid | Refused

  predicate Worked(c: Call) {
    c.answer.Answered?
  }

  /** Among the first n calls, the parts of those that were answered, in order. */
  function Segments(sent: seq<Call>, n: nat): seq<seq<Part>>
    requires n <= |sent|
  {
    if n == 0 then []
    else Segments(sent, n - 1) + (if Worked(sent[n - 1]) then [sent[n - 1].parts] else [])
  }

  function Roll(before: Summary, last: Answer): Summary {
    if last.Answered? then Summary(last.text, before.input + last.input, before.output + last.output) else before
  }

  /** The rolling summary after n calls: the latest text, and the sums of the token counts. */
  function Rolled(sent: seq<Call>, n: nat): Summary
    requires n <= |sent|
  {
    if n == 0 then Summary([], 0, 0) else Roll(Rolled(sent, n - 1), sent[n - 1].answer)
  }

  /** Among the first n calls, those whose rejection was replaced by a split. */
  function Rejections(sent: seq<Call>, n: nat): seq<nat>
    requires n <= |sent|
  {
    if n == 0 then []
    else Rejections(sent, n - 1) + (if sent[n - 1].answer.Rejected? then [n - 1] else [])
  }

  /** The first n calls alone matter. */
  lemma {:induction false} FirstCalls(sent: seq<Call>, c: Call, n: nat)
    requires n <= |sent|
    ensures Segments(sent + [c], n) == Segments(sent, n)
    ensures Rolled(sent + [c], n) == Rolled(sent, n)
    ensures Rejections(sent + [c], n) == Rejections(sent, n)
  {
    if n > 0 { FirstCalls(sent, c, n - 1); }
  }

  predicate Usable(a: Answer) {
    a.Answered? ==> !Blank(a.text) && |a.text| <= MAX_SUMMARY_BYTES
  }

  /** What the next call after a capacity rejection sends: the first of two strictly smaller halves. */
  ghost predicate Resplit(failed: seq<Part>, next: seq<Part>) {
    exists right :: Halves(failed, next, right)
  }

  ghost predicate CallOk(sent: seq<Call>, i: nat)
    requires i < |sent|
  {
    && sent[i].previous == Rolled(sent, i).text
    && (i > 0 && !Worked(sent[i - 1]) ==> Resplit(sent[i - 1].parts, sent[i].parts))
  }

  /** At most 128 calls; each carries the rolling summary; a call after a rejected one sends half of it. */
  ghost predicate Sound(sent: seq<Call>) {
    |sent| <= MAX_CALLS && forall i :: 0 <= i < |sent| ==> CallOk(sent, i)
  }

  /** A call that the loop went on from. */
  predicate Survived(c: Call) {
    Usable(c.answer) && (c.answer.Answered? || c.answer == Rejected(true))
  }

  predicate AllSurvived(sent: seq<Call>) {
    forall i :: 0 <= i < |sent| ==> Survived(sent[i])
  }

  predicate Requests(queue: seq<seq<Part>>) {
    forall k :: 0 <= k < |queue| ==> WellFormed(queue[k]) && queue[k] != []
  }

  /** What was answered and what waits is the transcript. */
  ghost predicate Covers(parts: seq<Part>, answered: seq<seq<Part>>, queue: seq<seq<Part>>) {
    CutOf(parts, Concat(answered) + Concat(queue))
  }

  /** A rejected request is replaced by its first half. */
  ghost predicate Pending(sent: seq<Call>, queue: seq<seq<Part>>) {
    sent != [] && !Worked(sent[|sent| - 1]) ==> queue != [] && Resplit(sent[|sent| - 1].parts, queue[0])
  }

  /** Between two turns of the loop. */
  ghost predicate Running(parts: seq<Part>, sent: seq<Call>, queue: seq<seq<Part>>) {
    Sound(sent) && AllSurvived(sent) && Requests(queue) && Covers(parts, Segments(sent, |sent|), queue) &&
      Pending(sent, queue)
  }

  lemma SoundSend(sent: seq<Call>, c: Call)
    requires Sound(sent) && |sent| < MAX_CALLS && c.previous == Rolled(sent, |sent|).text
    requires sent != [] && !Worked(sent[|sent| - 1]) ==> Resplit(sent[|sent| - 1].parts, c.parts)
    ensures Sound(sent + [c])
  {
    forall i | 0 <= i <= |sent|
      ensures CallOk(sent + [c], i)
    {
      FirstCalls(sent, c, i);
      if i < |sent| { assert CallOk(sent, i); }
    }
  }

  lemma AnsweredCovers(parts: seq<Part>, before: seq<seq<Part>>, queue: seq<seq<Part>>)
    requires queue != [] && Covers(parts, before, queue)
    ensures Covers(parts, before + [queue[0]], queue[1..])
  {
    ConcatAppend(before, [queue[0]]);
    ConcatOne(queue[0]);
    Assoc(Concat(before), queue[0], Concat(queue[1..]));
  }

  lemma Assoc<T>(a: seq<T>, b: seq<T>, c: seq<T>)
    ensures a + b + c == a + (b + c)
  {
  }

  lemma OneMore(sent: seq<Call>, c: Call)
    ensures |sent + [c]| == |sent| + 1 && (sent + [c])[|sent|] == c && (sent + [c])[..|sent|] == sent
    ensures Rolled(sent + [c], |sent|) == Rolled(sent, |sent|) &&
      Rejections(sent + [c], |sent|) == Rejections(sent, |sent|)
    ensures Segments(sent + [c], |sent| + 1) ==
            if Worked(c) then Segments(sent, |sent|) + [c.parts] else Segments(sent, |sent|)
    ensures Rejections(sent + [c], |sent| + 1) ==
            if c.answer.Rejected? then Rejections(sent, |sent|) + [|sent|] else Rejections(sent, |sent|)
  {
    FirstCalls(sent, c, |sent|);
  }

  lemma AnsweredKeeps(parts: seq<Part>, sent: seq<Call>, queue: seq<seq<Part>>, c: Call)
    requires Running(parts, sent, queue) && queue != [] && |sent| < MAX_CALLS && Sound(sent + [c])
    requires c.parts == queue[0] && c.answer.Answered? && Usable(c.answer)
    ensures Running(parts, sent + [c], queue[1..])
  {
    OneMore(sent, c);
    AnsweredCovers(parts, Segments(sent, |sent|), queue);
  }

  lemma Reassociate<T>(a: seq<T>, b: seq<T>, c: seq<T>, d: seq<T>)
    ensures a + (b + (c + d)) == a + (b + c) + d && a + (b + c + d) == a + (b + c) + d
  {
  }

  lemma CutAgain(parts: seq<Part>, before: seq<Part>, failed: seq<Part>, left: seq<Part>, right: seq<Part>,
                 rest: seq<Part>)
    requires CutOf(parts, before + (failed + rest)) && Halves(failed, left, right) && failed != []
    ensures CutOf(parts, before + (left + (right + rest)))
  {
    Reassociate(before, left, right, rest);
    if |failed| == 1 {
      TwoTextsArePieces(failed[0], left, right);
      assert failed == [failed[0]];
      assert before + (failed + rest) == before + [failed[0]] + rest;
      CutFurther(parts, before, failed[0], left + right, rest);
    } else {
      assert before + (left + right + rest) == before + (left + right) + rest;
    }
  }

  lemma ConcatTwo(left: seq<Part>, right: seq<Part>, rest: seq<seq<Part>>)
    ensures Concat([left, right] + rest) == left + (right + Concat(rest))
  {
    var queue := [left, right] + rest;
    assert queue[1..] == [right] + rest && queue[1..][1..] == rest;
  }

  lemma RejectedCovers(parts: seq<Part>, answered: seq<seq<Part>>, queue: seq<seq<Part>>, left: seq<Part>,
                       right: seq<Part>)
    requires queue != [] && queue[0] != [] && Covers(parts, answered, queue) && Halves(queue[0], left, right)
    ensures Covers(parts, answered, [left, right] + queue[1..])
  {
    ConcatTwo(left, right, queue[1..]);
    CutAgain(parts, Concat(answered), queue[0], left, right, Concat(queue[1..]));
  }

  lemma RejectedRequests(queue: seq<seq<Part>>, left: seq<Part>, right: seq<Part>)
    requires Requests(queue) && queue != [] && Halves(queue[0], left, right)
    ensures Requests([left, right] + queue[1..])
  {
    var queue' := [left, right] + queue[1..];
    assert forall k :: 2 <= k < |queue'| ==> queue'[k] == queue[k - 1];
  }

  lemma RejectedKeeps(parts: seq<Part>, sent: seq<Call>, queue: seq<seq<Part>>, c: Call, left: seq<Part>,
                      right: seq<Part>)
    requires Running(parts, sent, queue) && queue != [] && |sent| < MAX_CALLS && Sound(sent + [c])
    requires c.parts == queue[0] && c.answer == Rejected(true) && Halves(queue[0], left, right)
    ensures Running(parts, sent + [c], [left, right] + queue[1..])
  {
    OneMore(sent, c);
    RejectedCovers(parts, Segments(sent, |sent|), queue, left, right);
    RejectedRequests(queue, left, right);
    assert Resplit(c.parts, left);
  }

  lemma {:induction false} ConcatEmpty(groups: seq<seq<Part>>)
    requires Concat(groups) == [] && forall k :: 0 <= k < |groups| ==> groups[k] != []
    ensures groups == []
  {
  }

  /** There is something to send exactly when there is something to summarise. */
  lemma NothingToSend(parts: seq<Part>, chunks: seq<seq<Part>>)
    requires CutOf(parts, Concat(chunks)) && Requests(chunks)
    ensures parts == [] <==> chunks == []
  {
    var groups :| Grouped(parts, groups) && Concat(groups) == Concat(chunks);
    if parts == [] {
      ConcatEmpty(chunks);
    } else if chunks == [] {
      assert Pieces(parts[0], groups[0]);
      assert forall k :: 0 <= k < |groups| ==> Pieces(parts[k], groups[k]);
      ConcatEmpty(groups);
    }
  }

  lemma ChunksAreRequests(chunks: seq<seq<Part>>)
    requires AllChunks(chunks)
    ensures Requests(chunks)
  {
    forall k | 0 <= k < |chunks|
      ensures WellFormed(chunks[k]) && chunks[k] != []
    {
      assert chunks[k] in chunks;
    }
  }

  lemma RunStart(parts: seq<Part>, chunks: seq<seq<Part>>)
    requires CutOf(parts, Concat(chunks)) && Requests(chunks)
    ensures Running(parts, [], chunks)
  {
    var sent: seq<Call> := [];
    assert Sound(sent) && AllSurvived(sent) && Pending(sent, chunks);
    CoversAll(parts, chunks);
  }

  lemma CoversAll(parts: seq<Part>, chunks: seq<seq<Part>>)
    requires CutOf(parts, Concat(chunks))
    ensures Covers(parts, [], chunks)
  {
    assert Concat([]) + Concat(chunks) == Concat(chunks);
  }

  lemma RunEnd(parts: seq<Part>, sent: seq<Call>)
    requires Running(parts, sent, [])
    ensures CutOf(parts, Concat(Segments(sent, |sent|)))
  {
    assert Concat(Segments(sent, |sent|)) + Concat([]) == Concat(Segments(sent, |sent|));
  }

  /** The answers are the world's. */
  predicate FromWorld(sent: seq<Call>, world: nat -> Reply) {
    forall i :: 0 <= i < |sent| ==> sent[i].answer == world(i).answer
  }

  lemma FromWorldMore(sent: seq<Call>, world: nat -> Reply, c: Call)
    requires FromWorld(sent, world) && c.answer == world(|sent|).answer
    ensures FromWorld(sent + [c], world)
  {
  }

  /** Why the loop stops after a call, if it does. */
  datatype Verdict = Next | Stop(result: Result)

  /** What the loop does with the answer to the call it has just made, number `calls`. */
  method Digest(parts: seq<Part>, ghost before: seq<Call>, calls: nat, call: Call, doneAfter: bool,
                waiting: seq<seq<Part>>, shut: seq<nat>)
    returns (verdict: Verdict, queue: seq<seq<Part>>, closed: seq<nat>)
    requires Running(parts, before, waiting) && waiting != [] && calls == |before| < MAX_CALLS && Sound(before + [call])
    requires call.parts == waiting[0] && shut == Rejections(before, |before|)
    ensures verdict.Next? ==> Running(parts, before + [call], queue) && !(call.answer == Broken)
    ensures closed == if verdict.Stop? && verdict.result.Refused? then shut else Rejections(before + [call], calls + 1)
    ensures verdict.Stop? ==>
              match verdict.result
              case Canceled => doneAfter
              case Invalid => !Usable(call.answer)
              case Refused =>
                !Worked(call) && (call.answer == Rejected(true) ==> !Splittable(call.parts) || calls + 1 == MAX_CALLS)
              case _ => false
  {
    OneMore(before, call);
    queue, closed := waiting, shut;
    if doneAfter {
      if call.answer.Rejected? { closed := closed + [calls]; }
      return Stop(Canceled), queue, closed;
    }
    if !call.answer.Answered? {
      var left, right, split := SplitParts(call.parts);
      if call.answer != Rejected(true) || !split || calls + 1 >= MAX_CALLS { return Stop(Refused), queue, closed; }
      RejectedKeeps(parts, before, waiting, call, left, right);
      return Next, [left, right] + waiting[1..], closed + [calls];
    }
    if !Usable(call.answer) { return Stop(Invalid), queue, closed; }
    AnsweredKeeps(parts, before, waiting, call);
    return Next, waiting[1..], closed;
  }

  /** Why a run may end without a summary once it has started calling. */
  ghost predicate Stopped(parts: seq<Part>, world: nat -> Reply, sent: seq<Call>, result: Result) {
    match result
    case Refused =>
      && sent != [] && !Worked(sent[|sent| - 1])
      && (sent[|sent| - 1].answer == Rejected(true) ==> !Splittable(sent[|sent| - 1].parts) || |sent| == MAX_CALLS)
    case Invalid => sent != [] && !Usable(sent[|sent| - 1].answer)
    case Canceled => world(|sent|).doneBefore || (sent != [] && world(|sent| - 1).doneAfter)
    case _ => false
  }

  /** What is to be sent next cannot be: the calls are used up, or the request does not fit. */
  ghost predicate CannotAsk(parts: seq<Part>, fits: (seq<byte>, seq<Part>) -> bool, sent: seq<Call>,
                            queue: seq<seq<Part>>) {
    && Running(parts, sent, queue) && queue != []
    && (|sent| == MAX_CALLS || !fits(Rolled(sent, |sent|).text, queue[0]))
  }

  /** Why a run is refused without asking the upstream: it cannot be chunked, or the request at hand cannot be sent. */
  ghost predicate TooMuch(parts: seq<Part>, fits: (seq<byte>, seq<Part>) -> bool, sent: seq<Call>) {
    || (sent == [] && (OversizedImage(parts) || Crowded(parts)))
    || exists queue :: CannotAsk(parts, fits, sent, queue)
  }

  /** The rejections whose bodies are closed: all of them, except one that is handed to the caller. */
  predicate ClosedOnce(sent: seq<Call>, closed: seq<nat>, result: Result) {
    closed == Rejections(sent, if result.Refused? && sent != [] then |sent| - 1 else |sent|)
  }

  /** One call, and what becomes of the queue. */
  method Turn(parts: seq<Part>, world: nat -> Reply, sent0: seq<Call>, previous: seq<byte>, queue0: seq<seq<Part>>,
              closed0: seq<nat>)
    returns (verdict: Verdict, sent: seq<Call>, queue: seq<seq<Part>>, closed: seq<nat>)
    requires Running(parts, sent0, queue0) && FromWorld(sent0, world) && queue0 != [] && |sent0| < MAX_CALLS
    requires previous == Rolled(sent0, |sent0|).text && closed0 == Rejections(sent0, |sent0|)
    ensures FromWorld(sent, world) && Sound(sent) && |sent| == |sent0| + 1 &&
      Rolled(sent, |sent0|) == Rolled(sent0, |sent0|)
    ensures verdict.Next? ==> Running(parts, sent, queue) && closed == Rejections(sent, |sent|)
    ensures verdict.Stop? ==>
              && ClosedOnce(sent, closed, verdict.result)
              && (verdict.result.Canceled? || verdict.result.Invalid? || verdict.result.Refused?)
              && Stopped(parts, world, sent, verdict.result)
  {
    var calls := |sent0|;
    var call := Call(queue0[0], previous, world(calls).answer);
    SoundSend(sent0, call);
    FromWorldMore(sent0, world, call);
    OneMore(sent0, call);
    sent := sent0 + [call];
    verdict, queue, closed := Digest(parts, sent0, calls, call, world(calls).doneAfter, queue0, closed0);
    if verdict.Stop? { LastCallStops(parts, world, sent0, call, verdict.result); }
  }

  lemma LastCallStops(parts: seq<Part>, world: nat -> Reply, before: seq<Call>, call: Call, result: Result)
    requires match result
             case Canceled => world(|before|).doneAfter
             case Invalid => !Usable(call.answer)
             case Refused =>
               !Worked(call) && (call.answer == Rejected(true) ==> !Splittable(call.parts) || |before| + 1 == MAX_CALLS)
             case _ => false
    ensures Stopped(parts, world, before + [call], result)
  {
    var sent := before + [call];
    assert sent[|sent| - 1] == call && |sent| - 1 == |before|;
  }

  /** What a finished run has done: shown the upstream the whole transcript, in order, in calls that were all used. */
  ghost predicate Finished(parts: seq<Part>, sent: seq<Call>, summary: Summary) {
    && CutOf(parts, Concat(Segments(sent, |sent|)))
    && summary == Rolled(sent, |sent|)
    && AllSurvived(sent)
    && (parts == [] <==> sent == [])
  }

  lemma FinishedRun(parts: seq<Part>, sent: seq<Call>)
    requires Running(parts, sent, []) && (parts == [] <==> sent == [])
    ensures Finished(parts, sent, Rolled(sent, |sent|)) && Sound(sent)
  {
    RunEnd(parts, sent);
  }

  /** The loop of Run. */
  method CallAll(parts: seq<Part>, fits: (seq<byte>, seq<Part>) -> bool, world: nat -> Reply, chunks: seq<seq<Part>>)
    returns (result: Result, sent: seq<Call>, closed: seq<nat>)
    requires Running(parts, [], chunks) && (parts == [] <==> chunks == [])
    ensures Sound(sent) && FromWorld(sent, world) && ClosedOnce(sent, closed, result)
    ensures result.Done? ==> Finished(parts, sent, result.summary)
    ensures result.Unsupported? ==> TooMuch(parts, fits, sent)
    ensures !result.Done? && !result.Unsupported? ==> Stopped(parts, world, sent, result)
  {
    sent, closed := [], [];
    var queue, summary := chunks, Summary([], 0, 0);
    while |queue| > 0
      invariant Running(parts, sent, queue) && FromWorld(sent, world)
      invariant summary == Rolled(sent, |sent|) && closed == Rejections(sent, |sent|)
      invariant parts == [] <==> sent == [] && queue == []
      decreases MAX_CALLS - |sent|
    {
      if world(|sent|).doneBefore { return Canceled, sent, closed; }
      if |sent| >= MAX_CALLS || !fits(summary.text, queue[0]) {
        assert CannotAsk(parts, fits, sent, queue);
        return Unsupported, sent, closed;
      }
      var verdict;
      verdict, sent, queue, closed := Turn(parts, world, sent, summary.text, queue, closed);
      if verdict.Stop? { return verdict.result, sent, closed; }
      summary := Roll(summary, sent[|sent| - 1].answer);
    }
    FinishedRun(parts, sent);
    return Done(summary), sent, closed;
  }

  /** Run: chunk, then call. A rejected body is closed unless it is returned. */
  method Run(parts: seq<Part>, done: bool, fits: (seq<byte>, seq<Part>) -> bool, world: nat -> Reply)
    returns (result: Result, sent: seq<Call>, closed: seq<nat>)
    requires WellFormed(parts)
    ensures Sound(sent) && FromWorld(sent, world) && ClosedOnce(sent, closed, result)
    ensures result.Done? ==> Finished(parts, sent, result.summary)
    ensures result.Unsupported? ==> TooMuch(parts, fits, sent)
    ensures !done && (OversizedImage(parts) || Crowded(parts)) ==> result.Unsupported? && sent == []
    ensures !result.Done? && !result.Unsupported? ==> Stopped(parts, world, sent, result) || (result.Canceled? && done)
  {
    if done { return Canceled, [], []; }
    var chunks, ok := Chunks(parts);
    if !ok { return Unsupported, [], []; }
    ChunksAreRequests(chunks);
    RunStart(parts, chunks);
    NothingToSend(parts, chunks);
    result, sent, closed := CallAll(parts, fits, world, chunks);
  }
}
