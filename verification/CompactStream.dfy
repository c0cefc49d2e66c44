/**
 The streaming compaction job: the goroutine that runs inference, the caller that decides
 between a plain failure and a stream, and the goroutine that writes the stream. Steps of the
 three, and cancellation, come in any order.
 */
module CompactStream {
  import opened Collections

  /** How a job ended: with a summary, with a rejected upstream response whose body is open, or otherwise. */
  datatype Outcome = Success | Rejection | Failure

  datatype Job = Working | Sending(outcome: Outcome) | Exited

  datatype Main =
    | Selecting
    | Received(outcome: Outcome)
    | Declining(outcome: Outcome)
    | Canceling
    | ReturnedError(outcome: Outcome)
    | ReturnedResponse
    | ReturnedCanceled
    | ReturnedStream

  datatype Writer = Absent | Beginning | Looping | Draining | Finished

  /**
   `started` and the job's exit are closed channels, `results` the channel with one slot;
   `last` is the outcome once the job has one, `closes` counts closings of its rejected body,
   `terminals` the terminal events written and `told` what the last of them tells the client,
   `used` that a result was taken for good.
   */
  datatype State = State(
    started: bool, canceled: bool, job: Job, results: Option<Outcome>, main: Main, writer: Writer,
    last: Option<Outcome>, terminals: nat, told: Option<Outcome>, closes: nat, used: bool)

  const START := State(false, false, Working, None, Selecting, Absent, None, 0, None, 0, false)

  datatype Event =
    | Accept                        // the upstream accepts a summary request: started is closed
    | Finish(outcome: Outcome)      // the job has a result
    | Send                          // and puts it into the channel, then exits
    | Cancel                        // the caller, or closing the stream's body
    | SelectResult | SelectDone | SelectStarted
    | Decide                        // the inner select after a result was received
    | Return                        // the work has ended: return what was decided
    | Begin(ok: bool) | Tick(ok: bool) | TakeResult | SeeDone
    | Drain                         // stopInbandWork after the writer's loop

  /** Closing the body of a rejection. */
  function Dispose(s: State, o: Outcome): State {
    if o.Rejection? then s.(closes := s.closes + 1, used := true) else s.(used := true)
  }

  /** A send on the results channel; the sender would wait if the slot were taken. */
  function Put(s: State, o: Outcome): Option<State> {
    if s.results.None? then Some(s.(results := Some(o))) else None
  }

  function Step(s: State, ev: Event): Option<State> {
    match ev
    case Accept => if s.job.Working? then Some(s.(started := true)) else None
    case Finish(o) => if s.job.Working? then Some(s.(job := Sending(o), last := Some(o))) else None
    case Send =>
      if s.job.Sending? && Put(s, s.job.outcome).Some? then Some(Put(s, s.job.outcome).value.(job := Exited)) else None
    case Cancel => Some(s.(canceled := true))
    case SelectResult =>
      if s.main.Selecting? && s.results.Some? then Some(s.(results := None, main := Received(s.results.value)))
      else None
    case SelectDone => if s.main.Selecting? && s.canceled then Some(s.(main := Canceling)) else None
    case SelectStarted =>
      if s.main.Selecting? && s.started then Some(s.(main := ReturnedStream, writer := Beginning)) else None
    case Decide =>
      if !s.main.Received? then None
      else if !s.started then Some(s.(canceled := true, main := Declining(s.main.outcome)))
      else if Put(s, s.main.outcome).Some?
        then Some(Put(s, s.main.outcome).value.(main := ReturnedStream, writer := Beginning))
      else None
    case Return =>
      if s.job != Exited then None
      else if s.main.Declining? then
        if s.main.outcome.Success? then Some(s.(main := ReturnedResponse, used := true))
        else Some(s.(main := ReturnedError(s.main.outcome)))
      else if s.main.Canceling? then
        Some((if s.results.Some? then Dispose(s.(results := None), s.results.value) else s).(main := ReturnedCanceled))
      else None
    case Begin(ok) => if s.writer.Beginning? then Some(s.(writer := if ok then Looping else Draining)) else None
    case Tick(ok) => if s.writer.Looping? then Some(s.(writer := if ok then Looping else Draining)) else None
    case SeeDone => if s.writer.Looping? && s.canceled then Some(s.(writer := Draining)) else None
    case TakeResult =>
      if s.writer.Looping? && s.results.Some?
      then Some(Dispose(s.(results := None), s.results.value)
                .(writer := Draining, terminals := s.terminals + 1, told := s.results))
      else None
    case Drain =>
      if s.writer.Draining? && s.job == Exited then
        Some((if s.results.Some? then Dispose(s.(results := None), s.results.value)
          else s).(writer := Finished, canceled := true))
      else None
  }

  function One(yes: bool): nat {
    if yes then 1 else 0
  }

  /** In how many places the result of the job is. */
  function Places(s: State): nat {
    One(s.job.Sending?) + One(s.results.Some?) + One(s.main.Received? || s.main.Declining? ||
      s.main.ReturnedError?) + One(s.used)
  }

  predicate Streaming(s: State) {
    s.main.ReturnedStream?
  }

  predicate Ok(s: State) {
    && Places(s) == One(s.last.Some?) && (s.job.Working? <==> s.last.None?)
    && (s.job.Sending? ==> s.last == Some(s.job.outcome)) && (s.results.Some? ==> s.results == s.last)
    && (s.main.Received? || s.main.Declining? || s.main.ReturnedError? ==>
       s.last == Some(s.main.outcome) && s.job.Exited?)
    && (s.main.Declining? || s.main.ReturnedError? || s.main.ReturnedResponse? ==> !s.started)
    && (s.main.ReturnedError? ==> !s.main.outcome.Success?)
    && (s.main.ReturnedResponse? ==> s.used && s.last == Some(Success))
    && (s.main.ReturnedCanceled? || s.main.Canceling? ==> s.canceled)
    && (s.main.ReturnedCanceled? || s.main.ReturnedError? || s.main.ReturnedResponse? ==> s.job.Exited?)
    && (s.writer.Absent? <==> !Streaming(s)) && (Streaming(s) ==> s.started)
    && (s.writer.Finished? || s.main.ReturnedCanceled? ==> s.job.Exited? && s.results.None?)
    && s.closes == One(s.used && s.last == Some(Rejection))
    && s.terminals <= One(s.used && (s.writer.Draining? || s.writer.Finished?))
    && (s.told.Some? <==> s.terminals > 0) && (s.told.Some? ==> s.told == s.last)
  }

  lemma JobStepOk(s: State, ev: Event, s': State)
    requires Ok(s) && Step(s, ev) == Some(s') && (ev.Accept? || ev.Finish? || ev.Send? || ev.Cancel?)
    ensures Ok(s')
  {
  }

  lemma MainStepOk(s: State, ev: Event, s': State)
    requires Ok(s) && Step(s, ev) == Some(s')
    requires ev.SelectResult? || ev.SelectDone? || ev.SelectStarted? || ev.Decide? || ev.Return?
    ensures Ok(s')
  {
  }

  lemma WriterStepOk(s: State, ev: Event, s': State)
    requires Ok(s) && Step(s, ev) == Some(s') && (ev.Begin? || ev.Tick? || ev.SeeDone? || ev.TakeResult? || ev.Drain?)
    ensures Ok(s')
  {
  }

  lemma StepOk(s: State, ev: Event, s': State)
    requires Ok(s) && Step(s, ev) == Some(s')
    ensures Ok(s')
  {
    if ev.Accept? || ev.Finish? || ev.Send? || ev.Cancel? {
      JobStepOk(s, ev, s');
    } else if ev.SelectResult? || ev.SelectDone? || ev.SelectStarted? || ev.Decide? || ev.Return? {
      MainStepOk(s, ev, s');
    } else {
      WriterStepOk(s, ev, s');
    }
  }

  /** Nothing has happened yet. */
  predicate Untouched(s: State) {
    && s.job.Working? && s.main.Selecting? && s.writer.Absent? && s.results.None? && s.last.None?
    && !s.used && !s.started && s.closes == 0 && s.terminals == 0 && s.told.None?
  }

  lemma StartUntouched()
    ensures Untouched(START)
  {
  }

  lemma UntouchedOk(s: State)
    requires Untouched(s)
    ensures Ok(s)
  {
  }

  ghost predicate Follows(s: State, ev: Event, s': State) {
    Step(s, ev) == Some(s')
  }

  ghost predicate IsRun(states: seq<State>, events: seq<Event>) {
    && |states| == |events| + 1 && states[0] == START
    && forall i {:trigger events[i]} :: 0 <= i < |events| ==> Follows(states[i], events[i], states[i + 1])
  }

  lemma {:induction false} RunsOk(states: seq<State>, events: seq<Event>, i: nat)
    requires IsRun(states, events) && i < |states|
    ensures Ok(states[i])
  {
    if i == 0 {
      StartUntouched();
      UntouchedOk(states[0]);
    } else {
      RunsOk(states, events, i - 1);
      assert Follows(states[i - 1], events[i - 1], states[i]);
      StepOk(states[i - 1], events[i - 1], states[i]);
    }
  }

  /** No sender ever waits for the slot: neither the job, nor the caller putting a result back. */
  lemma ChannelNeverBlocks(states: seq<State>, events: seq<Event>, i: nat)
    requires IsRun(states, events) && i < |states|
    ensures states[i].job.Sending? ==> Step(states[i], Send).Some?
    ensures states[i].main.Received? ==> Step(states[i], Decide).Some?
  {
    RunsOk(states, events, i);
  }

  /**
   A result that did not come from cancellation is returned as a plain, retryable failure only
   if no summary request was accepted, ever.
   */
  lemma FailureMeansNotAccepted(states: seq<State>, events: seq<Event>, i: nat, j: nat)
    requires IsRun(states, events) && i < |states| && j < |states| && states[i].main.ReturnedError?
    ensures !states[j].started
  {
    RunsOk(states, events, i);
    if i <= j { Frozen(states, events, i, j); } else { StartedStays(states, events, j, i); }
  }

  lemma {:induction false} StartedStays(states: seq<State>, events: seq<Event>, i: nat, j: nat)
    requires IsRun(states, events) && i <= j < |states|
    ensures states[i].started ==> states[j].started
    decreases j
  {
    if i < j { StartedStays(states, events, i, j - 1); assert Follows(states[j - 1], events[j - 1], states[j]); }
  }

  /** After the job has exited nothing is accepted any more. */
  lemma {:induction false} Frozen(states: seq<State>, events: seq<Event>, i: nat, j: nat)
    requires IsRun(states, events) && i <= j < |states| && states[i].job.Exited?
    ensures states[j].job.Exited? && states[j].started == states[i].started
    decreases j
  {
    if i < j { Frozen(states, events, i, j - 1); assert Follows(states[j - 1], events[j - 1], states[j]); }
  }

  /** At most one terminal event is written, and it tells how the job ended. */
  lemma OneTerminal(states: seq<State>, events: seq<Event>, i: nat)
    requires IsRun(states, events) && i < |states|
    ensures states[i].terminals <= 1 && (states[i].told.Some? <==> states[i].terminals == 1)
    ensures states[i].told.Some? ==> states[i].told == states[i].last
  {
    RunsOk(states, events, i);
  }

  /** Among the first n events there was a cancellation, or a write that failed. */
  predicate Disturbed(events: seq<Event>, n: nat)
    requires n <= |events|
  {
    exists j :: 0 <= j < n && (events[j].Cancel? || events[j] == Begin(false) || events[j] == Tick(false))
  }

  /** Where nothing disturbs, the writer only stops after its terminal event. */
  predicate Undisturbed(s: State) {
    && (s.canceled ==> s.writer.Finished? || s.main.Declining? || s.main.ReturnedError? || s.main.ReturnedResponse?)
    && (s.writer.Draining? || s.writer.Finished? ==> s.told.Some?)
    && !s.main.Canceling? && !s.main.ReturnedCanceled?
  }

  lemma UndisturbedStep(s: State, ev: Event, s': State)
    requires Ok(s) && Undisturbed(s) && Step(s, ev) == Some(s')
    requires !ev.Cancel? && ev != Begin(false) && ev != Tick(false)
    ensures Undisturbed(s')
  {
  }

  lemma {:induction false} UndisturbedRun(states: seq<State>, events: seq<Event>, i: nat)
    requires IsRun(states, events) && i < |states| && !Disturbed(events, i)
    ensures Undisturbed(states[i])
  {
    if i > 0 {
      UndisturbedRun(states, events, i - 1);
      RunsOk(states, events, i - 1);
      assert Follows(states[i - 1], events[i - 1], states[i]);
      UndisturbedStep(states[i - 1], events[i - 1], states[i]);
    }
  }

  /**
   A stream that has been written out, with no cancellation and no failed write, has told the
   client how the job ended: completed exactly if the job succeeded.
   */
  lemma StreamTells(states: seq<State>, events: seq<Event>, i: nat)
    requires IsRun(states, events) && i < |states| && states[i].writer.Finished? && !Disturbed(events, i)
    ensures states[i].told == states[i].last && states[i].last.Some?
  {
    RunsOk(states, events, i);
    UndisturbedRun(states, events, i);
  }

  /** Everything has stopped: the caller has its answer, and a stream has been written out. */
  predicate Over(s: State) {
    (Streaming(s) && s.writer.Finished?) || s.main.ReturnedError? || s.main.ReturnedResponse? ||
      s.main.ReturnedCanceled?
  }

  /** A rejected body is closed exactly once, unless it is what the caller gets back: then it is still open. */
  lemma RejectionClosedOnce(states: seq<State>, events: seq<Event>, i: nat)
    requires IsRun(states, events) && i < |states|
    ensures states[i].closes <= 1
    ensures Over(states[i]) && states[i].last == Some(Rejection) ==>
      (states[i].closes == 1 <==> !states[i].main.ReturnedError?)
    ensures Over(states[i]) ==> states[i].job.Exited? && states[i].results.None?
  {
    RunsOk(states, events, i);
  }
}
