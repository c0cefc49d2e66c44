/** What the session machine promises its clients, in every state of every run. */
module SessionTheorems {
  import opened Collections
  import opened SessionModel
  import opened SessionInvariant
  import opened SessionSteps
  import opened SessionSafety
  import opened SessionLeases
  import opened SessionSystem

  /** The stream a bridge runner serves. */
  function RunnerOf(s: Session, n: nat): Option<string> {
    if Runner(n) in s.threads then Owns(s.threads[Runner(n)].at) else None
  }

  ghost predicate AtMostOneRunner(s: Session, stream: string) {
    forall m, n :: RunnerOf(s, m) == Some(stream) && RunnerOf(s, n) == Some(stream) ==> m == n
  }

  /** A turn that a runner is serving arrived before every other unfinished turn of its stream. */
  ghost predicate ServesOldest(s: Session) {
    forall n: nat, stream: string, turn: nat ::
      Runner(n) in s.threads && s.threads[Runner(n)].at == RunTurn(stream, turn) ==>
      && turn in s.d.turns && s.d.turns[turn].stream == stream
      && (!s.d.turns[turn].finished ==>
            forall other :: other in s.d.turns && !s.d.turns[other].finished && s.d.turns[other].stream == stream ==>
              turn <= other)
  }

  /** A bridge stream with turns in flight has a thread that answers for it, or one about to start it. */
  ghost predicate NoTurnStranded(s: Session) {
    Reader in s.threads && Bridging(s.d) ==>
      forall t :: t in s.d.turns && !s.d.turns[t].finished ==>
        HasOwner(s.threads, s.d.turns[t].stream) || About(s.threads[Reader].at, s.d.turns[t].stream)
  }

  /** The queue of a stream is its unfinished turns in the order of arrival. */
  lemma QueueIsArrivalOrder(d: Shared, stream: string)
    requires Queued(d) && stream in d.streams
    ensures Increasing(d.streams[stream].turns)
    ensures forall t :: t in d.streams[stream].turns <==> InFlight(d, t) && d.turns[t].stream == stream
  {
    assert StreamOk(d, stream);
    forall t | InFlight(d, t) && d.turns[t].stream == stream
      ensures t in d.streams[stream].turns
    {
      assert TurnOk(d, t);
    }
  }

  lemma OldestServed(s: Session, n: nat, stream: string, turn: nat, other: nat)
    requires SessionOk(s) && Runner(n) in s.threads && s.threads[Runner(n)].at == RunTurn(stream, turn)
    ensures turn in s.d.turns && s.d.turns[turn].stream == stream
    ensures InFlight(s.d, turn) && InFlight(s.d, other) && s.d.turns[other].stream == stream ==> turn <= other
  {
    assert ThreadOk(s.d, Runner(n), s.threads[Runner(n)]);
    QueueIsArrivalOrder(s.d, stream);
    if InFlight(s.d, other) && s.d.turns[other].stream == stream {
      assert other in s.d.streams[stream].turns;
    }
  }

  lemma Attended(s: Session, t: nat)
    requires SessionOk(s) && Bridging(s.d) && InFlight(s.d, t)
    ensures HasOwner(s.threads, s.d.turns[t].stream) || About(s.threads[Reader].at, s.d.turns[t].stream)
  {
    assert TurnOk(s.d, t);
    var x := s.d.turns[t].stream;
    assert s.d.streams[x].running || Waiting(s.d, x);
  }

  lemma SessionPromises(s: Session)
    requires SessionOk(s)
    ensures s.d.pending == Count(s.d.turns, Unfinished) <= MAX_CONNECTION_TURNS && |s.d.named| <= MAX_NAMED_STREAMS
    ensures forall stream :: AtMostOneRunner(s, stream)
    ensures ServesOldest(s) && NoTurnStranded(s)
  {
    forall n: nat, stream: string, turn: nat |
      Runner(n) in s.threads && s.threads[Runner(n)].at == RunTurn(stream, turn)
      ensures turn in s.d.turns && s.d.turns[turn].stream == stream
      ensures !s.d.turns[turn].finished ==>
                forall other ::
                  other in s.d.turns && !s.d.turns[other].finished && s.d.turns[other].stream == stream ==>
                    turn <= other
    {
      forall other: nat
        ensures turn in s.d.turns && s.d.turns[turn].stream == stream
        ensures InFlight(s.d, turn) && InFlight(s.d, other) && s.d.turns[other].stream == stream ==> turn <= other
      {
        OldestServed(s, n, stream, turn, other);
      }
      OldestServed(s, n, stream, turn, 0);
      assert forall other :: other in s.d.turns && !s.d.turns[other].finished ==> InFlight(s.d, other);
    }
    if Bridging(s.d) {
      forall t | t in s.d.turns && !s.d.turns[t].finished
        ensures HasOwner(s.threads, s.d.turns[t].stream) || About(s.threads[Reader].at, s.d.turns[t].stream)
      {
        Attended(s, t);
      }
    }
  }

  /** The main result: every account counter, every session, every state, every run. */
  lemma EveryRun(states: seq<System>, events: seq<Event>, i: nat)
    requires IsRun(states, events) && i < |states|
    ensures forall account :: Held(states[i].turns, account) == Total(states[i].sessions, account) <= MAX_ACCOUNT_TURNS
    ensures forall sid :: sid in states[i].sessions ==>
              var s := states[i].sessions[sid];
              && s.d.pending == Count(s.d.turns, Unfinished) <= MAX_CONNECTION_TURNS
              && (forall stream :: AtMostOneRunner(s, stream)) && ServesOldest(s) && NoTurnStranded(s)
    ensures forall sid, r: nat :: sid in states[i].sessions && r < states[i].sessions[sid].d.next ==>
              Hands(states[i].sessions[sid], r) == 1
  {
    CountersExact(states, events, i);
    forall account
      ensures Held(states[i].turns, account) == Total(states[i].sessions, account) <= MAX_ACCOUNT_TURNS
    {
      assert CounterOk(states[i], account);
    }
    forall sid | sid in states[i].sessions
      ensures var s := states[i].sessions[sid];
              && s.d.pending == Count(s.d.turns, Unfinished) <= MAX_CONNECTION_TURNS
              && (forall stream :: AtMostOneRunner(s, stream)) && ServesOldest(s) && NoTurnStranded(s)
    {
      SessionPromises(states[i].sessions[sid]);
    }
  }

  // ---- Failover ----------------------------------------------------------------------------------------------------

  /** A step that gives a turn another account. */
  predicate Rehomes(d: Shared, d': Shared, t: nat) {
    t in d.turns && t in d'.turns && d'.turns[t].account != d.turns[t].account
  }

  lemma FinishRehomesNone(d: Shared, turn: nat, pc: Pc, t: nat)
    ensures !Rehomes(d, Finish(d, turn, pc).d, t)
  {
  }

  lemma MarkRehomesNone(d: Shared, turn: nat, t: nat)
    ensures !Rehomes(d, MarkForwarded(d, turn), t)
  {
  }

  lemma UpstreamRehomes(d: Shared, pc: Pc, a: Action, e: Effect, t: nat)
    requires UpstreamOk(d, pc) && UpstreamSteps(d, pc, a) == Some(e) && Rehomes(d, e.d, t)
    ensures InFlight(d, t) && !d.turns[t].forwarded && !d.closed
    ensures PcLease(pc) == Some(e.d.turns[t].account) && e.self.lease == Some(d.turns[t].account)
  {
    if !UpstreamTouches(pc, a) {
      UpstreamSideways(d, pc, a, e);
    } else if pc.UpForward? {
      if pc.seen.Some? { MarkRehomesNone(d, pc.seen.value, t); }
    } else if pc.UpWrote? {
      if pc.seen.Some? && pc.terminal { FinishRehomesNone(d, pc.seen.value, if pc.limit then Exit else UpIdle, t); }
    }
  }

  lemma RunnerRehomesNone(d: Shared, pc: Pc, a: Action, e: Effect, t: nat)
    requires RunnerOk(d, pc) && RunnerSteps(d, pc, a) == Some(e)
    ensures !Rehomes(d, e.d, t)
  {
    if !RunnerTouches(d, pc, a) {
      RunnerSideways(d, pc, a, e);
    } else if pc.RunLoop? {
      assert e.d.turns == d.turns;
    } else if a.Observe? {
      MarkRehomesNone(d, pc.turn, t);
    } else {
      FinishRehomesNone(d, pc.turn, RunDone(pc.stream), t);
    }
  }

  lemma AdmitRehomesNone(d: Shared, pc: Pc, a: Action, e: Effect, t: nat)
    requires ReaderOk(d, pc) && ReaderAdmits(d, pc, a) == Some(e)
    ensures !Rehomes(d, e.d, t)
  {
    if !ReaderTouches(pc, a) { AdmitFields(d, pc, a, e); }
  }

  lemma StartRehomes(d: Shared, pc: Pc, a: Action, e: Effect, t: nat)
    requires ReaderOk(d, pc) && ReaderStarts(d, pc, a) == Some(e) && Rehomes(d, e.d, t)
    ensures InFlight(d, t) && !d.turns[t].forwarded && !d.closed
    ensures PcLease(pc) == Some(e.d.turns[t].account) && e.self.lease == Some(d.turns[t].account)
  {
    if !ReaderTouches(pc, a) {
      StartSideways(d, pc, a, e);
    } else if pc.Writing? {
      if a.Fail? { FinishRehomesNone(d, pc.turn, Exit, t); }
    } else if pc.Opening? {
      FinishRehomesNone(d, pc.q.id, if a.resettable then ResetPin else Idle, t);
    }
  }

  /**
   A turn changes its account only while it is in flight and nothing of it has been observed
   for the client, the session is open, and the stepping thread already holds a lease of the
   new account; afterwards that thread owes the lease of the account it left.
   */
  lemma RehomedUnseen(s: Session, s': Session, tid: Tid, a: Action, t: nat)
    requires SessionOk(s) && ThreadStep(s, s', tid, a) && Rehomes(s.d, s'.d, t)
    ensures InFlight(s.d, t) && !s.d.turns[t].forwarded && !s.d.closed
    ensures PcLease(s.threads[tid].at) == Some(s'.d.turns[t].account)
    ensures s'.threads[tid].lease == Some(s.d.turns[t].account)
  {
    var th := s.threads[tid];
    var e := Do(s.d, tid, th, a).value;
    assert ThreadOk(s.d, tid, th);
    Started(s.d, tid, th, a, e);
    if th.body.None? && th.lease.None? {
      match tid
      case Upstream => UpstreamRehomes(s.d, th.at, a, e, t);
      case Runner(_) => RunnerRehomesNone(s.d, th.at, a, e, t);
      case Closer => CloserRehomesNone(s.d, th.at, a, e, t);
      case Reader =>
        if StartsBridge(th.at) { StartRehomes(s.d, th.at, a, e, t); } else { AdmitRehomesNone(s.d, th.at, a, e, t); }
    }
  }

  lemma CloserRehomesNone(d: Shared, pc: Pc, a: Action, e: Effect, t: nat)
    requires CloserSteps(d, pc, a) == Some(e)
    ensures !Rehomes(d, e.d, t)
  {
    if pc.Closing? && pc.left != [] { FinishRehomesNone(d, pc.left[0], Closing(pc.left[1..]), t); }
  }

  /**
   The same of every run: whatever happens to any session, a turn moves to another account only
   before anything of it was observed for the client.
   */
  lemma EveryRunRehomesUnseen(states: seq<System>, events: seq<Event>, i: nat, sid: nat, t: nat)
    requires IsRun(states, events) && i < |events| && sid in states[i].sessions && sid in states[i + 1].sessions
    requires Rehomes(states[i].sessions[sid].d, states[i + 1].sessions[sid].d, t)
    ensures var d := states[i].sessions[sid].d; InFlight(d, t) && !d.turns[t].forwarded && !d.closed
    ensures events[i].Run? && events[i].sid == sid && events[i].tid in states[i].sessions[sid].threads
    ensures PcLease(states[i].sessions[sid].threads[events[i].tid].at) ==
      Some(states[i + 1].sessions[sid].d.turns[t].account)
  {
    CountersExact(states, events, i);
    var ev, s, s' := events[i], states[i].sessions[sid], states[i + 1].sessions[sid];
    assert Next(states[i], states[i + 1], ev);
    OthersUntouched(states[i], states[i + 1], ev, sid, t);
    RehomedUnseen(s, s', ev.tid, ev.a, t);
  }

  /** Only a step of a session's own threads gives its turns another account. */
  lemma OthersUntouched(y: System, y': System, ev: Event, sid: nat, t: nat)
    requires Next(y, y', ev) && sid in y.sessions && sid in y'.sessions &&
      Rehomes(y.sessions[sid].d, y'.sessions[sid].d, t)
    ensures ev.Run? && ev.sid == sid
  {
  }
}
