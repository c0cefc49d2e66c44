/** A turn that continues an earlier response stays with the account that holds it, in every run. */
module SessionContinuation {
  import opened Collections
  import opened SessionModel
  import opened SessionInvariant
  import opened SessionSteps
  import opened SessionSafety
  import opened SessionLeases
  import opened SessionSystem
  import opened SessionTheorems

  /** The turn is known, and continues an earlier response or does not. */
  predicate IsTurn(d: Shared, t: nat, continuation: bool) {
    t in d.turns && d.turns[t].continuation == continuation
  }

  /** What a thread on its way to move a turn knows of it. */
  predicate PlaceOk(d: Shared, pc: Pc) {
    match pc
    case UpSwitching(turn, _, _) => IsTurn(d, turn, false)
    case UpLeased(turn, _, _, _) => IsTurn(d, turn, false)
    case Attached(q, _) => IsTurn(d, q.id, q.continuation)
    case Opening(q) => IsTurn(d, q.id, q.continuation)
    case OpenLeased(q, _) => IsTurn(d, q.id, false) && !q.continuation
    case _ => true
  }

  /** Turns do not change in this respect. */
  predicate SameKinds(d: Shared, d': Shared) {
    forall t :: t in d.turns ==> IsTurn(d', t, d.turns[t].continuation)
  }

  lemma KindsPlaced(d: Shared, d': Shared, pc: Pc)
    requires PlaceOk(d, pc) && SameKinds(d, d')
    ensures PlaceOk(d', pc)
  {
  }

  // ---- One step ---------------------------------------------------------------------------------

  lemma FinishKinds(d: Shared, turn: nat, pc: Pc)
    ensures SameKinds(d, Finish(d, turn, pc).d) && Finish(d, turn, pc).self.at == pc
  {
  }

  lemma MarkKinds(d: Shared, turn: nat)
    ensures SameKinds(d, MarkForwarded(d, turn))
  {
  }

  lemma UpstreamKinds(d: Shared, pc: Pc, a: Action, e: Effect)
    requires UpstreamOk(d, pc) && PlaceOk(d, pc) && UpstreamSteps(d, pc, a) == Some(e)
    ensures SameKinds(d, e.d) && PlaceOk(e.d, e.self.at)
  {
    if !UpstreamTouches(pc, a) {
      UpstreamSideways(d, pc, a, e);
    } else if pc.UpForward? {
      if pc.seen.Some? { MarkKinds(d, pc.seen.value); }
    } else if pc.UpWrote? {
      if pc.seen.Some? && pc.terminal { FinishKinds(d, pc.seen.value, if pc.limit then Exit else UpIdle); }
    }
  }

  lemma RunnerKinds(d: Shared, pc: Pc, a: Action, e: Effect)
    requires RunnerOk(d, pc) && RunnerSteps(d, pc, a) == Some(e)
    ensures SameKinds(d, e.d) && PlaceOk(e.d, e.self.at)
  {
    if !RunnerTouches(d, pc, a) {
      RunnerSideways(d, pc, a, e);
    } else if pc.RunLoop? {
      assert e.d.turns == d.turns;
    } else if a.Observe? {
      MarkKinds(d, pc.turn);
    } else {
      FinishKinds(d, pc.turn, RunDone(pc.stream));
    }
  }

  lemma AdmitKinds(d: Shared, pc: Pc, a: Action, e: Effect)
    requires ReaderOk(d, pc) && ReaderAdmits(d, pc, a) == Some(e)
    ensures SameKinds(d, e.d) && PlaceOk(e.d, e.self.at)
  {
    if !ReaderTouches(pc, a) { AdmitFields(d, pc, a, e); }
  }

  lemma StartKinds(d: Shared, pc: Pc, a: Action, e: Effect)
    requires ReaderOk(d, pc) && PlaceOk(d, pc) && ReaderStarts(d, pc, a) == Some(e)
    ensures SameKinds(d, e.d) && PlaceOk(e.d, e.self.at)
  {
    if !ReaderTouches(pc, a) {
      StartSideways(d, pc, a, e);
    } else if pc.Writing? {
      if a.Fail? { FinishKinds(d, pc.turn, Exit); }
    } else if pc.Opening? {
      FinishKinds(d, pc.q.id, if a.resettable then ResetPin else Idle);
    }
  }

  lemma CloserKinds(d: Shared, pc: Pc, a: Action, e: Effect)
    requires CloserSteps(d, pc, a) == Some(e)
    ensures SameKinds(d, e.d) && PlaceOk(e.d, e.self.at)
  {
    if pc.Closing? && pc.left != [] { FinishKinds(d, pc.left[0], Closing(pc.left[1..])); }
  }

  lemma StepKinds(d: Shared, tid: Tid, t: Thread, a: Action, e: Effect)
    requires ThreadOk(d, tid, t) && PlaceOk(d, t.at) && Do(d, tid, t, a) == Some(e)
    ensures SameKinds(d, e.d) && PlaceOk(e.d, e.self.at)
  {
    if t.body.None? && t.lease.None? {
      match tid
      case Upstream => UpstreamKinds(d, t.at, a, e);
      case Runner(_) => RunnerKinds(d, t.at, a, e);
      case Closer => CloserKinds(d, t.at, a, e);
      case Reader => if StartsBridge(t.at) { StartKinds(d, t.at, a, e); } else { AdmitKinds(d, t.at, a, e); }
    }
  }

  // ---- One session ------------------------------------------------------------------------------

  ghost predicate PlacesOk(s: Session) {
    forall tid :: tid in s.threads ==> PlaceOk(s.d, s.threads[tid].at)
  }

  lemma StepPlaces(s: Session, s': Session, tid: Tid, a: Action)
    requires SessionOk(s) && PlacesOk(s) && ThreadStep(s, s', tid, a)
    ensures PlacesOk(s')
  {
    var t := s.threads[tid];
    var e := Do(s.d, tid, t, a).value;
    assert ThreadOk(s.d, tid, t) && PlaceOk(s.d, t.at);
    StepKinds(s.d, tid, t, a, e);
    Started(s.d, tid, t, a, e);
    forall x | x in s'.threads
      ensures PlaceOk(s'.d, s'.threads[x].at)
    {
      if x !in e.started && x != tid { KindsPlaced(s.d, e.d, s.threads[x].at); }
    }
  }

  lemma UpstreamRehomesOwn(d: Shared, pc: Pc, a: Action, e: Effect, t: nat)
    requires UpstreamOk(d, pc) && UpstreamSteps(d, pc, a) == Some(e) && Rehomes(d, e.d, t)
    ensures pc.UpLeased? && pc.turn == t
  {
    if !UpstreamTouches(pc, a) {
      UpstreamSideways(d, pc, a, e);
    } else if pc.UpForward? {
      if pc.seen.Some? { MarkRehomesNone(d, pc.seen.value, t); }
    } else if pc.UpWrote? {
      if pc.seen.Some? && pc.terminal { FinishRehomesNone(d, pc.seen.value, if pc.limit then Exit else UpIdle, t); }
    }
  }

  lemma StartRehomesOwn(d: Shared, pc: Pc, a: Action, e: Effect, t: nat)
    requires ReaderOk(d, pc) && ReaderStarts(d, pc, a) == Some(e) && Rehomes(d, e.d, t)
    ensures pc.OpenLeased? && pc.q.id == t
  {
    if !ReaderTouches(pc, a) {
      StartSideways(d, pc, a, e);
    } else if pc.Writing? {
      if a.Fail? { FinishRehomesNone(d, pc.turn, Exit, t); }
    } else if pc.Opening? {
      FinishRehomesNone(d, pc.q.id, if a.resettable then ResetPin else Idle, t);
    }
  }

  /** A step that gives a turn another account does so for a turn that continues nothing. */
  lemma RehomedIsFresh(s: Session, s': Session, tid: Tid, a: Action, t: nat)
    requires SessionOk(s) && PlacesOk(s) && ThreadStep(s, s', tid, a) && Rehomes(s.d, s'.d, t)
    ensures !s.d.turns[t].continuation
  {
    var th := s.threads[tid];
    var e := Do(s.d, tid, th, a).value;
    assert ThreadOk(s.d, tid, th) && PlaceOk(s.d, th.at);
    if th.body.None? && th.lease.None? {
      match tid
      case Upstream => UpstreamRehomesOwn(s.d, th.at, a, e, t);
      case Runner(_) => RunnerRehomesNone(s.d, th.at, a, e, t);
      case Closer => CloserRehomesNone(s.d, th.at, a, e, t);
      case Reader =>
        if StartsBridge(th.at) { StartRehomesOwn(s.d, th.at, a, e, t); } else { AdmitRehomesNone(s.d, th.at, a, e, t); }
    }
  }

  lemma OnlyOnePending(d: Shared, t: nat, x: nat)
    requires SharedOk(d) && d.pending == 1 && InFlight(d, t) && InFlight(d, x)
    ensures x == t
  {
    if x != t { CountOne(d.turns, Unfinished, t, x); }
  }

  /** A turn changes its account only when no other turn of the session is in flight. */
  lemma RehomedAlone(s: Session, s': Session, tid: Tid, a: Action, t: nat, x: nat)
    requires SessionOk(s) && ThreadStep(s, s', tid, a) && Rehomes(s.d, s'.d, t)
    requires InFlight(s.d, x)
    ensures x == t
  {
    var th := s.threads[tid];
    var e := Do(s.d, tid, th, a).value;
    RehomedUnseen(s, s', tid, a, t);
    assert ThreadOk(s.d, tid, th);
    if th.body.None? && th.lease.None? {
      match tid
      case Upstream =>
        UpstreamRehomesOwn(s.d, th.at, a, e, t);
        OnlyOnePending(s.d, t, x);
      case Runner(_) => RunnerRehomesNone(s.d, th.at, a, e, t);
      case Closer => CloserRehomesNone(s.d, th.at, a, e, t);
      case Reader =>
        if StartsBridge(th.at) { StartRehomesOwn(s.d, th.at, a, e, t); } else { AdmitRehomesNone(s.d, th.at, a, e, t); }
    }
  }

  // ---- Every run ----------------------------------------------------------------------------------

  ghost predicate AllPlaces(y: System) {
    forall sid :: sid in y.sessions ==> PlacesOk(y.sessions[sid])
  }

  lemma ClosePlaces(s: Session, s': Session, left: seq<nat>)
    requires PlacesOk(s) && CloseStep(s, s', left)
    ensures PlacesOk(s')
  {
    forall x | x in s'.threads
      ensures PlaceOk(s'.d, s'.threads[x].at)
    {
      if x != Closer { KindsPlaced(s.d, s'.d, s.threads[x].at); }
    }
  }

  lemma CancelPlaces(s: Session, s': Session)
    requires PlacesOk(s) && CancelStep(s, s')
    ensures PlacesOk(s')
  {
    forall x | x in s'.threads
      ensures PlaceOk(s'.d, s'.threads[x].at)
    {
      KindsPlaced(s.d, s'.d, s.threads[x].at);
    }
  }

  lemma OwnPlaces(y: System, y': System, ev: Event)
    requires SystemOk(y) && AllPlaces(y) && Next(y, y', ev) && ev.sid in y'.sessions
    ensures PlacesOk(y'.sessions[ev.sid])
  {
    match ev
    case Connect(_) =>
    case Run(sid, tid, a) => StepPlaces(y.sessions[sid], y'.sessions[sid], tid, a);
    case Close(sid, left) => ClosePlaces(y.sessions[sid], y'.sessions[sid], left);
    case Cancel(sid) => CancelPlaces(y.sessions[sid], y'.sessions[sid]);
    case Remove(_) =>
  }

  lemma OthersStay(y: System, y': System, ev: Event, sid: nat)
    requires Next(y, y', ev) && sid in y'.sessions && sid != ev.sid
    ensures sid in y.sessions && y'.sessions[sid] == y.sessions[sid]
  {
  }

  lemma NextPlaces(y: System, y': System, ev: Event, sid: nat)
    requires SystemOk(y) && AllPlaces(y) && Next(y, y', ev) && sid in y'.sessions
    ensures PlacesOk(y'.sessions[sid])
  {
    if ev.sid == sid { OwnPlaces(y, y', ev); } else { OthersStay(y, y', ev, sid); }
  }

  lemma StepAllPlaces(states: seq<System>, events: seq<Event>, k: nat)
    requires IsRun(states, events) && k < |events| && AllPlaces(states[k])
    ensures AllPlaces(states[k + 1])
  {
    CountersExact(states, events, k);
    var y, y' := states[k], states[k + 1];
    forall sid | sid in y'.sessions
      ensures PlacesOk(y'.sessions[sid])
    {
      NextPlaces(y, y', events[k], sid);
    }
  }

  lemma {:induction false} RunPlaces(states: seq<System>, events: seq<Event>, k: nat)
    requires IsRun(states, events) && k < |states|
    ensures AllPlaces(states[k])
  {
    if k > 0 {
      RunPlaces(states, events, k - 1);
      StepAllPlaces(states, events, k - 1);
    }
  }

  /**
   In every run a step gives a turn another account only if the turn continues no earlier response
   and no other turn of its session is in flight.
   */
  lemma EveryRunRehomesFresh(states: seq<System>, events: seq<Event>, i: nat, sid: nat, t: nat)
    requires IsRun(states, events) && i < |events| && sid in states[i].sessions && sid in states[i + 1].sessions
    requires Rehomes(states[i].sessions[sid].d, states[i + 1].sessions[sid].d, t)
    ensures var d := states[i].sessions[sid].d; !d.turns[t].continuation && forall x :: InFlight(d, x) ==> x == t
  {
    var s, s' := states[i].sessions[sid], states[i + 1].sessions[sid];
    EveryRunRehomesUnseen(states, events, i, sid, t);
    RunPlaces(states, events, i);
    CountersExact(states, events, i);
    StepInRun(states[i], states[i + 1], events[i], sid);
    RehomedIsFresh(s, s', events[i].tid, events[i].a, t);
    forall x | InFlight(s.d, x)
      ensures x == t
    {
      RehomedAlone(s, s', events[i].tid, events[i].a, t, x);
    }
  }

  lemma StepInRun(y: System, y': System, ev: Event, sid: nat)
    requires Next(y, y', ev) && ev.Run? && ev.sid == sid
    ensures sid in y.sessions && sid in y'.sessions && ThreadStep(y.sessions[sid], y'.sessions[sid], ev.tid, ev.a)
  {
  }
}
