/** What the client has been shown, told by the steps of a run: from then on a turn keeps its account. */
module SessionSeen {
  import opened Collections
  import opened SessionModel
  import opened SessionInvariant
  import opened SessionSteps
  import opened SessionSafety
  import opened SessionLeases
  import opened SessionSystem
  import opened SessionTheorems

  /**
   The step that lets the client see an event of the turn: the native reader forwards it, or the
   bridge runner observes it on its way to the client.
   */
  predicate Shows(s: Session, tid: Tid, a: Action, t: nat) {
    && tid in s.threads && s.threads[tid].body.None? && s.threads[tid].lease.None?
    && var pc := s.threads[tid].at;
       || (tid == Upstream && pc.UpForward? && pc.seen == Some(t) && a.Go?)
       || (tid.Runner? && pc.RunTurn? && pc.turn == t && a.Observe?)
  }

  predicate Seen(d: Shared, t: nat) {
    t in d.turns && d.turns[t].forwarded
  }

  /** A step after which the session no longer knows that the client has seen the turn. */
  predicate Forgets(d: Shared, d': Shared, t: nat) {
    Seen(d, t) && !Seen(d', t)
  }

  // ---- No step forgets ------------------------------------------------------------------------

  lemma FinishForgetsNone(d: Shared, turn: nat, pc: Pc, t: nat)
    ensures !Forgets(d, Finish(d, turn, pc).d, t)
  {
  }

  lemma MarkForgetsNone(d: Shared, turn: nat, t: nat)
    ensures !Forgets(d, MarkForwarded(d, turn), t)
  {
  }

  lemma UpstreamForgetsNone(d: Shared, pc: Pc, a: Action, e: Effect, t: nat)
    requires UpstreamOk(d, pc) && UpstreamSteps(d, pc, a) == Some(e)
    ensures !Forgets(d, e.d, t)
  {
    if !UpstreamTouches(pc, a) {
      UpstreamSideways(d, pc, a, e);
    } else if pc.UpForward? {
      if pc.seen.Some? { MarkForgetsNone(d, pc.seen.value, t); }
    } else if pc.UpWrote? {
      if pc.seen.Some? && pc.terminal { FinishForgetsNone(d, pc.seen.value, if pc.limit then Exit else UpIdle, t); }
    }
  }

  lemma RunnerForgetsNone(d: Shared, pc: Pc, a: Action, e: Effect, t: nat)
    requires RunnerOk(d, pc) && RunnerSteps(d, pc, a) == Some(e)
    ensures !Forgets(d, e.d, t)
  {
    if !RunnerTouches(d, pc, a) {
      RunnerSideways(d, pc, a, e);
    } else if pc.RunLoop? {
      assert e.d.turns == d.turns;
    } else if a.Observe? {
      MarkForgetsNone(d, pc.turn, t);
    } else {
      FinishForgetsNone(d, pc.turn, RunDone(pc.stream), t);
    }
  }

  lemma AdmitForgetsNone(d: Shared, pc: Pc, a: Action, e: Effect, t: nat)
    requires ReaderOk(d, pc) && ReaderAdmits(d, pc, a) == Some(e)
    ensures !Forgets(d, e.d, t)
  {
    if !ReaderTouches(pc, a) { AdmitFields(d, pc, a, e); }
  }

  lemma StartForgetsNone(d: Shared, pc: Pc, a: Action, e: Effect, t: nat)
    requires ReaderOk(d, pc) && ReaderStarts(d, pc, a) == Some(e)
    ensures !Forgets(d, e.d, t)
  {
    if !ReaderTouches(pc, a) {
      StartSideways(d, pc, a, e);
    } else if pc.Writing? {
      if a.Fail? { FinishForgetsNone(d, pc.turn, Exit, t); }
    } else if pc.Opening? {
      FinishForgetsNone(d, pc.q.id, if a.resettable then ResetPin else Idle, t);
    }
  }

  lemma CloserForgetsNone(d: Shared, pc: Pc, a: Action, e: Effect, t: nat)
    requires CloserSteps(d, pc, a) == Some(e)
    ensures !Forgets(d, e.d, t)
  {
    if pc.Closing? && pc.left != [] { FinishForgetsNone(d, pc.left[0], Closing(pc.left[1..]), t); }
  }

  lemma StepForgetsNone(s: Session, s': Session, tid: Tid, a: Action, t: nat)
    requires SessionOk(s) && ThreadStep(s, s', tid, a)
    ensures !Forgets(s.d, s'.d, t)
  {
    var th := s.threads[tid];
    var e := Do(s.d, tid, th, a).value;
    assert ThreadOk(s.d, tid, th);
    if th.body.None? && th.lease.None? {
      match tid
      case Upstream => UpstreamForgetsNone(s.d, th.at, a, e, t);
      case Runner(_) => RunnerForgetsNone(s.d, th.at, a, e, t);
      case Closer => CloserForgetsNone(s.d, th.at, a, e, t);
      case Reader =>
        if StartsBridge(th.at) {
          StartForgetsNone(s.d, th.at, a, e, t);
        } else {
          AdmitForgetsNone(s.d, th.at, a, e, t);
        }
    }
  }

  /** A session that stays open over a step keeps what the client has seen. */
  lemma NextForgetsNone(y: System, y': System, ev: Event, sid: nat, t: nat)
    requires SystemOk(y) && Next(y, y', ev) && sid in y.sessions && sid in y'.sessions
    ensures !Forgets(y.sessions[sid].d, y'.sessions[sid].d, t)
  {
    if ev.Run? && ev.sid == sid { StepForgetsNone(y.sessions[sid], y'.sessions[sid], ev.tid, ev.a, t); }
  }

  // ---- Showing is remembered --------------------------------------------------------------------

  lemma ShownIsSeen(s: Session, s': Session, tid: Tid, a: Action, t: nat)
    requires ThreadStep(s, s', tid, a) && Shows(s, tid, a, t) && InFlight(s.d, t)
    ensures Seen(s'.d, t)
  {
  }

  /** The session is open from state i to state j, so its number was not given to another one. */
  predicate OpenFrom(states: seq<System>, sid: nat, i: nat, j: nat) {
    j < |states| && forall k :: i <= k <= j ==> sid in states[k].sessions
  }

  /** The step after state k. */
  predicate Remembers(states: seq<System>, sid: nat, t: nat, k: nat) {
    && k + 1 < |states| && sid in states[k].sessions && sid in states[k + 1].sessions
    && !Forgets(states[k].sessions[sid].d, states[k + 1].sessions[sid].d, t)
  }

  lemma StepRemembers(states: seq<System>, events: seq<Event>, k: nat, sid: nat, t: nat)
    requires IsRun(states, events) && k < |events| && sid in states[k].sessions && sid in states[k + 1].sessions
    ensures Remembers(states, sid, t, k)
  {
    CountersExact(states, events, k);
    NextForgetsNone(states[k], states[k + 1], events[k], sid, t);
  }

  lemma {:induction false} SeenFromThere(states: seq<System>, i: nat, j: nat, sid: nat, t: nat)
    requires i <= j && OpenFrom(states, sid, i, j) && forall k :: i <= k < j ==> Remembers(states, sid, t, k)
    requires Seen(states[i].sessions[sid].d, t)
    ensures Seen(states[j].sessions[sid].d, t)
    decreases j
  {
    if i < j {
      SeenFromThere(states, i, j - 1, sid, t);
      assert Remembers(states, sid, t, j - 1);
    }
  }

  lemma RunRemembers(states: seq<System>, events: seq<Event>, i: nat, j: nat, sid: nat, t: nat)
    requires IsRun(states, events) && i <= j && OpenFrom(states, sid, i, j)
    ensures forall k :: i <= k < j ==> Remembers(states, sid, t, k)
  {
    forall k | i <= k < j
      ensures Remembers(states, sid, t, k)
    {
      StepRemembers(states, events, k, sid, t);
    }
  }

  /**
   Once an event of a turn has been shown to the client, no later step of the run gives the turn
   another account.
   */
  lemma ShownTurnsStay(states: seq<System>, events: seq<Event>, i: nat, j: nat, sid: nat, t: nat)
    requires IsRun(states, events) && i < j < |events| && OpenFrom(states, sid, i, j + 1)
    requires events[i].Run? && events[i].sid == sid && InFlight(states[i].sessions[sid].d, t)
    requires Shows(states[i].sessions[sid], events[i].tid, events[i].a, t)
    ensures !Rehomes(states[j].sessions[sid].d, states[j + 1].sessions[sid].d, t)
  {
    assert Next(states[i], states[i + 1], events[i]);
    ShownIsSeen(states[i].sessions[sid], states[i + 1].sessions[sid], events[i].tid, events[i].a, t);
    RunRemembers(states, events, i + 1, j, sid, t);
    SeenFromThere(states, i + 1, j, sid, t);
    if Rehomes(states[j].sessions[sid].d, states[j + 1].sessions[sid].d, t) {
      EveryRunRehomesUnseen(states, events, j, sid, t);
      assert false;
    }
  }
}
