/** Every step of every thread keeps the shared state in order and leaves the other threads their assertions. */
module SessionSteps {
  import opened Collections
  import opened SessionModel
  import opened SessionInvariant

  /** Giving back what a thread owes changes no queue, counter or flag of the session. */
  lemma DebtStep(d: Shared, tid: Tid, t: Thread, a: Action, e: Effect)
    requires SharedOk(d) && ThreadOk(d, tid, t) && (t.body.Some? || t.lease.Some?) && Do(d, tid, t, a) == Some(e)
    ensures SharedOk(e.d) && Keeps(d, e.d, Owns(t.at)) && Aside(d, e.d)
    ensures ThreadOk(e.d, tid, e.self) && e.started == map[]
  {
    if t.body.Some? {
      assert e.d.released.Keys == d.released.Keys;
    }
    FieldsOk(d, e.d, Owns(t.at));
    if tid == Reader {
      ReaderUnchanged(d, e.d, t.at);
    } else {
      OtherUnchanged(d, e.d, tid, t, e.self);
    }
  }

  lemma ReaderUnchanged(d: Shared, d': Shared, pc: Pc)
    requires ReaderOk(d, pc)
    requires d' ==
      d.(account := d'.account, upstream := d'.upstream, switching := d'.switching, cancelled := d'.cancelled,
                      released := d'.released)
    ensures ReaderOk(d', pc)
  {
  }

  lemma OtherUnchanged(d: Shared, d': Shared, tid: Tid, t: Thread, t': Thread)
    requires tid != Reader && ThreadOk(d, tid, t) && t'.at == t.at && (t'.body == t.body || t'.body == None)
    requires d' ==
      d.(account := d'.account, upstream := d'.upstream, switching := d'.switching, cancelled := d'.cancelled,
                      released := d'.released)
    ensures ThreadOk(d', tid, t')
  {
  }

  /** Only account, upstream, switching and cancelled may differ. */
  predicate Sideways(d: Shared, d': Shared) {
    d' == d.(account := d'.account, upstream := d'.upstream, switching := d'.switching, cancelled := d'.cancelled)
    && (d.cancelled ==> d'.cancelled)
  }

  predicate UpstreamTouches(pc: Pc, a: Action) {
    pc.UpForward? || (pc.UpWrote? && a.Succeed?) || (pc.UpLeased? && a.Transfer?)
  }

  lemma UpstreamSideways(d: Shared, pc: Pc, a: Action, e: Effect)
    requires UpstreamSteps(d, pc, a) == Some(e) && UpstreamOk(d, pc) && !UpstreamTouches(pc, a)
    ensures Sideways(d, e.d) && UpstreamOk(e.d, e.self.at) && e.self == At(e.self.at) && e.started == map[]
  {
  }

  lemma UpstreamStep(d: Shared, t: Thread, a: Action, e: Effect)
    requires SharedOk(d) && UpstreamOk(d, t.at) && UpstreamSteps(d, t.at, a) == Some(e)
    ensures SharedOk(e.d) && Keeps(d, e.d, None) && Aside(d, e.d)
    ensures ThreadOk(e.d, Upstream, e.self) && e.started == map[]
  {
    if !UpstreamTouches(t.at, a) {
      UpstreamSideways(d, t.at, a, e);
      FieldsOk(d, e.d, None);
    } else if t.at.UpForward? {
      if t.at.seen.Some? { MarkOk(d, t.at.seen.value, None); } else { FieldsOk(d, d, None); }
    } else if t.at.UpWrote? {
      if t.at.seen.Some? && t.at.terminal {
        FinishOk(d, t.at.seen.value, if t.at.limit then Exit else UpIdle, None);
      } else { FieldsOk(d, d, None); }
    } else {
      if MayTransfer(d, t.at.turn, t.at.conn) {
        MoveOk(d, t.at.turn, t.at.lease, Some(a.conn), None);
      } else {
        FieldsOk(d, d, None);
      }
    }
  }

  // ---- Bridge runners ------------------------------------------------------------------------------

  predicate RunnerTouches(d: Shared, pc: Pc, a: Action) {
    pc.RunLoop? || (pc.RunTurn? && !a.Resolve?)
  }

  lemma RunnerSideways(d: Shared, pc: Pc, a: Action, e: Effect)
    requires RunnerSteps(d, pc, a) == Some(e) && RunnerOk(d, pc) && !RunnerTouches(d, pc, a)
    ensures Sideways(d, e.d) && RunnerOk(e.d, e.self.at) && e.self == At(e.self.at) && e.started == map[]
  {
  }

  /** The runner takes the oldest turn of its stream, or stops and says so. */
  lemma RunLoopStep(d: Shared, s: string, e: Effect)
    requires SharedOk(d) && Runs(d, s) && RunnerSteps(d, RunLoop(s), Go) == Some(e)
    ensures SharedOk(e.d) && Keeps(d, e.d, Some(s)) && Aside(d, e.d)
    ensures RunnerOk(e.d, e.self.at) && e.self == At(e.self.at) && e.started == map[]
  {
    if d.streams[s].turns == [] { RunningOk(d, s, false, Some(s)); }
    else {
      FieldsOk(d, d, Some(s));
      assert StreamOk(d, s) && d.streams[s].turns[0] in d.streams[s].turns;
    }
  }

  lemma KeepsRuns(d: Shared, d': Shared, s: string)
    requires Runs(d, s) && Keeps(d, d', None)
    ensures Runs(d', s)
  {
  }

  lemma ObserveStep(d: Shared, s: string, turn: nat)
    requires SharedOk(d) && Serves(d, s, turn)
    ensures var d' := MarkForwarded(d, turn);
            SharedOk(d') && Keeps(d, d', Some(s)) && Aside(d, d') && Serves(d', s, turn)
  {
    MarkOk(d, turn, Some(s));
  }

  lemma ServedStep(d: Shared, s: string, turn: nat)
    requires SharedOk(d) && Serves(d, s, turn)
    ensures var e := Finish(d, turn, RunDone(s));
            && SharedOk(e.d) && Keeps(d, e.d, Some(s)) && Aside(d, e.d) && Runs(e.d, s)
            && e.self.at == RunDone(s) && e.started == map[] && (e.self.body.Some? ==> e.self.body.value < e.d.next)
  {
    FinishOk(d, turn, RunDone(s), Some(s));
    FinishOk(d, turn, RunDone(s), None);
    KeepsRuns(d, Finish(d, turn, RunDone(s)).d, s);
  }

  lemma RunnerAsideStep(d: Shared, n: nat, t: Thread, a: Action, e: Effect)
    requires SharedOk(d) && RunnerOk(d, t.at) && RunnerSteps(d, t.at, a) == Some(e) && !RunnerTouches(d, t.at, a)
    ensures SharedOk(e.d) && Keeps(d, e.d, Owns(t.at)) && Aside(d, e.d)
    ensures ThreadOk(e.d, Runner(n), e.self) && e.started == map[]
  {
    RunnerSideways(d, t.at, a, e);
    FieldsOk(d, e.d, Owns(t.at));
  }

  lemma RunnerObserveStep(d: Shared, n: nat, t: Thread, a: Action, e: Effect)
    requires SharedOk(d) && RunnerOk(d, t.at) && RunnerSteps(d, t.at, a) == Some(e) && t.at.RunTurn? && a.Observe?
    ensures SharedOk(e.d) && Keeps(d, e.d, Owns(t.at)) && Aside(d, e.d)
    ensures ThreadOk(e.d, Runner(n), e.self) && e.started == map[]
  {
    ObserveStep(d, t.at.stream, t.at.turn);
  }

  lemma ServesTheTurn(d: Shared, pc: Pc, a: Action, e: Effect)
    requires RunnerSteps(d, pc, a) == Some(e) && pc.RunTurn? && !a.Resolve? && !a.Observe?
    ensures e == Finish(d, pc.turn, RunDone(pc.stream))
  {}

  lemma RunnerServedStep(d: Shared, n: nat, t: Thread, e: Effect)
    requires SharedOk(d) && RunnerOk(d, t.at) && t.at.RunTurn?
    requires e == Finish(d, t.at.turn, RunDone(t.at.stream))
    ensures SharedOk(e.d) && Keeps(d, e.d, Owns(t.at)) && Aside(d, e.d)
    ensures ThreadOk(e.d, Runner(n), e.self) && e.started == map[]
  {
    ServedStep(d, t.at.stream, t.at.turn);
  }

  lemma RunnerStep(d: Shared, n: nat, t: Thread, a: Action, e: Effect)
    requires SharedOk(d) && RunnerOk(d, t.at) && RunnerSteps(d, t.at, a) == Some(e)
    ensures SharedOk(e.d) && Keeps(d, e.d, Owns(t.at)) && Aside(d, e.d)
    ensures ThreadOk(e.d, Runner(n), e.self) && e.started == map[]
  {
    if !RunnerTouches(d, t.at, a) {
      RunnerAsideStep(d, n, t, a, e);
    } else if t.at.RunLoop? {
      RunLoopStep(d, t.at.stream, e);
    } else if a.Observe? {
      RunnerObserveStep(d, n, t, a, e);
    } else {
      ServesTheTurn(d, t.at, a, e);
      RunnerServedStep(d, n, t, e);
    }
  }

  // ---- The closer ------------------------------------------------------------------------------------

  lemma CloserFinishes(d: Shared, t: Thread, e: Effect)
    requires SharedOk(d) && CloserOk(d, t.at) && t.at.Closing? && t.at.left != [] &&
      e == Finish(d, t.at.left[0], Closing(t.at.left[1..]))
    ensures SharedOk(e.d) && Keeps(d, e.d, None) && Aside(d, e.d) && ThreadOk(e.d, Closer, e.self)
  {
    var left := t.at.left;
    FinishOk(d, left[0], Closing(left[1..]), None);
    forall x | x in e.d.turns && !e.d.turns[x].finished
      ensures x in left[1..]
    {
      assert x in left && x != left[0];
    }
  }

  lemma CloserStep(d: Shared, t: Thread, a: Action, e: Effect)
    requires SharedOk(d) && CloserOk(d, t.at) && CloserSteps(d, t.at, a) == Some(e)
    ensures SharedOk(e.d) && Keeps(d, e.d, None) && Aside(d, e.d)
    ensures ThreadOk(e.d, Closer, e.self) && e.started == map[]
  {
    if t.at.Closing? && t.at.left != [] {
      CloserFinishes(d, t, e);
    } else {
      FieldsOk(d, e.d, None);
    }
  }

  // ---- The client reader -------------------------------------------------------------------------------

  predicate ReaderTouches(pc: Pc, a: Action) {
    || (pc.Idle? && a.Receive?) || (pc.Pinning? && a.Pin?) || pc.Leased? || pc.Drop?
    || (pc.Writing? && a.Fail?) || (pc.Opening? && a.Fail?) || pc.OpenLeased? || pc.ResetPin? || pc.Starting?
  }

  lemma AdmitFields(d: Shared, pc: Pc, a: Action, e: Effect)
    requires ReaderAdmits(d, pc, a) == Some(e) && !ReaderTouches(pc, a)
    ensures Sideways(d, e.d) && e.self == At(e.self.at)
  {
  }

  lemma AdmitSideways(d: Shared, pc: Pc, a: Action, e: Effect)
    requires ReaderAdmits(d, pc, a) == Some(e) && ReaderOk(d, pc) && !ReaderTouches(pc, a)
    ensures ReaderOk(d, e.self.at)
  {
  }

  lemma StartSideways(d: Shared, pc: Pc, a: Action, e: Effect)
    requires ReaderStarts(d, pc, a) == Some(e) && ReaderOk(d, pc) && !ReaderTouches(pc, a)
    ensures e.d == d && ReaderOk(d, e.self.at) && e.self == At(e.self.at)
  {
  }

  lemma AttachStep(d: Shared, q: Req, lease: string, first: bool)
    requires SharedOk(d) && ReaderOk(d, Leased(q, lease, first)) && !d.closed
    ensures var d' := AddTurn(d, q, lease); SharedOk(d') && Keeps(d, d', None) && ReaderOk(d', Attached(q, first))
  {
    AddOk(d, q, lease);
  }

  lemma LastTurnStep(d: Shared, q: Req, pc: Pc)
    requires SharedOk(d) && ReaderOk(d, Opening(q)) && (pc == ResetPin || pc == Idle)
    ensures var e := Finish(d, q.id, pc);
            && SharedOk(e.d) && Keeps(d, e.d, None) && ReaderOk(e.d, pc)
            && e.self.at == pc && e.started == map[] && (e.self.body.Some? ==> e.self.body.value < e.d.next)
  {
    FinishOk(d, q.id, pc, None);
  }

  lemma TransferStep(d: Shared, q: Req, lease: string)
    requires SharedOk(d) && ReaderOk(d, OpenLeased(q, lease))
    ensures var d' := MoveTurn(d, q.id, lease); SharedOk(d') && Keeps(d, d', None) && ReaderOk(d', Opening(q))
  {
    MoveOk(d, q.id, lease, d.upstream, None);
  }

  lemma ReceiveStep(d: Shared, a: Action, e: Effect)
    requires SharedOk(d) && a.Receive? && ReaderAdmits(d, Idle, a) == Some(e)
    ensures SharedOk(e.d) && Keeps(d, e.d, None) && ThreadOk(e.d, Reader, e.self)
  {
    ReceiveOk(d, e.self.at.q);
  }

  lemma PinStep(d: Shared, q: Req, a: Action, e: Effect)
    requires SharedOk(d) && a.Pin? && ReaderOk(d, Pinning(q)) && ReaderAdmits(d, Pinning(q), a) == Some(e)
    ensures SharedOk(e.d) && Keeps(d, e.d, None) && ThreadOk(e.d, Reader, e.self)
  {
    PinOk(d, e.d);
  }

  lemma DropStep(d: Shared, q: Req, a: Action, e: Effect)
    requires SharedOk(d) && ReaderOk(d, Drop(q)) && ReaderAdmits(d, Drop(q), a) == Some(e)
    ensures SharedOk(e.d) && Keeps(d, e.d, None) && ThreadOk(e.d, Reader, e.self)
  {
    assert e.d.released.Keys == d.released.Keys;
    FieldsOk(d, e.d, None);
  }

  lemma AdmitStep(d: Shared, t: Thread, a: Action, e: Effect)
    requires SharedOk(d) && ReaderOk(d, t.at) && ReaderAdmits(d, t.at, a) == Some(e) && !StartsBridge(t.at)
    ensures SharedOk(e.d) && Keeps(d, e.d, None) && ThreadOk(e.d, Reader, e.self)
  {
    if !ReaderTouches(t.at, a) {
      AdmitFields(d, t.at, a, e);
      AdmitSideways(d, t.at, a, e);
      FieldsOk(d, e.d, None);
      ReaderUnchanged(d, e.d, e.self.at);
    } else if t.at.Idle? {
      ReceiveStep(d, a, e);
    } else if t.at.Pinning? {
      PinStep(d, t.at.q, a, e);
    } else if t.at.Drop? {
      DropStep(d, t.at.q, a, e);
    } else if d.closed || d.switching {
      FieldsOk(d, d, None);
    } else {
      AttachStep(d, t.at.q, t.at.lease, t.at.first);
    }
  }

  lemma ResetStep(d: Shared, a: Action, e: Effect)
    requires SharedOk(d) && ReaderOk(d, ResetPin) && ReaderStarts(d, ResetPin, a) == Some(e)
    ensures SharedOk(e.d) && Keeps(d, e.d, None) && ThreadOk(e.d, Reader, e.self)
  {
    PinOk(d, e.d);
  }

  lemma StartingStep(d: Shared, s: string, a: Action, e: Effect)
    requires SharedOk(d) && ReaderOk(d, Starting(s)) && ReaderStarts(d, Starting(s), a) == Some(e)
    ensures SharedOk(e.d) && Keeps(d, e.d, None) && ThreadOk(e.d, Reader, e.self)
  {
    if e.d == d { FieldsOk(d, d, None); } else { RunningOk(d, s, true, None); }
  }

  lemma WritingStep(d: Shared, turn: nat, a: Action, e: Effect)
    requires SharedOk(d) && ReaderOk(d, Writing(turn)) && ReaderStarts(d, Writing(turn), a) == Some(e)
    ensures SharedOk(e.d) && Keeps(d, e.d, None) && ThreadOk(e.d, Reader, e.self)
  {
    if a.Fail? { FinishOk(d, turn, Exit, None); } else { FieldsOk(d, d, None); }
  }

  lemma OpenLeasedStep(d: Shared, q: Req, lease: string, a: Action, e: Effect)
    requires SharedOk(d) && ReaderOk(d, OpenLeased(q, lease)) && ReaderStarts(d, OpenLeased(q, lease), a) == Some(e)
    ensures SharedOk(e.d) && Keeps(d, e.d, None) && ThreadOk(e.d, Reader, e.self)
  {
    if e.d == d { FieldsOk(d, d, None); } else { TransferStep(d, q, lease); }
  }

  lemma StartStep(d: Shared, t: Thread, a: Action, e: Effect)
    requires SharedOk(d) && ReaderOk(d, t.at) && ReaderStarts(d, t.at, a) == Some(e) && StartsBridge(t.at)
    ensures SharedOk(e.d) && Keeps(d, e.d, Owns(t.at)) && ThreadOk(e.d, Reader, e.self)
  {
    if !ReaderTouches(t.at, a) {
      StartSideways(d, t.at, a, e);
      FieldsOk(d, d, Owns(t.at));
    } else if t.at.Writing? {
      WritingStep(d, t.at.turn, a, e);
    } else if t.at.ResetPin? {
      ResetStep(d, a, e);
    } else if t.at.Starting? {
      StartingStep(d, t.at.stream, a, e);
    } else if t.at.OpenLeased? {
      OpenLeasedStep(d, t.at.q, t.at.lease, a, e);
    } else {
      LastTurnStep(d, t.at.q, if a.resettable then ResetPin else Idle);
    }
  }

  /** Any enabled step of any thread. */
  lemma StepHolds(d: Shared, tid: Tid, t: Thread, a: Action, e: Effect)
    requires SharedOk(d) && ThreadOk(d, tid, t) && Do(d, tid, t, a) == Some(e)
    ensures SharedOk(e.d) && Keeps(d, e.d, Owns(t.at)) && ThreadOk(e.d, tid, e.self)
    ensures tid != Reader ==> Aside(d, e.d) && e.started == map[]
  {
    if t.body.Some? || t.lease.Some? {
      DebtStep(d, tid, t, a, e);
    } else {
      match tid
      case Upstream => UpstreamStep(d, t, a, e);
      case Closer => CloserStep(d, t, a, e);
      case Runner(n) => RunnerStep(d, n, t, a, e);
      case Reader => if StartsBridge(t.at) { StartStep(d, t, a, e); } else { AdmitStep(d, t, a, e); }
    }
  }

  // ---- Who answers for a running flag -------------------------------------------------------------------

  /** The reader starts at most one thread at a time: the upstream reader, or a runner it hands its stream to. */
  predicate StartsOk(t: Thread, a: Action, e: Effect) {
    || e.started == map[]
    || (t.at.PinnedNative? && e.started == map[Upstream := At(UpIdle)] && e.self.at.Ready?)
    || (t.at.Spawning? && e.self.at.Idle? && a.Spawn? && e.started == map[Runner(a.n) := At(RunLoop(t.at.stream))])
  }

  lemma Started(d: Shared, tid: Tid, t: Thread, a: Action, e: Effect)
    requires Do(d, tid, t, a) == Some(e)
    ensures StartsOk(t, a, e)
    ensures e.started != map[] ==> e.d == d && tid == Reader
  {
  }

  /** No flag is raised. */
  predicate NoneRaised(d: Shared, d': Shared) {
    forall x :: x in d'.streams && d'.streams[x].running ==> x in d.streams && d.streams[x].running
  }

  lemma AdmitRaisesNone(d: Shared, pc: Pc, a: Action, e: Effect)
    requires ReaderAdmits(d, pc, a) == Some(e)
    ensures NoneRaised(d, e.d) && Owns(e.self.at) == None
  {
    if ReaderTouches(pc, a) {
    } else {
      AdmitFields(d, pc, a, e);
    }
  }

  lemma FinishRaisesNone(d: Shared, turn: nat, pc: Pc)
    ensures NoneRaised(d, Finish(d, turn, pc).d)
  {
  }

  /** The reader raises a flag only to answer for it. */
  lemma StartRaises(d: Shared, pc: Pc, a: Action, e: Effect)
    requires ReaderStarts(d, pc, a) == Some(e)
    ensures NoneRaised(d, e.d) ||
      (pc.Starting? && e.d == SetRunning(d, pc.stream, true) && Owns(e.self.at) == Some(pc.stream))
    ensures Owns(e.self.at).Some? ==>
              pc.Starting? && Owns(e.self.at) == Some(pc.stream) && pc.stream in d.streams &&
                !d.streams[pc.stream].running
  {
    if pc.Writing? { FinishRaisesNone(d, pc.turn, Exit); }
    if pc.Opening? { FinishRaisesNone(d, pc.q.id, if a.Fail? && a.resettable then ResetPin else Idle); }
  }

  lemma AsideRaisesNone(d: Shared, d': Shared)
    requires Aside(d, d')
    ensures NoneRaised(d, d')
  {
  }

  /** A flag that a step raises is one the stepping thread then answers for. */
  lemma NewlyRunning(d: Shared, tid: Tid, t: Thread, a: Action, e: Effect)
    requires SharedOk(d) && ThreadOk(d, tid, t) && Do(d, tid, t, a) == Some(e)
    ensures NoneRaised(d, e.d) ||
      (exists x :: x in d.streams && e.d == SetRunning(d, x, true) && Owns(e.self.at) == Some(x))
  {
    StepHolds(d, tid, t, a, e);
    if tid != Reader || t.body.Some? || t.lease.Some? {
      if tid != Reader { AsideRaisesNone(d, e.d); }
    } else if StartsBridge(t.at) {
      StartRaises(d, t.at, a, e);
    } else {
      AdmitRaisesNone(d, t.at, a, e);
    }
  }

  lemma RunnerKeepsStream(d: Shared, pc: Pc, a: Action, e: Effect)
    requires RunnerSteps(d, pc, a) == Some(e)
    ensures Owns(e.self.at) == None || Owns(e.self.at) == Owns(pc)
    ensures Owns(pc).Some? && Owns(e.self.at) == None ==>
              var x := Owns(pc).value; d.cancelled || x !in d.streams
                                       || (x in e.d.streams && !e.d.streams[x].running && e.d.streams[x].turns == [])
  {
  }

  /** A thread takes a stream over only when nobody runs it. */
  lemma TakesOver(d: Shared, tid: Tid, t: Thread, a: Action, e: Effect)
    requires ThreadOk(d, tid, t) && Do(d, tid, t, a) == Some(e)
    ensures Owns(e.self.at).Some? && Owns(e.self.at) != Owns(t.at) ==>
              var x := Owns(e.self.at).value; e.started == map[] && x in d.streams && !d.streams[x].running
  {
    if t.body.None? && t.lease.None? {
      match tid
      case Runner(_) => RunnerKeepsStream(d, t.at, a, e);
      case Reader => if StartsBridge(t.at) { StartRaises(d, t.at, a, e); } else { AdmitRaisesNone(d, t.at, a, e); }
      case Upstream => UpstreamOwnsNone(d, t.at, a, e);
      case Closer =>
    }
  }

  lemma UpstreamOwnsNone(d: Shared, pc: Pc, a: Action, e: Effect)
    requires UpstreamSteps(d, pc, a) == Some(e)
    ensures Owns(e.self.at) == None
  {
  }

  /** A thread stops answering for a stream by clearing the flag, by handing it on, or because the session is over. */
  predicate LetGo(d: Shared, a: Action, e: Effect, x: string) {
    || d.closed || d.cancelled || (x in e.d.streams && !e.d.streams[x].running && e.d.streams[x].turns == [])
    || (a.Spawn? && e.started == map[Runner(a.n) := At(RunLoop(x))])
  }

  lemma LetsGo(d: Shared, tid: Tid, t: Thread, a: Action, e: Effect)
    requires ThreadOk(d, tid, t) && Do(d, tid, t, a) == Some(e)
    ensures Owns(t.at).Some? && Owns(e.self.at) != Owns(t.at) ==> LetGo(d, a, e, Owns(t.at).value)
  {
    if Owns(t.at).Some? && Owns(e.self.at) != Owns(t.at) {
      match tid
      case Runner(_) => RunnerKeepsStream(d, t.at, a, e);
      case Reader => assert t.at.Spawning?;
      case _ =>
    }
  }

  lemma PinsOnce(d: Shared, t: Thread, a: Action, e: Effect)
    requires ReaderOk(d, t.at) && Do(d, Reader, t, a) == Some(e) && e.self.at.PinnedNative?
    ensures t.at.PinnedNative? || !d.pinned
  {
  }

  lemma OwnerRunning(d: Shared, tid: Tid, t: Thread)
    requires ThreadOk(d, tid, t) && Owns(t.at).Some?
    ensures Runs(d, Owns(t.at).value)
  {
  }
}
