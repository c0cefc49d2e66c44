/**
 Who holds a turn lease of an account, and who holds a request body. Every step conserves
 both: a lease is gained or lost only where the hub's counter moves with it, and each body
 is in exactly one pair of hands until it is released once.
 */
module SessionLeases {
  import opened Collections
  import opened SessionModel
  import opened SessionInvariant
  import opened SessionSteps
  import opened SessionSafety

  // ---- Leases -------------------------------------------------------------------------------

  /** The lease a thread has reserved and not yet attached, transferred or returned. */
  function PcLease(pc: Pc): Option<string> {
    match pc
    case Leased(_, lease, _) => Some(lease)
    case OpenLeased(_, lease) => Some(lease)
    case UpLeased(_, _, _, lease) => Some(lease)
    case _ => None
  }

  ghost function OnAccount(account: string): Turn -> bool {
    (t: Turn) => !t.finished && t.account == account
  }

  ghost function Carries(account: string): Thread -> bool {
    (t: Thread) => PcLease(t.at) == Some(account)
  }

  ghost function Owes(account: string): Thread -> bool {
    (t: Thread) => t.lease == Some(account)
  }

  /** All leases of an account within a session. */
  ghost function Leases(s: Session, account: string): nat {
    Count(s.d.turns, OnAccount(account)) + Count(s.threads, Carries(account)) + Count(s.threads, Owes(account))
  }

  function One(yes: bool): nat {
    if yes then 1 else 0
  }

  /** What the stepping thread itself holds, together with the turns. */
  ghost function Own(d: Shared, t: Thread, account: string): nat {
    Count(d.turns, OnAccount(account)) + One(PcLease(t.at) == Some(account)) + One(t.lease == Some(account))
  }

  lemma FinishOwn(d: Shared, turn: nat, pc: Pc, account: string)
    requires PcLease(pc) == None
    ensures var e := Finish(d, turn, pc); Own(e.d, e.self, account) == Count(d.turns, OnAccount(account))
  {
    if turn in d.turns && !d.turns[turn].finished {
      FinishedCount(d.turns, turn, account);
    }
  }

  /** A finished turn gives up its own count; its account is owed instead. */
  lemma FinishedCount(turns: map<nat, Turn>, turn: nat, account: string)
    requires turn in turns && !turns[turn].finished
    ensures Count(turns[turn := turns[turn].(finished := true)],
      OnAccount(account)) + One(turns[turn].account == account) ==
            Count(turns, OnAccount(account))
  {
    CountUpdate(turns, OnAccount(account), turn, turns[turn].(finished := true));
  }

  lemma MarkOwn(d: Shared, turn: nat, account: string)
    ensures Count(MarkForwarded(d, turn).turns, OnAccount(account)) == Count(d.turns, OnAccount(account))
  {
    if turn in d.turns && !d.turns[turn].finished {
      CountUpdate(d.turns, OnAccount(account), turn, d.turns[turn].(forwarded := true));
    }
  }

  lemma MoveOwn(d: Shared, turn: nat, lease: string, account: string)
    requires turn in d.turns && !d.turns[turn].finished
    ensures Count(MoveTurn(d, turn, lease).turns, OnAccount(account)) + One(d.turns[turn].account == account) ==
            Count(d.turns, OnAccount(account)) + One(lease == account)
  {
    CountUpdate(d.turns, OnAccount(account), turn, d.turns[turn].(account := lease));
  }

  lemma AddOwn(d: Shared, q: Req, lease: string, account: string)
    requires Unborn(d, q)
    ensures Count(AddTurn(d, q, lease).turns, OnAccount(account)) ==
      Count(d.turns, OnAccount(account)) + One(lease == account)
  {
    CountUpdate(d.turns, OnAccount(account), q.id, Turn(q.stream, lease, q.continuation, false, false));
  }

  ghost predicate OwnMoves(d: Shared, t: Thread, a: Action, e: Effect, account: string) {
    Own(e.d, e.self, account) + One(Lowers(t) == Some(account)) == Own(d, t, account) + One(Raises(a) == Some(account))
  }

  /** The thread's own leases move with the counter, whatever the turns do. */
  predicate LeaseMoves(t: Thread, a: Action, e: Effect, account: string) {
    One(PcLease(e.self.at) == Some(account)) + One(e.self.lease == Some(account)) + One(Lowers(t) == Some(account)) ==
    One(PcLease(t.at) == Some(account)) + One(t.lease == Some(account)) + One(Raises(a) == Some(account))
  }

  lemma SameTurnsOwn(d: Shared, t: Thread, a: Action, e: Effect, account: string)
    requires e.d.turns == d.turns && LeaseMoves(t, a, e, account)
    ensures OwnMoves(d, t, a, e, account)
  {
  }

  lemma UpstreamLease(d: Shared, pc: Pc, a: Action, e: Effect)
    requires UpstreamSteps(d, pc, a) == Some(e) && UpstreamOk(d, pc) && !UpstreamTouches(pc, a)
    ensures PcLease(pc) == None && PcLease(e.self.at) == Raises(a)
  {
  }

  lemma UpstreamOwn(d: Shared, t: Thread, a: Action, e: Effect, account: string)
    requires UpstreamSteps(d, t.at, a) == Some(e) && UpstreamOk(d, t.at) && t.body.None? && t.lease.None?
    ensures OwnMoves(d, t, a, e, account)
  {
    if !UpstreamTouches(t.at, a) {
      UpstreamSideways(d, t.at, a, e);
      UpstreamLease(d, t.at, a, e);
      SameTurnsOwn(d, t, a, e, account);
    } else if t.at.UpForward? {
      if t.at.seen.Some? { MarkOwn(d, t.at.seen.value, account); }
    } else if t.at.UpWrote? {
      if t.at.seen.Some? && t.at.terminal {
        FinishOwn(d, t.at.seen.value, if t.at.limit then Exit else UpIdle, account);
      }
    } else if MayTransfer(d, t.at.turn, t.at.conn) {
      MoveOwn(d, t.at.turn, t.at.lease, account);
    }
  }

  lemma RunnerOwn(d: Shared, t: Thread, a: Action, e: Effect, account: string)
    requires RunnerSteps(d, t.at, a) == Some(e) && RunnerOk(d, t.at) && t.body.None? && t.lease.None?
    ensures OwnMoves(d, t, a, e, account)
  {
    if !RunnerTouches(d, t.at, a) {
      RunnerSideways(d, t.at, a, e);
      assert PcLease(e.self.at) == None;
    } else if t.at.RunLoop? {
      assert e.d.turns == d.turns && PcLease(e.self.at) == None && e.self.lease == None;
    } else if a.Observe? {
      MarkOwn(d, t.at.turn, account);
    } else {
      FinishOwn(d, t.at.turn, RunDone(t.at.stream), account);
    }
  }

  lemma CloserOwn(d: Shared, t: Thread, a: Action, e: Effect, account: string)
    requires CloserSteps(d, t.at, a) == Some(e) && t.body.None? && t.lease.None?
    ensures OwnMoves(d, t, a, e, account)
  {
    if t.at.Closing? && t.at.left != [] { FinishOwn(d, t.at.left[0], Closing(t.at.left[1..]), account); }
  }

  lemma AdmitLease(d: Shared, pc: Pc, a: Action, e: Effect)
    requires ReaderAdmits(d, pc, a) == Some(e) && !pc.Leased?
    ensures PcLease(pc) == None && PcLease(e.self.at) == Raises(a) && e.self.lease == None
  {
  }

  lemma AdmitTurns(d: Shared, pc: Pc, a: Action, e: Effect)
    requires ReaderAdmits(d, pc, a) == Some(e) && !pc.Leased?
    ensures e.d.turns == d.turns
  {
    if pc.Drop? {
      assert e.d == Release(d, pc.q.id);
    } else if pc.Idle? || pc.WriteBack? || pc.Pinning? {
      assert e.self == At(e.self.at);
    } else {
      assert e.d == d;
    }
  }

  lemma AttachOwn(d: Shared, t: Thread, a: Action, e: Effect, account: string)
    requires ReaderAdmits(d, t.at, a) == Some(e) && t.at.Leased? && Unborn(d, t.at.q) && t.body.None? && t.lease.None?
    ensures OwnMoves(d, t, a, e, account)
  {
    if d.closed || d.switching {
      assert LeaseMoves(t, a, e, account);
    } else {
      AddOwn(d, t.at.q, t.at.lease, account);
    }
  }

  lemma AdmitOwn(d: Shared, t: Thread, a: Action, e: Effect, account: string)
    requires ReaderAdmits(d, t.at, a) == Some(e) && ReaderOk(d, t.at) && t.body.None? && t.lease.None? &&
      !StartsBridge(t.at)
    ensures OwnMoves(d, t, a, e, account)
  {
    if t.at.Leased? {
      AttachOwn(d, t, a, e, account);
    } else {
      AdmitTurns(d, t.at, a, e);
      AdmitLease(d, t.at, a, e);
      SameTurnsOwn(d, t, a, e, account);
    }
  }

  lemma StartLease(d: Shared, pc: Pc, a: Action, e: Effect)
    requires ReaderStarts(d, pc, a) == Some(e) && !ReaderTouches(pc, a)
    ensures e.d == d && PcLease(pc) == None && PcLease(e.self.at) == Raises(a) && e.self.lease == None
  {
  }

  lemma TransferOwn(d: Shared, t: Thread, a: Action, e: Effect, account: string)
    requires ReaderStarts(d, t.at, a) == Some(e) && t.at.OpenLeased? && t.body.None? && t.lease.None?
    ensures OwnMoves(d, t, a, e, account)
  {
    if t.at.q.id in d.turns && !d.turns[t.at.q.id].finished {
      MoveOwn(d, t.at.q.id, t.at.lease, account);
    }
  }

  lemma StartOwn(d: Shared, t: Thread, a: Action, e: Effect, account: string)
    requires ReaderStarts(d, t.at, a) == Some(e) && t.body.None? && t.lease.None?
    ensures OwnMoves(d, t, a, e, account)
  {
    if !ReaderTouches(t.at, a) {
      StartLease(d, t.at, a, e);
    } else if t.at.Writing? {
      FinishOwn(d, t.at.turn, Exit, account);
    } else if t.at.Opening? {
      FinishOwn(d, t.at.q.id, if a.resettable then ResetPin else Idle, account);
    } else if t.at.OpenLeased? {
      TransferOwn(d, t, a, e, account);
    } else {
      assert e.d.turns == d.turns;
    }
  }

  lemma StepOwn(d: Shared, tid: Tid, t: Thread, a: Action, e: Effect, account: string)
    requires ThreadOk(d, tid, t) && Do(d, tid, t, a) == Some(e)
    ensures OwnMoves(d, t, a, e, account)
  {
    if t.body.None? && t.lease.None? {
      match tid
      case Upstream => UpstreamOwn(d, t, a, e, account);
      case Runner(_) => RunnerOwn(d, t, a, e, account);
      case Closer => CloserOwn(d, t, a, e, account);
      case Reader => if StartsBridge(t.at) { StartOwn(d, t, a, e, account); } else { AdmitOwn(d, t, a, e, account); }
    }
  }

  /** Counting threads after a step: the stepping thread changed, and at most one new thread without the property. */
  lemma CountThreads(threads: map<Tid, Thread>, tid: Tid, t: Thread, a: Action, e: Effect, p: Thread -> bool)
    requires tid in threads && threads[tid] == t && StartsOk(t, a, e) && e.started.Keys !! threads.Keys
    requires forall x :: x in e.started ==> !p(e.started[x])
    ensures Count(threads[tid := e.self] + e.started, p) + One(p(t)) == Count(threads, p) + One(p(e.self))
  {
    var threads' := threads[tid := e.self];
    CountUpdate(threads, p, tid, e.self);
    if e.started == map[] {
      assert threads' + e.started == threads';
    } else {
      var x := if t.at.PinnedNative? then Upstream else Runner(a.n);
      assert x in e.started.Keys && threads' + e.started == threads'[x := e.started[x]];
      CountUpdate(threads', p, x, e.started[x]);
    }
  }

  /** A session's leases change by exactly what the step does to the hub's counters. */
  lemma StepLeases(s: Session, s': Session, tid: Tid, a: Action, account: string)
    requires SessionOk(s) && ThreadStep(s, s', tid, a)
    ensures Leases(s', account) + One(Lowers(s.threads[tid]) == Some(account)) ==
            Leases(s, account) + One(Raises(a) == Some(account))
  {
    var t := s.threads[tid];
    var e := Do(s.d, tid, t, a).value;
    assert ThreadOk(s.d, tid, t);
    StepOwn(s.d, tid, t, a, e, account);
    Started(s.d, tid, t, a, e);
    StartedNew(s, tid, a, e);
    SumLeases(s, s', tid, t, a, e, account);
  }

  lemma SumLeases(s: Session, s': Session, tid: Tid, t: Thread, a: Action, e: Effect, account: string)
    requires tid in s.threads && s.threads[tid] == t && StartsOk(t, a, e) && e.started.Keys !! s.threads.Keys
    requires s' == Session(e.d, s.threads[tid := e.self] + e.started) && OwnMoves(s.d, t, a, e, account)
    ensures Leases(s', account) + One(Lowers(t) == Some(account)) ==
      Leases(s, account) + One(Raises(a) == Some(account))
  {
    CountThreads(s.threads, tid, t, a, e, Carries(account));
    CountThreads(s.threads, tid, t, a, e, Owes(account));
  }

  // ---- Request bodies -----------------------------------------------------------------------------

  /** The body of a request that has not become a turn. */
  function PcBody(pc: Pc): Option<nat> {
    match pc
    case Got(q) => Some(q.id)
    case WriteBack(q, _) => Some(q.id)
    case Ensure(q) => Some(q.id)
    case Pinning(q) => Some(q.id)
    case PinnedNative(q) => Some(q.id)
    case Ready(q, _) => Some(q.id)
    case Checked(q, _, _) => Some(q.id)
    case Leased(q, _, _) => Some(q.id)
    case Drop(q) => Some(q.id)
    case _ => None
  }

  ghost function CarriesBody(r: nat): Thread -> bool {
    (t: Thread) => PcBody(t.at) == Some(r)
  }

  ghost function OwesBody(r: nat): Thread -> bool {
    (t: Thread) => t.body == Some(r)
  }

  function Releases(d: Shared, r: nat): nat {
    if r in d.released then d.released[r] else 0
  }

  predicate InFlight(d: Shared, r: nat) {
    r in d.turns && !d.turns[r].finished
  }

  /** In how many hands a body is, counting every release as a hand. */
  ghost function Hands(s: Session, r: nat): nat {
    Releases(s.d, r) + One(InFlight(s.d, r)) + Count(s.threads, CarriesBody(r)) + Count(s.threads, OwesBody(r))
  }

  function OwnHands(d: Shared, t: Thread, r: nat): nat {
    Releases(d, r) + One(InFlight(d, r)) + One(PcBody(t.at) == Some(r)) + One(t.body == Some(r))
  }

  predicate Arrives(d: Shared, t: Thread, a: Action, r: nat) {
    t.at.Idle? && a.Receive? && r == d.next
  }

  predicate HandsMove(d: Shared, t: Thread, a: Action, e: Effect, r: nat) {
    OwnHands(e.d, e.self, r) == OwnHands(d, t, r) + One(Arrives(d, t, a, r))
  }

  lemma FinishFacts(d: Shared, turn: nat, pc: Pc, e: Effect)
    requires e == Finish(d, turn, pc)
    ensures e.d.released == d.released && e.self.at == pc && e.d.next == d.next
    ensures if turn in d.turns && !d.turns[turn].finished
            then e.d.turns == d.turns[turn := d.turns[turn].(finished := true)] && e.self.body == Some(turn)
            else e.d.turns == d.turns && e.self.body == None
  {
    if turn in d.turns && !d.turns[turn].finished {
      FinishFields(d, turn);
    } else {
      assert e == Move(d, pc);
    }
  }

  lemma FinishFields(d: Shared, turn: nat)
    requires turn in d.turns
    ensures FinishTurn(d, turn).turns == d.turns[turn := d.turns[turn].(finished := true)]
    ensures FinishTurn(d, turn).released == d.released && FinishTurn(d, turn).next == d.next
  {
  }

  lemma HandOver(d: Shared, turn: nat, e: Effect, r: nat)
    requires e.d.released == d.released && PcBody(e.self.at) == None
    requires if turn in d.turns && !d.turns[turn].finished
             then e.d.turns == d.turns[turn := d.turns[turn].(finished := true)] && e.self.body == Some(turn)
             else e.d.turns == d.turns && e.self.body == None
    ensures OwnHands(e.d, e.self, r) == Releases(d, r) + One(InFlight(d, r))
  {
  }

  lemma FinishHands(d: Shared, turn: nat, pc: Pc, e: Effect, r: nat)
    requires e == Finish(d, turn, pc) && PcBody(pc) == None
    ensures OwnHands(e.d, e.self, r) == Releases(d, r) + One(InFlight(d, r))
  {
    FinishFacts(d, turn, pc, e);
    HandOver(d, turn, e, r);
  }

  /** No turn starts or ends and nothing is released. */
  predicate SameFlight(d: Shared, d': Shared) {
    && d'.released == d.released && d'.next == d.next && d'.turns.Keys == d.turns.Keys
    && forall t :: t in d.turns ==> d'.turns[t].finished == d.turns[t].finished
  }

  lemma MarkFlight(d: Shared, turn: nat)
    ensures SameFlight(d, MarkForwarded(d, turn))
  {
  }

  lemma MoveFlight(d: Shared, turn: nat, account: string, upstream: Option<nat>)
    requires turn in d.turns
    ensures SameFlight(d, MoveTurn(d, turn, account).(upstream := upstream))
  {
  }

  lemma UpstreamFlight(d: Shared, t: Thread, a: Action, e: Effect)
    requires UpstreamSteps(d, t.at, a) == Some(e) && UpstreamOk(d, t.at) && !(t.at.UpWrote? && a.Succeed?)
    ensures SameFlight(d, e.d) && e.self.body == None && PcBody(e.self.at) == None && PcBody(t.at) == None
  {
    if !UpstreamTouches(t.at, a) {
      UpstreamSideways(d, t.at, a, e);
    } else if t.at.UpForward? {
      if t.at.seen.Some? { MarkFlight(d, t.at.seen.value); }
    } else if MayTransfer(d, t.at.turn, t.at.conn) {
      MoveFlight(d, t.at.turn, t.at.lease, Some(a.conn));
    }
  }

  lemma UpstreamHands(d: Shared, t: Thread, a: Action, e: Effect, r: nat)
    requires UpstreamSteps(d, t.at, a) == Some(e) && UpstreamOk(d, t.at) && t.body.None? && t.lease.None?
    ensures HandsMove(d, t, a, e, r)
  {
    if t.at.UpWrote? && a.Succeed? {
      if t.at.seen.Some? && t.at.terminal {
        FinishHands(d, t.at.seen.value, if t.at.limit then Exit else UpIdle, e, r);
      }
    } else {
      UpstreamFlight(d, t, a, e);
    }
  }

  lemma RunnerHands(d: Shared, t: Thread, a: Action, e: Effect, r: nat)
    requires RunnerSteps(d, t.at, a) == Some(e) && RunnerOk(d, t.at) && t.body.None? && t.lease.None?
    ensures HandsMove(d, t, a, e, r)
  {
    if !RunnerTouches(d, t.at, a) {
      RunnerSideways(d, t.at, a, e);
      assert PcBody(e.self.at) == None;
    } else if t.at.RunLoop? {
      assert e.d.turns == d.turns && PcBody(e.self.at) == None && e.self.body == None;
    } else if a.Observe? {
      MarkFlight(d, t.at.turn);
    } else {
      FinishHands(d, t.at.turn, RunDone(t.at.stream), e, r);
    }
  }

  lemma CloserHands(d: Shared, t: Thread, a: Action, e: Effect, r: nat)
    requires CloserSteps(d, t.at, a) == Some(e) && t.body.None? && t.lease.None?
    ensures HandsMove(d, t, a, e, r)
  {
    if t.at.Closing? && t.at.left != [] { FinishHands(d, t.at.left[0], Closing(t.at.left[1..]), e, r); }
  }

  /** The body of a request follows it from one position of the reader to the next. */
  lemma AdmitFlight(d: Shared, t: Thread, a: Action, e: Effect)
    requires ReaderAdmits(d, t.at, a) == Some(e) && !ReaderTouches(t.at, a)
    ensures SameFlight(d, e.d) && e.self.body == None && PcBody(e.self.at) == PcBody(t.at)
  {
    AdmitFields(d, t.at, a, e);
  }

  lemma ArrivalHands(d: Shared, a: Action, e: Effect, r: nat)
    requires SharedOk(d) && ReaderAdmits(d, Idle, a) == Some(e) && a.Receive?
    ensures HandsMove(d, At(Idle), a, e, r)
  {
  }

  lemma DropHands(d: Shared, q: Req, a: Action, e: Effect, r: nat)
    requires ReaderAdmits(d, Drop(q), a) == Some(e)
    ensures HandsMove(d, At(Drop(q)), a, e, r)
  {
  }

  lemma PinHands(d: Shared, q: Req, a: Action, e: Effect, r: nat)
    requires ReaderAdmits(d, Pinning(q), a) == Some(e)
    ensures HandsMove(d, At(Pinning(q)), a, e, r)
  {
  }

  lemma AdmitHands(d: Shared, t: Thread, a: Action, e: Effect, r: nat)
    requires SharedOk(d) && ReaderOk(d, t.at) && ReaderAdmits(d, t.at, a) == Some(e)
    requires t.body.None? && t.lease.None? && !StartsBridge(t.at)
    ensures HandsMove(d, t, a, e, r)
  {
    if !ReaderTouches(t.at, a) {
      AdmitFlight(d, t, a, e);
    } else if t.at.Leased? {
      AttachHands(d, t.at.q, t.at.lease, t.at.first, a, e, r);
    } else if t.at.Idle? {
      ArrivalHands(d, a, e, r);
    } else if t.at.Drop? {
      DropHands(d, t.at.q, a, e, r);
    } else {
      PinHands(d, t.at.q, a, e, r);
    }
  }

  lemma AttachHands(d: Shared, q: Req, lease: string, first: bool, a: Action, e: Effect, r: nat)
    requires ReaderAdmits(d, Leased(q, lease, first), a) == Some(e) && Unborn(d, q)
    ensures OwnHands(e.d, e.self, r) == OwnHands(d, At(Leased(q, lease, first)), r)
  {
  }

  lemma StartFlight(d: Shared, t: Thread, a: Action, e: Effect)
    requires ReaderStarts(d, t.at, a) == Some(e) && ReaderOk(d, t.at) && !(t.at.Writing? && a.Fail?) &&
      !(t.at.Opening? && a.Fail?)
    ensures SameFlight(d, e.d) && e.self.body == None && PcBody(e.self.at) == None && PcBody(t.at) == None
  {
    if !ReaderTouches(t.at, a) {
      StartSideways(d, t.at, a, e);
    } else if t.at.OpenLeased? {
      if e.d != d { MoveFlight(d, t.at.q.id, t.at.lease, d.upstream); }
    } else if t.at.ResetPin? {
      assert e.d.turns == d.turns && e.self == At(Idle);
    } else {
      assert e.d.turns == d.turns;
    }
  }

  lemma StartHands(d: Shared, t: Thread, a: Action, e: Effect, r: nat)
    requires ReaderStarts(d, t.at, a) == Some(e) && ReaderOk(d, t.at) && t.body.None? && t.lease.None?
    ensures HandsMove(d, t, a, e, r)
  {
    if t.at.Writing? && a.Fail? {
      FinishHands(d, t.at.turn, Exit, e, r);
    } else if t.at.Opening? && a.Fail? {
      FinishHands(d, t.at.q.id, if a.resettable then ResetPin else Idle, e, r);
    } else {
      StartFlight(d, t, a, e);
    }
  }

  lemma StepOwnHands(d: Shared, tid: Tid, t: Thread, a: Action, e: Effect, r: nat)
    requires SharedOk(d) && ThreadOk(d, tid, t) && Do(d, tid, t, a) == Some(e)
    ensures HandsMove(d, t, a, e, r)
  {
    if t.body.None? && t.lease.None? {
      match tid
      case Upstream => UpstreamHands(d, t, a, e, r);
      case Runner(_) => RunnerHands(d, t, a, e, r);
      case Closer => CloserHands(d, t, a, e, r);
      case Reader => if StartsBridge(t.at) { StartHands(d, t, a, e, r); } else { AdmitHands(d, t, a, e, r); }
    }
  }

  lemma StepHands(s: Session, s': Session, tid: Tid, a: Action, r: nat)
    requires SessionOk(s) && ThreadStep(s, s', tid, a)
    ensures Hands(s', r) == Hands(s, r) + One(Arrives(s.d, s.threads[tid], a, r))
  {
    var t := s.threads[tid];
    var e := Do(s.d, tid, t, a).value;
    assert ThreadOk(s.d, tid, t);
    StepOwnHands(s.d, tid, t, a, e, r);
    Started(s.d, tid, t, a, e);
    StartedNew(s, tid, a, e);
    SumHands(s, s', tid, t, a, e, r);
  }

  lemma SumHands(s: Session, s': Session, tid: Tid, t: Thread, a: Action, e: Effect, r: nat)
    requires tid in s.threads && s.threads[tid] == t && StartsOk(t, a, e) && e.started.Keys !! s.threads.Keys
    requires s' == Session(e.d, s.threads[tid := e.self] + e.started) && HandsMove(s.d, t, a, e, r)
    ensures Hands(s', r) == Hands(s, r) + One(Arrives(s.d, t, a, r))
  {
    CountThreads(s.threads, tid, t, a, e, CarriesBody(r));
    CountThreads(s.threads, tid, t, a, e, OwesBody(r));
  }

  lemma TurnsSeen(d: Shared)
    requires Queued(d)
    ensures forall t :: t in d.turns ==> t < d.next
  {
    assert forall t :: t in d.turns ==> TurnOk(d, t);
  }

  /** A body that has not arrived is in nobody's hands. */
  lemma UnseenHands(s: Session, r: nat)
    requires SessionOk(s) && s.d.next <= r
    ensures Hands(s, r) == 0
  {
    TurnsSeen(s.d);
    forall tid | tid in s.threads
      ensures !CarriesBody(r)(s.threads[tid]) && !OwesBody(r)(s.threads[tid])
    {
      assert ThreadOk(s.d, tid, s.threads[tid]);
    }
    CountZero(s.threads, CarriesBody(r));
    CountZero(s.threads, OwesBody(r));
  }

  /** Every body that has arrived is in exactly one pair of hands. */
  ghost predicate BodiesOk(s: Session) {
    forall r: nat :: r < s.d.next ==> Hands(s, r) == 1
  }

  lemma StepBodies(s: Session, s': Session, tid: Tid, a: Action)
    requires SessionOk(s) && BodiesOk(s) && ThreadStep(s, s', tid, a)
    ensures BodiesOk(s')
  {
    StepSession(s, s', tid, a);
    NextMoves(s, s', tid, a);
    forall r: nat | r < s'.d.next
      ensures Hands(s', r) == 1
    {
      StepHands(s, s', tid, a, r);
      if s.d.next <= r { UnseenHands(s, r); }
    }
  }

  lemma NextMoves(s: Session, s': Session, tid: Tid, a: Action)
    requires SessionOk(s) && ThreadStep(s, s', tid, a)
    ensures s'.d.next == s.d.next + One(Arrives(s.d, s.threads[tid], a, s.d.next))
  {
    var t := s.threads[tid];
    var e := Do(s.d, tid, t, a).value;
    assert ThreadOk(s.d, tid, t);
    NextStep(s.d, tid, t, a, e);
  }

  lemma NextStep(d: Shared, tid: Tid, t: Thread, a: Action, e: Effect)
    requires SharedOk(d) && ThreadOk(d, tid, t) && Do(d, tid, t, a) == Some(e)
    ensures e.d.next == d.next + One(Arrives(d, t, a, d.next))
  {
    StepHolds(d, tid, t, a, e);
    if tid == Reader && t.body.None? && t.lease.None? {
      if StartsBridge(t.at) { NextStart(d, t.at, a, e); } else { NextAdmit(d, t.at, a, e); }
    }
  }

  lemma NextAdmit(d: Shared, pc: Pc, a: Action, e: Effect)
    requires ReaderAdmits(d, pc, a) == Some(e)
    ensures e.d.next == d.next + One(pc.Idle? && a.Receive?)
  {
  }

  lemma NextStart(d: Shared, pc: Pc, a: Action, e: Effect)
    requires ReaderStarts(d, pc, a) == Some(e)
    ensures e.d.next == d.next
  {
  }
}
