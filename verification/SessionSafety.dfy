/** The invariant of a whole session, kept by every step of any thread, by close and by cancellation. */
module SessionSafety {
  import opened Collections
  import opened SessionModel
  import opened SessionInvariant
  import opened SessionSteps

  ghost predicate ThreadsOk(s: Session) {
    forall tid :: tid in s.threads ==> ThreadOk(s.d, tid, s.threads[tid])
  }

  /** At most one thread answers for a stream. */
  ghost predicate OneOwner(threads: map<Tid, Thread>) {
    forall a, b :: a in threads && b in threads && a != b && Owns(threads[a].at).Some? ==>
      Owns(threads[b].at) != Owns(threads[a].at)
  }

  ghost predicate HasOwner(threads: map<Tid, Thread>, stream: string) {
    exists tid :: tid in threads && Owns(threads[tid].at) == Some(stream)
  }

  predicate Live(d: Shared) {
    !d.closed && !d.cancelled
  }

  /** While the session lives, a raised running flag has a thread behind it. */
  ghost predicate Staffed(s: Session) {
    Live(s.d) ==> forall x :: x in s.d.streams && s.d.streams[x].running ==> HasOwner(s.threads, x)
  }

  /** The reader has queued a turn of the stream and is on its way to start the bridge. */
  predicate About(pc: Pc, stream: string) {
    match pc
    case Attached(q, _) => q.stream == stream
    case Opening(q) => q.stream == stream
    case OpenLeased(q, _) => q.stream == stream
    case Starting(x) => x == stream
    case _ => false
  }

  predicate Bridging(d: Shared) {
    Live(d) && d.pinned && !d.native
  }

  predicate Waiting(d: Shared, stream: string) {
    stream in d.streams && d.streams[stream].turns != [] && !d.streams[stream].running
  }

  ghost predicate NoneStranded(s: Session) {
    Reader in s.threads && (Bridging(s.d) ==> forall x :: Waiting(s.d, x) ==> About(s.threads[Reader].at, x))
  }

  ghost predicate SessionOk(s: Session) {
    && SharedOk(s.d) && ThreadsOk(s) && OneOwner(s.threads) && Staffed(s) && NoneStranded(s)
    && (Closer in s.threads <==> s.d.closed)
    && (s.threads[Reader].at.PinnedNative? ==> Upstream !in s.threads)
  }

  lemma FreshOk()
    ensures SessionOk(FRESH)
  {
    var d := FRESH.d;
    CountZero(d.turns, Unfinished);
    assert Queued(d);
    assert SharedOk(d);
  }

  // ---- A step of one thread ---------------------------------------------------------------------------

  lemma StepThreads(s: Session, s': Session, tid: Tid, a: Action, e: Effect)
    requires SharedOk(s.d) && ThreadsOk(s) && OneOwner(s.threads)
    requires tid in s.threads && Do(s.d, tid, s.threads[tid], a) == Some(e)
    requires s' == Session(e.d, s.threads[tid := e.self] + e.started)
    ensures SharedOk(s'.d) && ThreadsOk(s')
  {
    assert ThreadOk(s.d, tid, s.threads[tid]);
    StepHolds(s.d, tid, s.threads[tid], a, e);
    Started(s.d, tid, s.threads[tid], a, e);
    ThreadsHold(s, s', tid, a, e);
  }

  /** What the step keeps for itself, for the threads it starts and for those beside it. */
  lemma ThreadsHold(s: Session, s': Session, tid: Tid, a: Action, e: Effect)
    requires ThreadsOk(s) && OneOwner(s.threads) && tid in s.threads &&
      s' == Session(e.d, s.threads[tid := e.self] + e.started)
    requires ThreadOk(e.d, tid, e.self) && Keeps(s.d, e.d, Owns(s.threads[tid].at)) &&
      (tid != Reader ==> Aside(s.d, e.d))
    requires StartsOk(s.threads[tid], a, e) && (e.started != map[] ==> e.d == s.d && tid == Reader)
    ensures ThreadsOk(s')
  {
    forall x | x in s'.threads
      ensures ThreadOk(s'.d, x, s'.threads[x])
    {
      if x in e.started {
        assert ThreadOk(s.d, tid, s.threads[tid]);
        StartedOk(s.d, s.threads[tid], a, e, x);
      } else if x != tid {
        StepBeside(s, tid, x, e);
      }
    }
  }

  lemma StartedOk(d: Shared, t: Thread, a: Action, e: Effect, x: Tid)
    requires ThreadOk(d, Reader, t) && StartsOk(t, a, e) && e.d == d && x in e.started
    ensures ThreadOk(d, x, e.started[x])
  {
  }

  lemma StepBeside(s: Session, tid: Tid, x: Tid, e: Effect)
    requires ThreadsOk(s) && OneOwner(s.threads) && tid in s.threads && x in s.threads && x != tid
    requires Keeps(s.d, e.d, Owns(s.threads[tid].at)) && (tid != Reader ==> Aside(s.d, e.d))
    ensures ThreadOk(e.d, x, s.threads[x])
  {
    var own := Owns(s.threads[tid].at);
    assert Owns(s.threads[x].at).Some? ==> own != Owns(s.threads[x].at);
    if x == Reader {
      ReaderStable(s.d, e.d, own, s.threads[x].at);
    } else {
      OtherStable(s.d, e.d, own, x, s.threads[x]);
    }
  }

  lemma StepOwners(s: Session, s': Session, tid: Tid, a: Action, e: Effect)
    requires ThreadsOk(s) && OneOwner(s.threads)
    requires tid in s.threads && Do(s.d, tid, s.threads[tid], a) == Some(e)
    requires s' == Session(e.d, s.threads[tid := e.self] + e.started)
    requires a.Spawn? ==> Runner(a.n) !in s.threads
    ensures OneOwner(s'.threads)
  {
    var t := s.threads[tid];
    assert ThreadOk(s.d, tid, t);
    Started(s.d, tid, t, a, e);
    TakesOver(s.d, tid, t, a, e);
    forall x | x in s.threads && Owns(s.threads[x].at).Some?
      ensures Runs(s.d, Owns(s.threads[x].at).value)
    {
      assert ThreadOk(s.d, x, s.threads[x]);
      OwnerRunning(s.d, x, s.threads[x]);
    }
    MovedOwners(s, s', tid, a, e);
  }

  /** An owner changes hands only by being let go, or by being taken up while nobody runs it. */
  lemma MovedOwners(s: Session, s': Session, tid: Tid, a: Action, e: Effect)
    requires OneOwner(s.threads) && tid in s.threads && s' == Session(e.d, s.threads[tid := e.self] + e.started)
    requires StartsOk(s.threads[tid], a, e) && (a.Spawn? ==> Runner(a.n) !in s.threads)
    requires forall x :: x in s.threads && Owns(s.threads[x].at).Some? ==> Runs(s.d, Owns(s.threads[x].at).value)
    requires Owns(e.self.at).Some? && Owns(e.self.at) != Owns(s.threads[tid].at) ==>
               var x := Owns(e.self.at).value; e.started == map[] && x in s.d.streams && !s.d.streams[x].running
    ensures OneOwner(s'.threads)
  {
    if e.started == map[] {
      assert s'.threads == s.threads[tid := e.self];
      SelfOwner(s, tid, e.self);
    } else if s.threads[tid].at.PinnedNative? {
      SelfOwner(s, tid, e.self);
      StartedOwner(s.threads[tid := e.self], Upstream, At(UpIdle));
    } else {
      SelfOwner(s, tid, e.self);
      StartedOwner(s.threads[tid := e.self], Runner(a.n), At(RunLoop(s.threads[tid].at.stream)));
    }
  }

  predicate LeftAlone(threads: map<Tid, Thread>, stream: Option<string>) {
    forall x :: x in threads ==> Owns(threads[x].at) != stream
  }

  /** One thread moves on: it owns what it owned, nothing, or what nobody ran. */
  lemma SelfOwner(s: Session, tid: Tid, self: Thread)
    requires OneOwner(s.threads) && tid in s.threads
    requires forall x :: x in s.threads && Owns(s.threads[x].at).Some? ==> Runs(s.d, Owns(s.threads[x].at).value)
    requires Owns(self.at).Some? && Owns(self.at) != Owns(s.threads[tid].at) ==>
               var x := Owns(self.at).value; x in s.d.streams && !s.d.streams[x].running
    ensures OneOwner(s.threads[tid := self])
    ensures Owns(self.at).None? && Owns(s.threads[tid].at).Some? ==>
      LeftAlone(s.threads[tid := self], Owns(s.threads[tid].at))
  {
  }

  /** A new thread owns what no other does. */
  lemma StartedOwner(threads: map<Tid, Thread>, x: Tid, t: Thread)
    requires OneOwner(threads) && (Owns(t.at).Some? ==> x !in threads && LeftAlone(threads, Owns(t.at)))
    ensures OneOwner(threads + map[x := t])
  {
  }

  lemma StepStaffed(s: Session, s': Session, tid: Tid, a: Action, e: Effect)
    requires SharedOk(s.d) && ThreadsOk(s) && Staffed(s)
    requires tid in s.threads && Do(s.d, tid, s.threads[tid], a) == Some(e)
    requires s' == Session(e.d, s.threads[tid := e.self] + e.started) && e.started.Keys !! s.threads.Keys
    requires a.Spawn? ==> Runner(a.n) !in s.threads
    ensures Staffed(s')
  {
    var t := s.threads[tid];
    assert ThreadOk(s.d, tid, t);
    StepHolds(s.d, tid, t, a, e);
    Started(s.d, tid, t, a, e);
    NewlyRunning(s.d, tid, t, a, e);
    LetsGo(s.d, tid, t, a, e);
    KeepsStaffed(s, s', tid, a, e);
  }

  lemma KeepsStaffed(s: Session, s': Session, tid: Tid, a: Action, e: Effect)
    requires Staffed(s) && tid in s.threads && (Live(e.d) ==> Live(s.d))
    requires s' == Session(e.d, s.threads[tid := e.self] + e.started) && tid !in e.started
    requires a.Spawn? ==> Runner(a.n) !in s.threads
    requires StartsOk(s.threads[tid], a, e) && e.started.Keys !! s.threads.Keys
    requires NoneRaised(s.d, e.d) ||
      (exists x :: x in s.d.streams && e.d == SetRunning(s.d, x, true) && Owns(e.self.at) == Some(x))
    requires Owns(s.threads[tid].at).Some? && Owns(e.self.at) != Owns(s.threads[tid].at) ==>
               LetGo(s.d, a, e, Owns(s.threads[tid].at).value)
    ensures Staffed(s')
  {
    if Live(s'.d) {
      forall x | x in s'.d.streams && s'.d.streams[x].running
        ensures HasOwner(s'.threads, x)
      {
        if x in s.d.streams && s.d.streams[x].running {
          assert HasOwner(s.threads, x);
          var owner :| owner in s.threads && Owns(s.threads[owner].at) == Some(x);
          if owner == tid && Owns(e.self.at) != Some(x) {
            assert Owns(s'.threads[Runner(a.n)].at) == Some(x);
          } else {
            assert Owns(s'.threads[owner].at) == Some(x);
          }
        } else {
          assert Owns(s'.threads[tid].at) == Some(x);
        }
      }
    }
  }

  // ---- No queue is left behind ----------------------------------------------------------------------

  lemma HeadUnfinished(d: Shared, x: string)
    requires Queued(d) && Head(d, x).Some?
    ensures Head(d, x).value in d.turns && !d.turns[Head(d, x).value].finished
  {
    assert StreamOk(d, x) && d.streams[x].turns[0] in d.streams[x].turns;
  }

  /** With every turn finished no queue has a head. */
  lemma NothingWaits(d: Shared, x: string)
    requires Queued(d) && forall t :: t in d.turns ==> d.turns[t].finished
    ensures !Waiting(d, x)
  {
    if Head(d, x).Some? { HeadUnfinished(d, x); }
  }

  predicate Attended(d: Shared, pc: Pc, x: string) {
    Bridging(d) && Waiting(d, x) ==> About(pc, x)
  }

  lemma AdmitAttends(d: Shared, t: Thread, a: Action, e: Effect, x: string)
    requires SharedOk(d) && ReaderOk(d, t.at) && ReaderAdmits(d, t.at, a) == Some(e) && !StartsBridge(t.at)
    requires Attended(d, t.at, x)
    ensures Attended(e.d, e.self.at, x)
  {
    if !ReaderTouches(t.at, a) {
      AdmitFields(d, t.at, a, e);
    } else if t.at.Pinning? {
      NothingWaits(d, x);
    } else if t.at.Leased? {
      AttachAttends(d, t.at.q, t.at.lease, t.at.first, a, e, x);
    }
  }

  lemma AttachAttends(d: Shared, q: Req, lease: string, first: bool, a: Action, e: Effect, x: string)
    requires ReaderAdmits(d, Leased(q, lease, first), a) == Some(e) && Attended(d, Leased(q, lease, first), x)
    ensures Attended(e.d, e.self.at, x)
  {
  }

  lemma StartAttends(d: Shared, t: Thread, a: Action, e: Effect, x: string)
    requires SharedOk(d) && ReaderOk(d, t.at) && ReaderStarts(d, t.at, a) == Some(e) && StartsBridge(t.at)
    requires SharedOk(e.d) && Attended(d, t.at, x)
    ensures Attended(e.d, e.self.at, x)
  {
    if t.at.Opening? && a.Fail? {
      FinishOk(d, t.at.q.id, if a.resettable then ResetPin else Idle, None);
      NothingWaits(e.d, x);
    } else if t.at.Writing? && a.Fail? {
      FinishOk(d, t.at.turn, Exit, None);
    } else if t.at.ResetPin? {
      NothingWaits(d, x);
    }
  }

  lemma AsideAttends(d: Shared, tid: Tid, t: Thread, a: Action, e: Effect, pc: Pc, x: string)
    requires SharedOk(d) && ThreadOk(d, tid, t) && tid != Reader
    requires Keeps(d, e.d, Owns(t.at)) && Aside(d, e.d) && ThreadOk(e.d, tid, e.self) && e.started == map[]
    requires Owns(t.at).Some? && Owns(e.self.at) != Owns(t.at) ==> LetGo(d, a, e, Owns(t.at).value)
    requires Attended(d, pc, x)
    ensures Attended(e.d, pc, x)
  {
    if Owns(e.self.at).Some? { OwnerRunning(e.d, tid, e.self); }
    assert a.Spawn? ==> Runner(a.n) !in e.started;
    assert Waiting(e.d, x) ==> Head(e.d, x).Some?;
  }

  lemma StepAttends(s: Session, s': Session, tid: Tid, a: Action, e: Effect)
    requires SharedOk(s.d) && ThreadsOk(s) && NoneStranded(s)
    requires tid in s.threads && Do(s.d, tid, s.threads[tid], a) == Some(e)
    requires s' == Session(e.d, s.threads[tid := e.self] + e.started)
    ensures NoneStranded(s')
  {
    var t := s.threads[tid];
    assert ThreadOk(s.d, tid, t);
    StepHolds(s.d, tid, t, a, e);
    Started(s.d, tid, t, a, e);
    LetsGo(s.d, tid, t, a, e);
    forall x | Bridging(s'.d) && Waiting(s'.d, x)
      ensures About(s'.threads[Reader].at, x)
    {
      assert Attended(s.d, s.threads[Reader].at, x);
      if tid != Reader {
        AsideAttends(s.d, tid, t, a, e, s.threads[Reader].at, x);
      } else if t.body.None? && t.lease.None? {
        if StartsBridge(t.at) { StartAttends(s.d, t, a, e, x); } else { AdmitAttends(s.d, t, a, e, x); }
      }
    }
  }

  // ---- The whole session ------------------------------------------------------------------------------

  /** Threads start under names that no thread has had. */
  lemma StartedNew(s: Session, tid: Tid, a: Action, e: Effect)
    requires SessionOk(s) && tid in s.threads && StartsOk(s.threads[tid], a, e) &&
      (e.started != map[] ==> tid == Reader)
    requires a.Spawn? ==> Runner(a.n) !in s.threads
    ensures e.started.Keys !! s.threads.Keys
  {
  }

  lemma StepSession(s: Session, s': Session, tid: Tid, a: Action)
    requires SessionOk(s) && ThreadStep(s, s', tid, a)
    ensures SessionOk(s')
  {
    var t := s.threads[tid];
    var e := Do(s.d, tid, t, a).value;
    StepHolds(s.d, tid, t, a, e);
    Started(s.d, tid, t, a, e);
    StartedNew(s, tid, a, e);
    StepThreads(s, s', tid, a, e);
    StepOwners(s, s', tid, a, e);
    StepStaffed(s, s', tid, a, e);
    StepAttends(s, s', tid, a, e);
    if tid == Reader && e.self.at.PinnedNative? { PinsOnce(s.d, t, a, e); }
    StepRest(s, s', tid, a, e);
  }

  lemma StepRest(s: Session, s': Session, tid: Tid, a: Action, e: Effect)
    requires SessionOk(s) && tid in s.threads && StartsOk(s.threads[tid], a, e) &&
      Keeps(s.d, e.d, Owns(s.threads[tid].at))
    requires tid == Reader && e.self.at.PinnedNative? ==> s.threads[tid].at.PinnedNative? || !s.d.pinned
    requires s' == Session(e.d, s.threads[tid := e.self] + e.started) && ThreadsOk(s')
    requires e.started != map[] ==> tid == Reader && e.d == s.d
    requires e.started.Keys !! s.threads.Keys
    ensures Reader in s'.threads
    ensures Closer in s'.threads <==> s'.d.closed
    ensures s'.threads[Reader].at.PinnedNative? ==> Upstream !in s'.threads
  {
    assert Upstream in s.threads ==> ThreadOk(s.d, Upstream, s.threads[Upstream]);
  }

  lemma CloseSession(s: Session, s': Session, left: seq<nat>)
    requires SessionOk(s) && CloseStep(s, s', left)
    ensures SessionOk(s')
  {
    SameQueued(s.d, s'.d);
    forall t | t in s'.d.turns && !s'.d.turns[t].finished
      ensures t in left
    {
      assert TurnOk(s.d, t);
      var queue := s.d.streams[s.d.turns[t].stream].turns;
      assert exists k :: 0 <= k < |queue| && queue[k] == t;
    }
    forall x | x in s'.threads
      ensures ThreadOk(s'.d, x, s'.threads[x])
    {
      if x != Closer {
        assert ThreadOk(s.d, x, s.threads[x]);
        Untold(s.d, s'.d, x, s.threads[x]);
      }
    }
  }

  /** Neither closing nor cancelling touches what a thread relies on. */
  lemma Untold(d: Shared, d': Shared, tid: Tid, t: Thread)
    requires ThreadOk(d, tid, t) && d' == d.(closed := d'.closed, cancelled := d'.cancelled) && (d.closed ==> d'.closed)
    ensures ThreadOk(d', tid, t)
  {
  }

  lemma CancelSession(s: Session, s': Session)
    requires SessionOk(s) && CancelStep(s, s')
    ensures SessionOk(s')
  {
    SameQueued(s.d, s'.d);
    forall x | x in s'.threads
      ensures ThreadOk(s'.d, x, s'.threads[x])
    {
      Untold(s.d, s'.d, x, s.threads[x]);
    }
  }
}
