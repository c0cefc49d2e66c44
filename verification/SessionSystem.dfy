/** All sessions together with the hub's counters of account turns, over every run. */
module SessionSystem {
  import opened Collections
  import opened SessionModel
  import opened SessionInvariant
  import opened SessionSteps
  import opened SessionSafety
  import opened SessionLeases

  /** accountTurns and the open sessions. */
  datatype System = System(turns: map<string, nat>, sessions: map<nat, Session>)

  const START := System(map[], map[])

  function Held(turns: map<string, nat>, account: string): nat {
    if account in turns then turns[account] else 0
  }

  /** reserveAccountTurn, when there is room. */
  function Raise(turns: map<string, nat>, account: string): map<string, nat> {
    turns[account := Held(turns, account) + 1]
  }

  /** releaseAccountTurn. */
  function Lower(turns: map<string, nat>, account: string): map<string, nat> {
    if Held(turns, account) <= 1 then turns - {account} else turns[account := turns[account] - 1]
  }

  function Counted(turns: map<string, nat>, raised: Option<string>, lowered: Option<string>): map<string, nat> {
    var up := if raised.Some? then Raise(turns, raised.value) else turns;
    if lowered.Some? then Lower(up, lowered.value) else up
  }

  /** Nothing of the session is left to run. */
  ghost predicate Drained(s: Session) {
    && s.d.closed
    && forall tid :: tid in s.threads ==> s.threads[tid] == At(Exit)
  }

  datatype Event =
    | Connect(sid: nat)
    | Run(sid: nat, tid: Tid, a: Action)
    | Close(sid: nat, left: seq<nat>)
    | Cancel(sid: nat)
    | Remove(sid: nat)

  ghost predicate Next(y: System, y': System, ev: Event) {
    match ev
    case Connect(sid) => sid !in y.sessions && y' == y.(sessions := y.sessions[sid := FRESH])
    case Run(sid, tid, a) =>
      && sid in y.sessions && sid in y'.sessions
      && ThreadStep(y.sessions[sid], y'.sessions[sid], tid, a)
      && (a.Grant? ==> a.granted == (Held(y.turns, a.account) < MAX_ACCOUNT_TURNS))
      && y' == System(Counted(y.turns, Raises(a), Lowers(y.sessions[sid].threads[tid])),
                      y.sessions[sid := y'.sessions[sid]])
    case Close(sid, left) =>
      && sid in y.sessions && sid in y'.sessions && CloseStep(y.sessions[sid], y'.sessions[sid], left)
      && y' == y.(sessions := y.sessions[sid := y'.sessions[sid]])
    case Cancel(sid) =>
      && sid in y.sessions && sid in y'.sessions && CancelStep(y.sessions[sid], y'.sessions[sid])
      && y' == y.(sessions := y.sessions[sid := y'.sessions[sid]])
    case Remove(sid) => sid in y.sessions && Drained(y.sessions[sid]) && y' == y.(sessions := y.sessions - {sid})
  }

  // ---- The counter of an account is the sum over the sessions -------------------------------------------

  ghost function LeasesOf(sessions: map<nat, Session>, account: string): nat -> nat {
    (sid: nat) => if sid in sessions then Leases(sessions[sid], account) else 0
  }

  ghost function Total(sessions: map<nat, Session>, account: string): nat {
    Sum(sessions.Keys, LeasesOf(sessions, account))
  }

  lemma TotalUpdate(sessions: map<nat, Session>, sid: nat, s: Session, account: string)
    ensures Total(sessions[sid := s], account) + (if sid in sessions then Leases(sessions[sid], account) else 0) ==
            Total(sessions, account) + Leases(s, account)
  {
    var sessions' := sessions[sid := s];
    var f, f' := LeasesOf(sessions, account), LeasesOf(sessions', account);
    var rest := sessions.Keys - {sid};
    assert sessions'.Keys - {sid} == rest;
    SumRemove(sessions'.Keys, f', sid);
    SumSame(rest, f, f');
    if sid in sessions {
      SumRemove(sessions.Keys, f, sid);
    } else {
      assert rest == sessions.Keys;
    }
  }

  lemma TotalRemove(sessions: map<nat, Session>, sid: nat, account: string)
    requires sid in sessions
    ensures Total(sessions, account) == Leases(sessions[sid], account) + Total(sessions - {sid}, account)
  {
    var f, f' := LeasesOf(sessions, account), LeasesOf(sessions - {sid}, account);
    assert (sessions - {sid}).Keys == sessions.Keys - {sid};
    SumRemove(sessions.Keys, f, sid);
    SumSame(sessions.Keys - {sid}, f, f');
  }

  // ---- The invariant of the system ---------------------------------------------------------------------------

  ghost predicate SessionsOk(y: System) {
    forall sid :: sid in y.sessions ==> SessionOk(y.sessions[sid]) && BodiesOk(y.sessions[sid])
  }

  ghost predicate CounterOk(y: System, account: string) {
    Held(y.turns, account) == Total(y.sessions, account) <= MAX_ACCOUNT_TURNS
  }

  ghost predicate SystemOk(y: System) {
    && SessionsOk(y)
    && forall account :: CounterOk(y, account)
  }

  lemma StartOk()
    ensures SystemOk(START)
  {
  }

  lemma FreshLeases(account: string)
    ensures Leases(FRESH, account) == 0 && BodiesOk(FRESH)
  {
    CountZero(FRESH.d.turns, OnAccount(account));
    CountZero(FRESH.threads, Carries(account));
    CountZero(FRESH.threads, Owes(account));
  }

  /** A drained session holds no lease, has no turn in flight, and released each of its bodies exactly once. */
  lemma DrainedHoldsNothing(s: Session)
    requires SessionOk(s) && Drained(s)
    ensures forall account :: Leases(s, account) == 0
    ensures forall t :: t in s.d.turns ==> s.d.turns[t].finished
    ensures s.d.pending == 0
    ensures BodiesOk(s) ==> forall r: nat :: r < s.d.next ==> r in s.d.released && s.d.released[r] == 1
  {
    assert ThreadOk(s.d, Closer, s.threads[Closer]);
    CountZero(s.d.turns, Unfinished);
    forall account
      ensures Leases(s, account) == 0
    {
      CountZero(s.d.turns, OnAccount(account));
      CountZero(s.threads, Carries(account));
      CountZero(s.threads, Owes(account));
    }
    if BodiesOk(s) {
      forall r: nat | r < s.d.next
        ensures r in s.d.released && s.d.released[r] == 1
      {
        CountZero(s.threads, CarriesBody(r));
        CountZero(s.threads, OwesBody(r));
        assert Hands(s, r) == 1;
      }
    }
  }

  lemma RunSession(s: Session, s': Session, tid: Tid, a: Action)
    requires SessionOk(s) && BodiesOk(s) && ThreadStep(s, s', tid, a)
    ensures SessionOk(s') && BodiesOk(s')
  {
    StepSession(s, s', tid, a);
    StepBodies(s, s', tid, a);
  }

  /** Closing and cancelling move no lease and no body. */
  lemma QuietSession(s: Session, s': Session, account: string)
    requires SessionOk(s) && ((exists left :: CloseStep(s, s', left)) || CancelStep(s, s'))
    ensures Leases(s', account) == Leases(s, account)
    ensures forall r: nat :: Hands(s', r) == Hands(s, r)
  {
    if left :| CloseStep(s, s', left) { QuietClose(s, s', left, account); }
  }

  lemma QuietClose(s: Session, s': Session, left: seq<nat>, account: string)
    requires CloseStep(s, s', left)
    ensures Leases(s', account) == Leases(s, account)
    ensures forall r: nat :: Hands(s', r) == Hands(s, r)
  {
    var closer := At(Cancelling(left));
    CountUpdate(s.threads, Carries(account), Closer, closer);
    CountUpdate(s.threads, Owes(account), Closer, closer);
    forall r: nat
      ensures Hands(s', r) == Hands(s, r)
    {
      CountUpdate(s.threads, CarriesBody(r), Closer, closer);
      CountUpdate(s.threads, OwesBody(r), Closer, closer);
    }
  }

  lemma CloseOrCancel(s: Session, s': Session)
    requires SessionOk(s) && BodiesOk(s) && ((exists left :: CloseStep(s, s', left)) || CancelStep(s, s'))
    ensures SessionOk(s') && BodiesOk(s')
  {
    QuietSession(s, s', "");
    if left :| CloseStep(s, s', left) {
      CloseSession(s, s', left);
    } else {
      CancelSession(s, s');
    }
  }

  lemma ReplaceSession(y: System, y': System, sid: nat, s: Session)
    requires SessionsOk(y) && SessionOk(s) && BodiesOk(s) && y'.sessions == y.sessions[sid := s]
    ensures SessionsOk(y')
  {
  }

  lemma NextSessions(y: System, y': System, ev: Event)
    requires SessionsOk(y) && Next(y, y', ev)
    ensures SessionsOk(y')
  {
    if ev.Connect? {
      FreshOk();
      FreshLeases("");
      ReplaceSession(y, y', ev.sid, FRESH);
    } else if ev.Run? {
      RunSession(y.sessions[ev.sid], y'.sessions[ev.sid], ev.tid, ev.a);
      ReplaceSession(y, y', ev.sid, y'.sessions[ev.sid]);
    } else if !ev.Remove? {
      CloseOrCancel(y.sessions[ev.sid], y'.sessions[ev.sid]);
      ReplaceSession(y, y', ev.sid, y'.sessions[ev.sid]);
    }
  }

  /** A counter that rises below its limit and falls above zero moves by exactly one. */
  lemma CountedExact(turns: map<string, nat>, raised: Option<string>, lowered: Option<string>, account: string)
    requires raised.None? || lowered.None?
    requires lowered == Some(account) ==> Held(turns, account) > 0
    ensures Held(Counted(turns, raised, lowered), account) + One(lowered == Some(account)) ==
            Held(turns, account) + One(raised == Some(account))
  {
  }

  lemma NeverBoth(d: Shared, tid: Tid, t: Thread, a: Action)
    requires Do(d, tid, t, a).Some?
    ensures Raises(a).None? || Lowers(t).None?
  {
  }

  lemma MoveCounter(y: System, y': System, sid: nat, s': Session, raised: Option<string>, lowered: Option<string>,
                    account: string)
    requires CounterOk(y, account) && sid in y.sessions
    requires raised.None? || lowered.None?
    requires raised == Some(account) ==> Held(y.turns, account) < MAX_ACCOUNT_TURNS
    requires Leases(s', account) + One(lowered == Some(account)) ==
      Leases(y.sessions[sid], account) + One(raised == Some(account))
    requires y' == System(Counted(y.turns, raised, lowered), y.sessions[sid := s'])
    ensures CounterOk(y', account)
  {
    TotalUpdate(y.sessions, sid, s', account);
    CountedExact(y.turns, raised, lowered, account);
  }

  lemma RunCounter(y: System, y': System, sid: nat, tid: Tid, a: Action, account: string)
    requires SessionsOk(y) && CounterOk(y, account) && Next(y, y', Run(sid, tid, a))
    ensures CounterOk(y', account)
  {
    var s, s' := y.sessions[sid], y'.sessions[sid];
    StepLeases(s, s', tid, a, account);
    NeverBoth(s.d, tid, s.threads[tid], a);
    MoveCounter(y, y', sid, s', Raises(a), Lowers(s.threads[tid]), account);
  }

  lemma QuietCounter(y: System, y': System, sid: nat, s': Session, account: string)
    requires CounterOk(y, account) && sid in y.sessions && Leases(s', account) == Leases(y.sessions[sid], account)
    requires y' == y.(sessions := y.sessions[sid := s'])
    ensures CounterOk(y', account)
  {
    TotalUpdate(y.sessions, sid, s', account);
  }

  lemma ConnectCounter(y: System, sid: nat, account: string)
    requires CounterOk(y, account) && sid !in y.sessions
    ensures CounterOk(y.(sessions := y.sessions[sid := FRESH]), account)
  {
    TotalUpdate(y.sessions, sid, FRESH, account);
    FreshLeases(account);
  }

  lemma RemoveCounter(y: System, sid: nat, account: string)
    requires sid in y.sessions && SessionOk(y.sessions[sid]) && CounterOk(y, account) && Drained(y.sessions[sid])
    ensures CounterOk(y.(sessions := y.sessions - {sid}), account)
  {
    DrainedLeases(y.sessions[sid], account);
    TotalRemove(y.sessions, sid, account);
  }

  lemma DrainedLeases(s: Session, account: string)
    requires SessionOk(s) && Drained(s)
    ensures Leases(s, account) == 0
  {
    DrainedHoldsNothing(s);
  }

  lemma NextCounter(y: System, y': System, ev: Event, account: string)
    requires SessionsOk(y) && CounterOk(y, account) && Next(y, y', ev)
    ensures CounterOk(y', account)
  {
    if ev.Connect? {
      ConnectCounter(y, ev.sid, account);
    } else if ev.Run? {
      RunCounter(y, y', ev.sid, ev.tid, ev.a, account);
    } else if ev.Remove? {
      RemoveCounter(y, ev.sid, account);
    } else {
      QuietSession(y.sessions[ev.sid], y'.sessions[ev.sid], account);
      QuietCounter(y, y', ev.sid, y'.sessions[ev.sid], account);
    }
  }

  lemma NextOk(y: System, y': System, ev: Event)
    requires SystemOk(y) && Next(y, y', ev)
    ensures SystemOk(y')
  {
    NextSessions(y, y', ev);
    forall account
      ensures CounterOk(y', account)
    {
      NextCounter(y, y', ev, account);
    }
  }

  // ---- Runs -------------------------------------------------------------------------------------------------------

  /** A run from an empty hub: state by state, with the event that led to each next one. */
  ghost predicate IsRun(states: seq<System>, events: seq<Event>) {
    && |states| == |events| + 1 && states[0] == START
    && forall i :: 0 <= i < |events| ==> Next(states[i], states[i + 1], events[i])
  }

  /** In every state of every run each account's counter is the leases that turns and threads hold, at most 16. */
  lemma {:induction false} CountersExact(states: seq<System>, events: seq<Event>, i: nat)
    requires IsRun(states, events) && i < |states|
    ensures SystemOk(states[i])
  {
    if i == 0 {
      StartOk();
    } else {
      CountersExact(states, events, i - 1);
      NextOk(states[i - 1], states[i], events[i - 1]);
    }
  }
}
