/** The reset rows as an object, and runResetJob as the sequence of steps it takes on them. */
module ResetObjects {
  import opened Collections
  import opened ResetModel
  import opened ResetSafety

  class ResetStore {
    var jobs: map<JobId, Job>
    var batches: map<nat, Batch>

    ghost function View(): Store
      reads this
    {
      Store(jobs, batches)
    }

    constructor ()
      ensures View() == Store(map[], map[])
    {
      jobs, batches := map[], map[];
    }

    method PlanReset(id: JobId, runAt: nat)
      modifies this`jobs
      ensures View() == Plan(old(View()), id, runAt)
      ensures jobs == if id !in old(jobs) then old(jobs)[id := Job(runAt, None, false, None)]
                      else if old(jobs)[id].batch.None? && old(jobs)[id].outcome.None?
                      then old(jobs)[id := old(jobs)[id].(runAt := runAt)] else old(jobs)
    {
      if id !in jobs {
        jobs := jobs[id := Job(runAt, None, false, None)];
      } else if jobs[id].batch.None? && jobs[id].outcome.None? {
        jobs := jobs[id := jobs[id].(runAt := runAt)];
      }
    }

    method ReconcilePendingResets(account: string, available: set<string>)
      modifies this`jobs
      ensures View() == Reconcile(old(View()), account, available)
      ensures jobs.Keys == old(jobs).Keys
      ensures forall id :: id in jobs ==>
                jobs[id] ==
                if id.account == account && old(jobs)[id].batch.None? && old(jobs)[id].outcome.None? &&
                   !old(jobs)[id].attempted && id.credit !in available
                then old(jobs)[id].(outcome := Some(Skipped)) else old(jobs)[id]
    {
      var todo, rows := jobs.Keys, jobs;
      while todo != {}
        invariant todo <= jobs.Keys && rows.Keys == jobs.Keys
        invariant forall id :: id in jobs ==>
          rows[id] == if id !in todo && Withdrawn(id, jobs[id], account, available)
            then jobs[id].(outcome := Some(Skipped)) else jobs[id]
        decreases todo
      {
        var id :| id in todo;
        if id.account == account && Unclaimed(jobs[id]) && !jobs[id].attempted && id.credit !in available {
          rows := rows[id := rows[id].(outcome := Some(Skipped))];
        }
        todo := todo - {id};
      }
      jobs := rows;
    }

    /** The first query of a claim: an expired batch. */
    method FindExpired(now: nat) returns (found: Option<nat>)
      ensures found.Some? ==> Expired(View(), found.value, now)
      ensures found.None? ==> forall b :: b in batches ==> !Expired(View(), b, now)
    {
      var todo := batches.Keys;
      while todo != {}
        invariant todo <= batches.Keys && forall b :: b in batches && b !in todo ==> !Expired(View(), b, now)
        decreases todo
      {
        var b :| b in todo;
        if !batches[b].reported && batches[b].lease < now && batches[b].attempts < MAX_ATTEMPTS { return Some(b); }
        todo := todo - {b};
      }
      return None;
    }

    /** The last query of a claim: due jobs that nobody has claimed, twenty at most. */
    method ChooseDue(due: nat) returns (chosen: set<JobId>)
      ensures |chosen| <= MAX_BATCH && forall id :: id in chosen ==>
        id in jobs && Unclaimed(jobs[id]) && jobs[id].runAt <= due
      ensures |chosen| < MAX_BATCH ==>
        forall id :: id in jobs && Unclaimed(jobs[id]) && jobs[id].runAt <= due ==> id in chosen
    {
      chosen := {};
      var todo := jobs.Keys;
      while todo != {} && |chosen| < MAX_BATCH
        invariant todo <= jobs.Keys && |chosen| <= MAX_BATCH
        invariant forall id :: id in chosen ==> id in jobs && Unclaimed(jobs[id]) && jobs[id].runAt <= due
        invariant forall id :: id in jobs && id !in todo && Unclaimed(jobs[id]) && jobs[id].runAt <= due ==>
          id in chosen
        decreases todo
      {
        var id :| id in todo;
        if jobs[id].batch.None? && jobs[id].outcome.None? && jobs[id].runAt <= due { chosen := chosen + {id}; }
        todo := todo - {id};
      }
    }

    ghost predicate SomeExpired(now: nat)
      reads this
    {
      exists b :: b in batches && Expired(View(), b, now)
    }

    /** Nothing can be claimed: no batch has expired, and new ones are not wanted or no job is due. */
    ghost predicate NothingToClaim(due: nat, now: nat, allowNew: bool)
      reads this
    {
      && !SomeExpired(now)
      && (allowNew ==> forall id :: id in jobs && Unclaimed(jobs[id]) ==> jobs[id].runAt > due)
    }

    /** An expired batch is taken over; only when there is none is a new one made, under a new id. */
    method ClaimResetBatch(newId: nat, due: nat, now: nat, allowNew: bool)
        returns (claimed: Option<nat>, ghost chosen: set<JobId>)
      requires newId !in batches
      modifies this
      ensures claimed.None? <==> old(NothingToClaim(due, now, allowNew))
      ensures claimed.None? ==> View() == old(View())
      ensures claimed.Some? && old(SomeExpired(now)) ==>
        Expired(old(View()), claimed.value, now) && View() == Reclaim(old(View()), claimed.value, now)
      ensures claimed.Some? && claimed.value in old(batches) ==>
        var was, b := old(batches), claimed.value;
        && !was[b].reported && was[b].lease < now && was[b].attempts < 5 && jobs == old(jobs)
        && batches ==
            was[b := was[b].(lease := now + 600, attempts := was[b].attempts + 1, claims := was[b].claims + 1)]
      ensures claimed.Some? && claimed.value !in old(batches) ==>
        && chosen != {} && |chosen| <= 20 && batches == old(batches)[newId := Batch(now + 600, 0, None, false, 1)]
        && jobs.Keys == old(jobs).Keys && chosen <= jobs.Keys
        && forall id :: id in jobs ==>
             jobs[id] == if id in chosen then old(jobs)[id].(batch := Some(newId)) else old(jobs)[id]
      ensures claimed.Some? && !old(SomeExpired(now)) ==>
        allowNew && claimed.value == newId && Choosable(old(View()), chosen, due) &&
          View() == ClaimNew(old(View()), newId, chosen, now)
    {
      chosen := {};
      claimed := FindExpired(now);
      if claimed.Some? {
        var b := claimed.value;
        batches := batches[b := batches[b].(lease := now + LEASE, attempts := batches[b].attempts + 1,
          claims := batches[b].claims + 1)];
      } else if allowNew {
        var ready := ChooseDue(due);
        if ready != {} {
          chosen := ready;
          jobs := map id | id in jobs :: if id in ready then jobs[id].(batch := Some(newId)) else jobs[id];
          batches := batches[newId := Batch(now + LEASE, 0, None, false, 1)];
          claimed := Some(newId);
        }
      }
    }

    method FinishResetReport(b: nat)
      modifies this`batches
      ensures View() == FinishReport(old(View()), b)
      ensures batches == if b in old(batches) then old(batches)[b := old(batches)[b].(reported := true)]
                         else old(batches)
    {
      if b in batches { batches := batches[b := batches[b].(reported := true)]; }
    }

    method StartResetAttempt(id: JobId)
      modifies this`jobs
      ensures View() == StartAttempt(old(View()), id)
      ensures jobs == if id in old(jobs) then old(jobs)[id := old(jobs)[id].(attempted := true)] else old(jobs)
    {
      if id in jobs && !jobs[id].attempted {
        jobs := jobs[id := jobs[id].(attempted := true)];
      }
    }

    method FinishResetJob(id: JobId, outcome: Outcome)
      modifies this`jobs
      ensures View() == FinishJob(old(View()), id, outcome)
      ensures jobs == if id in old(jobs) && old(jobs)[id].outcome.None?
                      then old(jobs)[id := old(jobs)[id].(outcome := Some(outcome))] else old(jobs)
    {
      if id in jobs && jobs[id].outcome.None? {
        jobs := jobs[id := jobs[id].(outcome := Some(outcome))];
      }
    }

    /** COALESCE keeps a payload that is already there, and the stored one is what the caller gets back. */
    method FreezeResetReport(b: nat, payload: nat) returns (frozen: Option<nat>)
      modifies this`batches
      ensures View() == Freeze(old(View()), b, payload)
      ensures batches == if b in old(batches) && old(batches)[b].payload.None?
                         then old(batches)[b := old(batches)[b].(payload := Some(payload))] else old(batches)
      ensures frozen == if b in batches then batches[b].payload else None
      ensures b in batches ==> frozen.Some?
    {
      if b !in batches { return None; }
      if batches[b].payload.None? {
        batches := batches[b := batches[b].(payload := Some(payload))];
      }
      return batches[b].payload;
    }

    method RetryResetBatch(b: nat, now: nat)
      modifies this`batches
      ensures View() == Retry(old(View()), b, now)
      ensures batches == if b in old(batches) && !old(batches)[b].reported
                         then old(batches)[b := old(batches)[b].(lease := now + 60)] else old(batches)
    {
      if b in batches && !batches[b].reported {
        batches := batches[b := batches[b].(lease := now + RETRY)];
      }
    }
  }

  // ---- One job ---------------------------------------------------------------------------------------------------

  datatype Credit = Available(expired: bool) | Redeemed | Unusable
  datatype Redemption = NoAnswer | Reset | AlreadyRedeemed | NothingToReset | NoCredits | Unknown

  /** What the outside answers during one call of runResetJob. */
  datatype Answers = Answers(
    credentials: bool, disabled: bool, read: bool, credit: Option<Credit>, full: bool,
    marked: bool, redemption: Redemption, followUp: bool, finished: bool)

  /** Applying events one after the other. */
  ghost function Replay(s: State, events: seq<Event>): Option<State>
    decreases |events|
  {
    if events == [] then Some(s)
    else
      var next := Apply(s, events[0]);
      if next.None? then None else Replay(next.value, events[1..])
  }

  lemma {:induction false} ReplayMore(s: State, events: seq<Event>, ev: Event)
    ensures Replay(s, events + [ev]) ==
            if Replay(s, events).None? then None else Apply(Replay(s, events).value, ev)
    decreases |events|
  {
    if events != [] {
      assert (events + [ev])[1..] == events[1..] + [ev];
      if Apply(s, events[0]).Some? { ReplayMore(Apply(s, events[0]).value, events[1..], ev); }
    } else {
      assert [ev][1..] == [];
      if Apply(s, ev).Some? { assert Replay(Apply(s, ev).value, []) == Apply(s, ev); }
    }
  }

  /** The upstream confirmed that this very credit was redeemed. */
  predicate Confirmed(recovering: bool, answers: Answers) {
    if recovering then answers.credit == Some(Redeemed)
    else answers.redemption == Reset || answers.redemption == AlreadyRedeemed || answers.followUp
  }

  /** The outcome after a redemption call: what its answer says, or else what a later look at the credit says. */
  function Heard(answers: Answers): Outcome {
    match answers.redemption
    case Reset => Succeeded
    case AlreadyRedeemed => Succeeded
    case NothingToReset => NotApplied
    case NoCredits => NotApplied
    case _ => if answers.followUp then Succeeded else Unconfirmed
  }

  /** The outcome when no call is made. */
  function Uncalled(recovering: bool, allowNew: bool, answers: Answers): Outcome {
    if recovering then
      if answers.credentials && answers.disabled then Skipped
      else if answers.credentials && answers.read && answers.credit == Some(Redeemed) then Succeeded
      else Unconfirmed
    else if !allowNew || !answers.credentials then Failed
    else if answers.disabled then Skipped
    else if !answers.read || answers.credit != Some(Available(false)) then Failed
    else if answers.full then Skipped
    else Unconfirmed
  }

  /** Everything that must hold before a credit is spent. */
  predicate MayRedeem(recovering: bool, allowNew: bool, answers: Answers) {
    && !recovering && allowNew && answers.credentials && !answers.disabled && answers.read
    && answers.credit == Some(Available(false)) && !answers.full && answers.marked
  }

  lemma Marking(s: State, w: nat, id: JobId, ok: bool)
    requires On(s, w, id, Waiting) && id in s.store.jobs && s.workers[w].allowNew &&
      !s.workers[w].phase.jobs[id].recovering
    ensures var r := Replay(s, [Check(w, id), Mark(w, id, ok)]);
            && r.Some? && r.value.store == StartAttempt(s.store, id) && r.value.calls == s.calls
            && (ok ==> On(r.value, w, id, Marked))
  {
    var events := [Check(w, id), Mark(w, id, ok)];
    assert events[1..] == [Mark(w, id, ok)] && events[1..][1..] == [];
    var s1 := Apply(s, Check(w, id)).value;
    assert On(s1, w, id, Checked);
    var s2 := Apply(s1, Mark(w, id, ok)).value;
    assert Replay(s2, []) == Some(s2);
    assert Replay(s1, events[1..]) == Some(s2);
  }

  /** Marking the attempt and, only then, calling the upstream once. */
  method Redeem(st: ResetStore, id: JobId, answers: Answers, ghost s: State, ghost w: nat)
    returns (called: bool, outcome: Outcome, ghost trace: seq<Event>)
    requires s.store == st.View() && On(s, w, id, Waiting) && id in s.store.jobs
    requires s.workers[w].allowNew && !s.workers[w].phase.jobs[id].recovering
    modifies st`jobs
    ensures called == answers.marked && st.View() == StartAttempt(old(st.View()), id)
    ensures outcome == Succeeded ==> Confirmed(false, answers)
    ensures outcome == if called then Heard(answers) else Unconfirmed
    ensures LateOutcome(outcome) && (outcome == NotApplied ==> called)
    ensures Replay(s, trace).Some? && Replay(s, trace).value.store == st.View()
    ensures Calls(Replay(s, trace).value, id) == Calls(s, id) + (if called then 1 else 0)
    ensures called ==> On(Replay(s, trace).value, w, id, Called)
  {
    st.StartResetAttempt(id);
    trace := [Check(w, id), Mark(w, id, answers.marked)];
    Marking(s, w, id, answers.marked);
    if !answers.marked { return false, Unconfirmed, trace; }
    ReplayMore(s, trace, Call(w, id));
    trace := trace + [Call(w, id)];
    called := true;
    outcome := Unconfirmed;
    if answers.redemption == Reset || answers.redemption == AlreadyRedeemed {
      outcome := Succeeded;
    } else if answers.redemption == NothingToReset || answers.redemption == NoCredits {
      outcome := NotApplied;
    }
    if outcome == Unconfirmed && answers.followUp { outcome := Succeeded; }
  }

  /** Writing the outcome down. */
  method Conclude(st: ResetStore, id: JobId, outcome: Outcome, finished: bool, ghost s: State, ghost w: nat,
                  ghost before: seq<Event>)
    returns (ok: bool, ghost trace: seq<Event>)
    requires Replay(s, before).Some? && id in st.jobs
    requires var at := Replay(s, before).value;
             && at.store == st.View()
             && (|| (On(at, w, id, Waiting) && EarlyOutcome(at.workers[w].phase.jobs[id], outcome))
                 || (On(at, w, id, Called) && LateOutcome(outcome)))
    modifies st`jobs
    ensures ok == finished && id in st.jobs && (ok ==> st.jobs[id].outcome.Some?)
    ensures ok && old(st.jobs[id].outcome).None? ==> st.jobs[id].outcome == Some(outcome)
    ensures old(st.jobs[id].attempted) ==> st.jobs[id].attempted
    ensures Replay(s, trace).Some? && Replay(s, trace).value.store == st.View()
    ensures Replay(s, trace).value.calls == Replay(s, before).value.calls
  {
    ReplayMore(s, before, Decide(w, id, outcome));
    trace := before + [Decide(w, id, outcome)];
    if !finished { return false, trace; }
    st.FinishResetJob(id, outcome);
    ReplayMore(s, trace, Finish(w, id));
    trace := trace + [Finish(w, id)];
    ok := true;
  }

  /**
   runResetJob. `s` is any state of the system in which worker w is about to run the job;
   `trace` is what the call amounts to there.
   */
  method RunResetJob(st: ResetStore, id: JobId, recovering: bool, allowNew: bool, answers: Answers, ghost s: State,
                     ghost w: nat)
    returns (ok: bool, outcome: Outcome, called: bool, ghost trace: seq<Event>)
    requires s.store == st.View() && On(s, w, id, Waiting) && id in s.store.jobs
    requires s.workers[w].allowNew == allowNew && s.workers[w].phase.jobs[id].recovering == recovering
    modifies st`jobs
    ensures called == MayRedeem(recovering, allowNew, answers)
    ensures outcome == if called then Heard(answers) else Uncalled(recovering, allowNew, answers)
    ensures called ==> id in st.jobs && st.jobs[id].attempted
    ensures ok && s.store.jobs[id].outcome.None? ==> id in st.jobs && st.jobs[id].outcome == Some(outcome)
    ensures outcome == Succeeded ==> Confirmed(recovering, answers)
    ensures outcome == NotApplied ==> called
    ensures called ==> outcome != Failed && outcome != Skipped
    ensures !called && !recovering && ok ==> outcome == Failed || outcome == Skipped
    ensures recovering ==> outcome == Unconfirmed || outcome == Succeeded || outcome == Skipped
    ensures id in st.jobs && (ok ==> st.jobs[id].outcome.Some?)
    ensures Replay(s, trace).Some? && Replay(s, trace).value.store == st.View()
    ensures Calls(Replay(s, trace).value, id) == Calls(s, id) + (if called then 1 else 0)
  {
    called := false;
    trace := [];
    outcome := if recovering then Unconfirmed else Failed;
    if (recovering || allowNew) && answers.credentials {
      if answers.disabled {
        outcome := Skipped;
      } else if answers.read {
        if recovering {
          if answers.credit == Some(Redeemed) { outcome := Succeeded; }
        } else if answers.credit == Some(Available(false)) {
          if answers.full {
            outcome := Skipped;
          } else {
            called, outcome, trace := Redeem(st, id, answers, s, w);
            if !called { return false, outcome, false, trace; }
          }
        }
      }
    }
    ok, trace := Conclude(st, id, outcome, answers.finished, s, w, trace);
  }
}
