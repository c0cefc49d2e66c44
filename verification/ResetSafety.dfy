/** Safety of automatic redemption over every run, with crashes, expired leases and overlapping workers. */
module ResetSafety {
  import opened Collections
  import opened ResetModel

  // ---- The invariant ------------------------------------------------------------------------------------

  predicate JobOk(s: State, id: JobId)
    requires id in s.store.jobs
  {
    var j := s.store.jobs[id];
    && (j.batch.Some? ==> j.batch.value in s.store.batches)
    && (j.batch.None? ==> !j.attempted)
    && (!j.attempted ==> Calls(s, id) == 0)
  }

  predicate JobsOk(s: State) {
    && (forall id :: id in s.store.jobs ==> JobOk(s, id))
    && (forall id :: id in s.calls ==> id in s.store.jobs && s.calls[id] <= 1)
  }

  /** A batch with a payload has an outcome for each of its jobs. */
  predicate PayloadOk(s: Store) {
    forall b, id :: b in s.batches && s.batches[b].payload.Some? && id in s.jobs && s.jobs[id].batch == Some(b) ==>
      s.jobs[id].outcome.Some?
  }

  predicate MailsOk(s: State) {
    forall m :: m in s.mails ==> m.0 in s.store.batches && s.store.batches[m.0].payload == Some(m.1)
  }

  /** The latest claim of a batch is the worker's. */
  predicate Current(s: State, w: Worker) {
    w.batch.Some? && w.batch.value in s.store.batches && w.claim == s.store.batches[w.batch.value].claims
  }

  /** A worker whose claim is the latest holds a lease that outlives it; any other has run out of time. */
  predicate LeaseOk(s: State, w: Worker) {
    && w.batch.Some? && w.batch.value in s.store.batches
    && var b := s.store.batches[w.batch.value];
       && w.claim <= b.claims
       && if w.claim == b.claims then w.deadline + CLEANUP < b.lease else w.deadline + CLEANUP < s.now
  }

  predicate ProgressOk(s: State, w: Worker, id: JobId, p: Progress)
    requires id in s.store.jobs
  {
    var j := s.store.jobs[id];
    && (p.settled || p.step == Done ==> j.outcome.Some?)
    && (p.step == Checked ==> !p.recovering)
    && (Current(s, w) && !p.recovering && (p.step == Waiting || p.step == Checked) ==> !j.attempted)
    && (Current(s, w) && p.step == Marked ==> j.attempted && Calls(s, id) == 0)
  }

  ghost predicate PhaseOk(s: State, w: Worker) {
    match w.phase
    case Redeeming(jobs) =>
      && (forall id :: id in jobs <==> id in s.store.jobs && s.store.jobs[id].batch == w.batch)
      && (forall id :: id in jobs ==> ProgressOk(s, w, id, jobs[id]))
    case Sending(payload) =>
      w.batch.Some? && w.batch.value in s.store.batches && s.store.batches[w.batch.value].payload == Some(payload)
    case _ => true
  }

  ghost predicate WorkerOk(s: State, w: Worker) {
    && w.deadline <= s.now + CYCLE
    && if w.phase.Discovering? then w.batch.None? else LeaseOk(s, w) && PhaseOk(s, w)
  }

  /** No two workers hold the same claim. */
  predicate Distinct(s: State) {
    forall x, y ::
      x in s.workers && y in s.workers && x != y && s.workers[x].batch.Some? &&
        s.workers[x].batch == s.workers[y].batch ==>
        s.workers[x].claim != s.workers[y].claim
  }

  ghost predicate Ok(s: State) {
    && JobsOk(s) && PayloadOk(s.store) && MailsOk(s) && Distinct(s)
    && forall w :: w in s.workers ==> WorkerOk(s, s.workers[w])
  }

  // ---- What a step leaves to a worker that does not take it -----------------------------------------------

  predicate JobKept(s: State, s': State, w: Worker, id: JobId) {
    && (id in s.store.jobs ==> id in s'.store.jobs)
    && (id in s'.store.jobs && s'.store.jobs[id].batch == w.batch <==>
       id in s.store.jobs && s.store.jobs[id].batch == w.batch)
    && (id in s.store.jobs && s.store.jobs[id].batch == w.batch ==>
          && (s.store.jobs[id].outcome.Some? ==> s'.store.jobs[id].outcome.Some?)
          && (Current(s, w) ==>
             s'.store.jobs[id].attempted == s.store.jobs[id].attempted && Calls(s', id) == Calls(s, id)))
  }

  predicate BatchKept(s: State, s': State, w: Worker, b: nat)
    requires b in s.store.batches
  {
    && b in s'.store.batches
    && var x, x' := s.store.batches[b], s'.store.batches[b];
       && (x.payload.Some? ==> x'.payload == x.payload)
       && x.claims <= x'.claims
       && (x'.claims == x.claims && w.claim == x.claims ==> x.lease <= x'.lease)
       && (x'.claims > x.claims ==> x.lease < s'.now)
  }

  ghost predicate Leaves(s: State, s': State, w: Worker) {
    && s.now <= s'.now
    && (w.batch.Some? && w.batch.value in s.store.batches ==>
          && BatchKept(s, s', w, w.batch.value)
          && forall id :: JobKept(s, s', w, id))
  }

  lemma WorkerStable(s: State, s': State, w: Worker)
    requires WorkerOk(s, w) && Leaves(s, s', w)
    ensures WorkerOk(s', w)
  {
    if w.phase.Redeeming? {
      forall id | id in w.phase.jobs
        ensures id in s'.store.jobs && s'.store.jobs[id].batch == w.batch && ProgressOk(s', w, id, w.phase.jobs[id])
      {
        assert JobKept(s, s', w, id);
      }
      forall id | id in s'.store.jobs && s'.store.jobs[id].batch == w.batch
        ensures id in w.phase.jobs
      {
        assert JobKept(s, s', w, id);
      }
    }
  }

  /** Putting a step together: the workers that did not take it are unchanged, and it left them what they rely on. */
  lemma Others(s: State, s': State, actor: Option<nat>)
    requires forall w :: w in s.workers ==> WorkerOk(s, s.workers[w])
    requires forall w :: w in s'.workers && Some(w) != actor ==>
               w in s.workers && s'.workers[w] == s.workers[w] && Leaves(s, s', s.workers[w])
    requires actor.Some? && actor.value in s'.workers ==> WorkerOk(s', s'.workers[actor.value])
    ensures forall w :: w in s'.workers ==> WorkerOk(s', s'.workers[w])
  {
    forall w | w in s'.workers
      ensures WorkerOk(s', s'.workers[w])
    {
      if Some(w) != actor { WorkerStable(s, s', s.workers[w]); }
    }
  }

  /** No claim is taken. */
  predicate SameClaims(s: State, s': State) {
    forall w :: w in s'.workers && s'.workers[w].batch.Some? ==>
      w in s.workers && s'.workers[w].batch == s.workers[w].batch && s'.workers[w].claim == s.workers[w].claim
  }

  // ---- Steps that change no row -------------------------------------------------------------------------------

  predicate Quiet(s: State, s': State) {
    s'.store == s.store && s'.calls == s.calls && s.now <= s'.now
  }

  lemma QuietLeaves(s: State, s': State, w: Worker)
    requires Quiet(s, s')
    ensures Leaves(s, s', w)
  {
  }

  lemma QuietOk(s: State, s': State, actor: Option<nat>)
    requires Ok(s) && Quiet(s, s') && MailsOk(s') && SameClaims(s, s')
    requires forall w :: w in s'.workers && Some(w) != actor ==> w in s.workers && s'.workers[w] == s.workers[w]
    requires actor.Some? && actor.value in s'.workers ==> WorkerOk(s', s'.workers[actor.value])
    ensures Ok(s')
  {
    forall w | w in s.workers
      ensures Leaves(s, s', s.workers[w])
    {
      QuietLeaves(s, s', s.workers[w]);
    }
    Others(s, s', actor);
    assert forall id :: id in s.store.jobs ==> JobOk(s, id);
    forall id | id in s'.store.jobs
      ensures JobOk(s', id)
    {
      assert JobOk(s, id);
    }
  }

  /** Moving one job of a worker forward without touching its row. */
  lemma AdvanceWorker(s: State, w: nat, id: JobId, step: Step)
    requires Ok(s) && w in s.workers && s.workers[w].phase.Redeeming? && id in s.workers[w].phase.jobs
    requires id in s.store.jobs ==> ProgressOk(s, s.workers[w], id, s.workers[w].phase.jobs[id].(step := step))
    ensures WorkerOk(s.(workers := Advance(s, w, id, step)), Advance(s, w, id, step)[w])
  {
    var worker := s.workers[w];
    assert WorkerOk(s, worker);
    var s' := s.(workers := Advance(s, w, id, step));
    var worker' := s'.workers[w];
    forall x | x in worker'.phase.jobs
      ensures ProgressOk(s', worker', x, worker'.phase.jobs[x])
    {
      assert ProgressOk(s, worker, x, worker.phase.jobs[x]);
    }
  }

  lemma MoveOn(s: State, w: nat, id: JobId, step: Step)
    requires Ok(s) && w in s.workers && s.workers[w].phase.Redeeming? && id in s.workers[w].phase.jobs
    requires step.Lost? || step.Closing? ||
      (step.Checked? && On(s, w, id, Waiting) && !s.workers[w].phase.jobs[id].recovering)
    ensures Ok(s.(workers := Advance(s, w, id, step)))
  {
    assert WorkerOk(s, s.workers[w]) && ProgressOk(s, s.workers[w], id, s.workers[w].phase.jobs[id]);
    AdvanceWorker(s, w, id, step);
    QuietOk(s, s.(workers := Advance(s, w, id, step)), Some(w));
  }

  lemma SetPhaseOk(s: State, w: nat, s': State)
    requires Ok(s) && w in s.workers && s.workers[w].batch.Some? && Quiet(s, s') && MailsOk(s')
    requires s'.workers == SetPhase(s, w, Reporting) || s'.workers == SetPhase(s, w, Leaving)
    ensures Ok(s')
  {
    assert WorkerOk(s, s.workers[w]);
    QuietOk(s, s', Some(w));
  }

  lemma LocalOk(s: State, ev: Event, s': State)
    requires Ok(s) && Apply(s, ev) == Some(s')
    requires ev.Tick? || ev.Begin? || ev.Check? || ev.Decide? || ev.Fail? || ev.Send? || ev.Leave? || ev.Crash?
    ensures Ok(s')
  {
    match ev
    case Tick(_) => QuietOk(s, s', None);
    case Crash(w) => QuietOk(s, s', Some(w));
    case Begin(w, _) => QuietOk(s, s', Some(w));
    case Check(w, id) => MoveOn(s, w, id, Checked);
    case Decide(w, id, outcome) => MoveOn(s, w, id, Closing(outcome));
    case Fail(w, id) => MoveOn(s, w, id, Lost);
    case Send(w) => SendOk(s, w, s');
    case Leave(w) => SetPhaseOk(s, w, s');
  }

  /** A mail carries the payload stored for its batch. */
  lemma SendOk(s: State, w: nat, s': State)
    requires Ok(s) && Apply(s, Send(w)) == Some(s')
    ensures Ok(s')
  {
    assert WorkerOk(s, s.workers[w]);
    SetPhaseOk(s, w, s');
  }

  // ---- Discovery ------------------------------------------------------------------------------------------------

  /** Rows outside every batch may change as long as they stay outside and unattempted. */
  lemma DiscoverOk(s: State, s': State)
    requires Ok(s) && s' == s.(store := s.store.(jobs := s'.store.jobs))
    requires forall id :: id in s.store.jobs ==> id in s'.store.jobs
    requires forall id :: id in s'.store.jobs ==>
               if id in s.store.jobs && s.store.jobs[id].batch.Some? then s'.store.jobs[id] == s.store.jobs[id]
               else s'.store.jobs[id].batch.None? && !s'.store.jobs[id].attempted
    ensures Ok(s')
  {
    forall id | id in s'.store.jobs
      ensures JobOk(s', id)
    {
      if id in s.store.jobs { assert JobOk(s, id); } else { assert id !in s.calls; }
    }
    forall w | w in s.workers
      ensures Leaves(s, s', s.workers[w])
    {
    }
    Others(s, s', None);
  }

  lemma PlanOk(s: State, id: JobId, runAt: nat)
    requires Ok(s)
    ensures Ok(s.(store := Plan(s.store, id, runAt)))
  {
    assert id in s.store.jobs ==> JobOk(s, id);
    forall x | x in s.store.jobs
      ensures JobOk(s, x)
    {
    }
    DiscoverOk(s, s.(store := Plan(s.store, id, runAt)));
  }

  lemma ReconcileOk(s: State, account: string, available: set<string>)
    requires Ok(s)
    ensures Ok(s.(store := Reconcile(s.store, account, available)))
  {
    forall x | x in s.store.jobs
      ensures JobOk(s, x)
    {
    }
    DiscoverOk(s, s.(store := Reconcile(s.store, account, available)));
  }

  // ---- Claims ----------------------------------------------------------------------------------------------------

  /** Taking over an expired batch: whoever held it has run out of time. */
  lemma ClaimOldOk(s: State, w: nat, b: nat, s': State)
    requires Ok(s) && Apply(s, ClaimOld(w, b)) == Some(s')
    ensures Ok(s')
  {
    assert WorkerOk(s, s.workers[w]);
    forall id | id in s'.store.jobs
      ensures JobOk(s', id)
    {
      assert JobOk(s, id);
    }
    forall x | x in s.workers
      ensures Leaves(s, s', s.workers[x])
    {
    }
    ClaimerOk(s, w, b, s');
    Others(s, s', Some(w));
    forall x | x in s.workers && s.workers[x].batch == Some(b)
      ensures s.workers[x].claim < s'.workers[w].claim
    {
      assert WorkerOk(s, s.workers[x]);
    }
  }

  lemma ClaimerOk(s: State, w: nat, b: nat, s': State)
    requires Ok(s) && Apply(s, ClaimOld(w, b)) == Some(s')
    ensures w in s'.workers && WorkerOk(s', s'.workers[w])
  {
  }

  lemma FreshLeaves(s: State, w: nat, b: nat, chosen: set<JobId>, due: nat, s': State, x: Worker)
    requires Ok(s) && Apply(s, ClaimFresh(w, b, chosen, due)) == Some(s') && WorkerOk(s, x)
    ensures Leaves(s, s', x) && x.batch != Some(b)
  {
  }

  lemma FreshClaimerOk(s: State, w: nat, b: nat, chosen: set<JobId>, due: nat, s': State)
    requires Ok(s) && Apply(s, ClaimFresh(w, b, chosen, due)) == Some(s')
    ensures w in s'.workers && WorkerOk(s', s'.workers[w])
  {
    assert WorkerOk(s, s.workers[w]);
    forall id | id in chosen
      ensures !s.store.jobs[id].attempted
    {
      assert JobOk(s, id);
    }
    forall id | id in s'.store.jobs
      ensures s.store.jobs[id].batch != Some(b)
    {
      assert JobOk(s, id);
    }
  }

  lemma FreshRowsOk(s: State, w: nat, b: nat, chosen: set<JobId>, due: nat, s': State)
    requires Ok(s) && Apply(s, ClaimFresh(w, b, chosen, due)) == Some(s')
    ensures JobsOk(s') && PayloadOk(s'.store) && MailsOk(s')
  {
    forall id | id in s'.store.jobs
      ensures JobOk(s', id) && s.store.jobs[id].batch != Some(b)
    {
      assert JobOk(s, id);
    }
  }

  lemma ClaimFreshOk(s: State, w: nat, b: nat, chosen: set<JobId>, due: nat, s': State)
    requires Ok(s) && Apply(s, ClaimFresh(w, b, chosen, due)) == Some(s')
    ensures Ok(s')
  {
    FreshRowsOk(s, w, b, chosen, due, s');
    FreshClaimerOk(s, w, b, chosen, due, s');
    forall x | x in s.workers
      ensures Leaves(s, s', s.workers[x]) && s.workers[x].batch != Some(b)
    {
      FreshLeaves(s, w, b, chosen, due, s', s.workers[x]);
    }
    Others(s, s', Some(w));
  }

  // ---- Redeeming -------------------------------------------------------------------------------------------------

  /** While a worker is awake nobody else can act on a job of its batch. */
  lemma Alone(s: State, w: nat, x: nat)
    requires Ok(s) && Awake(s, w) && x in s.workers && x != w && s.workers[w].batch.Some?
    requires s.workers[x].batch == s.workers[w].batch
    ensures Current(s, s.workers[w]) && !Current(s, s.workers[x])
  {
    assert WorkerOk(s, s.workers[w]) && WorkerOk(s, s.workers[x]);
  }

  lemma AwakeIsCurrent(s: State, w: nat)
    requires Ok(s) && Awake(s, w) && s.workers[w].batch.Some?
    ensures Current(s, s.workers[w])
  {
    assert WorkerOk(s, s.workers[w]);
  }

  /** A step of w on one job's row or call count is nothing to the others. */
  lemma RowLeaves(s: State, s': State, w: nat, id: JobId, x: nat)
    requires Ok(s) && Awake(s, w) && s.workers[w].phase.Redeeming? && id in s.workers[w].phase.jobs
    requires x in s.workers && x != w
    requires s'.now == s.now && s'.store.batches == s.store.batches && s'.store.jobs.Keys == s.store.jobs.Keys
    requires forall y :: y in s.store.jobs && y != id ==>
      s'.store.jobs[y] == s.store.jobs[y] && Calls(s', y) == Calls(s, y)
    requires id in s.store.jobs ==>
               s'.store.jobs[id].batch == s.store.jobs[id].batch &&
                 (s.store.jobs[id].outcome.Some? ==> s'.store.jobs[id].outcome.Some?)
    ensures Leaves(s, s', s.workers[x])
  {
    assert WorkerOk(s, s.workers[w]);
    if s.workers[x].batch == s.workers[w].batch { Alone(s, w, x); }
  }

  lemma RowOk(s: State, s': State, w: nat, id: JobId, step: Step)
    requires Ok(s) && Awake(s, w) && s.workers[w].phase.Redeeming? && id in s.workers[w].phase.jobs &&
      id in s.store.jobs
    requires s'.now == s.now && s'.mails == s.mails && s'.store.batches == s.store.batches
    requires id in s'.store.jobs && s'.store.jobs == s.store.jobs[id := s'.store.jobs[id]] &&
      s'.workers == Advance(s, w, id, step)
    requires s'.calls == s.calls || s'.calls == s.calls[id := Calls(s', id)]
    requires s'.store.jobs[id].batch == s.store.jobs[id].batch
    requires s.store.jobs[id].outcome.Some? ==> s'.store.jobs[id].outcome.Some?
    requires JobOk(s', id) && Calls(s', id) <= 1
    requires ProgressOk(s', s'.workers[w], id, s'.workers[w].phase.jobs[id])
    ensures Ok(s')
  {
    RowJobs(s, s', id);
    RowWorker(s, s', w, id, step);
    forall x | x in s.workers && x != w
      ensures Leaves(s, s', s.workers[x])
    {
      RowLeaves(s, s', w, id, x);
    }
    Others(s, s', Some(w));
  }

  lemma RowJobs(s: State, s': State, id: JobId)
    requires Ok(s) && id in s.store.jobs && s'.mails == s.mails && s'.store.batches == s.store.batches
    requires id in s'.store.jobs && s'.store.jobs == s.store.jobs[id := s'.store.jobs[id]]
    requires s'.calls == s.calls || s'.calls == s.calls[id := Calls(s', id)]
    requires s'.store.jobs[id].batch == s.store.jobs[id].batch
    requires s.store.jobs[id].outcome.Some? ==> s'.store.jobs[id].outcome.Some?
    requires JobOk(s', id) && Calls(s', id) <= 1
    ensures JobsOk(s') && PayloadOk(s'.store) && MailsOk(s')
  {
    forall y | y in s'.store.jobs
      ensures JobOk(s', y)
    {
      if y != id { assert JobOk(s, y); }
    }
  }

  lemma RowWorker(s: State, s': State, w: nat, id: JobId, step: Step)
    requires Ok(s) && Awake(s, w) && s.workers[w].phase.Redeeming? && id in s.workers[w].phase.jobs &&
      id in s.store.jobs
    requires s'.now == s.now && s'.store.batches == s.store.batches
    requires id in s'.store.jobs && s'.store.jobs == s.store.jobs[id := s'.store.jobs[id]] &&
      s'.workers == Advance(s, w, id, step)
    requires s'.calls == s.calls || s'.calls == s.calls[id := Calls(s', id)]
    requires s'.store.jobs[id].batch == s.store.jobs[id].batch
    requires ProgressOk(s', s'.workers[w], id, s'.workers[w].phase.jobs[id])
    ensures WorkerOk(s', s'.workers[w]) && Distinct(s')
  {
    assert WorkerOk(s, s.workers[w]);
    forall y | y in s.workers[w].phase.jobs && y != id
      ensures ProgressOk(s', s'.workers[w], y, s'.workers[w].phase.jobs[y])
    {
      assert ProgressOk(s, s.workers[w], y, s.workers[w].phase.jobs[y]);
    }
  }

  lemma MarkOk(s: State, w: nat, id: JobId, ok: bool, s': State)
    requires Ok(s) && Apply(s, Mark(w, id, ok)) == Some(s')
    ensures Ok(s')
  {
    var worker := s.workers[w];
    assert WorkerOk(s, worker);
    assert ProgressOk(s, worker, id, worker.phase.jobs[id]) && JobOk(s, id);
    RowOk(s, s', w, id, if ok then Marked else Lost);
  }

  /** The redemption call: the job's attempt is marked, and no call was made before. */
  lemma CallOk(s: State, w: nat, id: JobId, s': State)
    requires Ok(s) && Apply(s, Call(w, id)) == Some(s')
    ensures Ok(s')
    ensures id in s.store.jobs && s.store.jobs[id].attempted && Calls(s, id) == 0
    ensures Current(s, s.workers[w]) && s.now < s.store.batches[s.workers[w].batch.value].lease
  {
    var worker := s.workers[w];
    assert WorkerOk(s, worker);
    assert ProgressOk(s, worker, id, worker.phase.jobs[id]) && JobOk(s, id);
    RowOk(s, s', w, id, Called);
  }

  lemma FinishOk(s: State, w: nat, id: JobId, s': State)
    requires Ok(s) && Apply(s, Finish(w, id)) == Some(s')
    ensures Ok(s')
  {
    var worker := s.workers[w];
    assert WorkerOk(s, worker);
    assert ProgressOk(s, worker, id, worker.phase.jobs[id]) && JobOk(s, id);
    RowOk(s, s', w, id, Done);
  }

  // ---- Reporting ---------------------------------------------------------------------------------------------------

  lemma FreezeOk(s: State, w: nat, payload: nat, s': State)
    requires Ok(s) && Apply(s, FreezeReport(w, payload)) == Some(s')
    ensures Ok(s')
  {
    var worker := s.workers[w];
    assert WorkerOk(s, worker);
    forall id | id in s'.store.jobs
      ensures JobOk(s', id)
    {
      assert JobOk(s, id);
    }
    forall id | id in s.store.jobs && s.store.jobs[id].batch == worker.batch
      ensures s.store.jobs[id].outcome.Some?
    {
      assert ProgressOk(s, worker, id, worker.phase.jobs[id]);
    }
    forall x | x in s.workers
      ensures Leaves(s, s', s.workers[x])
    {
    }
    Others(s, s', Some(w));
  }

  lemma ReportOk(s: State, w: nat, s': State)
    requires Ok(s) && Apply(s, Report(w)) == Some(s')
    ensures Ok(s')
  {
    assert WorkerOk(s, s.workers[w]);
    forall id | id in s'.store.jobs
      ensures JobOk(s', id)
    {
      assert JobOk(s, id);
    }
    forall x | x in s.workers
      ensures Leaves(s, s', s.workers[x])
    {
    }
    Others(s, s', Some(w));
  }

  /** Shortening the lease is safe: only the holder of the latest claim can still do it, and it is leaving. */
  lemma RetryOk(s: State, w: nat, s': State)
    requires Ok(s) && Apply(s, RetryBatch(w)) == Some(s')
    ensures Ok(s')
  {
    assert WorkerOk(s, s.workers[w]);
    forall id | id in s'.store.jobs
      ensures JobOk(s', id)
    {
      assert JobOk(s, id);
    }
    forall x | x in s.workers && x != w
      ensures Leaves(s, s', s.workers[x])
    {
      assert WorkerOk(s, s.workers[x]);
    }
    Others(s, s', Some(w));
  }

  // ---- Every run --------------------------------------------------------------------------------------------------

  lemma ApplyOk(s: State, ev: Event, s': State)
    requires Ok(s) && Apply(s, ev) == Some(s')
    ensures Ok(s')
  {
    match ev
    case PlanJob(id, runAt) => PlanOk(s, id, runAt);
    case ReconcileAccount(account, available) => ReconcileOk(s, account, available);
    case ClaimOld(w, b) => ClaimOldOk(s, w, b, s');
    case ClaimFresh(w, b, chosen, due) => ClaimFreshOk(s, w, b, chosen, due, s');
    case Mark(w, id, ok) => MarkOk(s, w, id, ok, s');
    case Call(w, id) => CallOk(s, w, id, s');
    case Finish(w, id) => FinishOk(s, w, id, s');
    case FreezeReport(w, payload) => FreezeOk(s, w, payload, s');
    case Report(w) => ReportOk(s, w, s');
    case RetryBatch(w) => RetryOk(s, w, s');
    case _ => LocalOk(s, ev, s');
  }

  ghost predicate IsRun(states: seq<State>, events: seq<Event>) {
    && |states| == |events| + 1 && states[0] == START
    && forall i :: 0 <= i < |events| ==> Apply(states[i], events[i]) == Some(states[i + 1])
  }

  lemma {:induction false} RunsOk(states: seq<State>, events: seq<Event>, i: nat)
    requires IsRun(states, events) && i < |states|
    ensures Ok(states[i])
  {
    if i > 0 {
      RunsOk(states, events, i - 1);
      ApplyOk(states[i - 1], events[i - 1], states[i]);
    }
  }
}
