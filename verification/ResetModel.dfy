/**
 Automatic redemption of reset credits: guarded updates of job and batch rows, and workers
 that claim a batch under a lease, redeem its credits, and report. Workers crash, run out of
 time, and overlap; times are seconds on one clock.
 */
module ResetModel {
  import opened Collections

  const LEASE := 600
  const CYCLE := 480
  const CLEANUP := 5
  const RETRY := 60
  const MAX_ATTEMPTS := 5
  const MAX_BATCH := 20

  datatype JobId = JobId(account: string, credit: string)
  datatype Outcome = Succeeded | NotApplied | Unconfirmed | Failed | Skipped

  datatype Job = Job(runAt: nat, batch: Option<nat>, attempted: bool, outcome: Option<Outcome>)

  /** `claims` counts the claims of a batch; it is not stored, and only proofs look at it. */
  datatype Batch = Batch(lease: nat, attempts: nat, payload: Option<nat>, reported: bool, claims: nat)

  datatype Store = Store(jobs: map<JobId, Job>, batches: map<nat, Batch>)

  // ---- Statements ------------------------------------------------------------------------------------

  predicate Unclaimed(j: Job) {
    j.batch.None? && j.outcome.None?
  }

  function Plan(s: Store, id: JobId, runAt: nat): Store {
    if id !in s.jobs then s.(jobs := s.jobs[id := Job(runAt, None, false, None)])
    else if Unclaimed(s.jobs[id]) then s.(jobs := s.jobs[id := s.jobs[id].(runAt := runAt)])
    else s
  }

  predicate Withdrawn(id: JobId, j: Job, account: string, available: set<string>) {
    id.account == account && Unclaimed(j) && !j.attempted && id.credit !in available
  }

  function Reconcile(s: Store, account: string, available: set<string>): Store {
    s.(jobs := map id | id in s.jobs ::
         if Withdrawn(id, s.jobs[id], account, available) then s.jobs[id].(outcome := Some(Skipped)) else s.jobs[id])
  }

  predicate Expired(s: Store, b: nat, now: nat) {
    b in s.batches && !s.batches[b].reported && s.batches[b].lease < now && s.batches[b].attempts < MAX_ATTEMPTS
  }

  function Reclaim(s: Store, b: nat, now: nat): Store
    requires b in s.batches
  {
    var batch := s.batches[b];
    s.(batches := s.batches[b := batch.(lease := now + LEASE, attempts := batch.attempts + 1,
      claims := batch.claims + 1)])
  }

  predicate Choosable(s: Store, chosen: set<JobId>, due: nat) {
    && chosen != {} && |chosen| <= MAX_BATCH
    && forall id :: id in chosen ==> id in s.jobs && Unclaimed(s.jobs[id]) && s.jobs[id].runAt <= due
  }

  function ClaimNew(s: Store, b: nat, chosen: set<JobId>, now: nat): Store {
    Store(map id | id in s.jobs :: if id in chosen then s.jobs[id].(batch := Some(b)) else s.jobs[id],
          s.batches[b := Batch(now + LEASE, 0, None, false, 1)])
  }

  function StartAttempt(s: Store, id: JobId): Store {
    if id in s.jobs then s.(jobs := s.jobs[id := s.jobs[id].(attempted := true)]) else s
  }

  function FinishJob(s: Store, id: JobId, outcome: Outcome): Store {
    if id in s.jobs && s.jobs[id].outcome.None? then s.(jobs := s.jobs[id := s.jobs[id].(outcome := Some(outcome))])
    else s
  }

  function Freeze(s: Store, b: nat, payload: nat): Store {
    if b in s.batches && s.batches[b].payload.None?
    then s.(batches := s.batches[b := s.batches[b].(payload := Some(payload))])
    else s
  }

  function FinishReport(s: Store, b: nat): Store {
    if b in s.batches then s.(batches := s.batches[b := s.batches[b].(reported := true)]) else s
  }

  function Retry(s: Store, b: nat, now: nat): Store {
    if b in s.batches && !s.batches[b].reported
    then s.(batches := s.batches[b := s.batches[b].(lease := now + RETRY)]) else s
  }

  // ---- Workers ------------------------------------------------------------------------------------------

  /** Where runResetJob is for one job of a claimed batch. */
  datatype Step = Waiting | Checked | Marked | Called | Closing(outcome: Outcome) | Done | Lost

  /** A job as the claim read it. */
  datatype Progress = Progress(recovering: bool, settled: bool, step: Step)

  datatype Phase =
    | Discovering
    | Redeeming(jobs: map<JobId, Progress>)
    | Sending(payload: nat)
    | Reporting
    | Leaving

  datatype Worker = Worker(deadline: nat, allowNew: bool, batch: Option<nat>, claim: nat, phase: Phase)

  /** The rows, the clock, the workers, and what left the program: redemption calls and mails. */
  datatype State = State(now: nat, store: Store, workers: map<nat, Worker>, calls: map<JobId, nat>,
    mails: set<(nat, nat)>)

  const START := State(0, Store(map[], map[]), map[], map[], {})

  function Calls(s: State, id: JobId): nat {
    if id in s.calls then s.calls[id] else 0
  }

  function Snapshot(s: Store, b: nat): map<JobId, Progress> {
    map id | id in s.jobs && s.jobs[id].batch == Some(b) ::
      Progress(s.jobs[id].attempted, s.jobs[id].outcome.Some?, Waiting)
  }

  /** What a worker does next with a batch it has just claimed. */
  function Claimed(w: Worker, s: Store, b: nat): Worker
    requires b in s.batches
  {
    var batch := s.batches[b];
    w.(batch := Some(b), claim := batch.claims,
       phase := if batch.payload.Some? then Sending(batch.payload.value) else Redeeming(Snapshot(s, b)))
  }

  /** The outcomes runResetJob can decide on before it calls the upstream. */
  predicate EarlyOutcome(p: Progress, o: Outcome) {
    if p.recovering then o == Unconfirmed || o == Succeeded || o == Skipped else o == Failed || o == Skipped
  }

  predicate LateOutcome(o: Outcome) {
    o == Succeeded || o == NotApplied || o == Unconfirmed
  }

  /** Every job the claim found open has been finished without an error. */
  predicate AllDone(jobs: map<JobId, Progress>) {
    forall id :: id in jobs ==> jobs[id].settled || jobs[id].step == Done
  }

  datatype Event =
    | Tick(seconds: nat)
    | PlanJob(id: JobId, runAt: nat)
    | ReconcileAccount(account: string, available: set<string>)
    | Begin(w: nat, allowNew: bool)
    | ClaimOld(w: nat, b: nat)
    | ClaimFresh(w: nat, b: nat, chosen: set<JobId>, due: nat)
    | Check(w: nat, id: JobId)
    | Mark(w: nat, id: JobId, ok: bool)
    | Call(w: nat, id: JobId)
    | Decide(w: nat, id: JobId, outcome: Outcome)
    | Finish(w: nat, id: JobId)
    | Fail(w: nat, id: JobId)
    | FreezeReport(w: nat, payload: nat)
    | Send(w: nat)
    | Report(w: nat)
    | Leave(w: nat)
    | RetryBatch(w: nat)
    | Crash(w: nat)

  /** A worker whose context has not ended. */
  predicate Awake(s: State, w: nat) {
    w in s.workers && s.now <= s.workers[w].deadline
  }

  predicate On(s: State, w: nat, id: JobId, step: Step) {
    && Awake(s, w) && s.workers[w].phase.Redeeming? && id in s.workers[w].phase.jobs
    && var p := s.workers[w].phase.jobs[id];
       !p.settled && p.step == step
  }

  function Advance(s: State, w: nat, id: JobId, step: Step): map<nat, Worker>
    requires w in s.workers && s.workers[w].phase.Redeeming? && id in s.workers[w].phase.jobs
  {
    var worker := s.workers[w];
    s.workers[w := worker.(phase := Redeeming(worker.phase.jobs[id := worker.phase.jobs[id].(step := step)]))]
  }

  function SetPhase(s: State, w: nat, phase: Phase): map<nat, Worker>
    requires w in s.workers
  {
    s.workers[w := s.workers[w].(phase := phase)]
  }

  /** One step of the system; None when the event is not possible. */
  function Apply(s: State, ev: Event): Option<State> {
    match ev
    case Tick(n) => Some(s.(now := s.now + n))
    case PlanJob(id, runAt) => Some(s.(store := Plan(s.store, id, runAt)))
    case ReconcileAccount(account, available) => Some(s.(store := Reconcile(s.store, account, available)))
    case Begin(w, allowNew) =>
      if w in s.workers then None
      else Some(s.(workers := s.workers[w := Worker(s.now + CYCLE, allowNew, None, 0, Discovering)]))
    case ClaimOld(w, b) =>
      if !Awake(s, w) || !s.workers[w].phase.Discovering? || !Expired(s.store, b, s.now) then None
      else
        var store := Reclaim(s.store, b, s.now);
        Some(s.(store := store, workers := s.workers[w := Claimed(s.workers[w], store, b)]))
    case ClaimFresh(w, b, chosen, due) =>
      if !Awake(s, w) || !s.workers[w].phase.Discovering? || !s.workers[w].allowNew
         || b in s.store.batches || !Choosable(s.store, chosen, due) || due > s.now then None
      else
        var store := ClaimNew(s.store, b, chosen, s.now);
        Some(s.(store := store, workers := s.workers[w := Claimed(s.workers[w], store, b)]))
    case Check(w, id) =>
      if !On(s, w, id, Waiting) || s.workers[w].phase.jobs[id].recovering || !s.workers[w].allowNew then None
      else Some(s.(workers := Advance(s, w, id, Checked)))
    case Mark(w, id, ok) =>
      if !On(s, w, id, Checked) then None
      else Some(s.(store := StartAttempt(s.store, id), workers := Advance(s, w, id, if ok then Marked else Lost)))
    case Call(w, id) =>
      if !On(s, w, id, Marked) then None
      else Some(s.(calls := s.calls[id := Calls(s, id) + 1], workers := Advance(s, w, id, Called)))
    case Decide(w, id, outcome) =>
      if (On(s, w, id, Waiting) && EarlyOutcome(s.workers[w].phase.jobs[id], outcome))
         || ((On(s, w, id, Marked) || On(s, w, id, Called)) && LateOutcome(outcome))
      then Some(s.(workers := Advance(s, w, id, Closing(outcome)))) else None
    case Finish(w, id) =>
      if Awake(s, w) && s.workers[w].phase.Redeeming? && id in s.workers[w].phase.jobs
         && !s.workers[w].phase.jobs[id].settled && s.workers[w].phase.jobs[id].step.Closing?
      then Some(s.(store := FinishJob(s.store, id, s.workers[w].phase.jobs[id].step.outcome),
        workers := Advance(s, w, id, Done)))
      else None
    case Fail(w, id) =>
      if w in s.workers && s.workers[w].phase.Redeeming? && id in s.workers[w].phase.jobs
      then Some(s.(workers := Advance(s, w, id, Lost))) else None
    case FreezeReport(w, payload) =>
      if Awake(s, w) && s.workers[w].phase.Redeeming? && s.workers[w].batch.Some? &&
        s.workers[w].batch.value in s.store.batches
         && AllDone(s.workers[w].phase.jobs)
      then
        var b := s.workers[w].batch.value;
        var store := Freeze(s.store, b, payload);
        if store.batches[b].payload.Some?
        then Some(s.(store := store, workers := SetPhase(s, w, Sending(store.batches[b].payload.value)))) else None
      else None
    case Send(w) =>
      if Awake(s, w) && s.workers[w].phase.Sending? && s.workers[w].batch.Some?
      then Some(s.(mails := s.mails + {(s.workers[w].batch.value, s.workers[w].phase.payload)},
                   workers := SetPhase(s, w, Reporting))) else None
    case Report(w) =>
      if Awake(s, w) && s.workers[w].phase.Reporting? && s.workers[w].batch.Some?
      then Some(s.(store := FinishReport(s.store, s.workers[w].batch.value), workers := SetPhase(s, w, Leaving)))
        else None
    case Leave(w) =>
      if w in s.workers && s.workers[w].batch.Some? then Some(s.(workers := SetPhase(s, w, Leaving))) else None
    case RetryBatch(w) =>
      if w in s.workers && s.workers[w].phase.Leaving? && s.workers[w].batch.Some? &&
        s.now <= s.workers[w].deadline + CLEANUP
      then Some(s.(store := Retry(s.store, s.workers[w].batch.value, s.now), workers := s.workers - {w})) else None
    case Crash(w) => Some(s.(workers := s.workers - {w}))
  }
}
