/** What automatic redemption promises, over every run. */
module ResetTheorems {
  import opened Collections
  import opened ResetModel
  import opened ResetSafety

  /** For each account and credit at most one redemption call leaves the program, and then its attempt is on record. */
  lemma AtMostOneCall(states: seq<State>, events: seq<Event>, i: nat, id: JobId)
    requires IsRun(states, events) && i < |states|
    ensures Calls(states[i], id) <= 1
    ensures Calls(states[i], id) == 1 ==> id in states[i].store.jobs && states[i].store.jobs[id].attempted
  {
    RunsOk(states, events, i);
    assert id in states[i].store.jobs ==> JobOk(states[i], id);
  }

  /**
   At the moment of a call the attempt is already durable, nobody called before, and the
   caller's lease is running.
   */
  lemma CallsFollowMarks(states: seq<State>, events: seq<Event>, i: nat, w: nat, id: JobId)
    requires IsRun(states, events) && i < |events| && events[i] == Call(w, id)
    ensures id in states[i].store.jobs && states[i].store.jobs[id].attempted && Calls(states[i], id) == 0
    ensures w in states[i].workers && Current(states[i], states[i].workers[w])
    ensures states[i].now < states[i].store.batches[states[i].workers[w].batch.value].lease
  {
    RunsOk(states, events, i);
    CallOk(states[i], w, id, states[i + 1]);
  }

  /** Claims, attempts and outcomes are written once. */
  predicate JobsGrow(s: Store, s': Store) {
    forall id :: id in s.jobs ==>
      && id in s'.jobs
      && (s.jobs[id].batch.Some? ==> s'.jobs[id].batch == s.jobs[id].batch)
      && (s.jobs[id].attempted ==> s'.jobs[id].attempted)
      && (s.jobs[id].outcome.Some? ==> s'.jobs[id].outcome == s.jobs[id].outcome)
  }

  /** A payload is frozen once. */
  predicate BatchesGrow(s: Store, s': Store) {
    forall b :: b in s.batches ==>
      b in s'.batches && (s.batches[b].payload.Some? ==> s'.batches[b].payload == s.batches[b].payload)
  }

  /** Rows are only ever completed, and mails are not taken back. */
  predicate Grows(s: State, s': State) {
    JobsGrow(s.store, s'.store) && BatchesGrow(s.store, s'.store) && s.mails <= s'.mails
  }

  lemma JobsOnlyGrow(s: State, ev: Event, s': State)
    requires Apply(s, ev) == Some(s')
    ensures JobsGrow(s.store, s'.store)
  {
  }

  lemma BatchesOnlyGrow(s: State, ev: Event, s': State)
    requires Apply(s, ev) == Some(s')
    ensures BatchesGrow(s.store, s'.store) && s.mails <= s'.mails
  {
  }

  lemma RunGrows(states: seq<State>, events: seq<Event>, i: nat)
    requires IsRun(states, events) && i < |events|
    ensures Grows(states[i], states[i + 1])
  {
    JobsOnlyGrow(states[i], events[i], states[i + 1]);
    BatchesOnlyGrow(states[i], events[i], states[i + 1]);
  }

  lemma GrowsTransitive(s: State, t: State, u: State)
    requires Grows(s, t) && Grows(t, u)
    ensures Grows(s, u)
  {
  }

  lemma {:induction false} ChainGrows(states: seq<State>, i: nat, j: nat)
    requires i <= j < |states| && forall k :: 0 <= k < j ==> Grows(states[k], states[k + 1])
    ensures Grows(states[i], states[j])
    decreases j
  {
    if i < j {
      ChainGrows(states, i, j - 1);
      GrowsTransitive(states[i], states[j - 1], states[j]);
    }
  }

  lemma WrittenOnce(states: seq<State>, events: seq<Event>, i: nat, j: nat)
    requires IsRun(states, events) && i <= j < |states|
    ensures Grows(states[i], states[j])
  {
    forall k | 0 <= k < j
      ensures Grows(states[k], states[k + 1])
    {
      RunGrows(states, events, k);
    }
    ChainGrows(states, i, j);
  }

  /** Reconciliation retires only jobs that no batch has claimed and nobody has attempted. */
  lemma ReconcileSpares(s: Store, account: string, available: set<string>, id: JobId)
    requires id in s.jobs
    ensures var s' := Reconcile(s, account, available);
            && id in s'.jobs && s'.batches == s.batches
            && (s'.jobs[id] != s.jobs[id] <==>
                  && s.jobs[id].batch.None? && !s.jobs[id].attempted && s.jobs[id].outcome.None?
                  && id.account == account && id.credit !in available)
            && (s'.jobs[id] != s.jobs[id] ==> s'.jobs[id] == s.jobs[id].(outcome := Some(Skipped)))
  {
  }

  /** All mails of a batch, whenever and by whichever worker they were sent, carry the same payload. */
  lemma OnePayloadPerBatch(states: seq<State>, events: seq<Event>, i: nat, b: nat, p: nat, q: nat)
    requires IsRun(states, events) && i < |states| && (b, p) in states[i].mails && (b, q) in states[i].mails
    ensures p == q
  {
    RunsOk(states, events, i);
    assert (b, p).0 == b && (b, q).0 == b;
  }

  /** A payload is frozen, and a mail sent, only when every job of the batch has its final outcome. */
  lemma ReportsAreComplete(states: seq<State>, events: seq<Event>, i: nat, j: nat, b: nat, id: JobId)
    requires IsRun(states, events) && i <= j < |states|
    requires b in states[i].store.batches &&
      (states[i].store.batches[b].payload.Some? || exists p :: (b, p) in states[i].mails)
    requires id in states[j].store.jobs && states[j].store.jobs[id].batch == Some(b)
    ensures id in states[i].store.jobs && states[i].store.jobs[id].batch == Some(b) ==>
      states[i].store.jobs[id].outcome.Some?
    ensures states[j].store.jobs[id].outcome.Some?
    ensures b in states[j].store.batches && states[j].store.batches[b].payload.Some?
  {
    RunsOk(states, events, i);
    RunsOk(states, events, j);
    WrittenOnce(states, events, i, j);
    if p :| (b, p) in states[i].mails { assert (b, p).0 == b; }
  }

  /**
   The statement that marks an attempt does not report whether it changed a row. Were two
   workers awake with the same unattempted job, each would mark it and call: only the lease
   keeps that from happening.
   */
  lemma OverlapWouldCallTwice(s: State, v: nat, w: nat, id: JobId) returns (s1: State, s2: State, s3: State, s4: State)
    requires v != w && On(s, v, id, Checked) && On(s, w, id, Checked)
    ensures Apply(s, Mark(v, id, true)) == Some(s1) && Apply(s1, Call(v, id)) == Some(s2)
    ensures Apply(s2, Mark(w, id, true)) == Some(s3) && Apply(s3, Call(w, id)) == Some(s4)
    ensures Calls(s4, id) == Calls(s, id) + 2
  {
    s1 := Apply(s, Mark(v, id, true)).value;
    s2 := Apply(s1, Call(v, id)).value;
    s3 := Apply(s2, Mark(w, id, true)).value;
    s4 := Apply(s3, Call(w, id)).value;
  }

  /** In a run two workers are never in that position. */
  lemma NeverOverlap(states: seq<State>, events: seq<Event>, i: nat, v: nat, w: nat)
    requires IsRun(states, events) && i < |states| && v != w
    requires Awake(states[i], v) && Awake(states[i], w) && states[i].workers[v].batch.Some?
    ensures states[i].workers[v].batch != states[i].workers[w].batch
  {
    RunsOk(states, events, i);
    var s := states[i];
    if s.workers[v].batch == s.workers[w].batch { Alone(s, v, w); AwakeIsCurrent(s, w); }
  }
}
