/**
 The error a job shows: set by a refused request or a reported failure, cleared by the next transition that
 reports none, and kept by observations that say nothing new.
 */
module UpgradeErrors {
  import opened Wrappers
  import opened Evidence
  import opened Lifecycle
  import opened ShortestPath
  import opened UpgradeTables
  import opened UpgradeStore
  import opened UpgradeApi
  import opened UpgradeRequests

  /** The first five hundred characters. */
  function Shortened(detail: Option<string>): Option<string> {
    match detail
    case Some(d) => Some(if |d| <= 500 then d else d[..500])
    case None => None
  }

  ghost predicate Shows(job: Job, code: Option<string>, detail: Option<string>) {
    job.errorCode == code && job.errorDetail == Shortened(detail)
  }

  /** A transition that moves a job replaces its error, by none if it brings none. */
  lemma TransitionSetsTheError(t: Tables, id: JobId, next: State, input: Update)
    requires id in t.jobs && t.jobs[id].state != next && Transition(t, id, next, input).1.Ok?
    ensures var t' := Transition(t, id, next, input).0;
            id in t'.jobs && Shows(t'.jobs[id], input.errorCode, input.errorDetail)
  {
    hide GatePasses, CanTransition, Merged, MaxSequence, CanReleaseLock;
  }

  /**
   An observation keeps the error as far as it brings no other, and writes an entry into the log if and only
   if it brings new evidence, another code or another detail.
   */
  lemma ObservationKeepsTheError(t: Tables, id: JobId, input: Update)
    requires id in t.jobs
    ensures var job, t' := t.jobs[id], Observe(t, id, input).0;
            && id in t'.jobs
            && t'.jobs[id].errorCode == (if input.errorCode.Some? then input.errorCode else job.errorCode)
            && t'.jobs[id].errorDetail == (if input.errorDetail.Some? then Shortened(input.errorDetail)
                                           else job.errorDetail)
            && (|t'.events| != |t.events|
                <==> (Merge(job.evidence, input.evidence.GetOr([])) != job.evidence
                      || t'.jobs[id].errorCode != job.errorCode || t'.jobs[id].errorDetail != job.errorDetail))
  {
    hide Merge, MaxSequence;
  }

  /** A new job waits under the lock, with no evidence, no controller and no error. */
  lemma NewJobIsBlank(t: Tables, id: JobId, key: string, actor: string, target: Target)
    requires Create(t, id, key, actor, target).1.Created?
    ensures var t' := Create(t, id, key, actor, target).0;
            && id !in t.jobs && id in t'.jobs && t'.jobs == t.jobs[id := t'.jobs[id]]
            && t'.jobs[id].key == key && t'.jobs[id].actor == actor && t'.jobs[id].target == target
            && t'.jobs[id].state == Requested && !t'.jobs[id].lockReleased && t'.jobs[id].evidence == []
            && t'.jobs[id].correlation.None? && Shows(t'.jobs[id], None, None)
  {
    hide FindByKey, FindActive, SequenceTaken;
  }

  /** A refused request leaves the fixed error. */
  lemma RefusedRequestShowsIt(t: Tables, r: RequestBody, id: JobId, now: nat, receipt: Option<Update>)
    requires Request(t, r, id, now, receipt).1.RefusedByController?
    ensures var t' := Request(t, r, id, now, receipt).0;
            && id in t'.jobs && t'.jobs[id].state == Failed
            && Shows(t'.jobs[id], Some("controller_request_failed"), Some("Controller request failed."))
  {
    hide FindByKey, FindActive, MaxSequence, SequenceTaken, Transition, ConsumeNonce;
    var t1 := ConsumeNonce(t, r.nonce, Approval(r.actor, ToRequest, r.target), now).0;
    var t2 := Create(t1, id, r.key, r.actor, r.target).0;
    NewJobIsBlank(t1, id, r.key, r.actor, r.target);
    if receipt.Some? {
      TransitionOutcome(t2, id, Accepted, AcceptanceUpdate(receipt.value));
    }
    var t3 := if receipt.Some? then Transition(t2, id, Accepted, AcceptanceUpdate(receipt.value)).0 else t2;
    TransitionOutcome(t3, id, Failed, REFUSAL);
    TransitionSetsTheError(t3, id, Failed, REFUSAL);
  }

  /** The error of the last state on the way: the reported one at the reported state, none before it. */
  ghost predicate ShowsAlong(job: Job, path: seq<State>, n: nat, status: Status)
    requires n <= |path|
  {
    n > 0 ==>
      if path[n - 1] == status.state then Shows(job, status.errorCode, status.errorDetail) else Shows(job, None, None)
  }

  lemma {:induction false} ReconcileSetsTheError(t: Tables, id: JobId, path: seq<State>, status: Status)
    requires id in t.jobs && IsWalk(AllowedTransitions, t.jobs[id].state, path)
    ensures var job, t' := t.jobs[id], Reconcile(t, id, path, status);
            var n := Steps(path, Merge(job.evidence, Delta(status)), job.target.digest);
            && id in t'.jobs && ShowsAlong(t'.jobs[id], path, n, status) && (n == 0 ==> t' == t)
    decreases |path|
  {
    hide Transition, GatePasses, Lookup, IsWalk, AllowedTransitions, Merge, Shows;
    var job := t.jobs[id];
    var n := Steps(path, Merge(job.evidence, Delta(status)), job.target.digest);
    if n == 0 {
      StepRefused(t, id, path, status);
    } else {
      StepTaken(t, id, path, status);
      FirstStepShows(t, id, path, status);
      var t1 := Transition(t, id, path[0], Reported(status, path[0])).0;
      ReconcileSetsTheError(t1, id, path[1..], status);
      assert n > 1 ==> path[1..][n - 2] == path[n - 1];
    }
  }

  lemma FirstStepShows(t: Tables, id: JobId, path: seq<State>, status: Status)
    requires id in t.jobs && IsWalk(AllowedTransitions, t.jobs[id].state, path)
    requires Steps(path, Merge(t.jobs[id].evidence, Delta(status)), t.jobs[id].target.digest) > 0
    ensures var t1 := Transition(t, id, path[0], Reported(status, path[0])).0;
            && id in t1.jobs
            && if path[0] == status.state then Shows(t1.jobs[id], status.errorCode, status.errorDetail)
               else Shows(t1.jobs[id], None, None)
  {
    WalkFront(AllowedTransitions, t.jobs[id].state, path);
    NoSelfTransition(t.jobs[id].state);
    hide Transition, GatePasses, Lookup, IsWalk, AllowedTransitions, Merge;
    ReconcileStep(t, id, path[0], status);
    TransitionSetsTheError(t, id, path[0], Reported(status, path[0]));
  }

  /**
   A poll that brings a job to the reported state shows the reported error, which for a later success is none;
   one that leaves it on the way shows none; one that does not move it leaves everything as it was.
   */
  lemma PollShowsTheError(t: Tables, id: JobId, status: Status, t': Tables)
    requires id in t.jobs && Polled(t.jobs[id]) && status.state != t.jobs[id].state && IsPoll(t, id, Some(status), t')
    ensures id in t'.jobs
    ensures t'.jobs[id].state == status.state ==> Shows(t'.jobs[id], status.errorCode, status.errorDetail)
    ensures t'.jobs[id].state != status.state ==> t' == t || Shows(t'.jobs[id], None, None)
  {
    var job := t.jobs[id];
    var path :| IsGovernedPath(job.state, status.state, path) && t' == Reconcile(t, id, path, status);
    GovernedIsWalk(job.state, status.state, path);
    hide IsPoll, Reconcile, GatePasses, IsGovernedPath, IsWalk, Shows, Merge, Steps, Advanced;
    var n := Steps(path, Merge(job.evidence, Delta(status)), job.target.digest);
    ReconcileSetsTheError(t, id, path, status);
    ReconcileAdvances(t, id, path, status);
    LastOnTheWay(t, t', id, path, n);
  }

  lemma LastOnTheWay(t: Tables, t': Tables, id: JobId, path: seq<State>, n: nat)
    requires n <= |path| && Advanced(t, t', id, path[..n])
    ensures id in t.jobs && id in t'.jobs && t'.jobs[id].state == if n == 0 then t.jobs[id].state else path[n - 1]
  {
  }
}
