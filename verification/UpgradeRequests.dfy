/**
 Requests and protected actions, each run to its end against the durable store, and what a
 call records.
 */
module UpgradeRequests {
  import opened Wrappers
  import opened Evidence
  import opened Lifecycle
  import opened UpgradeTables
  import opened UpgradeStore
  import opened UpgradeApi

  // ---- POST /request ----------------------------------------------------------------------

  datatype RequestOutcome =
    | KeyConflict
    | Replay(job: Job)
    | Disapproved
    | Busy(active: JobId)
    | AcceptedByController(job: Job)
    | RefusedByController(job: Job)
    | ServerError

  function AcceptanceUpdate(receipt: Update): Update {
    receipt.(errorCode := None, errorDetail := None)
  }

  const REFUSAL: Update := Update(None, None, Some("controller_request_failed"), Some("Controller request failed."))

  ghost function Refuse(t: Tables, id: JobId): (Tables, RequestOutcome) {
    var (t', r) := Transition(t, id, Failed, REFUSAL);
    (t', if r.Ok? then RefusedByController(r.value) else ServerError)
  }

  ghost function Submit(t: Tables, id: JobId, receipt: Option<Update>): (Tables, RequestOutcome) {
    match receipt
    case None => Refuse(t, id)
    case Some(update) =>
      var (t', r) := Transition(t, id, Accepted, AcceptanceUpdate(update));
      if r.Ok? then (t', AcceptedByController(r.value)) else Refuse(t', id)
  }

  /** `receipt` is the controller's answer, absent when its call fails. */
  ghost function Request(
      t: Tables, r: RequestBody, id: JobId, now: nat, receipt: Option<Update>): (Tables, RequestOutcome)
  {
    match FindByKey(t.jobs, r.key)
    case Some(existing) =>
      (t, if t.jobs[existing].actor != r.actor || t.jobs[existing].target != r.target then KeyConflict
          else Replay(t.jobs[existing]))
    case None =>
      var (t1, approved) := ConsumeNonce(t, r.nonce, Approval(r.actor, ToRequest, r.target), now);
      if !approved then (t1, Disapproved)
      else
        var (t2, outcome) := Create(t1, id, r.key, r.actor, r.target);
        match outcome
        case Replayed(job) => (t2, Replay(job))
        case InProgress(active) => (t2, Busy(active))
        case Rejected => (t2, ServerError)
        case Created(_) => Submit(t2, id, receipt)
  }

  method RefuseJob(db: UpgradeDb, id: JobId) returns (outcome: RequestOutcome)
    requires db.Valid()
    modifies db
    ensures db.Valid() && db.Rows() == Refuse(old(db.Rows()), id).0 && outcome == Refuse(old(db.Rows()), id).1
  {
    hide Transition, Sound;
    var r := db.TransitionUpgradeJob(id, Failed, REFUSAL);
    outcome := if r.Ok? then RefusedByController(r.value) else ServerError;
  }

  method SubmitJob(db: UpgradeDb, id: JobId, receipt: Option<Update>) returns (outcome: RequestOutcome)
    requires db.Valid()
    modifies db
    ensures db.Valid()
    ensures db.Rows() == Submit(old(db.Rows()), id, receipt).0 && outcome == Submit(old(db.Rows()), id, receipt).1
  {
    hide Transition, Sound, Refuse;
    if receipt.Some? {
      var r := db.TransitionUpgradeJob(id, Accepted, AcceptanceUpdate(receipt.value));
      if r.Ok? {
        return AcceptedByController(r.value);
      }
    }
    outcome := RefuseJob(db, id);
  }

  method RequestUpgrade(db: UpgradeDb, r: RequestBody, id: JobId, now: nat, receipt: Option<Update>)
    returns (outcome: RequestOutcome)
    requires db.Valid()
    modifies db
    ensures db.Valid() && db.Rows() == Request(old(db.Rows()), r, id, now, receipt).0
    ensures outcome == Request(old(db.Rows()), r, id, now, receipt).1
  {
    hide Create, Submit, ConsumeNonce, Sound, FindByKey;
    var existing := db.GetByIdempotencyKey(r.key);
    if existing.Some? {
      FoundIsStored(db.jobs, r.key);
      var job := db.jobs[existing.value];
      return if job.actor != r.actor || job.target != r.target then KeyConflict else Replay(job);
    }
    var approved := db.ConsumeUpgradeRequestNonce(r.nonce, Approval(r.actor, ToRequest, r.target), now);
    if !approved {
      return Disapproved;
    }
    var created := db.CreateUpgradeJob(id, r.key, r.actor, r.target);
    match created {
      case Replayed(job) => outcome := Replay(job);
      case InProgress(active) => outcome := Busy(active);
      case Rejected => outcome := ServerError;
      case Created(_) => outcome := SubmitJob(db, id, receipt);
    }
  }

  lemma FoundIsStored(jobs: map<JobId, Job>, key: string)
    ensures FindByKey(jobs, key).Some? ==> FindByKey(jobs, key).value in jobs
  {
  }

  // ---- POST /jobs/:id/cancel and /jobs/:id/rollback -------------------------------------------

  predicate ActionAvailable(job: Job, action: Action) {
    && HasController(job)
    && match action
       case ToCancel => job.state in {Accepted, Preflight}
       case ToRollback =>
         && job.state in {Deploying, Verifying, Completed, Failed}
         && Equals(job.evidence, "rollback", "available", Bool(true))
       case ToRequest => false
  }

  function ActionTarget(action: Action): State {
    if action == ToCancel then CancelRequested else RollbackRequested
  }

  datatype ActionCall = ActionCall(id: JobId, action: Action, actor: string, nonce: string, now: nat,
                                   controllerMatches: bool, receipt: Option<Update>)

  datatype ActionOutcome = Unavailable | NotApproved | ControllerError | Recorded(result: Result<Job, UpgradeError>)

  ghost function PerformAction(t: Tables, c: ActionCall): (Tables, ActionOutcome) {
    if c.id !in t.jobs || !ActionAvailable(t.jobs[c.id], c.action) then (t, Unavailable)
    else
      var (t1, approved) := ConsumeNonce(t, c.nonce, Approval(c.actor, c.action, t.jobs[c.id].target), c.now);
      if !approved then (t1, NotApproved)
      else if !c.controllerMatches || c.receipt.None? then (t1, ControllerError)
      else
        var (t2, r) := Transition(t1, c.id, ActionTarget(c.action), AcceptanceUpdate(c.receipt.value));
        (t2, Recorded(r))
  }

  method ExecuteAction(db: UpgradeDb, c: ActionCall) returns (outcome: ActionOutcome)
    requires db.Valid()
    modifies db
    ensures db.Valid() && db.Rows() == PerformAction(old(db.Rows()), c).0
    ensures outcome == PerformAction(old(db.Rows()), c).1
  {
    hide Transition, ConsumeNonce, Sound;
    if c.id !in db.jobs || !ActionAvailable(db.jobs[c.id], c.action) {
      return Unavailable;
    }
    var approved := db.ConsumeUpgradeRequestNonce(c.nonce, Approval(c.actor, c.action, db.jobs[c.id].target), c.now);
    if !approved {
      return NotApproved;
    }
    if !c.controllerMatches || c.receipt.None? {
      return ControllerError;
    }
    var r := db.TransitionUpgradeJob(c.id, ActionTarget(c.action), AcceptanceUpdate(c.receipt.value));
    outcome := Recorded(r);
  }

  /** The job is in a state in which the action is offered, and its controller has offered a rollback. */
  predicate Offered(job: Job, action: Action) {
    job.correlation.Some? && job.correlation.value != ""
    && ((action == ToCancel && (job.state == Accepted || job.state == Preflight))
        || (action == ToRollback && job.state in {Deploying, Verifying, Completed, Failed}
            && Lookup(FieldsOf(job.evidence, "rollback"), "available") == Some(Bool(true))))
  }

  /** An approval registered for exactly this actor, action and target, not yet used and not expired. */
  predicate Approved(t: Tables, c: ActionCall)
    requires c.id in t.jobs
  {
    && c.nonce in t.nonces && t.nonces[c.nonce].usedAt == None && c.now <= t.nonces[c.nonce].expiresAt
    && t.nonces[c.nonce].approval == Approval(c.actor, c.action, t.jobs[c.id].target)
  }

  lemma AvailableMeans(job: Job, action: Action)
    ensures ActionAvailable(job, action) <==> Offered(job, action)
  {
    EqualsExactly(job.evidence, "rollback", "available", Bool(true));
    hide Equals, FieldsOf, Lookup;
  }

  lemma ActionIsOpen(job: Job, action: Action, input: Update)
    requires ActionAvailable(job, action)
    ensures var next := ActionTarget(action);
            && job.state != next && CanTransition(job.state, next)
            && GatePasses(next, Merged(job, input), job.target.digest)
            && Transitioned(job, job, next, input).state == next
  {
    hide Equals, Merged, CanReleaseLock, Truncated, Coalesce;
  }

  /**
   An action is recorded if and only if it is offered for the job, approved, and taken by the job's own
   controller; and what is recorded is the state the action asks for, without fail.
   */
  lemma AcceptedActionIsRecorded(t: Tables, c: ActionCall)
    ensures var (t', outcome) := PerformAction(t, c);
            && (outcome.Recorded?
                <==> (c.id in t.jobs && Offered(t.jobs[c.id], c.action) && Approved(t, c)
                      && c.controllerMatches && c.receipt.Some?))
            && (outcome.Recorded? ==>
                  && outcome.result.Ok? && c.id in t'.jobs && t'.nonces[c.nonce].usedAt == Some(c.now)
                  && t'.jobs[c.id].state == if c.action == ToCancel then CancelRequested else RollbackRequested)
            && (!outcome.Recorded? ==> t'.jobs == t.jobs)
  {
    if c.id in t.jobs {
      AvailableMeans(t.jobs[c.id], c.action);
    }
    hide Merged, CanReleaseLock, Offered, ActionAvailable, MaxSequence, Transitioned;
    if PerformAction(t, c).1.Recorded? {
      ActionIsOpen(t.jobs[c.id], c.action, AcceptanceUpdate(c.receipt.value));
    }
  }
}
