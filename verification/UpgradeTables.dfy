/**
 The rows behind upgrade jobs, and the SQL statements that read and write them. A statement
 is atomic; everything larger is a sequence of statements.
 */
module UpgradeTables {
  import opened Text
  import opened Wrappers
  import opened Evidence
  import opened Lifecycle

  type JobId = string

  /** What a job deploys, and what an approval is bound to. */
  datatype Target = Target(deployment: string, version: string, digest: string)

  datatype Job = Job(
    key: string,
    actor: string,
    target: Target,
    state: State,
    evidence: Sections,
    lockReleased: bool,
    correlation: Option<string>,
    errorCode: Option<string>,
    errorDetail: Option<string>)

  datatype EventKind = RequestEntry | TransitionEntry | ObservationEntry

  datatype Event = Event(
    job: JobId, sequence: nat, kind: EventKind, from: Option<State>, to: State, evidence: Sections)

  datatype Action = ToRequest | ToCancel | ToRollback

  datatype Approval = Approval(actor: string, action: Action, target: Target)

  /** A request with the nonce of its verified approval token. */
  datatype RequestBody = RequestBody(key: string, actor: string, target: Target, nonce: string)

  datatype Nonce = Nonce(approval: Approval, expiresAt: nat, usedAt: Option<nat>)

  datatype Tables = Tables(jobs: map<JobId, Job>, events: seq<Event>, nonces: map<string, Nonce>)

  /** The caller's part of a transition or an observation. */
  datatype Update = Update(
    correlation: Option<string>,
    evidence: Option<Sections>,
    errorCode: Option<string>,
    errorDetail: Option<string>)

  // ---- upgrade_jobs ---------------------------------------------------------------

  function NewJob(key: string, actor: string, target: Target): Job {
    Job(key, actor, target, Requested, [], false, None, None, None)
  }

  ghost predicate HasKey(jobs: map<JobId, Job>, key: string, id: JobId) {
    id in jobs && jobs[id].key == key
  }

  ghost predicate HoldsLock(jobs: map<JobId, Job>, id: JobId) {
    id in jobs && !jobs[id].lockReleased
  }

  /** SELECT ... WHERE idempotency_key = key */
  ghost function FindByKey(jobs: map<JobId, Job>, key: string): (r: Option<JobId>)
    ensures r.Some? ==> HasKey(jobs, key, r.value)
    ensures r.None? ==> forall id :: !HasKey(jobs, key, id)
  {
    if id :| HasKey(jobs, key, id) then Some(id) else None
  }

  /** SELECT id ... WHERE lock_released_at IS NULL */
  ghost function FindActive(jobs: map<JobId, Job>): (r: Option<JobId>)
    ensures r.Some? ==> HoldsLock(jobs, r.value)
    ensures r.None? ==> forall id :: !HoldsLock(jobs, id)
  {
    if id :| HoldsLock(jobs, id) then Some(id) else None
  }

  /** The primary key, the unique idempotency key and the partial unique index on the lock. */
  ghost predicate CanInsert(jobs: map<JobId, Job>, id: JobId, key: string) {
    id !in jobs && FindByKey(jobs, key).None? && FindActive(jobs).None?
  }

  ghost predicate UniqueKeys(jobs: map<JobId, Job>) {
    forall a, b | a in jobs && b in jobs && jobs[a].key == jobs[b].key :: a == b
  }

  ghost predicate SingleLock(jobs: map<JobId, Job>) {
    forall a, b | HoldsLock(jobs, a) && HoldsLock(jobs, b) :: a == b
  }

  ghost predicate KeepsIdentity(job: Job, job': Job) {
    job'.key == job.key && (job.lockReleased ==> job'.lockReleased)
  }

  lemma UpdateKeepsKeys(jobs: map<JobId, Job>, id: JobId, job: Job)
    requires UniqueKeys(jobs) && SingleLock(jobs) && id in jobs && KeepsIdentity(jobs[id], job)
    ensures UniqueKeys(jobs[id := job]) && SingleLock(jobs[id := job])
  {
    var jobs' := jobs[id := job];
    forall a, b | HoldsLock(jobs', a) && HoldsLock(jobs', b) ensures a == b {
      assert HoldsLock(jobs, a) && HoldsLock(jobs, b);
    }
  }

  lemma InsertKeepsKeys(jobs: map<JobId, Job>, id: JobId, job: Job)
    requires UniqueKeys(jobs) && SingleLock(jobs) && CanInsert(jobs, id, job.key)
    ensures UniqueKeys(jobs[id := job]) && SingleLock(jobs[id := job])
  {
    var jobs' := jobs[id := job];
    assert forall a :: !HasKey(jobs, job.key, a);
    assert forall a :: !HoldsLock(jobs, a);
    forall a, b | a in jobs' && b in jobs' && jobs'[a].key == jobs'[b].key ensures a == b {
      assert !HasKey(jobs, job.key, a) && !HasKey(jobs, job.key, b);
    }
    forall a, b | HoldsLock(jobs', a) && HoldsLock(jobs', b) ensures a == b {
      assert !HoldsLock(jobs, a) && !HoldsLock(jobs, b);
    }
  }

  function Truncated(detail: Option<string>): Option<string> {
    if detail.Some? then Some(Truncate(detail.value)) else None
  }

  function Coalesce<T>(a: Option<T>, b: Option<T>): Option<T> {
    if a.Some? then a else b
  }

  function Merged(current: Job, input: Update): Sections {
    Merge(current.evidence, input.evidence.GetOr([]))
  }

  /**
   UPDATE upgrade_jobs SET state = next, ... on the stored row; `current` is the row as it
   was read, from which the evidence to store and the lock decision were computed.
   */
  function Transitioned(stored: Job, current: Job, next: State, input: Update): Job {
    var merged := Merged(current, input);
    stored.(
      state := next,
      correlation := Coalesce(input.correlation, stored.correlation),
      evidence := if input.evidence.Some? then merged else stored.evidence,
      errorCode := input.errorCode,
      errorDetail := Truncated(input.errorDetail),
      lockReleased := CanReleaseLock(next, merged) || stored.lockReleased)
  }

  function Observed(stored: Job, current: Job, input: Update): Job {
    stored.(
      evidence := Merged(current, input),
      errorCode := Coalesce(input.errorCode, stored.errorCode),
      errorDetail := Coalesce(Truncated(input.errorDetail), stored.errorDetail))
  }

  /** WHERE id = ? AND state = ? */
  predicate StateMatches(jobs: map<JobId, Job>, id: JobId, current: Job) {
    id in jobs && jobs[id].state == current.state
  }

  /** WHERE id = ? AND state = ? AND controller_evidence = ? */
  predicate RowMatches(jobs: map<JobId, Job>, id: JobId, current: Job) {
    StateMatches(jobs, id, current) && jobs[id].evidence == current.evidence
  }

  /** An observation that changed nothing writes no event. */
  predicate EvidenceChanged(current: Job, input: Update) {
    || Merged(current, input) != current.evidence
    || (input.errorCode.Some? && input.errorCode != current.errorCode)
    || (input.errorDetail.Some? && Truncated(input.errorDetail) != current.errorDetail)
  }

  /** `job.controllerCorrelationId` as a condition: an empty id is none. */
  predicate HasController(job: Job) {
    job.correlation.GetOr("") != ""
  }

  // ---- upgrade_job_events -----------------------------------------------------------

  /** SELECT COALESCE(MAX(sequence), 0) ... WHERE upgrade_job_id = id */
  function MaxSequence(events: seq<Event>, id: JobId): (m: nat)
    ensures forall e | e in events && e.job == id :: e.sequence <= m
    ensures m == 0 || SequenceTaken(events, id, m)
  {
    if events == [] then 0
    else
      var rest := MaxSequence(events[..|events| - 1], id);
      var last := events[|events| - 1];
      if last.job == id && last.sequence > rest then last.sequence else rest
  }

  /** UNIQUE (upgrade_job_id, sequence) */
  predicate SequenceTaken(events: seq<Event>, id: JobId, sequence: nat) {
    exists e | e in events :: e.job == id && e.sequence == sequence
  }

  function RequestEvent(id: JobId): Event {
    Event(id, 1, RequestEntry, None, Requested, [])
  }

  function TransitionEvent(id: JobId, sequence: nat, from: State, to: State, input: Update): Event {
    Event(id, sequence, TransitionEntry, Some(from), to, input.evidence.GetOr([]))
  }

  function ObservationEvent(id: JobId, sequence: nat, state: State, input: Update): Event {
    Event(id, sequence, ObservationEntry, Some(state), state, input.evidence.GetOr([]))
  }

  // ---- upgrade_request_nonces ---------------------------------------------------------

  predicate Consumable(nonces: map<string, Nonce>, nonce: string, approval: Approval, now: nat) {
    && nonce in nonces && nonces[nonce].approval == approval
    && nonces[nonce].usedAt.None? && nonces[nonce].expiresAt >= now
  }
}
