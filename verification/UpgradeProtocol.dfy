/**
 The upgrade protocol under concurrency. Any number of workers execute request handlers,
 transitions and observations on shared rows; one step is one SQL statement or one call to
 the external controller, and every interleaving of steps is a run. A worker may stop for
 good at any point, and a statement may fail without effect.
 */
module UpgradeProtocol {
  import opened Wrappers
  import opened Evidence
  import opened Lifecycle
  import opened UpgradeTables

  // ---- Workers ----------------------------------------------------------------------

  /** Why a transition runs: on its own, or as the end of a request. */
  datatype Origin = Alone | Acceptance(request: RequestBody) | Refusal(request: RequestBody)

  datatype Change = Change(id: JobId, next: State, input: Update, origin: Origin)

  /** A worker waits to execute the statement its constructor names. */
  datatype Worker =
    // POST /request
    | LookUpKey(request: RequestBody)
    | ConsumeNonce(request: RequestBody)
    | RecheckKey(request: RequestBody)
    | CheckLock(request: RequestBody)
    | InsertJob(request: RequestBody)
    | ReplayAfterConflict(request: RequestBody)
    | InsertRequestEvent(request: RequestBody, id: JobId)
    | ReadCreated(request: RequestBody, id: JobId)
    | CallController(request: RequestBody, id: JobId)
    // transitionUpgradeJob
    | ReadForTransition(change: Change)
    | CommitTransition(change: Change, current: Job)
    | NumberTransition(change: Change, current: Job)
    | LogTransition(change: Change, current: Job, sequence: nat)
    | ReadTransitioned(change: Change)
    // recordUpgradeJobObservation
    | ReadForObservation(id: JobId, input: Update)
    | CommitObservation(id: JobId, input: Update, current: Job)
    | NumberObservation(id: JobId, input: Update, current: Job)
    | LogObservation(id: JobId, input: Update, current: Job, sequence: nat)
    | Finished

  /** A call to `controller.request`, with the worker that made it. */
  datatype Call = Call(job: JobId, request: RequestBody, worker: nat)

  /** A non-error response to a request. */
  datatype Reply = Reply(key: string, job: JobId)

  /**
   The tables, the workers and the clock; and the record of what has happened: external
   calls, replies, the states each row has held, and the worker that consumed each nonce or
   inserted each job.
   */
  datatype System = System(
    tables: Tables,
    workers: seq<Worker>,
    now: nat,
    calls: seq<Call>,
    replies: set<Reply>,
    history: map<JobId, seq<State>>,
    consumer: map<string, nat>,
    creator: map<JobId, nat>)

  /** What the environment decides in a step. */
  datatype Choice = Choice(id: JobId, fault: bool, receipt: Option<Update>)

  datatype Step =
    | Tick(seconds: nat)
    | Register(nonce: string, approval: Approval, expiresAt: nat)
    | Begin(worker: Worker)
    | Act(i: nat, choice: Choice)

  const EMPTY: System := System(Tables(map[], [], map[]), [], 0, [], {}, map[], map[], map[])

  // ---- Steps ------------------------------------------------------------------------

  /** The one statement or external call of a step, once it has been decided to succeed. */
  datatype Effect =
    | Nothing
    | UseNonce(nonce: string)
    | CreateJob(id: JobId, request: RequestBody)
    | WriteTransition(change: Change, current: Job)
    | WriteObservation(id: JobId, input: Update, current: Job)
    | AddEvent(event: Event)
    | CallOut(id: JobId, request: RequestBody)
    | Answer(reply: Reply)

  /** What a worker does in one step, and what it waits to do next. */
  datatype Plan = Plan(effect: Effect, rest: Worker)

  ghost function Extended(history: map<JobId, seq<State>>, id: JobId, state: State): map<JobId, seq<State>> {
    history[id := (if id in history then history[id] else []) + [state]]
  }

  ghost function Perform(s: System, effect: Effect, i: nat): System {
    match effect
    case Nothing => s
    case UseNonce(n) =>
      if n !in s.tables.nonces then s
      else
        var used := s.tables.nonces[n].(usedAt := Some(s.now));
        s.(tables := s.tables.(nonces := s.tables.nonces[n := used]), consumer := s.consumer[n := i])
    case CreateJob(id, r) =>
      s.(tables := s.tables.(jobs := s.tables.jobs[id := NewJob(r.key, r.actor, r.target)]),
         history := s.history[id := [Requested]], creator := s.creator[id := i])
    case WriteTransition(change, current) =>
      if change.id !in s.tables.jobs then s
      else
        var job := Transitioned(s.tables.jobs[change.id], current, change.next, change.input);
        s.(tables := s.tables.(jobs := s.tables.jobs[change.id := job]),
           history := Extended(s.history, change.id, change.next))
    case WriteObservation(id, input, current) =>
      if id !in s.tables.jobs then s
      else
        var job := Observed(s.tables.jobs[id], current, input);
        s.(tables := s.tables.(jobs := s.tables.jobs[id := job]))
    case AddEvent(e) => s.(tables := s.tables.(events := s.tables.events + [e]))
    case CallOut(id, r) => s.(calls := s.calls + [Call(id, r, i)])
    case Answer(reply) => s.(replies := s.replies + {reply})
  }

  /** The error path of a transition: a refused acceptance is recorded as a failed job. */
  ghost function Raise(change: Change): Worker {
    match change.origin
    case Acceptance(request) =>
      ReadForTransition(Change(change.id, Failed,
        Update(None, None, Some("controller_request_failed"), Some("Controller request failed.")),
        Refusal(request)))
    case _ => Finished
  }

  /** The end of a successful transition; only an acceptance answers a request without error. */
  ghost function Conclusion(change: Change): Plan {
    match change.origin
    case Acceptance(request) => Plan(Answer(Reply(request.key, change.id)), Finished)
    case _ => Plan(Nothing, Finished)
  }

  /** The replay of a stored job, or the next statement when the key is new. */
  ghost function Replay(t: Tables, r: RequestBody, otherwise: Worker): Plan {
    match FindByKey(t.jobs, r.key)
    case None => Plan(Nothing, otherwise)
    case Some(id) => Plan(Answer(Reply(r.key, id)), Finished)
  }

  ghost function RequestPlan(t: Tables, now: nat, w: Worker, c: Choice): Plan {
    match w
    case LookUpKey(r) =>
      (match FindByKey(t.jobs, r.key)
       case Some(id) =>
         if t.jobs[id].actor != r.actor || t.jobs[id].target != r.target then Plan(Nothing, Finished)
         else Replay(t, r, Finished)
       case None => Plan(Nothing, ConsumeNonce(r)))
    case ConsumeNonce(r) =>
      if Consumable(t.nonces, r.nonce, Approval(r.actor, ToRequest, r.target), now)
      then Plan(UseNonce(r.nonce), RecheckKey(r)) else Plan(Nothing, Finished)
    case RecheckKey(r) => Replay(t, r, CheckLock(r))
    case CheckLock(r) => Plan(Nothing, if FindActive(t.jobs).Some? then Finished else InsertJob(r))
    case InsertJob(r) =>
      if !c.fault && CanInsert(t.jobs, c.id, r.key)
      then Plan(CreateJob(c.id, r), InsertRequestEvent(r, c.id)) else Plan(Nothing, ReplayAfterConflict(r))
    case ReplayAfterConflict(r) => Replay(t, r, Finished)
    case InsertRequestEvent(r, id) =>
      if c.fault || SequenceTaken(t.events, id, 1) then Plan(Nothing, Finished)
      else Plan(AddEvent(RequestEvent(id)), ReadCreated(r, id))
    case ReadCreated(r, id) => Plan(Nothing, if c.fault then Finished else CallController(r, id))
    case CallController(r, id) =>
      var input := c.receipt.GetOr(Update(None, None, None, None)).(errorCode := None, errorDetail := None);
      var acceptance := Change(id, Accepted, input, Acceptance(r));
      Plan(CallOut(id, r), if c.receipt.Some? then ReadForTransition(acceptance) else Raise(acceptance))
    case _ => Plan(Nothing, w)
  }

  ghost function TransitionPlan(t: Tables, w: Worker, c: Choice): Plan {
    match w
    case ReadForTransition(change) =>
      if c.fault || change.id !in t.jobs then Plan(Nothing, Raise(change))
      else
        var current := t.jobs[change.id];
        if current.state == change.next then Conclusion(change)
        else if !CanTransition(current.state, change.next)
             || !GatePasses(change.next, Merged(current, change.input), current.target.digest)
          then Plan(Nothing, Raise(change))
        else Plan(Nothing, CommitTransition(change, current))
    case CommitTransition(change, current) =>
      if c.fault || !StateMatches(t.jobs, change.id, current) then Plan(Nothing, Raise(change))
      else Plan(WriteTransition(change, current), NumberTransition(change, current))
    case NumberTransition(change, current) =>
      Plan(Nothing, if c.fault then Raise(change)
                    else LogTransition(change, current, MaxSequence(t.events, change.id) + 1))
    case LogTransition(change, current, n) =>
      if c.fault || SequenceTaken(t.events, change.id, n) then Plan(Nothing, Raise(change))
      else Plan(AddEvent(TransitionEvent(change.id, n, current.state, change.next, change.input)),
                ReadTransitioned(change))
    case ReadTransitioned(change) => if c.fault then Plan(Nothing, Raise(change)) else Conclusion(change)
    case _ => Plan(Nothing, w)
  }

  ghost function ObservationPlan(t: Tables, w: Worker, c: Choice): Plan {
    match w
    case ReadForObservation(id, input) =>
      Plan(Nothing, if c.fault || id !in t.jobs then Finished else CommitObservation(id, input, t.jobs[id]))
    case CommitObservation(id, input, current) =>
      if c.fault || !RowMatches(t.jobs, id, current) then Plan(Nothing, Finished)
      else Plan(WriteObservation(id, input, current),
                if EvidenceChanged(current, input) then NumberObservation(id, input, current) else Finished)
    case NumberObservation(id, input, current) =>
      Plan(Nothing, if c.fault then Finished
                    else LogObservation(id, input, current, MaxSequence(t.events, id) + 1))
    case LogObservation(id, input, current, n) =>
      if c.fault || SequenceTaken(t.events, id, n) then Plan(Nothing, Finished)
      else Plan(AddEvent(ObservationEvent(id, n, current.state, input)), Finished)
    case _ => Plan(Nothing, w)
  }

  predicate InRequest(w: Worker) {
    || w.LookUpKey? || w.ConsumeNonce? || w.RecheckKey? || w.CheckLock? || w.InsertJob?
    || w.ReplayAfterConflict? || w.InsertRequestEvent? || w.ReadCreated? || w.CallController?
  }

  predicate InTransition(w: Worker) {
    || w.ReadForTransition? || w.CommitTransition? || w.NumberTransition? || w.LogTransition?
    || w.ReadTransitioned?
  }

  /** How a worker may begin: a request, or a transition or an observation of any job. */
  predicate Initial(w: Worker) {
    w.LookUpKey? || w.ReadForObservation? || (w.ReadForTransition? && w.change.origin == Alone)
  }

  ghost function PlanOf(s: System, i: nat, c: Choice): Plan
    requires i < |s.workers|
  {
    if InRequest(s.workers[i]) then RequestPlan(s.tables, s.now, s.workers[i], c)
    else if InTransition(s.workers[i]) then TransitionPlan(s.tables, s.workers[i], c)
    else ObservationPlan(s.tables, s.workers[i], c)
  }

  ghost function Apply(s: System, e: Step): System {
    match e
    case Tick(seconds) => s.(now := s.now + seconds)
    case Register(nonce, approval, expiresAt) =>
      if nonce in s.tables.nonces then s
      else s.(tables := s.tables.(nonces := s.tables.nonces[nonce := Nonce(approval, expiresAt, None)]))
    case Begin(w) => if Initial(w) then s.(workers := s.workers + [w]) else s
    case Act(i, c) =>
      if i >= |s.workers| then s
      else
        var plan := PlanOf(s, i, c);
        Perform(s, plan.effect, i).(workers := s.workers[i := plan.rest])
  }

  /** The system after a run from the empty deployment. */
  ghost function After(run: seq<Step>): System
    decreases |run|
  {
    if run == [] then EMPTY else Apply(After(run[..|run| - 1]), run[|run| - 1])
  }

  // ---- What no step undoes ------------------------------------------------------------

  ghost predicate RowGrows(job: Job, job': Job) {
    && job'.key == job.key && job'.actor == job.actor && job'.target == job.target
    && (job.lockReleased ==> job'.lockReleased)
  }

  ghost predicate NonceGrows(n: Nonce, n': Nonce) {
    n'.approval == n.approval && n'.expiresAt == n.expiresAt && (n.usedAt.Some? ==> n'.usedAt == n.usedAt)
  }

  ghost predicate JobsGrow(jobs: map<JobId, Job>, jobs': map<JobId, Job>) {
    forall id | id in jobs :: id in jobs' && RowGrows(jobs[id], jobs'[id])
  }

  ghost predicate NoncesGrow(nonces: map<string, Nonce>, nonces': map<string, Nonce>) {
    forall n | n in nonces :: n in nonces' && NonceGrows(nonces[n], nonces'[n])
  }

  ghost predicate Extends<K, V>(m: map<K, V>, m': map<K, V>) {
    forall k | k in m :: k in m' && m'[k] == m[k]
  }

  ghost predicate HistoryGrows(h: map<JobId, seq<State>>, h': map<JobId, seq<State>>) {
    forall id | id in h :: id in h' && h[id] <= h'[id]
  }

  ghost predicate Grows(s: System, s': System) {
    && |s.workers| <= |s'.workers| && s.now <= s'.now && s.calls <= s'.calls && s.replies <= s'.replies
    && JobsGrow(s.tables.jobs, s'.tables.jobs)
    && NoncesGrow(s.tables.nonces, s'.tables.nonces)
    && Extends(s.consumer, s'.consumer)
    && Extends(s.creator, s'.creator)
    && HistoryGrows(s.history, s'.history)
  }

  // ---- The invariant ----------------------------------------------------------------

  ghost predicate RowOk(job: Job, states: seq<State>) {
    && (Forward(job.state) ==> !job.lockReleased)
    && (job.state in {Completed, Canceled, RolledBack} ==> job.lockReleased)
    && IsHistory(states) && states[|states| - 1] == job.state
  }

  ghost predicate JobsOk(jobs: map<JobId, Job>, history: map<JobId, seq<State>>) {
    && UniqueKeys(jobs) && SingleLock(jobs) && history.Keys == jobs.Keys
    && forall id | id in jobs :: RowOk(jobs[id], history[id])
  }

  /** The nonce was registered for exactly this request, and used before it expired. */
  ghost predicate Spent(s: System, r: RequestBody, i: nat) {
    && r.nonce in s.tables.nonces && r.nonce in s.consumer && s.consumer[r.nonce] == i
    && var n := s.tables.nonces[r.nonce];
       && n.approval == Approval(r.actor, ToRequest, r.target)
       && n.usedAt.Some? && n.usedAt.value <= n.expiresAt
  }

  ghost predicate Created(s: System, r: RequestBody, id: JobId, i: nat) {
    && id in s.tables.jobs && id in s.creator && s.creator[id] == i
    && var job := s.tables.jobs[id];
       job.key == r.key && job.actor == r.actor && job.target == r.target
  }

  ghost predicate NotCalled(s: System, i: nat) {
    forall c | c in s.calls :: c.worker != i
  }

  /** The job was stored for exactly this request. */
  ghost predicate StoredFor(s: System, r: RequestBody, id: JobId) {
    HasKey(s.tables.jobs, r.key, id) && s.tables.jobs[id].actor == r.actor && s.tables.jobs[id].target == r.target
  }

  ghost predicate OriginOk(s: System, change: Change) {
    match change.origin
    case Alone => true
    case Acceptance(r) => StoredFor(s, r, change.id)
    case Refusal(r) => StoredFor(s, r, change.id)
  }

  ghost predicate WorkerOk(s: System, w: Worker, i: nat) {
    match w
    case LookUpKey(r) => NotCalled(s, i)
    case ConsumeNonce(r) => NotCalled(s, i)
    case RecheckKey(r) => NotCalled(s, i) && Spent(s, r, i)
    case CheckLock(r) => NotCalled(s, i) && Spent(s, r, i)
    case InsertJob(r) => NotCalled(s, i) && Spent(s, r, i)
    case ReplayAfterConflict(r) => NotCalled(s, i) && Spent(s, r, i)
    case InsertRequestEvent(r, id) => NotCalled(s, i) && Spent(s, r, i) && Created(s, r, id, i)
    case ReadCreated(r, id) => NotCalled(s, i) && Spent(s, r, i) && Created(s, r, id, i)
    case CallController(r, id) => NotCalled(s, i) && Spent(s, r, i) && Created(s, r, id, i)
    case ReadForTransition(change) => OriginOk(s, change)
    case CommitTransition(change, current) =>
      && OriginOk(s, change) && change.id in s.tables.jobs && CanTransition(current.state, change.next)
      && current.target == s.tables.jobs[change.id].target
      && GatePasses(change.next, Merged(current, change.input), current.target.digest)
    case NumberTransition(change, _) => OriginOk(s, change)
    case LogTransition(change, _, _) => OriginOk(s, change)
    case ReadTransitioned(change) => OriginOk(s, change)
    case _ => true
  }

  ghost predicate WorkersOk(s: System) {
    forall i | 0 <= i < |s.workers| :: WorkerOk(s, s.workers[i], i)
  }

  ghost predicate CallsOk(s: System) {
    && (forall c | c in s.calls :: c.worker < |s.workers| && Spent(s, c.request, c.worker)
          && Created(s, c.request, c.job, c.worker))
    && (forall k, l | 0 <= k < l < |s.calls| :: s.calls[k].worker != s.calls[l].worker)
  }

  ghost predicate RepliesOk(s: System) {
    forall p | p in s.replies :: HasKey(s.tables.jobs, p.key, p.job)
  }

  /** Only consumed nonces have a consumer, and every job has its creator. */
  ghost predicate RecordsOk(s: System) {
    && (forall n | n in s.consumer :: n in s.tables.nonces && s.tables.nonces[n].usedAt.Some?)
    && s.creator.Keys == s.tables.jobs.Keys
  }

  ghost predicate Inv(s: System) {
    && RecordsOk(s) && JobsOk(s.tables.jobs, s.history) && WorkersOk(s) && CallsOk(s) && RepliesOk(s)
  }

  // ---- Every step keeps the invariant ---------------------------------------------------

  /** When an effect may be performed by worker i. */
  ghost predicate EffectOk(s: System, effect: Effect, i: nat) {
    match effect
    case Nothing => true
    case UseNonce(n) => n in s.tables.nonces && s.tables.nonces[n].usedAt.None?
    case CreateJob(id, r) => CanInsert(s.tables.jobs, id, r.key)
    case WriteTransition(change, current) =>
      StateMatches(s.tables.jobs, change.id, current) && CanTransition(current.state, change.next)
    case WriteObservation(id, input, current) => RowMatches(s.tables.jobs, id, current)
    case AddEvent(_) => true
    case CallOut(id, r) => NotCalled(s, i) && Spent(s, r, i) && Created(s, r, id, i) && i < |s.workers|
    case Answer(reply) => HasKey(s.tables.jobs, reply.key, reply.job)
  }

  lemma RowsGrow(s: System, effect: Effect, i: nat)
    requires s.history.Keys == s.tables.jobs.Keys && EffectOk(s, effect, i)
    ensures JobsGrow(s.tables.jobs, Perform(s, effect, i).tables.jobs)
    ensures HistoryGrows(s.history, Perform(s, effect, i).history)
  {
    hide CanReleaseLock, Merged, CanTransition, FindByKey, FindActive, Spent, Created, NotCalled;
  }

  lemma RecordsGrow(s: System, effect: Effect, i: nat)
    requires RecordsOk(s) && EffectOk(s, effect, i)
    ensures NoncesGrow(s.tables.nonces, Perform(s, effect, i).tables.nonces)
    ensures Extends(s.consumer, Perform(s, effect, i).consumer) && Extends(s.creator, Perform(s, effect, i).creator)
    ensures RecordsOk(Perform(s, effect, i))
  {
    hide CanReleaseLock, Merged, CanTransition, FindByKey, FindActive, Spent, Created, NotCalled;
  }

  lemma PerformGrows(s: System, effect: Effect, i: nat)
    requires RecordsOk(s) && s.history.Keys == s.tables.jobs.Keys && EffectOk(s, effect, i)
    ensures Grows(s, Perform(s, effect, i)) && RecordsOk(Perform(s, effect, i))
    ensures Perform(s, effect, i).workers == s.workers
    ensures forall c | c in Perform(s, effect, i).calls :: c in s.calls || c.worker == i
  {
    hide EffectOk, JobsGrow, HistoryGrows, NoncesGrow, Extends, RecordsOk, Transitioned, Observed, Extended;
    RowsGrow(s, effect, i);
    RecordsGrow(s, effect, i);
  }

  lemma InsertKeepsJobs(jobs: map<JobId, Job>, history: map<JobId, seq<State>>, id: JobId, job: Job)
    requires JobsOk(jobs, history) && CanInsert(jobs, id, job.key) && job.state == Requested && !job.lockReleased
    ensures JobsOk(jobs[id := job], history[id := [Requested]])
  {
    InsertKeepsKeys(jobs, id, job);
    hide UniqueKeys, SingleLock, CanInsert;
  }

  lemma UpdateKeepsJobs(jobs: map<JobId, Job>, history: map<JobId, seq<State>>, id: JobId, job: Job, states: seq<State>)
    requires JobsOk(jobs, history) && id in jobs && RowGrows(jobs[id], job) && RowOk(job, states)
    ensures JobsOk(jobs[id := job], history[id := states])
  {
    UpdateKeepsKeys(jobs, id, job);
    hide UniqueKeys, SingleLock;
  }

  lemma TransitionKeepsRow(stored: Job, states: seq<State>, current: Job, next: State, input: Update)
    requires RowOk(stored, states) && stored.state == current.state && CanTransition(current.state, next)
    ensures RowOk(Transitioned(stored, current, next, input), states + [next])
    ensures RowGrows(stored, Transitioned(stored, current, next, input))
  {
    TransitionsKeepPhase(current.state, next);
  }

  lemma PerformKeepsJobs(s: System, effect: Effect, i: nat)
    requires JobsOk(s.tables.jobs, s.history) && EffectOk(s, effect, i)
    ensures JobsOk(Perform(s, effect, i).tables.jobs, Perform(s, effect, i).history)
  {
    var jobs, history := s.tables.jobs, s.history;
    match effect
    case CreateJob(id, r) =>
      InsertKeepsJobs(jobs, history, id, NewJob(r.key, r.actor, r.target));
    case WriteTransition(change, current) =>
      TransitionKeepsRow(jobs[change.id], history[change.id], current, change.next, change.input);
      UpdateKeepsJobs(jobs, history, change.id, Transitioned(jobs[change.id], current, change.next, change.input),
                      history[change.id] + [change.next]);
    case WriteObservation(id, input, current) =>
      UpdateKeepsJobs(jobs, history, id, Observed(jobs[id], current, input), history[id]);
      assert history[id := history[id]] == history;
    case _ =>
  }

  lemma RequestPlanOk(s: System, i: nat, c: Choice)
    requires i < |s.workers| && InRequest(s.workers[i]) && WorkerOk(s, s.workers[i], i)
    ensures EffectOk(s, PlanOf(s, i, c).effect, i)
    ensures WorkerOk(Perform(s, PlanOf(s, i, c).effect, i), PlanOf(s, i, c).rest, i)
  {
    hide GatePasses, CanTransition, MaxSequence, SequenceTaken, FindActive, Transitioned, Observed, Merged;
  }

  lemma CommitPlanOk(s: System, i: nat, c: Choice)
    requires i < |s.workers| && s.workers[i].CommitTransition? && WorkerOk(s, s.workers[i], i)
    ensures EffectOk(s, PlanOf(s, i, c).effect, i)
    ensures WorkerOk(Perform(s, PlanOf(s, i, c).effect, i), PlanOf(s, i, c).rest, i)
  {
    hide GatePasses, AllowedTransitions, CanReleaseLock, Merged, MaxSequence, SequenceTaken;
  }

  lemma TransitionPlanOk(s: System, i: nat, c: Choice)
    requires i < |s.workers| && InTransition(s.workers[i]) && WorkerOk(s, s.workers[i], i)
    ensures EffectOk(s, PlanOf(s, i, c).effect, i)
    ensures WorkerOk(Perform(s, PlanOf(s, i, c).effect, i), PlanOf(s, i, c).rest, i)
  {
    hide GatePasses, AllowedTransitions, CanReleaseLock, Merged, MaxSequence, SequenceTaken;
    if s.workers[i].CommitTransition? {
      CommitPlanOk(s, i, c);
      hide Perform, PlanOf, WorkerOk, EffectOk;
    }
  }

  lemma ObservationPlanOk(s: System, i: nat, c: Choice)
    requires i < |s.workers| && !InRequest(s.workers[i]) && !InTransition(s.workers[i])
    ensures EffectOk(s, PlanOf(s, i, c).effect, i)
    ensures WorkerOk(Perform(s, PlanOf(s, i, c).effect, i), PlanOf(s, i, c).rest, i)
  {
    hide Merged, MaxSequence, SequenceTaken, EvidenceChanged;
  }

  /** What has been spent and created stays so. */
  lemma PromisesStay(s: System, s': System)
    requires Grows(s, s')
    ensures forall r, i :: Spent(s, r, i) ==> Spent(s', r, i)
    ensures forall r, id, i :: Created(s, r, id, i) ==> Created(s', r, id, i)
    ensures forall change :: OriginOk(s, change) ==> OriginOk(s', change)
  {
    hide HistoryGrows;
  }

  lemma StaysOk(s: System, s': System, w: Worker, j: nat)
    requires Grows(s, s') && WorkerOk(s, w, j) && (NotCalled(s, j) ==> NotCalled(s', j))
    ensures WorkerOk(s', w, j)
  {
    PromisesStay(s, s');
    hide GatePasses, CanTransition, Merged, Spent, Created, OriginOk, NotCalled, NoncesGrow, HistoryGrows, Extends;
  }

  lemma CallsStayOk(s: System, effect: Effect, i: nat)
    requires CallsOk(s) && EffectOk(s, effect, i)
    requires Grows(s, Perform(s, effect, i)) && Perform(s, effect, i).workers == s.workers
    ensures CallsOk(Perform(s, effect, i))
  {
    var p := Perform(s, effect, i);
    PromisesStay(s, p);
    hide Spent, Created, Grows;
    if effect.CallOut? {
      hide JobsOk;
      assert p.calls == s.calls + [Call(effect.id, effect.request, i)];
    } else {
      assert p.calls == s.calls;
    }
    hide Perform;
  }

  lemma RepliesStayOk(s: System, effect: Effect, i: nat)
    requires RepliesOk(s) && EffectOk(s, effect, i)
    requires Grows(s, Perform(s, effect, i)) 
    ensures RepliesOk(Perform(s, effect, i))
  {
  }

  lemma ActKeepsInv(s: System, i: nat, c: Choice)
    requires Inv(s) && i < |s.workers|
    ensures Inv(Apply(s, Act(i, c))) && Grows(s, Apply(s, Act(i, c)))
  {
    assert s.history.Keys == s.tables.jobs.Keys;
    assert WorkerOk(s, s.workers[i], i);
    hide EffectOk, WorkerOk, JobsOk, RecordsOk, CallsOk, RepliesOk, Perform, PlanOf, InRequest, InTransition, Grows;
    var plan := PlanOf(s, i, c);
    var p := Perform(s, plan.effect, i);
    if InRequest(s.workers[i]) {
      RequestPlanOk(s, i, c);
    } else if InTransition(s.workers[i]) {
      TransitionPlanOk(s, i, c);
    } else {
      ObservationPlanOk(s, i, c);
    }
    PerformGrows(s, plan.effect, i);
    PerformKeepsJobs(s, plan.effect, i);
    CallsStayOk(s, plan.effect, i);
    RepliesStayOk(s, plan.effect, i);
    Resumes(s, p, i, plan.rest);
  }

  /** The acting worker moves on; the others keep what they rely on. */
  lemma Resumes(s: System, p: System, i: nat, w: Worker)
    requires Inv(s) && Grows(s, p) && p.workers == s.workers && i < |s.workers|
    requires RecordsOk(p) && JobsOk(p.tables.jobs, p.history) && CallsOk(p) && RepliesOk(p) && WorkerOk(p, w, i)
    requires forall c | c in p.calls :: c in s.calls || c.worker == i
    ensures Inv(p.(workers := s.workers[i := w])) && Grows(s, p.(workers := s.workers[i := w]))
  {
    var s' := p.(workers := s.workers[i := w]);
    hide JobsOk, RecordsOk, RepliesOk, JobsGrow, NoncesGrow, HistoryGrows, Extends;
    SameRecords(p, s');
    assert Grows(s, s');
    forall j | 0 <= j < |s'.workers| ensures WorkerOk(s', s'.workers[j], j) {
      hide WorkerOk;
      if j == i {
        StaysOk(p, s', w, i);
      } else {
        assert NotCalled(s, j) ==> NotCalled(s', j);
        StaysOk(s, s', s.workers[j], j);
      }
    }
  }

  /** Replacing only the list of workers changes none of the records. */
  lemma SameRecords(p: System, s': System)
    requires s' == p.(workers := s'.workers) && |s'.workers| == |p.workers|
    requires RecordsOk(p) && CallsOk(p) && RepliesOk(p)
    ensures RecordsOk(s') && CallsOk(s') && RepliesOk(s') && Grows(p, s')
  {
  }

  lemma StepKeepsInv(s: System, e: Step)
    requires Inv(s)
    ensures Inv(Apply(s, e)) && Grows(s, Apply(s, e))
  {
    match e
    case Act(i, c) =>
      if i < |s.workers| {
        ActKeepsInv(s, i, c);
      } else {
        Unchanged(s);
      }
    case Begin(w) => BeginKeepsInv(s, w);
    case _ => EnvironmentKeepsInv(s, e);
  }

  lemma Unchanged(s: System)
    ensures Grows(s, s)
  {
  }

  lemma BeginKeepsInv(s: System, w: Worker)
    requires Inv(s)
    ensures Inv(Apply(s, Begin(w))) && Grows(s, Apply(s, Begin(w)))
  {
    hide JobsOk, Created, Spent, CallsOk, RepliesOk, RecordsOk, Initial, NoncesGrow;
    var s' := Apply(s, Begin(w));
    if Initial(w) {
      NonceRowsStay(s.tables.nonces);
      WorkersStayOk(s, s');
      RecordsStayOk(s, s');
      assert WorkerOk(s', w, |s.workers|) by { NewWorkerOk(s, s', w); }
      hide WorkerOk;
      assert WorkersOk(s');
    } else {
      Unchanged(s);
    }
  }

  lemma NonceRowsStay(nonces: map<string, Nonce>)
    ensures NoncesGrow(nonces, nonces)
  {
  }

  lemma NewWorkerOk(s: System, s': System, w: Worker)
    requires Initial(w) && CallsOk(s) && s'.calls == s.calls
    ensures WorkerOk(s', w, |s.workers|)
  {
    hide Spent, Created;
  }

  lemma EnvironmentKeepsInv(s: System, e: Step)
    requires Inv(s) && (e.Tick? || e.Register?)
    ensures Inv(Apply(s, e)) && Grows(s, Apply(s, e))
  {
    hide WorkerOk, JobsOk, CallsOk, RepliesOk, RecordsOk;
    var s' := Apply(s, e);
    assert NoncesGrow(s.tables.nonces, s'.tables.nonces);
    hide NoncesGrow;
    WorkersStayOk(s, s');
    RecordsStayOk(s, s');
    assert WorkersOk(s');
  }

  lemma RecordsStayOk(s: System, s': System)
    requires CallsOk(s) && RepliesOk(s) && RecordsOk(s) && Grows(s, s')
    requires s'.calls == s.calls && s'.replies == s.replies && s'.consumer == s.consumer && s'.creator == s.creator
    requires s'.tables.jobs == s.tables.jobs
    ensures CallsOk(s') && RepliesOk(s') && RecordsOk(s')
  {
  }

  /** What the workers rely on is not touched from outside. */
  lemma WorkersStayOk(s: System, s': System)
    requires WorkersOk(s) && s.workers <= s'.workers && s'.calls == s.calls && s'.replies == s.replies
    requires s'.consumer == s.consumer && s'.creator == s.creator && s'.history == s.history
    requires s'.tables.jobs == s.tables.jobs && NoncesGrow(s.tables.nonces, s'.tables.nonces) && s.now <= s'.now
    ensures Grows(s, s')
    ensures forall j | 0 <= j < |s.workers| :: WorkerOk(s', s'.workers[j], j)
  {
    forall j | 0 <= j < |s.workers| ensures WorkerOk(s', s'.workers[j], j) {
      StaysOk(s, s', s.workers[j], j);
    }
  }

  lemma {:induction false} RunKeepsInv(run: seq<Step>)
    ensures Inv(After(run))
    decreases |run|
  {
    if run != [] {
      RunKeepsInv(run[..|run| - 1]);
      StepKeepsInv(After(run[..|run| - 1]), run[|run| - 1]);
    }
  }

  lemma GrowsTransitive(a: System, b: System, c: System)
    requires Grows(a, b) && Grows(b, c)
    ensures Grows(a, c)
  {
  }

  lemma {:induction false} RunGrows(run: seq<Step>, k: nat)
    requires k <= |run|
    ensures Grows(After(run[..k]), After(run))
    decreases |run|
  {
    if k == |run| {
      assert run[..k] == run;
      Unchanged(After(run));
    } else {
      var init := run[..|run| - 1];
      assert init[..k] == run[..k];
      RunGrows(init, k);
      RunKeepsInv(init);
      StepKeepsInv(After(init), run[|run| - 1]);
      GrowsTransitive(After(run[..k]), After(init), After(run));
    }
  }

  // ---- What holds in every run ------------------------------------------------------------

  /** At most one job can still move forward, and it holds the deployment lock. */
  lemma OneForwardJob(run: seq<Step>, a: JobId, b: JobId)
    requires a in After(run).tables.jobs && Forward(After(run).tables.jobs[a].state)
    ensures !After(run).tables.jobs[a].lockReleased
    ensures b in After(run).tables.jobs && Forward(After(run).tables.jobs[b].state) ==> a == b
  {
    RunKeepsInv(run);
    var jobs := After(run).tables.jobs;
    if b in jobs && Forward(jobs[b].state) {
      assert HoldsLock(jobs, a) && HoldsLock(jobs, b);
    }
  }

  /** A job that came to a good end has let the lock go. */
  lemma GoodEndsFreeTheLock(run: seq<Step>, id: JobId)
    requires id in After(run).tables.jobs && After(run).tables.jobs[id].state in {Completed, Canceled, RolledBack}
    ensures After(run).tables.jobs[id].lockReleased
  {
    hide After;
    RunKeepsInv(run);
  }

  /** A job once stored keeps its identity, and a lock once released is never taken again. */
  lemma LockNeverRetaken(run: seq<Step>, k: nat, id: JobId)
    requires k <= |run| && id in After(run[..k]).tables.jobs
    ensures id in After(run).tables.jobs
    ensures var old', new' := After(run[..k]).tables.jobs[id], After(run).tables.jobs[id];
            && new'.key == old'.key && new'.actor == old'.actor && new'.target == old'.target
            && (old'.lockReleased ==> new'.lockReleased)
  {
    RunGrows(run, k);
  }

  /**
   Every external call was made for a stored job of exactly that request, under an approval
   registered for that actor and target that had not expired when it was used.
   */
  lemma CallsAreApproved(run: seq<Step>, k: nat)
    requires k < |After(run).calls|
    ensures var t, call := After(run).tables, After(run).calls[k];
            && call.job in t.jobs && call.request.nonce in t.nonces
            && var job, n := t.jobs[call.job], t.nonces[call.request.nonce];
               && job.key == call.request.key && job.actor == call.request.actor
               && job.target == call.request.target
               && n.approval == Approval(job.actor, ToRequest, job.target)
               && n.usedAt.Some? && n.usedAt.value <= n.expiresAt
  {
    RunKeepsInv(run);
    assert After(run).calls[k] in After(run).calls;
  }

  /** No two external calls share a job, an idempotency key or an approval. */
  lemma CallsAreDistinct(run: seq<Step>, k: nat, l: nat)
    requires k < l < |After(run).calls|
    ensures var a, b := After(run).calls[k], After(run).calls[l];
            a.job != b.job && a.request.key != b.request.key && a.request.nonce != b.request.nonce
  {
    RunKeepsInv(run);
    var s := After(run);
    assert s.calls[k] in s.calls && s.calls[l] in s.calls;
  }

  /** Whatever replays and races there are, one key is only ever answered with one job. */
  lemma RepliesAgree(run: seq<Step>, p: Reply, q: Reply)
    requires p in After(run).replies && q in After(run).replies && p.key == q.key
    ensures p == q
  {
    RunKeepsInv(run);
  }

  /** The states of every row are a walk of the transition table from `Requested`. */
  lemma RowsFollowTheTable(run: seq<Step>, id: JobId)
    requires id in After(run).tables.jobs
    ensures id in After(run).history && IsHistory(After(run).history[id])
    ensures After(run).history[id][|After(run).history[id]| - 1] == After(run).tables.jobs[id].state
  {
    RunKeepsInv(run);
  }

  /** A completed job ran the whole chain, and was never cancelled after its backup. */
  lemma CompletedJobs(run: seq<Step>, id: JobId)
    requires id in After(run).tables.jobs && After(run).tables.jobs[id].state == Completed
    ensures id in After(run).history
    ensures var h := After(run).history[id];
            && |h| >= 8 && h[|h| - 7..] == CHAIN && h[|h| - 8] in {Requested, CancelRequested}
            && forall i, j | 0 <= i < j < |h| && h[i] == Backup :: h[j] !in {CancelRequested, Canceled}
  {
    RowsFollowTheTable(run, id);
    var h := After(run).history[id];
    CompletedRanTheChain(h);
    forall i, j | 0 <= i < j < |h| && h[i] == Backup ensures h[j] !in {CancelRequested, Canceled} {
      NoCancelAfterBackup(h, i, j);
    }
  }

  // ---- What a commit stores ------------------------------------------------------------

  /** What the step of worker w has made of a row it changed. */
  ghost predicate Committed(w: Worker, id: JobId, row: Job, row': Job) {
    match w
    case CommitTransition(change, current) =>
      && change.id == id && CanTransition(row.state, change.next)
      && row'.state == change.next
      && (row'.lockReleased <==> row.lockReleased || LetsGo(change.next, Merged(current, change.input)))
      && row'.correlation == (if change.input.correlation.Some? then change.input.correlation else row.correlation)
      && if change.input.evidence.Some? then Proven(row'.state, row'.evidence, row'.target.digest)
         else row'.evidence == row.evidence
    case CommitObservation(o, input, _) =>
      && o == id && row'.evidence == Merge(row.evidence, input.evidence.GetOr([]))
      && row' == row.(evidence := row'.evidence, errorCode := row'.errorCode, errorDetail := row'.errorDetail)
    case _ => false
  }

  /**
   In every run a stored row changes only when a transition or an observation of it commits.
   A transition that brings evidence stores evidence passing the gate of its new state; an
   observation stores the evidence held at that very moment merged with its own.
   */
  lemma RowChanges(run: seq<Step>, e: Step, id: JobId)
    requires id in After(run).tables.jobs
    ensures id in Apply(After(run), e).tables.jobs
    ensures var row, row' := After(run).tables.jobs[id], Apply(After(run), e).tables.jobs[id];
            row' != row ==> e.Act? && e.i < |After(run).workers| && Committed(After(run).workers[e.i], id, row, row')
  {
    hide After, PlanOf, Perform, WorkerOk, Committed, JobsOk, CallsOk, RecordsOk, RepliesOk, InRequest;
    RunKeepsInv(run);
    var s := After(run);
    if e.Act? && e.i < |s.workers| {
      assert WorkerOk(s, s.workers[e.i], e.i);
      if InRequest(s.workers[e.i]) {
        RequestsKeepRows(s, e.i, e.choice, id);
      } else {
        CommitChangesRow(s, e.i, e.choice, id);
      }
    }
  }

  lemma RequestsKeepRows(s: System, i: nat, c: Choice, id: JobId)
    requires i < |s.workers| && InRequest(s.workers[i]) && id in s.tables.jobs
    ensures id in Apply(s, Act(i, c)).tables.jobs && Apply(s, Act(i, c)).tables.jobs[id] == s.tables.jobs[id]
  {
    hide Consumable, SequenceTaken, FindByKey, FindActive, Transitioned, Observed, MaxSequence, CanTransition,
        GatePasses;
  }

  lemma CommitChangesRow(s: System, i: nat, c: Choice, id: JobId)
    requires i < |s.workers| && !InRequest(s.workers[i]) && WorkerOk(s, s.workers[i], i) && id in s.tables.jobs
    ensures id in Apply(s, Act(i, c)).tables.jobs
    ensures var row, row' := s.tables.jobs[id], Apply(s, Act(i, c)).tables.jobs[id];
            row' != row ==> Committed(s.workers[i], id, row, row')
  {
    var plan := PlanOf(s, i, c);
    PlannedWrites(s, i, c);
    hide PlanOf, Transitioned, Observed, GatePasses, Proven, LetsGo, CanReleaseLock;
    match plan.effect
    case WriteTransition(change, current) =>
      TransitionStores(s.tables.jobs[change.id], current, change);
      ReleaseMeans(change.next, Merged(current, change.input));
      GateMeans(change.next, Merged(current, change.input), current.target.digest);
    case WriteObservation(o, input, current) =>
      ObservationStores(s.tables.jobs[o], current, input);
    case _ =>
  }

  /** Only the two commit steps write rows, each for its own job. */
  lemma PlannedWrites(s: System, i: nat, c: Choice)
    requires i < |s.workers| && !InRequest(s.workers[i]) && WorkerOk(s, s.workers[i], i)
    ensures match PlanOf(s, i, c).effect
            case WriteTransition(change, current) =>
              s.workers[i] == CommitTransition(change, current) && StateMatches(s.tables.jobs, change.id, current)
            case WriteObservation(id, input, current) =>
              s.workers[i] == CommitObservation(id, input, current) && RowMatches(s.tables.jobs, id, current)
            case CreateJob(_, _) => false
            case _ => true
  {
    hide GatePasses, CanTransition, MaxSequence, SequenceTaken, EvidenceChanged, Merged, WorkerOk;
  }

  lemma TransitionStores(stored: Job, current: Job, change: Change)
    ensures var row := Transitioned(stored, current, change.next, change.input);
            && row.state == change.next && row.target == stored.target
            && (row.lockReleased <==> stored.lockReleased || CanReleaseLock(change.next, Merged(current, change.input)))
            && row.correlation == (if change.input.correlation.Some? then change.input.correlation
                                   else stored.correlation)
            && row.evidence == if change.input.evidence.Some? then Merged(current, change.input) else stored.evidence
  {
  }

  lemma ObservationStores(stored: Job, current: Job, input: Update)
    requires stored.evidence == current.evidence
    ensures var row := Observed(stored, current, input);
            && row.evidence == Merge(stored.evidence, input.evidence.GetOr([]))
            && row == stored.(evidence := row.evidence, errorCode := row.errorCode, errorDetail := row.errorDetail)
  {
  }

  /**
   A transition compares only the state of the row, so an observation committed after its
   read is lost, field by field, unless the transition sets that field itself.
   */
  lemma TransitionKeepsField(stored: Job, current: Job, next: State, input: Update, n: string)
    requires input.evidence.Some?
    ensures Lookup(Transitioned(stored, current, next, input).evidence, n)
              == Lookup(Merge(stored.evidence, input.evidence.value), n)
       <==> (Lookup(input.evidence.value, n).Some? || Lookup(stored.evidence, n) == Lookup(current.evidence, n))
  {
    var delta := input.evidence.value;
    assert Lookup(Merge(stored.evidence, delta), n)
           == if Lookup(delta, n).Some? then Lookup(delta, n) else Lookup(stored.evidence, n);
  }

  lemma ObservationCommits(s: System, j: nat, observed: Update, row: Job, id: JobId, c: Choice)
    requires j < |s.workers| && !c.fault && s.workers[j] == CommitObservation(id, observed, row)
    requires id in s.tables.jobs && s.tables.jobs[id] == row
    ensures var s1 := Apply(s, Act(j, c));
            && id in s1.tables.jobs && s1.tables.jobs[id] == Observed(row, row, observed)
            && |s1.workers| == |s.workers| && forall i | 0 <= i < |s.workers| && i != j :: s1.workers[i] == s.workers[i]
  {
    hide EvidenceChanged, Observed;
  }

  lemma TransitionCommits(s: System, i: nat, change: Change, row: Job, c: Choice)
    requires i < |s.workers| && !c.fault && s.workers[i] == CommitTransition(change, row)
    requires change.id in s.tables.jobs && s.tables.jobs[change.id].state == row.state
    ensures var s2 := Apply(s, Act(i, c));
            change.id in s2.tables.jobs
            && s2.tables.jobs[change.id] == Transitioned(s.tables.jobs[change.id], row, change.next, change.input)
  {
    hide Transitioned;
  }

  /** Both workers read the same row; the observation commits first, and the transition overwrites it. */
  lemma ObservationIsLost(s: System, i: nat, j: nat, change: Change, observed: Update, row: Job, c: Choice, n: string)
    requires i < |s.workers| && j < |s.workers| && i != j && !c.fault
    requires s.workers[i] == CommitTransition(change, row)
             && s.workers[j] == CommitObservation(change.id, observed, row)
    requires change.id in s.tables.jobs && s.tables.jobs[change.id] == row && change.input.evidence.Some?
    requires Lookup(observed.evidence.GetOr([]), n).Some? && Lookup(change.input.evidence.value, n).None?
    ensures var s1 := Apply(s, Act(j, c));
            var s2 := Apply(s1, Act(i, c));
            && change.id in s1.tables.jobs && change.id in s2.tables.jobs
            && Lookup(s1.tables.jobs[change.id].evidence, n) == Lookup(observed.evidence.GetOr([]), n)
            && s2.tables.jobs[change.id].state == change.next
            && Lookup(s2.tables.jobs[change.id].evidence, n) == Lookup(row.evidence, n)
  {
    hide Apply, Truncated, CanReleaseLock, Coalesce, Lookup;
    ObservationCommits(s, j, observed, row, change.id, c);
    TransitionCommits(Apply(s, Act(j, c)), i, change, row, c);
  }
}
