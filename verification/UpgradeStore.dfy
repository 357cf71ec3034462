/**
 The durable store of upgrade jobs as one caller at a time sees it: every operation runs its
 statements to the end. Its log then determines the stored rows.
 */
module UpgradeStore {
  import opened Wrappers
  import opened Evidence
  import opened Lifecycle
  import opened UpgradeTables

  datatype CreateOutcome = Created(job: Job) | Replayed(job: Job) | InProgress(active: JobId) | Rejected

  datatype UpgradeError =
    | NotFound
    | InvalidTransition(from: State, to: State)
    | MissingEvidence
    | EventRejected

  // ---- The operations -----------------------------------------------------------------

  ghost function Create(t: Tables, id: JobId, key: string, actor: string, target: Target): (Tables, CreateOutcome) {
    match FindByKey(t.jobs, key)
    case Some(existing) => (t, Replayed(t.jobs[existing]))
    case None =>
      match FindActive(t.jobs)
      case Some(active) => (t, InProgress(active))
      case None =>
        if id in t.jobs then (t, Rejected)
        else
          var job := NewJob(key, actor, target);
          var inserted := t.(jobs := t.jobs[id := job]);
          if SequenceTaken(t.events, id, 1) then (inserted, Rejected)
          else (inserted.(events := t.events + [RequestEvent(id)]), Created(job))
  }

  ghost function Transition(t: Tables, id: JobId, next: State, input: Update): (Tables, Result<Job, UpgradeError>) {
    if id !in t.jobs then (t, Err(NotFound))
    else
      var current := t.jobs[id];
      if current.state == next then (t, Ok(current))
      else if !CanTransition(current.state, next) then (t, Err(InvalidTransition(current.state, next)))
      else if !GatePasses(next, Merged(current, input), current.target.digest) then (t, Err(MissingEvidence))
      else
        var job := Transitioned(current, current, next, input);
        var n := MaxSequence(t.events, id) + 1;
        (t.(jobs := t.jobs[id := job],
            events := t.events + [TransitionEvent(id, n, current.state, next, input)]),
         Ok(job))
  }

  ghost function Observe(t: Tables, id: JobId, input: Update): (Tables, Result<Job, UpgradeError>) {
    if id !in t.jobs then (t, Err(NotFound))
    else
      var current := t.jobs[id];
      var job := Observed(current, current, input);
      var stored := t.(jobs := t.jobs[id := job]);
      if !EvidenceChanged(current, input) then (stored, Ok(job))
      else
        var n := MaxSequence(t.events, id) + 1;
        (stored.(events := t.events + [ObservationEvent(id, n, current.state, input)]), Ok(job))
  }

  ghost function RegisterNonce(t: Tables, nonce: string, approval: Approval, expiresAt: nat): (Tables, bool) {
    if nonce in t.nonces then (t, false)
    else (t.(nonces := t.nonces[nonce := Nonce(approval, expiresAt, None)]), true)
  }

  ghost function ConsumeNonce(t: Tables, nonce: string, approval: Approval, now: nat): (Tables, bool) {
    if !Consumable(t.nonces, nonce, approval, now) then (t, false)
    else (t.(nonces := t.nonces[nonce := t.nonces[nonce].(usedAt := Some(now))]), true)
  }

  // ---- The log of a job ---------------------------------------------------------------

  /** SELECT ... WHERE upgrade_job_id = id, in the order of insertion. */
  function LogOf(events: seq<Event>, id: JobId): seq<Event> {
    if events == [] then []
    else
      var last := events[|events| - 1];
      LogOf(events[..|events| - 1], id) + if last.job == id then [last] else []
  }

  /** Left-to-right merge of the evidence deltas. */
  ghost function ReplayEvidence(log: seq<Event>): Sections {
    if log == [] then [] else Merge(ReplayEvidence(log[..|log| - 1]), log[|log| - 1].evidence)
  }

  /** One entry follows from the entries before it. */
  ghost predicate EntryOk(log: seq<Event>, k: nat, digest: string)
    requires k < |log|
  {
    var e := log[k];
    && e.sequence == k + 1
    && if k == 0 then e.kind == RequestEntry && e.from == None && e.to == Requested && e.evidence == []
       else
         && e.from == Some(log[k - 1].to)
         && match e.kind
            case RequestEntry => false
            case TransitionEntry =>
              CanTransition(log[k - 1].to, e.to) && GatePasses(e.to, ReplayEvidence(log[..k + 1]), digest)
            case ObservationEntry => e.to == log[k - 1].to
  }

  /** The log is complete and in order, and replaying it gives the stored row. */
  ghost predicate LogOk(log: seq<Event>, job: Job) {
    && log != [] && (forall k | 0 <= k < |log| :: EntryOk(log, k, job.target.digest))
    && log[|log| - 1].to == job.state
    && ReplayEvidence(log) == job.evidence
  }

  ghost predicate Logged(t: Tables) {
    && (forall id | id in t.jobs :: LogOk(LogOf(t.events, id), t.jobs[id]))
    && (forall e | e in t.events :: e.job in t.jobs)
  }

  lemma LogAppend(events: seq<Event>, e: Event, id: JobId)
    ensures LogOf(events + [e], id) == LogOf(events, id) + if e.job == id then [e] else []
  {
    assert (events + [e])[..|events|] == events;
  }

  lemma {:induction false} LogOfUnknown(events: seq<Event>, id: JobId)
    requires forall e | e in events :: e.job != id
    ensures LogOf(events, id) == [] && MaxSequence(events, id) == 0
  {
    if events != [] {
      LogOfUnknown(events[..|events| - 1], id);
    }
  }

  lemma {:induction false} LogMembers(events: seq<Event>, id: JobId)
    ensures forall e :: e in LogOf(events, id) <==> e in events && e.job == id
  {
    if events != [] {
      LogMembers(events[..|events| - 1], id);
      assert events == events[..|events| - 1] + [events[|events| - 1]];
    }
  }

  /** The next sequence number is the length of a complete log plus one, and is free. */
  lemma NextIsLength(events: seq<Event>, id: JobId, job: Job)
    requires LogOk(LogOf(events, id), job)
    ensures MaxSequence(events, id) == |LogOf(events, id)|
    ensures !SequenceTaken(events, id, |LogOf(events, id)| + 1)
  {
    var log, m := LogOf(events, id), MaxSequence(events, id);
    LogMembers(events, id);
    forall k | 0 <= k < |log| ensures log[k].sequence == k + 1 && log[k] in log {
      assert EntryOk(log, k, job.target.digest);
    }
    hide LogOk, LogOf, EntryOk, MaxSequence;
    assert log[|log| - 1].sequence == |log| && log[|log| - 1] in events;
    if m > 0 {
      var e :| e in events && e.job == id && e.sequence == m;
      var k :| 0 <= k < |log| && log[k] == e;
      assert m == k + 1;
    }
  }

  lemma EntriesStay(log: seq<Event>, e: Event, k: nat, digest: string)
    requires k < |log| && EntryOk(log, k, digest)
    ensures EntryOk(log + [e], k, digest)
  {
    assert (log + [e])[..k + 1] == log[..k + 1];
  }

  lemma LogExtends(log: seq<Event>, job: Job, e: Event, job': Job)
    requires LogOk(log, job) && job'.target == job.target && job'.state == e.to
    requires e.sequence == |log| + 1 && e.from == Some(job.state) && job'.evidence == Merge(job.evidence, e.evidence)
    requires if e.kind == TransitionEntry
             then CanTransition(job.state, e.to) && GatePasses(e.to, job'.evidence, job.target.digest)
             else e.kind == ObservationEntry && e.to == job.state
    ensures LogOk(log + [e], job')
  {
    var log', d := log + [e], job.target.digest;
    assert log'[..|log|] == log && log'[..|log'|] == log';
    assert ReplayEvidence(log') == Merge(ReplayEvidence(log), e.evidence);
    forall k | 0 <= k < |log'| ensures EntryOk(log', k, d) {
      if k < |log| {
        EntriesStay(log, e, k, d);
      }
    }
  }

  lemma UpdateKeepsLogs(t: Tables, id: JobId, job: Job, e: Event)
    requires Logged(t) && id in t.jobs && e.job == id && LogOk(LogOf(t.events, id) + [e], job)
    ensures Logged(t.(jobs := t.jobs[id := job], events := t.events + [e]))
  {
    hide LogOk, LogOf;
    forall i | i in t.jobs ensures LogOk(LogOf(t.events + [e], i), t.jobs[id := job][i]) {
      LogAppend(t.events, e, i);
      if i != id {
        assert LogOf(t.events, i) + [] == LogOf(t.events, i);
      }
    }
  }

  lemma NewLog(id: JobId, job: Job)
    requires job.state == Requested && job.evidence == []
    ensures LogOk([RequestEvent(id)], job)
  {
    var log := [RequestEvent(id)];
    assert ReplayEvidence(log) == Merge(ReplayEvidence(log[..0]), []);
  }

  lemma InsertKeepsLogs(t: Tables, id: JobId, job: Job)
    requires Logged(t) && id !in t.jobs && job.state == Requested && job.evidence == []
    ensures Logged(t.(jobs := t.jobs[id := job], events := t.events + [RequestEvent(id)]))
  {
    var e := RequestEvent(id);
    LogOfUnknown(t.events, id);
    NewLog(id, job);
    hide LogOk;
    forall i | i in t.jobs[id := job] ensures LogOk(LogOf(t.events + [e], i), t.jobs[id := job][i]) {
      LogAppend(t.events, e, i);
      if i == id {
        assert LogOf(t.events, i) + [e] == [e];
      } else {
        assert LogOf(t.events, i) + [] == LogOf(t.events, i);
      }
    }
  }

  lemma CreateKeepsLogs(t: Tables, id: JobId, key: string, actor: string, target: Target)
    requires Logged(t)
    ensures Logged(Create(t, id, key, actor, target).0)
    ensures id !in t.jobs ==> !SequenceTaken(t.events, id, 1)
  {
    if id !in t.jobs {
      InsertKeepsLogs(t, id, NewJob(key, actor, target));
    }
    hide Logged;
  }

  lemma CommitKeepsLogs(t: Tables, id: JobId, next: State, input: Update)
    requires Logged(t) && id in t.jobs && CanTransition(t.jobs[id].state, next)
    requires GatePasses(next, Merged(t.jobs[id], input), t.jobs[id].target.digest)
    ensures var current := t.jobs[id];
            var e := TransitionEvent(id, MaxSequence(t.events, id) + 1, current.state, next, input);
            Logged(t.(jobs := t.jobs[id := Transitioned(current, current, next, input)], events := t.events + [e]))
  {
    hide LogOk, EntryOk, ReplayEvidence, GatePasses, CanTransition, CanReleaseLock, Truncated, Coalesce, MaxSequence;
    var current, log := t.jobs[id], LogOf(t.events, id);
    NextIsLength(t.events, id, current);
    hide LogOf;
    var e := TransitionEvent(id, |log| + 1, current.state, next, input);
    var job := Transitioned(current, current, next, input);
    LogExtends(log, current, e, job);
    UpdateKeepsLogs(t, id, job, e);
  }

  lemma TransitionKeepsLogs(t: Tables, id: JobId, next: State, input: Update)
    requires Logged(t)
    ensures Logged(Transition(t, id, next, input).0)
    ensures id in t.jobs ==> !SequenceTaken(t.events, id, MaxSequence(t.events, id) + 1)
  {
    hide LogOk, EntryOk, ReplayEvidence, GatePasses, CanTransition, Transitioned, Merged;
    if id in t.jobs {
      NextIsLength(t.events, id, t.jobs[id]);
      hide Logged, MaxSequence;
      var job := t.jobs[id];
      if CanTransition(job.state, next) && GatePasses(next, Merged(job, input), job.target.digest) {
        CommitKeepsLogs(t, id, next, input);
      }
    }
  }

  lemma ObserveKeepsLogs(t: Tables, id: JobId, input: Update)
    requires Logged(t)
    ensures Logged(Observe(t, id, input).0)
    ensures id in t.jobs ==> !SequenceTaken(t.events, id, MaxSequence(t.events, id) + 1)
  {
    if id in t.jobs {
      var current := t.jobs[id];
      var log := LogOf(t.events, id);
      var job := Observed(current, current, input);
      NextIsLength(t.events, id, current);
      if EvidenceChanged(current, input) {
        var e := ObservationEvent(id, |log| + 1, current.state, input);
        LogExtends(log, current, e, job);
        UpdateKeepsLogs(t, id, job, e);
      } else {
        assert job.evidence == current.evidence && job.state == current.state && job.target == current.target;
        assert LogOk(log, job);
      }
    }
  }

  // ---- What every operation keeps ---------------------------------------------------------

  /** One row per key, one row that holds the lock, and a log that replays to every row. */
  ghost predicate Sound(t: Tables) {
    UniqueKeys(t.jobs) && SingleLock(t.jobs) && Logged(t)
  }

  lemma CreateKeepsSound(t: Tables, id: JobId, key: string, actor: string, target: Target)
    requires Sound(t)
    ensures Sound(Create(t, id, key, actor, target).0)
    ensures id !in t.jobs ==> !SequenceTaken(t.events, id, 1)
  {
    CreateKeepsLogs(t, id, key, actor, target);
    if CanInsert(t.jobs, id, key) {
      InsertKeepsKeys(t.jobs, id, NewJob(key, actor, target));
    }
    hide Logged, UniqueKeys, SingleLock;
  }

  lemma TransitionKeepsSound(t: Tables, id: JobId, next: State, input: Update)
    requires Sound(t)
    ensures Sound(Transition(t, id, next, input).0)
  {
    TransitionKeepsLogs(t, id, next, input);
    if id in t.jobs {
      UpdateKeepsKeys(t.jobs, id, Transitioned(t.jobs[id], t.jobs[id], next, input));
    }
    hide Logged, UniqueKeys, SingleLock, GatePasses, CanTransition;
  }

  /** The state moved, and the lock is let go exactly if it was before or the evidence allows it. */
  predicate Moved(before: Job, after: Job, next: State, input: Update) {
    && before.state != next && after.state == next
    && (after.lockReleased <==> before.lockReleased || LetsGo(next, Merged(before, input)))
  }

  /** A refused transition changes nothing; a successful one returns the stored row, moved unless it was there. */
  lemma TransitionOutcome(t: Tables, id: JobId, next: State, input: Update)
    ensures var (t', r) := Transition(t, id, next, input);
            && t'.jobs.Keys == t.jobs.Keys
            && (if r.Err? then t' == t else id in t'.jobs && r.value == t'.jobs[id] && r.value.state == next)
            && (r.Ok? ==> id in t.jobs && (t' == t || Moved(t.jobs[id], r.value, next, input)))
  {
    if id in t.jobs {
      ReleaseMeans(next, Merged(t.jobs[id], input));
    }
    hide GatePasses, CanTransition, Merged, LetsGo, CanReleaseLock;
  }

  lemma ObserveKeepsSound(t: Tables, id: JobId, input: Update)
    requires Sound(t)
    ensures Sound(Observe(t, id, input).0)
  {
    ObserveKeepsLogs(t, id, input);
    if id in t.jobs {
      UpdateKeepsKeys(t.jobs, id, Observed(t.jobs[id], t.jobs[id], input));
    }
    hide Logged, UniqueKeys, SingleLock;
  }

  lemma NoncesKeepSound(t: Tables, nonces: map<string, Nonce>)
    requires Sound(t)
    ensures Sound(t.(nonces := nonces))
  {
  }

  // ---- What holds in every serialized run ---------------------------------------------------

  datatype Operation =
    | CreateOp(id: JobId, key: string, actor: string, target: Target)
    | TransitionOp(id: JobId, next: State, input: Update)
    | ObserveOp(id: JobId, input: Update)
    | RegisterOp(nonce: string, approval: Approval, expiresAt: nat)
    | ConsumeOp(nonce: string, approval: Approval, now: nat)

  ghost function Execute(t: Tables, op: Operation): Tables {
    match op
    case CreateOp(id, key, actor, target) => Create(t, id, key, actor, target).0
    case TransitionOp(id, next, input) => Transition(t, id, next, input).0
    case ObserveOp(id, input) => Observe(t, id, input).0
    case RegisterOp(nonce, approval, expiresAt) => RegisterNonce(t, nonce, approval, expiresAt).0
    case ConsumeOp(nonce, approval, now) => ConsumeNonce(t, nonce, approval, now).0
  }

  ghost function Executed(ops: seq<Operation>): Tables
    decreases |ops|
  {
    if ops == [] then Tables(map[], [], map[]) else Execute(Executed(ops[..|ops| - 1]), ops[|ops| - 1])
  }

  lemma OperationKeepsSound(t: Tables, op: Operation)
    requires Sound(t)
    ensures Sound(Execute(t, op))
  {
    match op
    case CreateOp(id, key, actor, target) => CreateKeepsSound(t, id, key, actor, target);
    case TransitionOp(id, next, input) => TransitionKeepsSound(t, id, next, input);
    case ObserveOp(id, input) => ObserveKeepsSound(t, id, input);
    case _ => NoncesKeepSound(t, Execute(t, op).nonces);
  }

  lemma {:induction false} RunKeepsSound(ops: seq<Operation>)
    ensures Sound(Executed(ops))
    decreases |ops|
  {
    if ops != [] {
      RunKeepsSound(ops[..|ops| - 1]);
      OperationKeepsSound(Executed(ops[..|ops| - 1]), ops[|ops| - 1]);
    }
  }

  /**
   After every serialized run the log of a job is numbered 1..n without gaps, each entry
   starts where the one before it ended, and replaying it gives the stored state and evidence.
   */
  lemma LogReplaysRow(ops: seq<Operation>, id: JobId)
    requires id in Executed(ops).jobs
    ensures var log, job := LogOf(Executed(ops).events, id), Executed(ops).jobs[id];
            && log != [] && log[|log| - 1].to == job.state && ReplayEvidence(log) == job.evidence
            && (forall k | 0 <= k < |log| :: log[k].sequence == k + 1)
            && (forall k | 1 <= k < |log| :: log[k].from == Some(log[k - 1].to))
  {
    RunKeepsSound(ops);
    LogFacts(LogOf(Executed(ops).events, id), Executed(ops).jobs[id]);
  }

  lemma LogFacts(log: seq<Event>, job: Job)
    requires LogOk(log, job)
    ensures log != [] && log[|log| - 1].to == job.state && ReplayEvidence(log) == job.evidence
    ensures forall k | 0 <= k < |log| :: log[k].sequence == k + 1
    ensures forall k | 1 <= k < |log| :: log[k].from == Some(log[k - 1].to)
  {
    hide GatePasses, CanTransition, ReplayEvidence;
    forall k | 0 <= k < |log| ensures log[k].sequence == k + 1 && (k > 0 ==> log[k].from == Some(log[k - 1].to)) {
      assert EntryOk(log, k, job.target.digest);
    }
  }

  /** In a serialized run the evidence merged so far passes the gate at every transition. */
  lemma EveryCommitPassedItsGate(ops: seq<Operation>, id: JobId, k: nat)
    requires id in Executed(ops).jobs && k < |LogOf(Executed(ops).events, id)|
    requires LogOf(Executed(ops).events, id)[k].kind == TransitionEntry
    ensures var log := LogOf(Executed(ops).events, id);
            && k > 0 && CanTransition(log[k - 1].to, log[k].to)
            && Proven(log[k].to, ReplayEvidence(log[..k + 1]), Executed(ops).jobs[id].target.digest)
  {
    RunKeepsSound(ops);
    var log, job := LogOf(Executed(ops).events, id), Executed(ops).jobs[id];
    assert LogOk(log, job);
    assert EntryOk(log, k, job.target.digest);
    GateMeans(log[k].to, ReplayEvidence(log[..k + 1]), job.target.digest);
  }

  // ---- The store ------------------------------------------------------------------------

  class UpgradeDb {
    var jobs: map<JobId, Job>
    var events: seq<Event>
    var nonces: map<string, Nonce>

    ghost function Rows(): Tables
      reads this
    {
      Tables(jobs, events, nonces)
    }

    ghost predicate Valid()
      reads this
    {
      Sound(Rows())
    }

    constructor ()
      ensures Valid() && Rows() == Tables(map[], [], map[])
    {
      jobs := map[];
      events := [];
      nonces := map[];
    }

    method GetByIdempotencyKey(key: string) returns (r: Option<JobId>)
      requires Valid()
      ensures r == FindByKey(jobs, key)
    {
      assert UniqueKeys(jobs);
      if id: JobId :| id in jobs && jobs[id].key == key {
        assert HasKey(jobs, key, id);
        r := Some(id);
      } else {
        r := None;
      }
    }

    method ActiveJobId() returns (r: Option<JobId>)
      requires Valid()
      ensures r == FindActive(jobs)
    {
      if id: JobId :| id in jobs && !jobs[id].lockReleased {
        assert HoldsLock(jobs, id);
        r := Some(id);
      } else {
        r := None;
      }
    }

    method CreateUpgradeJob(id: JobId, key: string, actor: string, target: Target) returns (r: CreateOutcome)
      requires Valid()
      modifies this
      ensures Valid()
      ensures Rows() == Create(old(Rows()), id, key, actor, target).0
               && r == Create(old(Rows()), id, key, actor, target).1
    {
      hide Sound;
      CreateKeepsSound(Rows(), id, key, actor, target);
      var replay := GetByIdempotencyKey(key);
      if replay.Some? {
        return Replayed(jobs[replay.value]);
      }
      var active := ActiveJobId();
      if active.Some? {
        return InProgress(active.value);
      }
      if id in jobs {
        return Rejected;
      }
      jobs := jobs[id := NewJob(key, actor, target)];
      events := events + [RequestEvent(id)];
      r := Created(jobs[id]);
    }

    method TransitionUpgradeJob(id: JobId, next: State, input: Update) returns (r: Result<Job, UpgradeError>)
      requires Valid()
      modifies this
      ensures Valid()
      ensures Rows() == Transition(old(Rows()), id, next, input).0 && r == Transition(old(Rows()), id, next, input).1
      ensures r.Ok? ==>
                && id in old(jobs) && id in jobs
                && (jobs[id] == old(jobs)[id] || Moved(old(jobs)[id], jobs[id], next, input))
    {
      hide Sound, GatePasses, CanTransition, Transitioned, Merged, Provides, Guards, MaxSequence, TransitionEvent,
          Distinct, Lookup, Moved, Proven;
      TransitionKeepsSound(Rows(), id, next, input);
      TransitionOutcome(Rows(), id, next, input);
      if id !in jobs {
        r := Err(NotFound);
      } else if jobs[id].state == next {
        r := Ok(jobs[id]);
      } else if !CanTransition(jobs[id].state, next) {
        r := Err(InvalidTransition(jobs[id].state, next));
      } else {
        var current := jobs[id];
        var missing := MissingUpgradeSafetyEvidence(next, Merged(current, input), current.target.digest);
        if missing != [] {
          r := Err(MissingEvidence);
        } else {
          jobs := jobs[id := Transitioned(current, current, next, input)];
          var sequence := MaxSequence(events, id) + 1;
          events := events + [TransitionEvent(id, sequence, current.state, next, input)];
          r := Ok(jobs[id]);
        }
      }
    }

    method RecordUpgradeJobObservation(id: JobId, input: Update) returns (r: Result<Job, UpgradeError>)
      requires Valid()
      modifies this
      ensures Valid()
      ensures Rows() == Observe(old(Rows()), id, input).0 && r == Observe(old(Rows()), id, input).1
    {
      hide Sound, Observed, EvidenceChanged, MaxSequence, ObservationEvent, Distinct, Lookup;
      ObserveKeepsSound(Rows(), id, input);
      if id !in jobs {
        return Err(NotFound);
      }
      var current := jobs[id];
      jobs := jobs[id := Observed(current, current, input)];
      if EvidenceChanged(current, input) {
        var sequence := MaxSequence(events, id) + 1;
        events := events + [ObservationEvent(id, sequence, current.state, input)];
      }
      r := Ok(jobs[id]);
    }

    method RegisterUpgradeRequestNonce(nonce: string, approval: Approval, expiresAt: nat) returns (ok: bool)
      requires Valid()
      modifies this`nonces
      ensures Valid()
      ensures Rows() == RegisterNonce(old(Rows()), nonce, approval, expiresAt).0
               && ok == RegisterNonce(old(Rows()), nonce, approval, expiresAt).1
    {
      hide LogOk, UniqueKeys, SingleLock;
      ok := nonce !in nonces;
      if ok {
        nonces := nonces[nonce := Nonce(approval, expiresAt, None)];
      }
    }

    method ConsumeUpgradeRequestNonce(nonce: string, approval: Approval, now: nat) returns (ok: bool)
      requires Valid()
      modifies this`nonces
      ensures Valid()
      ensures Rows() == ConsumeNonce(old(Rows()), nonce, approval, now).0
               && ok == ConsumeNonce(old(Rows()), nonce, approval, now).1
    {
      hide LogOk, UniqueKeys, SingleLock;
      ok := Consumable(nonces, nonce, approval, now);
      if ok {
        nonces := nonces[nonce := nonces[nonce].(usedAt := Some(now))];
      }
    }
  }
}
