/**
 The queue of checkpointed sync jobs. Claimers compete for pending rows, holders work on a
 claimed row for a bounded time, and a claim left running too long is taken back. Any number
 of claimers and holders interleave, one SQL statement a step.
 */
module SyncQueue {
  import opened Text
  import opened Wrappers

  type JobId = string

  datatype JobState = Pending | Running | Done | Failed

  datatype SyncJob = SyncJob(
    jobType: string,
    scope: Option<string>,
    priority: int,
    state: JobState,
    cursor: Option<string>,
    attempts: nat,
    subrequests: nat,
    nextEligible: nat,
    createdAt: nat,
    startedAt: Option<nat>,
    finishedAt: Option<nat>,
    lastError: Option<string>)

  type Jobs = map<JobId, SyncJob>

  /** Times are seconds: a claim expires after ten minutes, a failure waits fifteen each. */
  const CLAIM_SECONDS: nat := 600
  const BACKOFF_SECONDS: nat := 900
  const MAX_ATTEMPTS: nat := 5

  // ---- Statements ---------------------------------------------------------------------

  function NewJob(jobType: string, scope: Option<string>, priority: int, now: nat): SyncJob {
    SyncJob(jobType, scope, priority, Pending, None, 0, 0, now, now, None, None, None)
  }

  predicate Stuck(job: SyncJob, now: nat) {
    job.state == Running && job.startedAt.Some? && job.startedAt.value + CLAIM_SECONDS < now
  }

  function Reclaimed(job: SyncJob, now: nat): SyncJob {
    if Stuck(job, now) then job.(state := Pending) else job
  }

  function ReclaimAll(jobs: Jobs, now: nat): Jobs {
    map id | id in jobs :: Reclaimed(jobs[id], now)
  }

  function Claimed(job: SyncJob, now: nat): SyncJob {
    job.(state := Running, startedAt := Some(now), attempts := job.attempts + 1)
  }

  function Checkpointed(job: SyncJob, cursor: string, used: nat, now: nat): SyncJob {
    job.(state := Pending, cursor := Some(cursor), subrequests := job.subrequests + used, nextEligible := now)
  }

  function Completed(job: SyncJob, used: nat, now: nat): SyncJob {
    job.(state := Done, finishedAt := Some(now), subrequests := job.subrequests + used)
  }

  function FailedAfterPass(job: SyncJob, used: nat, error: string, now: nat): SyncJob {
    job.(state := Failed, finishedAt := Some(now), subrequests := job.subrequests + used,
         lastError := Some(Truncate(error)))
  }

  function FailedAttempt(job: SyncJob, error: string, now: nat): SyncJob {
    var givesUp := job.attempts >= MAX_ATTEMPTS;
    job.(state := if givesUp then Failed else Pending,
         lastError := Some(Truncate(error)),
         nextEligible := now + job.attempts * BACKOFF_SECONDS,
         finishedAt := if givesUp then Some(now) else None)
  }

  predicate PendingFor(job: SyncJob, jobType: string, scope: Option<string>) {
    job.state == Pending && job.jobType == jobType && job.scope == scope
  }

  /** SELECT ... WHERE job_type = ? AND scope = ?: a null scope matches nothing. */
  predicate HasPending(jobs: Jobs, jobType: string, scope: Option<string>) {
    scope.Some? && exists id | id in jobs :: PendingFor(jobs[id], jobType, scope)
  }

  predicate Eligible(jobs: Jobs, now: nat, id: JobId) {
    id in jobs && jobs[id].state == Pending && jobs[id].nextEligible <= now
  }

  /** ORDER BY priority ASC, created_at ASC */
  predicate NotBehind(a: SyncJob, b: SyncJob) {
    a.priority < b.priority || (a.priority == b.priority && a.createdAt <= b.createdAt)
  }

  ghost predicate IsNext(jobs: Jobs, now: nat, id: JobId) {
    Eligible(jobs, now, id) && forall o | Eligible(jobs, now, o) :: NotBehind(jobs[id], jobs[o])
  }

  /** Enqueue and retry as one caller at a time sees them. */
  function Enqueue(jobs: Jobs, id: JobId, jobType: string, scope: Option<string>, priority: int, now: nat): Jobs {
    if HasPending(jobs, jobType, scope) || id in jobs then jobs
    else jobs[id := NewJob(jobType, scope, priority, now)]
  }

  function Retry(jobs: Jobs, failed: JobId, id: JobId, now: nat): Jobs {
    if failed !in jobs || jobs[failed].state != Failed then jobs
    else Enqueue(jobs, id, jobs[failed].jobType, jobs[failed].scope, jobs[failed].priority, now)
  }

  // ---- What the outcomes of a pass mean -------------------------------------------------------

  /** Every other row is the very same. */
  predicate OnlyRow(jobs: Jobs, jobs': Jobs, id: JobId) {
    jobs'.Keys == jobs.Keys && forall o | o in jobs && o != id :: jobs'[o] == jobs[o]
  }

  /** What a job is about, how often it was tried, and when it was queued. */
  predicate SameWork(job: SyncJob, job': SyncJob) {
    && job'.jobType == job.jobType && job'.scope == job.scope && job'.priority == job.priority
    && job'.attempts == job.attempts && job'.createdAt == job.createdAt
  }

  predicate SameDates(job: SyncJob, job': SyncJob) {
    job'.startedAt == job.startedAt && job'.finishedAt == job.finishedAt
  }

  /** Where the job is in its work, and when it was last claimed and due. */
  predicate SameRest(job: SyncJob, job': SyncJob) {
    job'.cursor == job.cursor && job'.startedAt == job.startedAt && job'.nextEligible == job.nextEligible
  }

  /** A reclaim returns to the queue exactly the jobs at work for more than ten minutes, and changes nothing else. */
  lemma ReclaimTakesBack(jobs: Jobs, now: nat, id: JobId)
    requires id in jobs
    ensures ReclaimAll(jobs, now).Keys == jobs.Keys
    ensures ReclaimAll(jobs, now)[id]
         == if jobs[id].state == Running && jobs[id].startedAt.Some? && now - jobs[id].startedAt.value > 10 * 60
            then jobs[id].(state := Pending) else jobs[id]
  {
  }

  /** Something is waiting for the same type and scope; a null scope equals no other. */
  ghost predicate Waiting(jobs: Jobs, jobType: string, scope: Option<string>) {
    exists o, text | o in jobs ::
      scope == Some(text) && jobs[o].scope == Some(text) && jobs[o].jobType == jobType && jobs[o].state == Pending
  }

  lemma WaitingMeans(jobs: Jobs, jobType: string, scope: Option<string>)
    ensures HasPending(jobs, jobType, scope) <==> Waiting(jobs, jobType, scope)
  {
    if HasPending(jobs, jobType, scope) {
      var o :| o in jobs && PendingFor(jobs[o], jobType, scope);
      assert scope == Some(scope.value) && jobs[o].scope == Some(scope.value);
    }
    if Waiting(jobs, jobType, scope) {
      var o, text :| o in jobs && scope == Some(text) && jobs[o].scope == Some(text) && jobs[o].jobType == jobType
                     && jobs[o].state == Pending;
      assert PendingFor(jobs[o], jobType, scope);
    }
  }

  /** A job nobody has worked on, due at once. */
  predicate Untried(job: SyncJob, now: nat) {
    && job.state == Pending && job.attempts == 0 && job.subrequests == 0
    && job.nextEligible == now && job.createdAt == now
    && job.cursor.None? && job.startedAt.None? && job.finishedAt.None? && job.lastError.None?
  }

  /** A retry queues the work of a failed job afresh, unless the same work is waiting, and leaves the failed row. */
  lemma RetryQueuesAfresh(jobs: Jobs, failed: JobId, id: JobId, now: nat)
    requires id !in jobs
    ensures var jobs' := Retry(jobs, failed, id, now);
            && (id in jobs'
                <==> failed in jobs && jobs[failed].state == Failed
                     && !Waiting(jobs, jobs[failed].jobType, jobs[failed].scope))
            && (id !in jobs' ==> jobs' == jobs)
            && (id in jobs' ==>
                  && jobs' == jobs[id := jobs'[id]] && Untried(jobs'[id], now)
                  && jobs'[id].jobType == jobs[failed].jobType && jobs'[id].scope == jobs[failed].scope
                  && jobs'[id].priority == jobs[failed].priority)
  {
    if failed in jobs {
      WaitingMeans(jobs, jobs[failed].jobType, jobs[failed].scope);
    }
    hide HasPending, Waiting;
  }

  /** No claim takes the row and no reclaim changes it, at any time. */
  ghost predicate Settled(jobs: Jobs, id: JobId) {
    && id in jobs
    && forall now ::
         !Eligible(jobs, now, id) && id in ReclaimAll(jobs, now) && ReclaimAll(jobs, now)[id] == jobs[id]
  }

  /**
   A checkpoint releases the job at once: the next claim gets the cursor, no attempt is lost, and until
   then enqueueing the same work adds nothing.
   */
  lemma CheckpointReleases(jobs: Jobs, id: JobId, cursor: string, used: nat, now: nat, later: nat, other: JobId, p: int)
    requires id in jobs && now <= later
    ensures var jobs' := jobs[id := Checkpointed(jobs[id], cursor, used, now)];
            var taken := Claimed(jobs'[id], later);
            && OnlyRow(jobs, jobs', id) && SameWork(jobs[id], jobs'[id]) && Eligible(jobs', later, id)
            && SameDates(jobs[id], jobs'[id]) && jobs'[id].lastError == jobs[id].lastError
            && taken.jobType == jobs[id].jobType && taken.scope == jobs[id].scope && taken.priority == jobs[id].priority
            && taken.cursor == Some(cursor) && taken.attempts == jobs[id].attempts + 1
            && taken.subrequests == jobs[id].subrequests + used
            && (jobs[id].scope.Some? ==> Enqueue(jobs', other, jobs[id].jobType, jobs[id].scope, p, later) == jobs')
  {
    var jobs' := jobs[id := Checkpointed(jobs[id], cursor, used, now)];
    assert PendingFor(jobs'[id], jobs[id].jobType, jobs[id].scope);
  }

  /** A completed job is settled for good, and there is nothing to retry. */
  lemma CompletionIsFinal(jobs: Jobs, id: JobId, used: nat, now: nat, other: JobId, later: nat)
    requires id in jobs
    ensures var jobs' := jobs[id := Completed(jobs[id], used, now)];
            && OnlyRow(jobs, jobs', id) && SameWork(jobs[id], jobs'[id]) && Settled(jobs', id)
            && jobs'[id].state == Done && jobs'[id].finishedAt == Some(now)
            && jobs'[id].subrequests == jobs[id].subrequests + used && SameRest(jobs[id], jobs'[id])
            && jobs'[id].lastError == jobs[id].lastError
            && Retry(jobs', id, other, later) == jobs'
  {
  }

  /** A pass that failed in part is settled as well, but a retry queues its work afresh unless it is pending. */
  lemma FailedPassIsFinal(jobs: Jobs, id: JobId, used: nat, error: string, now: nat, other: JobId, later: nat)
    requires id in jobs
    ensures var jobs' := jobs[id := FailedAfterPass(jobs[id], used, error, now)];
            var retried := Retry(jobs', id, other, later);
            && OnlyRow(jobs, jobs', id) && SameWork(jobs[id], jobs'[id]) && Settled(jobs', id)
            && jobs'[id].state == Failed && jobs'[id].finishedAt == Some(now) && retried[id] == jobs'[id]
            && jobs'[id].subrequests == jobs[id].subrequests + used && SameRest(jobs[id], jobs'[id])
            && jobs'[id].lastError == Some(if |error| <= 500 then error else error[..500])
            && (other !in jobs' && !HasPending(jobs', jobs[id].jobType, jobs[id].scope) ==>
                  Eligible(retried, later, other) && retried[other].attempts == 0
                  && retried[other].jobType == jobs[id].jobType && retried[other].scope == jobs[id].scope
                  && retried[other].priority == jobs[id].priority)
  {
  }

  // ---- The queue ------------------------------------------------------------------------

  class SyncQueue {
    var jobs: Jobs

    constructor ()
      ensures jobs == map[]
    {
      jobs := map[];
    }

    method EnqueueSyncJob(id: JobId, jobType: string, scope: string, priority: int, now: nat)
      modifies this
      ensures jobs == Enqueue(old(jobs), id, jobType, Some(scope), priority, now)
      ensures if id in old(jobs) || Waiting(old(jobs), jobType, Some(scope)) then jobs == old(jobs)
              else
                && id in jobs && jobs == old(jobs)[id := jobs[id]] && Untried(jobs[id], now)
                && jobs[id].jobType == jobType && jobs[id].scope == Some(scope) && jobs[id].priority == priority
    {
      WaitingMeans(jobs, jobType, Some(scope));
      if exists o | o in jobs :: PendingFor(jobs[o], jobType, Some(scope)) {
        return;
      }
      if id !in jobs {
        jobs := jobs[id := NewJob(jobType, Some(scope), priority, now)];
      }
    }

    method RetrySyncJob(failed: JobId, id: JobId, now: nat) returns (found: bool)
      modifies this
      ensures jobs == Retry(old(jobs), failed, id, now)
      ensures found <==> failed in old(jobs) && old(jobs)[failed].state == Failed
    {
      found := failed in jobs && jobs[failed].state == Failed;
      if found {
        var job := jobs[failed];
        if !HasPending(jobs, job.jobType, job.scope) && id !in jobs {
          jobs := jobs[id := NewJob(job.jobType, job.scope, job.priority, now)];
        }
      }
    }

    method SelectNext(now: nat) returns (r: Option<JobId>)
      ensures r.None? ==> forall id :: !Eligible(jobs, now, id)
      ensures r.Some? ==> IsNext(jobs, now, r.value)
      ensures r.Some? ==> forall o | Eligible(jobs, now, o) ::
                  && jobs[r.value].priority <= jobs[o].priority
                  && (jobs[r.value].priority == jobs[o].priority ==> jobs[r.value].createdAt <= jobs[o].createdAt)
    {
      r := None;
      var left := jobs.Keys;
      while left != {}
        invariant left <= jobs.Keys
        invariant r.Some? ==> Eligible(jobs, now, r.value) && r.value !in left
        invariant forall o | Eligible(jobs, now, o) && o !in left :: r.Some? && NotBehind(jobs[r.value], jobs[o])
        decreases left
      {
        var id :| id in left;
        left := left - {id};
        if Eligible(jobs, now, id) && (r.None? || !NotBehind(jobs[r.value], jobs[id])) {
          r := Some(id);
        }
      }
    }

    /** The claimed row is returned as it was selected. */
    method ClaimNextSyncJob(now: nat) returns (r: Option<(JobId, SyncJob)>)
      modifies this
      ensures var waiting := ReclaimAll(old(jobs), now);
              if r.None? then jobs == waiting && forall id :: !Eligible(waiting, now, id)
              else
                var id := r.value.0;
                IsNext(waiting, now, id) && r.value.1 == waiting[id]
                && id in jobs && jobs == waiting[id := jobs[id]] && jobs[id] == Claimed(waiting[id], now)
                && jobs[id] == waiting[id].(state := Running, startedAt := Some(now),
                                            attempts := waiting[id].attempts + 1)
                && forall o | Eligible(waiting, now, o) ::
                     && waiting[id].priority <= waiting[o].priority
                     && (waiting[id].priority == waiting[o].priority ==>
                           waiting[id].createdAt <= waiting[o].createdAt)
    {
      jobs := ReclaimAll(jobs, now);
      var next := SelectNext(now);
      if next.None? {
        return None;
      }
      var job := jobs[next.value];
      jobs := jobs[next.value := Claimed(job, now)];
      r := Some((next.value, job));
    }

    /** Releases the job at once, with the cursor for its next claim. */
    method CheckpointSyncJob(id: JobId, cursor: string, used: nat, now: nat)
      modifies this
      ensures id !in old(jobs) ==> jobs == old(jobs)
      ensures id in old(jobs) ==>
                && OnlyRow(old(jobs), jobs, id) && SameWork(old(jobs)[id], jobs[id]) && Eligible(jobs, now, id)
                && jobs[id] == Checkpointed(old(jobs)[id], cursor, used, now)
    {
      if id in jobs {
        CheckpointReleases(jobs, id, cursor, used, now, now, id, 0);
        jobs := jobs[id := Checkpointed(jobs[id], cursor, used, now)];
      }
    }

    /** Settles the job as done. */
    method CompleteSyncJob(id: JobId, used: nat, now: nat)
      modifies this
      ensures id !in old(jobs) ==> jobs == old(jobs)
      ensures id in old(jobs) ==>
                && OnlyRow(old(jobs), jobs, id) && SameWork(old(jobs)[id], jobs[id]) && Settled(jobs, id)
                && jobs[id] == Completed(old(jobs)[id], used, now)
    {
      if id in jobs {
        CompletionIsFinal(jobs, id, used, now, id, now);
        jobs := jobs[id := Completed(jobs[id], used, now)];
      }
    }

    /** Settles the job as failed, for an operator to retry. */
    method FailCompletedSyncJob(id: JobId, used: nat, error: string, now: nat)
      modifies this
      ensures id !in old(jobs) ==> jobs == old(jobs)
      ensures id in old(jobs) ==>
                && OnlyRow(old(jobs), jobs, id) && SameWork(old(jobs)[id], jobs[id]) && Settled(jobs, id)
                && jobs[id] == FailedAfterPass(old(jobs)[id], used, error, now)
    {
      if id in jobs {
        FailedPassIsFinal(jobs, id, used, error, now, id, now);
        jobs := jobs[id := FailedAfterPass(jobs[id], used, error, now)];
      }
    }

    /** Gives up exactly from the fifth attempt on, and backs off before that. */
    method FailSyncJob(id: JobId, error: string, now: nat)
      modifies this
      ensures id !in old(jobs) ==> jobs == old(jobs)
      ensures id in old(jobs) ==>
                && OnlyRow(old(jobs), jobs, id) && SameWork(old(jobs)[id], jobs[id])
                && (if old(jobs)[id].attempts >= 5 then Settled(jobs, id)
                    else
                      forall later: nat ::
                        Eligible(jobs, later, id) <==> later >= now + old(jobs)[id].attempts * 15 * 60)
                && jobs[id] == FailedAttempt(old(jobs)[id], error, now)
                && jobs[id].lastError == Some(if |error| <= 500 then error else error[..500])
                && jobs[id].finishedAt == (if old(jobs)[id].attempts >= 5 then Some(now) else None)
                && jobs[id].cursor == old(jobs)[id].cursor && jobs[id].startedAt == old(jobs)[id].startedAt
                && jobs[id].subrequests == old(jobs)[id].subrequests
    {
      if id in jobs {
        jobs := jobs[id := FailedAttempt(jobs[id], error, now)];
      }
    }
  }
}
