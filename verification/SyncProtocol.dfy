/**
 Enqueuers, claimers and holders of sync jobs, interleaved statement by statement. A holder ends
 its claim with at most one of the four outcomes, or dies; nothing else is assumed about who
 runs when.
 */
module SyncProtocol {
  import opened Wrappers
  import opened SyncQueue

  /** What an enqueue or a retry is about to insert. */
  datatype Order = Order(id: JobId, jobType: string, scope: Option<string>, priority: int)

  /** A worker waits to execute the statement its constructor names. */
  datatype Worker =
    // retrySyncJob, which goes on like an enqueue
    | ReadingFailed(failed: JobId, newId: JobId)
    // enqueueSyncJob
    | Checking(order: Order)
    | Inserting(order: Order)
    // claimNextSyncJob, and what a won claim leads to
    | Reclaiming
    | Selecting
    | Claiming(id: JobId)
    | Holding(id: JobId, since: nat)
    | Gone

  datatype Ending =
    | Checkpoint(cursor: string, used: nat)
    | Complete(used: nat)
    | FailPass(used: nat, error: string)
    | Fail(error: string)
    | Die

  /** A won claim, with the number of the pending episode it ended. */
  datatype Claim = Claim(id: JobId, episode: nat)

  /**
   The table, the workers and the clock; and for every job the number of its latest pending
   episode and how often a failure has returned it to pending.
   */
  datatype System = System(
    jobs: Jobs,
    workers: seq<Worker>,
    now: nat,
    claims: seq<Claim>,
    episodes: map<JobId, nat>,
    comebacks: map<JobId, nat>)

  /** `selected` and `ending` are what the environment decides in a step. */
  datatype Step = Tick(seconds: nat) | Begin(worker: Worker) | Act(i: nat, selected: JobId, ending: Ending)

  const EMPTY: System := System(map[], [], 0, [], map[], map[])

  // ---- Steps ------------------------------------------------------------------------

  ghost function Goto(s: System, i: nat, w: Worker): System
    requires i < |s.workers|
  {
    s.(workers := s.workers[i := w])
  }

  ghost function Bump(m: map<JobId, nat>, id: JobId): map<JobId, nat> {
    m[id := (if id in m then m[id] else 0) + 1]
  }

  /** A new row starts its first pending episode; a taken id makes the statement fail. */
  ghost function InsertStep(s: System, o: Order): System {
    if o.id in s.jobs then s
    else
      s.(jobs := s.jobs[o.id := NewJob(o.jobType, o.scope, o.priority, s.now)],
         episodes := s.episodes[o.id := 0], comebacks := s.comebacks[o.id := 0])
  }

  ghost function ReclaimStep(s: System): System {
    s.(jobs := ReclaimAll(s.jobs, s.now),
       episodes := map id | id in s.episodes ::
                     if id in s.jobs && Stuck(s.jobs[id], s.now) then s.episodes[id] + 1 else s.episodes[id])
  }

  predicate CanClaim(jobs: Jobs, id: JobId) {
    id in jobs && jobs[id].state == Pending
  }

  ghost function ClaimStep(s: System, id: JobId): System {
    if !CanClaim(s.jobs, id) then s
    else
      s.(jobs := s.jobs[id := Claimed(s.jobs[id], s.now)],
         claims := s.claims + [Claim(id, if id in s.episodes then s.episodes[id] else 0)])
  }

  ghost function EndStep(s: System, id: JobId, e: Ending): System {
    if id !in s.jobs then s
    else
      var job := s.jobs[id];
      match e
      case Checkpoint(cursor, used) =>
        s.(jobs := s.jobs[id := Checkpointed(job, cursor, used, s.now)], episodes := Bump(s.episodes, id))
      case Complete(used) => s.(jobs := s.jobs[id := Completed(job, used, s.now)])
      case FailPass(used, error) => s.(jobs := s.jobs[id := FailedAfterPass(job, used, error, s.now)])
      case Fail(error) =>
        var failed := FailedAttempt(job, error, s.now);
        if failed.state == Pending then
          s.(jobs := s.jobs[id := failed], episodes := Bump(s.episodes, id), comebacks := Bump(s.comebacks, id))
        else s.(jobs := s.jobs[id := failed])
      case Die => s
  }

  predicate IsFailed(jobs: Jobs, id: JobId) {
    id in jobs && jobs[id].state == Failed
  }

  /** The statement of worker i, and what it does to the rows. */
  ghost function Executed(s: System, w: Worker, e: Ending): System {
    match w
    case Inserting(o) => InsertStep(s, o)
    case Reclaiming => ReclaimStep(s)
    case Claiming(id) => ClaimStep(s, id)
    case Holding(id, _) => EndStep(s, id, e)
    case _ => s
  }

  /** What the worker waits to do next. */
  ghost function Next(s: System, w: Worker, selected: JobId): Worker {
    match w
    case ReadingFailed(failed, newId) =>
      if IsFailed(s.jobs, failed)
      then Checking(Order(newId, s.jobs[failed].jobType, s.jobs[failed].scope, s.jobs[failed].priority))
      else Gone
    case Checking(o) => if HasPending(s.jobs, o.jobType, o.scope) then Gone else Inserting(o)
    case Reclaiming => Selecting
    case Selecting => if IsNext(s.jobs, s.now, selected) then Claiming(selected) else Gone
    case Claiming(id) => if CanClaim(s.jobs, id) then Holding(id, s.now) else Gone
    case _ => Gone
  }

  /** An enqueue, a retry or a claim; an enqueue always names a scope. */
  predicate Initial(w: Worker) {
    w.Reclaiming? || w.ReadingFailed? || (w.Checking? && w.order.scope.Some?)
  }

  ghost function Apply(s: System, e: Step): System {
    match e
    case Tick(seconds) => s.(now := s.now + seconds)
    case Begin(w) => if Initial(w) then s.(workers := s.workers + [w]) else s
    case Act(i, selected, ending) =>
      if i >= |s.workers| then s
      else Goto(Executed(s, s.workers[i], ending), i, Next(s, s.workers[i], selected))
  }

  ghost function After(run: seq<Step>): System
    decreases |run|
  {
    if run == [] then EMPTY else Apply(After(run[..|run| - 1]), run[|run| - 1])
  }

  lemma AfterOneMore(run: seq<Step>, n: nat)
    requires n < |run|
    ensures After(run[..n + 1]) == Apply(After(run[..n]), run[n])
  {
    assert run[..n + 1][..n] == run[..n];
  }

  // ---- What holds in every run --------------------------------------------------------

  ghost predicate RowListed(job: SyncJob) {
    job.scope.Some? && (job.state == Running ==> job.startedAt.Some? && job.attempts > 0)
  }

  ghost predicate Listed(s: System) {
    && s.episodes.Keys == s.comebacks.Keys == s.jobs.Keys
    && forall id | id in s.jobs :: RowListed(s.jobs[id])
  }

  ghost predicate WorkerFits(s: System, w: Worker) {
    && (w.Checking? || w.Inserting? ==> w.order.scope.Some?)
    && (w.Holding? ==> w.id in s.jobs && s.jobs[w.id].attempts > 0)
  }

  ghost predicate WorkersFit(s: System) {
    forall i | 0 <= i < |s.workers| :: WorkerFits(s, s.workers[i])
  }

  /** Claims ended distinct episodes, and none has ended one that is still pending. */
  ghost predicate ClaimsOk(s: System) {
    && (forall c | c in s.claims ::
          && c.id in s.jobs && c.id in s.episodes && c.episode <= s.episodes[c.id]
          && (s.jobs[c.id].state == Pending ==> c.episode < s.episodes[c.id]))
    && forall k, l | 0 <= k < l < |s.claims| :: s.claims[k] != s.claims[l]
  }

  ghost predicate Base(s: System) {
    Listed(s) && WorkersFit(s) && ClaimsOk(s)
  }

  /** Rows stay, and are tried at least as often. */
  ghost predicate RowsStay(s: System, s': System) {
    && s'.now == s.now
    && forall id | id in s.jobs :: id in s'.jobs && s.jobs[id].attempts <= s'.jobs[id].attempts
  }

  lemma ExecutedKeepsRows(s: System, w: Worker, e: Ending)
    requires Listed(s) && WorkerFits(s, w)
    ensures Listed(Executed(s, w, e)) && RowsStay(s, Executed(s, w, e)) && Executed(s, w, e).workers == s.workers
  {
    match w
    case Holding(id, _) =>
      EndKeepsRows(s, id, e);
      hide EndStep, Listed, RowsStay;
    case Reclaiming =>
      ReclaimKeepsRows(s);
      hide ReclaimStep, Listed, RowsStay;
    case Claiming(_) => hide EndStep, InsertStep, ReclaimStep;
    case _ => hide EndStep, ReclaimStep, ClaimStep;
  }

  lemma ReclaimKeepsRows(s: System)
    requires Listed(s)
    ensures Listed(ReclaimStep(s)) && RowsStay(s, ReclaimStep(s)) && ReclaimStep(s).workers == s.workers
  {
  }

  lemma EndKeepsRows(s: System, id: JobId, e: Ending)
    requires Listed(s)
    ensures Listed(EndStep(s, id, e)) && RowsStay(s, EndStep(s, id, e)) && EndStep(s, id, e).workers == s.workers
  {
  }

  /** A row changes its state as its episode number and the claims record it. */
  ghost predicate Counted(s: System, s': System, id: JobId) {
    && id in s.jobs && id in s'.jobs && id in s.episodes && id in s'.episodes
    && if s'.jobs[id].state == Pending && s.jobs[id] != s'.jobs[id] then s'.episodes[id] == s.episodes[id] + 1
       else s'.episodes[id] == s.episodes[id]
  }

  lemma CountedKeepsClaims(s: System, s': System)
    requires ClaimsOk(s) && s'.claims == s.claims && s.episodes.Keys == s.jobs.Keys
    requires forall id | id in s.jobs :: Counted(s, s', id)
    ensures ClaimsOk(s')
  {
    forall c | c in s'.claims
      ensures c.id in s'.jobs && c.id in s'.episodes && c.episode <= s'.episodes[c.id]
              && (s'.jobs[c.id].state == Pending ==> c.episode < s'.episodes[c.id])
    {
      assert Counted(s, s', c.id);
    }
  }

  lemma ClaimKeepsClaims(s: System, id: JobId)
    requires Listed(s) && ClaimsOk(s)
    ensures ClaimsOk(ClaimStep(s, id))
  {
    hide RowListed;
  }

  lemma ReclaimCounts(s: System)
    requires Listed(s)
    ensures forall id | id in s.jobs :: Counted(s, ReclaimStep(s), id)
  {
  }

  lemma EndCounts(s: System, id: JobId, e: Ending)
    requires Listed(s) && ClaimsOk(s)
    ensures ClaimsOk(EndStep(s, id, e))
  {
    hide RowListed;
    if id in s.jobs && (e.Checkpoint? || e.Fail?) {
      var s' := EndStep(s, id, e);
      forall c | c in s'.claims
        ensures c.id in s'.jobs && c.id in s'.episodes && c.episode <= s'.episodes[c.id]
                && (s'.jobs[c.id].state == Pending ==> c.episode < s'.episodes[c.id])
      {
      }
    }
  }

  lemma ExecutedKeepsClaims(s: System, w: Worker, e: Ending)
    requires Listed(s) && ClaimsOk(s)
    ensures ClaimsOk(Executed(s, w, e))
  {
    match w
    case Claiming(id) => ClaimKeepsClaims(s, id);
    case Holding(id, _) => EndCounts(s, id, e);
    case Reclaiming =>
      ReclaimCounts(s);
      CountedKeepsClaims(s, ReclaimStep(s));
    case _ => hide EndStep, ReclaimStep, ClaimStep;
  }

  lemma NextFits(s: System, w: Worker, selected: JobId, e: Ending)
    requires Listed(s) && WorkerFits(s, w)
    ensures WorkerFits(Executed(s, w, e), Next(s, w, selected))
  {
    hide EndStep, ReclaimStep, InsertStep, HasPending, IsNext;
  }

  /** Only the workers and the clock differ. */
  lemma Moved(s: System, s': System)
    requires s'.jobs == s.jobs && s'.claims == s.claims && s'.episodes == s.episodes && s'.comebacks == s.comebacks
    ensures Listed(s) ==> Listed(s')
    ensures ClaimsOk(s) ==> ClaimsOk(s')
  {
  }

  lemma StillFits(s: System, s': System, w: Worker)
    requires WorkerFits(s, w) && RowsStay(s, s')
    ensures WorkerFits(s', w)
  {
  }

  lemma StepKeepsBase(s: System, e: Step)
    requires Base(s)
    ensures Base(Apply(s, e))
  {
    hide Listed, ClaimsOk, RowsStay, Executed, Next;
    var s' := Apply(s, e);
    if e.Act? && e.i < |s.workers| {
      var w := s.workers[e.i];
      assert WorkerFits(s, w);
      hide WorkerFits;
      var p := Executed(s, w, e.ending);
      ExecutedKeepsRows(s, w, e.ending);
      ExecutedKeepsClaims(s, w, e.ending);
      NextFits(s, w, e.selected, e.ending);
      Moved(p, s');
      forall j | 0 <= j < |s'.workers| ensures WorkerFits(s', s'.workers[j]) {
        if j != e.i {
          StillFits(s, p, s.workers[j]);
        }
        SameJobsFit(p, s', s'.workers[j]);
      }
    } else {
      Moved(s, s');
    }
  }

  lemma SameJobsFit(p: System, s': System, w: Worker)
    requires WorkerFits(p, w) && s'.jobs == p.jobs
    ensures WorkerFits(s', w)
  {
  }

  lemma {:induction false} RunKeepsBase(run: seq<Step>)
    ensures Base(After(run))
    decreases |run|
  {
    if run != [] {
      hide Apply, Base;
      RunKeepsBase(run[..|run| - 1]);
      StepKeepsBase(After(run[..|run| - 1]), run[|run| - 1]);
    }
  }

  /** Each pending episode of a job is ended by at most one claim, reclaiming included. */
  lemma EpisodesAreWonOnce(run: seq<Step>, k: nat, l: nat)
    requires k < l < |After(run).claims|
    ensures After(run).claims[k] != After(run).claims[l]
  {
    RunKeepsBase(run);
  }

  // ---- Comebacks --------------------------------------------------------------------------

  function Holds(w: Worker, id: JobId): nat {
    if w.Holding? && w.id == id then 1 else 0
  }

  /** How many workers hold the job. */
  function Held(workers: seq<Worker>, id: JobId): nat {
    if workers == [] then 0 else Held(workers[..|workers| - 1], id) + Holds(workers[|workers| - 1], id)
  }

  lemma {:induction false} HeldWith(workers: seq<Worker>, i: nat, w: Worker, id: JobId)
    requires i < |workers|
    ensures Held(workers[i := w], id) + Holds(workers[i], id) == Held(workers, id) + Holds(w, id)
    ensures Holds(workers[i], id) <= Held(workers, id)
    decreases |workers|
  {
    var n := |workers| - 1;
    if i < n {
      HeldWith(workers[..n], i, w, id);
      assert workers[i := w][..n] == workers[..n][i := w];
    } else {
      assert workers[i := w][..n] == workers[..n];
    }
  }

  lemma {:induction false} NobodyHolds(workers: seq<Worker>, id: JobId)
    requires forall w | w in workers :: Holds(w, id) == 0
    ensures Held(workers, id) == 0
    decreases |workers|
  {
    if workers != [] {
      NobodyHolds(workers[..|workers| - 1], id);
    }
  }

  /** Every holder of a job may still fail it, and each comeback took an attempt of its own. */
  ghost predicate Tried(s: System, id: JobId) {
    && id in s.jobs && id in s.comebacks && s.comebacks[id] + Held(s.workers, id) <= s.jobs[id].attempts
    && s.comebacks[id] < MAX_ATTEMPTS
  }

  ghost predicate AllTried(s: System) {
    forall id | id in s.jobs :: Tried(s, id)
  }

  /** The same for the rows of p, of which the holders are still to be counted. */
  ghost predicate WillBeTried(s: System, p: System, id: JobId, w: Worker, next: Worker) {
    && id in p.jobs && id in p.comebacks && p.comebacks[id] < MAX_ATTEMPTS
    && p.comebacks[id] + Held(s.workers, id) + Holds(next, id) <= p.jobs[id].attempts + Holds(w, id)
  }

  lemma NewRowIsUnheld(s: System, id: JobId)
    requires WorkersFit(s) && id !in s.jobs
    ensures Held(s.workers, id) == 0
  {
    forall w | w in s.workers ensures Holds(w, id) == 0 {
      var i :| 0 <= i < |s.workers| && s.workers[i] == w;
      assert WorkerFits(s, s.workers[i]);
    }
    NobodyHolds(s.workers, id);
  }

  lemma TriedOrNew(s: System, id: JobId)
    requires Base(s) && AllTried(s)
    ensures if id in s.jobs then Tried(s, id) else Held(s.workers, id) == 0
  {
    if id !in s.jobs {
      NewRowIsUnheld(s, id);
    }
  }

  lemma OutcomeTries(s: System, i: nat, selected: JobId, e: Ending, id: JobId)
    requires Base(s) && AllTried(s) && i < |s.workers| && id in Executed(s, s.workers[i], e).jobs
    requires s.workers[i].Holding?
    ensures var w := s.workers[i]; WillBeTried(s, Executed(s, w, e), id, w, Next(s, w, selected))
  {
    HeldWith(s.workers, i, s.workers[i], id);
    TriedOrNew(s, id);
    hide Base, AllTried, Held, ReclaimStep, InsertStep, ClaimStep, HasPending, IsNext;
  }

  lemma ExecutedTries(s: System, i: nat, selected: JobId, e: Ending, id: JobId)
    requires Base(s) && AllTried(s) && i < |s.workers| && id in Executed(s, s.workers[i], e).jobs
    ensures var w := s.workers[i]; WillBeTried(s, Executed(s, w, e), id, w, Next(s, w, selected))
  {
    if s.workers[i].Holding? {
      OutcomeTries(s, i, selected, e, id);
    } else {
      TriedOrNew(s, id);
      hide Base, AllTried, Held, HasPending, IsNext, EndStep;
      match s.workers[i]
      case Claiming(_) => hide ReclaimStep, InsertStep;
      case Reclaiming => hide InsertStep, ClaimStep;
      case _ => hide ReclaimStep, ClaimStep;
    }
  }

  lemma StepKeepsTried(s: System, e: Step)
    requires Base(s) && AllTried(s)
    ensures AllTried(Apply(s, e))
  {
    hide Base, Executed, Next;
    var s' := Apply(s, e);
    forall id | id in s'.jobs ensures Tried(s', id) {
      if e.Act? && e.i < |s.workers| {
        ExecutedTries(s, e.i, e.selected, e.ending, id);
        HeldWith(s.workers, e.i, Next(s, s.workers[e.i], e.selected), id);
        KeepsWorkers(s, s.workers[e.i], e.ending);
      } else {
        assert Tried(s, id);
        if e.Begin? && Initial(e.worker) {
          assert s'.workers[..|s.workers|] == s.workers;
        }
      }
    }
  }

  lemma KeepsWorkers(s: System, w: Worker, e: Ending)
    ensures Executed(s, w, e).workers == s.workers && Executed(s, w, e).now == s.now
  {
  }

  lemma {:induction false} RunKeepsTried(run: seq<Step>)
    ensures AllTried(After(run))
    decreases |run|
  {
    if run != [] {
      hide Apply, Base, AllTried;
      RunKeepsTried(run[..|run| - 1]);
      RunKeepsBase(run[..|run| - 1]);
      StepKeepsTried(After(run[..|run| - 1]), run[|run| - 1]);
    }
  }

  /** Failures return a job to pending at most four times, whatever its checkpoints and however late they come. */
  lemma AtMostFourComebacks(run: seq<Step>, id: JobId)
    requires id in After(run).jobs
    ensures id in After(run).comebacks && After(run).comebacks[id] <= 4
  {
    hide After;
    RunKeepsTried(run);
    assert Tried(After(run), id);
  }

  /** What a holder reports is what its row then says, and no other row changes. */
  lemma HolderWritesItsOutcome(s: System, i: nat, selected: JobId, e: Ending)
    requires i < |s.workers| && s.workers[i].Holding? && s.workers[i].id in s.jobs
    ensures var id, s' := s.workers[i].id, Apply(s, Act(i, selected, e));
            && s'.workers == s.workers[i := Gone] && OnlyRow(s.jobs, s'.jobs, id)
            && SameWork(s.jobs[id], s'.jobs[id])
            && var job, job' := s.jobs[id], s'.jobs[id];
            match e
            case Checkpoint(cursor, used) =>
              && job'.state == Pending && job'.cursor == Some(cursor) && job'.nextEligible == s.now
              && job'.subrequests == job.subrequests + used && job'.lastError == job.lastError
            case Complete(used) =>
              && job'.state == Done && job'.finishedAt == Some(s.now)
              && job'.subrequests == job.subrequests + used && job'.lastError == job.lastError
            case FailPass(used, error) =>
              && job'.state == JobState.Failed && job'.finishedAt == Some(s.now)
              && job'.subrequests == job.subrequests + used
              && job'.lastError == Some(if |error| <= 500 then error else error[..500])
            case Fail(error) =>
              && job'.state == (if job.attempts >= 5 then JobState.Failed else Pending)
              && job'.nextEligible == s.now + job.attempts * 15 * 60 && job'.subrequests == job.subrequests
              && job'.lastError == Some(if |error| <= 500 then error else error[..500])
            case Die => job' == job
  {
  }

  // ---- Time ---------------------------------------------------------------------------------

  /** A reclaim takes a running job back if and only if its claim is more than ten minutes old. */
  lemma OverstayedClaimIsLost(s: System, i: nat, k: nat, selected: JobId, e: Ending)
    requires i < |s.workers| && k < |s.workers| && s.workers[k].Reclaiming?
    requires s.workers[i].Holding? && s.workers[i].id in s.jobs && s.jobs[s.workers[i].id].state == Running
    requires s.jobs[s.workers[i].id].startedAt == Some(s.workers[i].since)
    ensures var s' := Apply(s, Act(k, selected, e));
            s'.workers[i] == s.workers[i]
            && (s'.jobs[s.workers[i].id].state == Pending <==> s.now > s.workers[i].since + 10 * 60)
  {
  }

  /**
   A failed attempt ends the job for good exactly from the fifth on; before that the job is not
   selected again until fifteen minutes for each attempt have passed.
   */
  lemma FailureBacksOff(jobs: Jobs, id: JobId, error: string, now: nat, later: nat)
    requires id in jobs
    ensures var job, jobs' := jobs[id], jobs[id := FailedAttempt(jobs[id], error, now)];
            && (jobs'[id].state == Failed <==> job.attempts >= 5)
            && (Eligible(jobs', later, id) <==> job.attempts < 5 && later >= now + job.attempts * 15 * 60)
            && jobs'[id].attempts == job.attempts && jobs'[id].cursor == job.cursor
  {
  }

  /**
   In every run whoever goes on from a selection goes on with a job that is due, and leaves no due job waiting
   that has a smaller priority number, or the same one and an earlier creation.
   */
  lemma SelectionsTakeTheMostUrgent(run: seq<Step>, k: nat, o: JobId)
    requires k < |run| && run[k].Act? && run[k].i < |After(run[..k]).workers|
    requires After(run[..k]).workers[run[k].i].Selecting?
    ensures var s, s' := After(run[..k]), After(run[..k + 1]);
            && run[k].i < |s'.workers|
            && var w := s'.workers[run[k].i];
            && (w.Claiming? || w.Gone?)
            && (w.Claiming? ==>
                  && w.id in s.jobs && s.jobs[w.id].state == Pending && s.jobs[w.id].nextEligible <= s.now
                  && (o in s.jobs && s.jobs[o].state == Pending && s.jobs[o].nextEligible <= s.now ==>
                        && s.jobs[w.id].priority <= s.jobs[o].priority
                        && (s.jobs[w.id].priority == s.jobs[o].priority ==>
                              s.jobs[w.id].createdAt <= s.jobs[o].createdAt)))
  {
    AfterOneMore(run, k);
    hide After;
    var s := After(run[..k]);
    assert o in s.jobs && s.jobs[o].state == Pending && s.jobs[o].nextEligible <= s.now ==> Eligible(s.jobs, s.now, o);
  }
}
