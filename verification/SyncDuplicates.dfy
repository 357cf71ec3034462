/**
 Duplicate work in the sync queue. Enqueueing checks for a pending job in one statement and inserts
 in another, so two enqueuers can both find nothing and both insert.
 */
module SyncDuplicates {
  import opened Wrappers
  import opened SyncQueue
  import opened SyncProtocol

  /** Pending and never claimed. */
  predicate Untouched(job: SyncJob, jobType: string, scope: Option<string>) {
    PendingFor(job, jobType, scope) && job.attempts == 0
  }

  ghost predicate UntouchedAt(jobs: Jobs, id: JobId, jobType: string, scope: Option<string>) {
    id in jobs && Untouched(jobs[id], jobType, scope)
  }

  ghost predicate SingleUntouched(jobs: Jobs) {
    forall a, b, jobType, scope | UntouchedAt(jobs, a, jobType, scope) && UntouchedAt(jobs, b, jobType, scope) :: a == b
  }

  /** Some job for the same work waits untouched. */
  ghost predicate Meets(jobs: Jobs, o: Order) {
    exists id :: UntouchedAt(jobs, id, o.jobType, o.scope)
  }

  /** An insert keeps the work unique if and only if no such job is waiting. */
  lemma InsertKeepsSingle(jobs: Jobs, o: Order, now: nat)
    requires SingleUntouched(jobs) && o.id !in jobs
    ensures SingleUntouched(jobs[o.id := NewJob(o.jobType, o.scope, o.priority, now)]) <==> !Meets(jobs, o)
  {
    var jobs' := jobs[o.id := NewJob(o.jobType, o.scope, o.priority, now)];
    assert UntouchedAt(jobs', o.id, o.jobType, o.scope);
    forall id, jobType, scope | id in jobs
      ensures UntouchedAt(jobs', id, jobType, scope) == UntouchedAt(jobs, id, jobType, scope)
    {
    }
    if Meets(jobs, o) {
      var id :| UntouchedAt(jobs, id, o.jobType, o.scope);
      assert UntouchedAt(jobs', id, o.jobType, o.scope);
    }
  }

  /** The step is an insert, and its statement succeeds. */
  ghost predicate Inserts(s: System, e: Step) {
    e.Act? && e.i < |s.workers| && s.workers[e.i].Inserting? && s.workers[e.i].order.id !in s.jobs
  }

  /** Apart from inserts, an untouched row is one that was there, as it was. */
  lemma UntouchedWasThere(s: System, e: Step, id: JobId, jobType: string, scope: Option<string>)
    requires Base(s) && !Inserts(s, e) && UntouchedAt(Apply(s, e).jobs, id, jobType, scope)
    ensures UntouchedAt(s.jobs, id, jobType, scope)
  {
    hide HasPending, IsNext, ClaimsOk;
    if e.Act? && e.i < |s.workers| {
      var w := s.workers[e.i];
      assert WorkerFits(s, w);
      match w
      case Inserting(o) =>
      case Reclaiming => assert id in s.jobs ==> RowListed(s.jobs[id]);
      case Claiming(_) =>
      case Holding(_, _) => hide Listed;
      case _ =>
    }
  }

  lemma StepKeepsSingle(s: System, e: Step)
    requires Base(s) && SingleUntouched(s.jobs)
    ensures SingleUntouched(Apply(s, e).jobs) <==> !(Inserts(s, e) && Meets(s.jobs, s.workers[e.i].order))
  {
    hide Base, UntouchedAt, HasPending, IsNext;
    if Inserts(s, e) {
      hide SingleUntouched;
      InsertKeepsSingle(s.jobs, s.workers[e.i].order, s.now);
    } else {
      var s' := Apply(s, e);
      hide Apply;
      forall a, b, jobType, scope | UntouchedAt(s'.jobs, a, jobType, scope) && UntouchedAt(s'.jobs, b, jobType, scope)
        ensures a == b
      {
        UntouchedWasThere(s, e, a, jobType, scope);
        UntouchedWasThere(s, e, b, jobType, scope);
      }
    }
  }

  ghost predicate InsertsAt(run: seq<Step>, k: nat) {
    k < |run| && Inserts(After(run[..k]), run[k])
  }

  ghost predicate DuplicatesAt(run: seq<Step>, k: nat) {
    InsertsAt(run, k) && Meets(After(run[..k]).jobs, After(run[..k]).workers[run[k].i].order)
  }

  ghost predicate SingleAt(run: seq<Step>, k: nat)
    requires k <= |run|
  {
    SingleUntouched(After(run[..k]).jobs)
  }

  lemma PrefixAgrees(run: seq<Step>, n: nat, k: nat)
    requires k <= n <= |run|
    ensures SingleAt(run[..n], k) == SingleAt(run, k)
    ensures k < n ==> DuplicatesAt(run[..n], k) == DuplicatesAt(run, k)
  {
    hide After, Inserts, Meets, SingleUntouched;
    assert run[..n][..k] == run[..k];
  }

  /** The last step decides whether the work is still unique. */
  lemma LastStepDecides(run: seq<Step>, n: nat)
    requires n < |run| && SingleAt(run, n)
    ensures SingleAt(run, n + 1) <==> !DuplicatesAt(run, n)
  {
    hide After, Apply, Inserts, Meets, SingleUntouched, Base;
    RunKeepsBase(run[..n]);
    AfterOneMore(run, n);
    StepKeepsSingle(After(run[..n]), run[n]);
  }

  lemma EmptyIsSingle(run: seq<Step>)
    ensures SingleAt(run, 0)
  {
    assert run[..0] == [];
  }

  /** Work stays unique throughout a run if and only if no insert of the run meets an untouched job. */
  lemma {:induction false} UniqueExactlyWithoutDuplicates(run: seq<Step>)
    ensures (forall k: nat | k <= |run| :: SingleAt(run, k)) <==> (forall k: nat | k < |run| :: !DuplicatesAt(run, k))
    decreases |run|
  {
    hide SingleAt, DuplicatesAt;
    if run == [] {
      EmptyIsSingle(run);
    } else {
      var n := |run| - 1;
      UniqueExactlyWithoutDuplicates(run[..n]);
      forall k: nat | k <= n
        ensures SingleAt(run[..n], k) == SingleAt(run, k)
                 && (k < n ==> DuplicatesAt(run[..n], k) == DuplicatesAt(run, k))
      {
        PrefixAgrees(run, n, k);
      }
      if SingleAt(run, n) {
        LastStepDecides(run, n);
      }
    }
  }

  /** Every insert comes right after the check of the same worker. */
  ghost predicate Adjacent(run: seq<Step>) {
    forall k: nat | InsertsAt(run, k) :: k > 0 && run[k - 1].Act? && run[k - 1].i == run[k].i
  }

  /** An insert that follows its check at once meets nothing. */
  lemma CheckedInsertMeetsNothing(s: System, e: Step, i: nat)
    requires e.Act? && e.i == i < |s.workers| && WorkersFit(s)
    requires Apply(s, e).workers[i].Inserting?
    ensures !Meets(Apply(s, e).jobs, Apply(s, e).workers[i].order)
  {
    hide IsNext;
    assert WorkerFits(s, s.workers[i]);
    assert s.workers[i].Checking? && !HasPending(s.jobs, s.workers[i].order.jobType, s.workers[i].order.scope);
  }

  /** With every check and insert together, one pending job that was never claimed per type and scope. */
  lemma OneUntouchedJob(run: seq<Step>, a: JobId, b: JobId, jobType: string, scope: Option<string>)
    requires Adjacent(run)
    requires a in After(run).jobs && Untouched(After(run).jobs[a], jobType, scope)
    requires b in After(run).jobs && Untouched(After(run).jobs[b], jobType, scope)
    ensures a == b && scope.Some?
  {
    forall k: nat | k < |run| ensures !DuplicatesAt(run, k) {
      if InsertsAt(run, k) {
        AdjacentInsert(run, k);
      }
    }
    hide DuplicatesAt, Apply, After;
    UniqueExactlyWithoutDuplicates(run);
    assert SingleAt(run, |run|);
    assert run[..|run|] == run;
    assert UntouchedAt(After(run).jobs, a, jobType, scope) && UntouchedAt(After(run).jobs, b, jobType, scope);
    RunKeepsBase(run);
    assert RowListed(After(run).jobs[a]);
  }

  lemma AdjacentInsert(run: seq<Step>, k: nat)
    requires Adjacent(run) && InsertsAt(run, k)
    ensures !Meets(After(run[..k]).jobs, After(run[..k]).workers[run[k].i].order)
  {
    hide After, Apply, Meets;
    assert run[k - 1].Act? && run[k - 1].i == run[k].i;
    RunKeepsBase(run[..k - 1]);
    AfterOneMore(run, k - 1);
    SameWorkers(After(run[..k - 1]), run[k - 1]);
    CheckedInsertMeetsNothing(After(run[..k - 1]), run[k - 1], run[k].i);
  }

  lemma SameWorkers(s: System, e: Step)
    requires e.Act?
    ensures |Apply(s, e).workers| == |s.workers|
  {
    hide HasPending, IsNext;
    if e.i < |s.workers| {
      match s.workers[e.i]
      case Holding(id, _) => hide InsertStep;
      case _ => hide EndStep;
    }
  }

  /** A check and the insert right after it are `Enqueue`. */
  lemma TogetherTheyEnqueue(s: System, i: nat, o: Order)
    requires i < |s.workers| && s.workers[i] == Checking(o)
    ensures var s1 := Apply(s, Act(i, "", Die));
            Apply(s1, Act(i, "", Die)).jobs == Enqueue(s.jobs, o.id, o.jobType, o.scope, o.priority, s.now)
  {
    hide HasPending;
    var s1 := Apply(s, Act(i, "", Die));
    assert s1.jobs == s.jobs && s1.now == s.now && i < |s1.workers|;
    if HasPending(s.jobs, o.jobType, o.scope) {
      assert s1.workers[i] == Gone;
    } else {
      assert s1.workers[i] == Inserting(o);
    }
  }

  /** A retry that reads the failed row, checks and inserts without interruption is `Retry`. */
  lemma TogetherTheyRetry(s: System, i: nat, failed: JobId, newId: JobId)
    requires i < |s.workers| && s.workers[i] == ReadingFailed(failed, newId)
    ensures var s1 := Apply(s, Act(i, "", Die));
            var s2 := Apply(s1, Act(i, "", Die));
            Apply(s2, Act(i, "", Die)).jobs == Retry(s.jobs, failed, newId, s.now)
  {
    hide HasPending;
    var s1 := Apply(s, Act(i, "", Die));
    assert s1.jobs == s.jobs && s1.now == s.now && i < |s1.workers|;
    if IsFailed(s.jobs, failed) {
      var job := s.jobs[failed];
      var o := Order(newId, job.jobType, job.scope, job.priority);
      assert s1.workers[i] == Checking(o);
      hide Apply, Enqueue;
      TogetherTheyEnqueue(s1, i, o);
    } else {
      assert s1.workers[i] == Gone;
    }
  }

  // ---- The race ---------------------------------------------------------------------------------

  /** Two enqueuers of the same work: both check, then both insert. */
  function Race(a: Order, b: Order): seq<Step> {
    [Begin(Checking(a)), Begin(Checking(b)), Act(0, "", Die), Act(1, "", Die), Act(0, "", Die), Act(1, "", Die)]
  }

  lemma BothChecked(a: Order, b: Order)
    requires a.scope.Some? && b.scope.Some?
    ensures After(Race(a, b)[..4]) == EMPTY.(workers := [Inserting(a), Inserting(b)])
  {
    var run := Race(a, b);
    AfterOneMore(run, 0);
    AfterOneMore(run, 1);
    AfterOneMore(run, 2);
    AfterOneMore(run, 3);
    assert After(run[..0]) == EMPTY;
    hide After;
    assert After(run[..1]) == EMPTY.(workers := [Checking(a)]);
    assert After(run[..2]) == EMPTY.(workers := [Checking(a), Checking(b)]);
    assert After(run[..3]) == EMPTY.(workers := [Inserting(a), Checking(b)]);
  }

  lemma InsertsItsOrder(s: System, i: nat, o: Order)
    requires i < |s.workers| && s.workers[i] == Inserting(o) && o.id !in s.jobs
    ensures var s' := Apply(s, Act(i, "", Die));
            && s'.jobs == s.jobs[o.id := NewJob(o.jobType, o.scope, o.priority, s.now)]
            && s'.workers == s.workers[i := Gone] && s'.now == s.now
            && Inserts(s, Act(i, "", Die))
  {
  }

  lemma BothInserted(a: Order, b: Order)
    requires a.scope.Some? && b.scope.Some? && a.id != b.id
    ensures var s5, s6 := After(Race(a, b)[..5]), After(Race(a, b));
            && s5.jobs == map[a.id := NewJob(a.jobType, a.scope, a.priority, 0)] && s5.workers == [Gone, Inserting(b)]
            && Inserts(s5, Race(a, b)[5])
            && s6.jobs == s5.jobs[b.id := NewJob(b.jobType, b.scope, b.priority, 0)]
  {
    hide After, Apply, Inserts;
    var run := Race(a, b);
    BothChecked(a, b);
    AfterOneMore(run, 4);
    AfterOneMore(run, 5);
    assert run[..6] == run;
    InsertsItsOrder(After(run[..4]), 0, a);
    InsertsItsOrder(After(run[..5]), 1, b);
  }

  /** For any work and any two ids the race ends with the work queued twice. */
  lemma RacingEnqueuesDuplicate(jobType: string, scope: string, a: JobId, b: JobId, p: int, q: int)
    requires a != b
    ensures var run := Race(Order(a, jobType, Some(scope), p), Order(b, jobType, Some(scope), q));
            && UntouchedAt(After(run).jobs, a, jobType, Some(scope))
                && UntouchedAt(After(run).jobs, b, jobType, Some(scope))
            && !SingleUntouched(After(run).jobs) && DuplicatesAt(run, 5)
  {
    hide After, Apply, Inserts;
    var x, y := Order(a, jobType, Some(scope), p), Order(b, jobType, Some(scope), q);
    var run := Race(x, y);
    BothInserted(x, y);
    assert run[5].i == 1 && |run| == 6;
    hide Race;
    var s5, s6 := After(run[..5]), After(run);
    assert UntouchedAt(s5.jobs, a, jobType, Some(scope));
    assert UntouchedAt(s6.jobs, a, jobType, Some(scope)) && UntouchedAt(s6.jobs, b, jobType, Some(scope));
  }
}
