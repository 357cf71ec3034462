/**
 The limits of the upgrade store when statements interleave. A transition is checked against the row its
 worker has read and committed on the row as it is by then; exactly when every stored job has the evidence
 its state demands, and exactly when one job at a time is under way, over all runs.
 */
module UpgradeConcurrency {
  import opened Wrappers
  import opened Evidence
  import opened Lifecycle
  import opened UpgradeTables
  import opened UpgradeProtocol
  import opened UpgradeLimits

  // ---- What a step does to the rows -------------------------------------------------------------

  /** The rows after the step of a worker: three statements write them. */
  ghost function RowsAfter(jobs: map<JobId, Job>, w: Worker, c: Choice): map<JobId, Job> {
    match w
    case InsertJob(r) =>
      if !c.fault && CanInsert(jobs, c.id, r.key) then jobs[c.id := NewJob(r.key, r.actor, r.target)] else jobs
    case CommitTransition(change, current) =>
      if !c.fault && StateMatches(jobs, change.id, current)
      then jobs[change.id := Transitioned(jobs[change.id], current, change.next, change.input)] else jobs
    case CommitObservation(id, input, current) =>
      if !c.fault && RowMatches(jobs, id, current) then jobs[id := Observed(jobs[id], current, input)] else jobs
    case _ => jobs
  }

  lemma RequestRows(s: System, i: nat, c: Choice)
    requires i < |s.workers| && InRequest(s.workers[i])
    ensures Apply(s, Act(i, c)).tables.jobs == RowsAfter(s.tables.jobs, s.workers[i], c)
  {
    hide Consumable, SequenceTaken, CanInsert, Transitioned, Observed, Replay, FindActive, Extended;
    match s.workers[i]
    case InsertJob(r) => OnlyAnswers(s.tables, r, Finished);
    case LookUpKey(r) =>
      OnlyAnswers(s.tables, r, Finished);
      hide FindByKey;
    case RecheckKey(r) => OnlyAnswers(s.tables, r, CheckLock(r));
    case ReplayAfterConflict(r) => OnlyAnswers(s.tables, r, Finished);
    case _ =>
  }

  lemma OnlyAnswers(t: Tables, r: RequestBody, otherwise: Worker)
    ensures Replay(t, r, otherwise).effect.Nothing? || Replay(t, r, otherwise).effect.Answer?
  {
    hide FindByKey;
  }

  /** Apart from its commit a writer touches no row. */
  lemma OnlyCommitsWrite(s: System, i: nat, c: Choice)
    requires i < |s.workers| && !InRequest(s.workers[i])
    requires !s.workers[i].CommitTransition? && !s.workers[i].CommitObservation?
    ensures PlanOf(s, i, c).effect.Nothing? || PlanOf(s, i, c).effect.AddEvent? || PlanOf(s, i, c).effect.Answer?
  {
    hide GatePasses, CanTransition, MaxSequence, SequenceTaken, Merged, Raise;
  }

  lemma WriterRows(s: System, i: nat, c: Choice)
    requires i < |s.workers| && !InRequest(s.workers[i])
    ensures Apply(s, Act(i, c)).tables.jobs == RowsAfter(s.tables.jobs, s.workers[i], c)
  {
    hide Transitioned, Observed, Raise, Extended, CanInsert, EvidenceChanged;
    if !s.workers[i].CommitTransition? && !s.workers[i].CommitObservation? {
      OnlyCommitsWrite(s, i, c);
      hide PlanOf;
    }
  }

  ghost predicate Acts(s: System, e: Step) {
    e.Act? && e.i < |s.workers|
  }

  lemma StepRows(s: System, e: Step)
    ensures Apply(s, e).tables.jobs
            == if Acts(s, e) then RowsAfter(s.tables.jobs, s.workers[e.i], e.choice) else s.tables.jobs
  {
    hide RowsAfter, PlanOf, Perform;
    if Acts(s, e) {
      hide Apply;
      if InRequest(s.workers[e.i]) {
        RequestRows(s, e.i, e.choice);
      } else {
        WriterRows(s, e.i, e.choice);
      }
    }
  }

  // ---- Evidence of the stored state ------------------------------------------------------------------

  /** The stored evidence passes the gate of the stored state. */
  ghost predicate Gated(job: Job) {
    GatePasses(job.state, job.evidence, job.target.digest)
  }

  ghost predicate AllGated(jobs: map<JobId, Job>) {
    forall id | id in jobs :: Gated(jobs[id])
  }

  /** The state to come demands a safeguard that the stored evidence does not provide. */
  ghost predicate Lacks(job: Job, next: State, g: Safeguard) {
    Guards(g, next) && !Provides(job.evidence, job.target.digest, g)
  }

  /**
   A transition that brings no evidence leaves the stored evidence behind, whatever the gate was checked
   against; one that brings evidence stores what passed the gate.
   */
  lemma TransitionCommitIsGated(s: System, i: nat, c: Choice)
    requires i < |s.workers| && s.workers[i].CommitTransition? && WorkerOk(s, s.workers[i], i) && !c.fault
    requires StateMatches(s.tables.jobs, s.workers[i].change.id, s.workers[i].current)
    ensures var change, row := s.workers[i].change, s.tables.jobs[s.workers[i].change.id];
            var jobs' := Apply(s, Act(i, c)).tables.jobs;
            && change.id in jobs' && jobs'[change.id].state == change.next
            && (Gated(jobs'[change.id]) <==> change.input.evidence.Some? || forall g :: !Lacks(row, change.next, g))
  {
    hide Apply, Provides, Guards, CanReleaseLock, Merge, Truncated, Coalesce, CanTransition;
    WriterRows(s, i, c);
    var change, row := s.workers[i].change, s.tables.jobs[s.workers[i].change.id];
    TransitionStores(row, s.workers[i].current, change);
    hide Transitioned, WorkerOk;
    var row' := Apply(s, Act(i, c)).tables.jobs[change.id];
    if change.input.evidence.None? {
      assert forall g :: Guards(g, change.next) && !Provides(row'.evidence, row'.target.digest, g)
                         <==> Lacks(row, change.next, g);
    }
  }

  /** An observation leaves a gated state its evidence if and only if it withdraws no safeguard of that state. */
  lemma ObservationCommitIsGated(s: System, i: nat, c: Choice)
    requires i < |s.workers| && s.workers[i].CommitObservation? && !c.fault
    requires RowMatches(s.tables.jobs, s.workers[i].id, s.workers[i].current) && Gated(s.tables.jobs[s.workers[i].id])
    ensures var id, row := s.workers[i].id, s.tables.jobs[s.workers[i].id];
            var jobs' := Apply(s, Act(i, c)).tables.jobs;
            && id in jobs' && jobs'[id].state == row.state
            && (Gated(jobs'[id])
                <==> forall g :: !Withdraws(s.workers[i].input.evidence.GetOr([]), row.state, row.target.digest, g))
  {
    hide Apply, GatePasses, Withdraws, Truncated, Coalesce;
    WriterRows(s, i, c);
    var row := s.tables.jobs[s.workers[i].id];
    GateSurvivesMerge(row.evidence, s.workers[i].input.evidence.GetOr([]), row.state, row.target.digest);
  }

  /** The step commits, and leaves its job without evidence its state demands. */
  ghost predicate Ungates(s: System, e: Step) {
    && Acts(s, e) && !e.choice.fault
    && match s.workers[e.i]
       case CommitTransition(change, current) =>
         && StateMatches(s.tables.jobs, change.id, current) && change.input.evidence.None?
         && exists g :: Lacks(s.tables.jobs[change.id], change.next, g)
       case CommitObservation(id, input, current) =>
         && RowMatches(s.tables.jobs, id, current)
         && var row := s.tables.jobs[id];
            exists g :: Withdraws(input.evidence.GetOr([]), row.state, row.target.digest, g)
       case _ => false
  }

  lemma NewJobIsGated(key: string, actor: string, target: Target)
    ensures Gated(NewJob(key, actor, target))
  {
  }

  lemma OneRowDecides(jobs: map<JobId, Job>, id: JobId, job: Job)
    requires AllGated(jobs)
    ensures AllGated(jobs[id := job]) <==> Gated(job)
  {
    hide Gated;
    assert jobs[id := job][id] == job;
  }

  lemma StepKeepsGated(s: System, e: Step)
    requires WorkersOk(s) && AllGated(s.tables.jobs)
    ensures AllGated(Apply(s, e).tables.jobs) <==> !Ungates(s, e)
  {
    hide Apply, Gated, WorkerOk, CanInsert, Transitioned, Observed, Lacks, Withdraws, AllGated;
    StepRows(s, e);
    if Acts(s, e) && !e.choice.fault {
      assert WorkerOk(s, s.workers[e.i], e.i);
      var jobs, jobs' := s.tables.jobs, Apply(s, e).tables.jobs;
      match s.workers[e.i]
      case InsertJob(r) =>
        NewJobIsGated(r.key, r.actor, r.target);
        OneRowDecides(jobs, e.choice.id, NewJob(r.key, r.actor, r.target));
      case CommitTransition(change, current) =>
        if StateMatches(jobs, change.id, current) {
          TransitionCommitIsGated(s, e.i, e.choice);
          OneRowDecides(jobs, change.id, jobs'[change.id]);
        }
      case CommitObservation(id, input, current) =>
        if RowMatches(jobs, id, current) {
          assert Gated(jobs[id]) by { StoredIsGated(jobs, id); }
          ObservationCommitIsGated(s, e.i, e.choice);
          OneRowDecides(jobs, id, jobs'[id]);
        }
      case _ =>
    }
  }

  lemma StoredIsGated(jobs: map<JobId, Job>, id: JobId)
    requires AllGated(jobs) && id in jobs
    ensures Gated(jobs[id])
  {
  }

  // ---- One job under way ------------------------------------------------------------------------------

  /** The step inserts a job beside an unfinished one, or starts the rollback of a finished job beside one. */
  ghost predicate CollidesHere(s: System, e: Step) {
    && Acts(s, e) && !e.choice.fault
    && match s.workers[e.i]
       case InsertJob(r) => StartsBeside(s.tables, e.choice.id, r.key)
       case CommitTransition(change, current) =>
         StateMatches(s.tables.jobs, change.id, current) && RollsBackBeside(s.tables, change.id, change.next)
       case _ => false
  }

  /** A row that only moves between unfinished states, or ends, makes no second job. */
  lemma MovedRowDecides(t: Tables, id: JobId, row: Job, next: State)
    requires OneUnderWay(t.jobs) && id in t.jobs && CanTransition(t.jobs[id].state, next) && row.state == next
    ensures OneUnderWay(t.jobs[id := row]) <==> !RollsBackBeside(t, id, next)
  {
    hide OneUnderWay, OtherUnderWay, CanTransition, Terminal;
    OneMore(t.jobs, id, row);
    OneMore(t.jobs, id, t.jobs[id]);
    assert t.jobs[id := t.jobs[id]] == t.jobs;
    EndsAreTerminal();
    if Terminal(t.jobs[id].state) {
      EntersFromTheEnd(t.jobs[id].state, next);
    }
  }

  lemma EndsAreTerminal()
    ensures Terminal(Completed) && Terminal(Failed) && !Terminal(RollbackRequested)
  {
  }

  lemma StepKeepsOneUnderWay(s: System, e: Step)
    requires WorkersOk(s) && OneUnderWay(s.tables.jobs)
    ensures OneUnderWay(Apply(s, e).tables.jobs) <==> !CollidesHere(s, e)
  {
    hide Apply, OneUnderWay, OtherUnderWay, CanInsert, Transitioned, Observed, RollsBackBeside, CanTransition, Terminal;
    StepRows(s, e);
    if Acts(s, e) && !e.choice.fault {
      assert WorkerOk(s, s.workers[e.i], e.i);
      var jobs := s.tables.jobs;
      match s.workers[e.i]
      case InsertJob(r) =>
        hide WorkerOk;
        OneMore(jobs, e.choice.id, NewJob(r.key, r.actor, r.target));
        NotTerminal();
      case CommitTransition(change, current) =>
        if StateMatches(jobs, change.id, current) {
          var row := Transitioned(jobs[change.id], current, change.next, change.input);
          TransitionStores(jobs[change.id], current, change);
          assert CanTransition(current.state, change.next);
          hide WorkerOk;
          MovedRowDecides(s.tables, change.id, row, change.next);
        }
      case CommitObservation(id, input, current) =>
        hide WorkerOk;
        if RowMatches(jobs, id, current) {
          ObservedRowStays(jobs, id, current, input);
        }
      case _ =>
    }
  }

  lemma ObservedRowStays(jobs: map<JobId, Job>, id: JobId, current: Job, input: Update)
    requires OneUnderWay(jobs) && id in jobs
    ensures OneUnderWay(jobs[id := Observed(jobs[id], current, input)])
  {
    hide Merged, Truncated, Coalesce;
    var jobs' := jobs[id := Observed(jobs[id], current, input)];
    forall o ensures UnderWay(jobs', o) == UnderWay(jobs, o) {
    }
  }

  // ---- Whole runs -----------------------------------------------------------------------------------------

  ghost predicate GatedAt(run: seq<Step>, k: nat)
    requires k <= |run|
  {
    AllGated(After(run[..k]).tables.jobs)
  }

  ghost predicate UngatesAt(run: seq<Step>, k: nat)
    requires k < |run|
  {
    Ungates(After(run[..k]), run[k])
  }

  ghost predicate OneUnderWayAt(run: seq<Step>, k: nat)
    requires k <= |run|
  {
    OneUnderWay(After(run[..k]).tables.jobs)
  }

  ghost predicate CollidesHereAt(run: seq<Step>, k: nat)
    requires k < |run|
  {
    CollidesHere(After(run[..k]), run[k])
  }

  lemma AfterOneMore(run: seq<Step>, n: nat)
    requires n < |run|
    ensures After(run[..n + 1]) == Apply(After(run[..n]), run[n]) && WorkersOk(After(run[..n]))
  {
    assert run[..n + 1][..n] == run[..n];
    hide Apply, After;
    RunKeepsInv(run[..n]);
  }

  lemma StartsEmpty(run: seq<Step>)
    ensures GatedAt(run, 0) && OneUnderWayAt(run, 0)
  {
    assert run[..0] == [];
  }

  lemma RunPrefixAgrees(run: seq<Step>, n: nat, k: nat)
    requires k <= n <= |run|
    ensures GatedAt(run[..n], k) == GatedAt(run, k) && OneUnderWayAt(run[..n], k) == OneUnderWayAt(run, k)
    ensures k < n ==> UngatesAt(run[..n], k) == UngatesAt(run, k)
    ensures k < n ==> CollidesHereAt(run[..n], k) == CollidesHereAt(run, k)
  {
    hide After, AllGated, Ungates, OneUnderWay, CollidesHere;
    assert run[..n][..k] == run[..k];
  }

  lemma LastStepDecides(run: seq<Step>, n: nat)
    requires n < |run|
    ensures GatedAt(run, n) ==> (GatedAt(run, n + 1) <==> !UngatesAt(run, n))
    ensures OneUnderWayAt(run, n) ==> (OneUnderWayAt(run, n + 1) <==> !CollidesHereAt(run, n))
  {
    hide After, Apply, AllGated, Ungates, OneUnderWay, CollidesHere, WorkersOk;
    AfterOneMore(run, n);
    if GatedAt(run, n) {
      StepKeepsGated(After(run[..n]), run[n]);
    }
    if OneUnderWayAt(run, n) {
      StepKeepsOneUnderWay(After(run[..n]), run[n]);
    }
  }

  /** Every job has the evidence its state demands throughout a run, if and only if no commit of the run ungates. */
  lemma {:induction false} GatedExactlyWithoutUngating(run: seq<Step>)
    ensures (forall k: nat | k <= |run| :: GatedAt(run, k)) <==> (forall k: nat | k < |run| :: !UngatesAt(run, k))
    decreases |run|
  {
    hide GatedAt, UngatesAt, OneUnderWayAt, CollidesHereAt;
    if run == [] {
      StartsEmpty(run);
    } else {
      var n := |run| - 1;
      GatedExactlyWithoutUngating(run[..n]);
      forall k: nat | k <= n
        ensures GatedAt(run[..n], k) == GatedAt(run, k) && (k < n ==> UngatesAt(run[..n], k) == UngatesAt(run, k))
      {
        RunPrefixAgrees(run, n, k);
      }
      LastStepDecides(run, n);
    }
  }

  /** One job at a time is under way throughout a run of any interleaving, if and only if no step of it collides. */
  lemma {:induction false} OneUnderWayExactlyWithoutCollidingSteps(run: seq<Step>)
    ensures (forall k: nat | k <= |run| :: OneUnderWayAt(run, k))
       <==> (forall k: nat | k < |run| :: !CollidesHereAt(run, k))
    decreases |run|
  {
    hide GatedAt, UngatesAt, OneUnderWayAt, CollidesHereAt;
    if run == [] {
      StartsEmpty(run);
    } else {
      var n := |run| - 1;
      OneUnderWayExactlyWithoutCollidingSteps(run[..n]);
      forall k: nat | k <= n
        ensures OneUnderWayAt(run[..n], k) == OneUnderWayAt(run, k)
        ensures k < n ==> CollidesHereAt(run[..n], k) == CollidesHereAt(run, k)
      {
        RunPrefixAgrees(run, n, k);
      }
      LastStepDecides(run, n);
    }
  }
}
