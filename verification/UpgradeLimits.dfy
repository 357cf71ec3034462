/**
 Two things the upgrade store does not promise, with the exact condition under which each holds all the
 same: that a gated state keeps the evidence it demanded, and that one job at a time is under way.
 */
module UpgradeLimits {
  import opened Wrappers
  import opened Evidence
  import opened Lifecycle
  import opened UpgradeTables
  import opened UpgradeStore

  // ---- Gates and observations -----------------------------------------------------------------

  /** The one section of the evidence a safeguard is read from. */
  function SectionOf(g: Safeguard): string {
    match g
    case VerifiedBackup => "backup"
    case RestoredMigrationValidation => "migrationValidation"
    case ArtifactChecksum | ArtifactProvenance | ArtifactSignature | ContainerAvailability => "artifact"
    case RollbackTarget | RollbackRestored | RollbackHealth => "rollback"
    case HealthyTrafficTransition => "deployment"
    case ApplicationHealth | SchemaHealth => "health"
  }

  lemma ReadsOneSection(a: Sections, b: Sections, digest: string, g: Safeguard)
    requires Lookup(a, SectionOf(g)) == Lookup(b, SectionOf(g))
    ensures Provides(a, digest, g) == Provides(b, digest, g)
  {
    hide Lookup;
  }

  /** The delta speaks about a safeguard the state demands, and does not provide it. */
  ghost predicate Withdraws(delta: Sections, s: State, digest: string, g: Safeguard) {
    Guards(g, s) && Lookup(delta, SectionOf(g)).Some? && !Provides(delta, digest, g)
  }

  /** A passed gate survives a merge if and only if the delta withdraws no safeguard of the state. */
  lemma GateSurvivesMerge(stored: Sections, delta: Sections, s: State, digest: string)
    requires GatePasses(s, stored, digest)
    ensures GatePasses(s, Merge(stored, delta), digest) <==> forall g :: !Withdraws(delta, s, digest, g)
  {
    hide Lookup, Guards, Provides;
    var merged := Merge(stored, delta);
    forall g | Guards(g, s) ensures Provides(merged, digest, g) <==> !Withdraws(delta, s, digest, g) {
      if Lookup(delta, SectionOf(g)).Some? {
        ReadsOneSection(merged, delta, digest, g);
      } else {
        ReadsOneSection(merged, stored, digest, g);
      }
    }
  }

  /** What an observation brings decides whether the state keeps the evidence it demanded. */
  lemma ObservationKeepsGate(t: Tables, id: JobId, input: Update)
    requires id in t.jobs && GatePasses(t.jobs[id].state, t.jobs[id].evidence, t.jobs[id].target.digest)
    ensures var job, t' := t.jobs[id], Observe(t, id, input).0;
            && id in t'.jobs && t'.jobs[id].state == job.state && t'.jobs[id].target == job.target
            && (GatePasses(job.state, t'.jobs[id].evidence, job.target.digest)
                <==> forall g :: !Withdraws(input.evidence.GetOr([]), job.state, job.target.digest, g))
  {
    hide GatePasses, Withdraws, EvidenceChanged, MaxSequence, Truncated, Coalesce;
    GateSurvivesMerge(t.jobs[id].evidence, input.evidence.GetOr([]), t.jobs[id].state, t.jobs[id].target.digest);
  }

  // ---- One job under way ---------------------------------------------------------------------------

  ghost predicate UnderWay(jobs: map<JobId, Job>, id: JobId) {
    id in jobs && !Terminal(jobs[id].state)
  }

  ghost predicate OneUnderWay(jobs: map<JobId, Job>) {
    forall a, b | UnderWay(jobs, a) && UnderWay(jobs, b) :: a == b
  }

  /** A job other than this one is under way. */
  ghost predicate OtherUnderWay(jobs: map<JobId, Job>, id: JobId) {
    exists o :: o != id && UnderWay(jobs, o)
  }

  /** A finished job starts its rollback while another job is under way. */
  ghost predicate RollsBackBeside(t: Tables, id: JobId, next: State) {
    && id in t.jobs && t.jobs[id].state in {Completed, Failed} && next == RollbackRequested
    && OtherUnderWay(t.jobs, id)
  }

  /** A job is created, the lock being free, while another one is under way. */
  ghost predicate StartsBeside(t: Tables, id: JobId, key: string) {
    CanInsert(t.jobs, id, key) && OtherUnderWay(t.jobs, id)
  }

  lemma OneMore(jobs: map<JobId, Job>, id: JobId, job: Job)
    requires OneUnderWay(jobs)
    ensures OneUnderWay(jobs[id := job]) <==> Terminal(job.state) || !OtherUnderWay(jobs, id)
  {
    var jobs' := jobs[id := job];
    forall o | o != id ensures UnderWay(jobs', o) == UnderWay(jobs, o) {
    }
    hide Terminal;
    if !Terminal(job.state) && OtherUnderWay(jobs, id) {
      var o :| o != id && UnderWay(jobs, o);
      assert UnderWay(jobs', o) && UnderWay(jobs', id);
    }
  }

  lemma EntersFromTheEnd(from: State, to: State)
    requires CanTransition(from, to) && Terminal(from)
    ensures from in {Completed, Failed} && to == RollbackRequested
  {
  }

  lemma RollbackIsFree(from: State, evidence: Sections, digest: string)
    requires from in {Completed, Failed}
    ensures CanTransition(from, RollbackRequested) && GatePasses(RollbackRequested, evidence, digest)
  {
  }

  /** A transition keeps one job under way if and only if it starts no rollback beside another job. */
  lemma TransitionKeepsOneUnderWay(t: Tables, id: JobId, next: State, input: Update)
    requires OneUnderWay(t.jobs)
    ensures OneUnderWay(Transition(t, id, next, input).0.jobs) <==> !RollsBackBeside(t, id, next)
  {
    hide GatePasses, CanTransition, OneUnderWay, OtherUnderWay, MaxSequence, Terminal, CanReleaseLock;
    if id in t.jobs {
      var job := t.jobs[id];
      var row := Transitioned(job, job, next, input);
      OneMore(t.jobs, id, row);
      OneMore(t.jobs, id, job);
      assert t.jobs[id := job] == t.jobs;
      if job.state in {Completed, Failed} && next == RollbackRequested {
        RollbackIsFree(job.state, Merged(job, input), job.target.digest);
        NotTerminal();
      } else if CanTransition(job.state, next) && Terminal(job.state) {
        EntersFromTheEnd(job.state, next);
      }
    }
  }

  lemma NotTerminal()
    ensures !Terminal(RollbackRequested) && !Terminal(Requested)
  {
  }

  /** A creation keeps one job under way if and only if it does not start a job beside another one. */
  lemma CreateKeepsOneUnderWay(t: Tables, id: JobId, key: string, actor: string, target: Target)
    requires OneUnderWay(t.jobs)
    ensures OneUnderWay(Create(t, id, key, actor, target).0.jobs) <==> !StartsBeside(t, id, key)
  {
    hide OneUnderWay, OtherUnderWay, SequenceTaken, Terminal;
    if CanInsert(t.jobs, id, key) {
      OneMore(t.jobs, id, NewJob(key, actor, target));
      NotTerminal();
    }
  }

  lemma ObserveKeepsOneUnderWay(t: Tables, id: JobId, input: Update)
    requires OneUnderWay(t.jobs)
    ensures OneUnderWay(Observe(t, id, input).0.jobs)
  {
    hide EvidenceChanged, MaxSequence, Merged, Truncated, Coalesce;
    var t' := Observe(t, id, input).0;
    forall o ensures UnderWay(t'.jobs, o) == UnderWay(t.jobs, o) {
    }
  }

  ghost predicate Collides(t: Tables, op: Operation) {
    match op
    case CreateOp(id, key, _, _) => StartsBeside(t, id, key)
    case TransitionOp(id, next, _) => RollsBackBeside(t, id, next)
    case _ => false
  }

  lemma OperationKeepsOneUnderWay(t: Tables, op: Operation)
    requires OneUnderWay(t.jobs)
    ensures OneUnderWay(Execute(t, op).jobs) <==> !Collides(t, op)
  {
    hide OneUnderWay, StartsBeside, RollsBackBeside, Create, Transition, Observe;
    match op
    case CreateOp(id, key, actor, target) => CreateKeepsOneUnderWay(t, id, key, actor, target);
    case TransitionOp(id, next, input) => TransitionKeepsOneUnderWay(t, id, next, input);
    case ObserveOp(id, input) => ObserveKeepsOneUnderWay(t, id, input);
    case _ =>
  }

  ghost predicate OneAt(ops: seq<Operation>, k: nat)
    requires k <= |ops|
  {
    OneUnderWay(Executed(ops[..k]).jobs)
  }

  ghost predicate CollidesAt(ops: seq<Operation>, k: nat)
    requires k < |ops|
  {
    Collides(Executed(ops[..k]), ops[k])
  }

  lemma ExecutedOneMore(ops: seq<Operation>, n: nat)
    requires n < |ops|
    ensures Executed(ops[..n + 1]) == Execute(Executed(ops[..n]), ops[n])
  {
    assert ops[..n + 1][..n] == ops[..n];
  }

  lemma PrefixAgrees(ops: seq<Operation>, n: nat, k: nat)
    requires k <= n <= |ops|
    ensures OneAt(ops[..n], k) == OneAt(ops, k)
    ensures k < n ==> CollidesAt(ops[..n], k) == CollidesAt(ops, k)
  {
    hide Executed, OneUnderWay, Collides;
    assert ops[..n][..k] == ops[..k];
  }

  lemma LastOperationDecides(ops: seq<Operation>, n: nat)
    requires n < |ops| && OneAt(ops, n)
    ensures OneAt(ops, n + 1) <==> !CollidesAt(ops, n)
  {
    hide Executed, Execute, OneUnderWay, Collides;
    ExecutedOneMore(ops, n);
    OperationKeepsOneUnderWay(Executed(ops[..n]), ops[n]);
  }

  lemma NothingIsOne(ops: seq<Operation>)
    ensures OneAt(ops, 0)
  {
    assert ops[..0] == [];
  }

  /** Throughout a run one job at a time is under way if and only if no operation of the run collides. */
  lemma {:induction false} OneUnderWayExactlyWithoutCollisions(ops: seq<Operation>)
    ensures (forall k: nat | k <= |ops| :: OneAt(ops, k)) <==> (forall k: nat | k < |ops| :: !CollidesAt(ops, k))
    decreases |ops|
  {
    hide OneAt, CollidesAt;
    if ops == [] {
      NothingIsOne(ops);
    } else {
      var n := |ops| - 1;
      OneUnderWayExactlyWithoutCollisions(ops[..n]);
      forall k: nat | k <= n
        ensures OneAt(ops[..n], k) == OneAt(ops, k) && (k < n ==> CollidesAt(ops[..n], k) == CollidesAt(ops, k))
      {
        PrefixAgrees(ops, n, k);
      }
      if OneAt(ops, n) {
        LastOperationDecides(ops, n);
      }
    }
  }

  lemma RollbackStarts(t: Tables, id: JobId, input: Update)
    requires id in t.jobs && t.jobs[id].state in {Completed, Failed} && t.jobs[id].lockReleased
    ensures var t' := Transition(t, id, RollbackRequested, input).0;
            && id in t'.jobs && t'.jobs == t.jobs[id := t'.jobs[id]]
            && t'.jobs[id].state == RollbackRequested && t'.jobs[id].lockReleased
  {
    hide MaxSequence, CanReleaseLock, Merged, Provides, Truncated, Coalesce;
    assert forall g :: !Guards(g, RollbackRequested);
  }

  /** Any finished job that has let the lock go may start its rollback beside a job created meanwhile. */
  lemma RollbackRunsBesideANewJob(
    t: Tables, finished: JobId, started: JobId, key: string, actor: string, target: Target, input: Update)
    requires finished in t.jobs && t.jobs[finished].state in {Completed, Failed} && CanInsert(t.jobs, started, key)
    ensures var t' := Transition(Create(t, started, key, actor, target).0, finished, RollbackRequested, input).0;
            && finished in t'.jobs && started in t'.jobs
            && t'.jobs[finished].state == RollbackRequested && t'.jobs[finished].lockReleased
            && t'.jobs[started].state == Requested && HoldsLock(t'.jobs, started)
  {
    hide Transition, SequenceTaken;
    assert !HoldsLock(t.jobs, finished);
    RollbackStarts(Create(t, started, key, actor, target).0, finished, input);
  }

  // ---- Runs from the empty store -----------------------------------------------------------------------

  const TARGET := Target("production", "2.0", "sha256:2")
  const QUIET := Update(None, None, None, None)

  lemma Then(ops: seq<Operation>, op: Operation)
    ensures Executed(ops + [op]) == Execute(Executed(ops), op)
  {
    assert (ops + [op])[..|ops|] == ops;
  }

  /** A job is created in a store without a holder of the lock. */
  lemma Creates(ops: seq<Operation>, id: JobId, key: string)
    requires CanInsert(Executed(ops).jobs, id, key)
    ensures Executed(ops + [CreateOp(id, key, "operator", TARGET)]).jobs
            == Executed(ops).jobs[id := NewJob(key, "operator", TARGET)]
  {
    Then(ops, CreateOp(id, key, "operator", TARGET));
    hide Executed, SequenceTaken, FindByKey, FindActive;
  }

  /** An allowed transition commits. */
  lemma Commits(ops: seq<Operation>, id: JobId, next: State, input: Update)
    requires id in Executed(ops).jobs
    requires var job := Executed(ops).jobs[id];
             CanTransition(job.state, next) && GatePasses(next, Merged(job, input), job.target.digest)
    ensures var job := Executed(ops).jobs[id];
            Executed(ops + [TransitionOp(id, next, input)]).jobs
            == Executed(ops).jobs[id := Transitioned(job, job, next, input)]
  {
    Then(ops, TransitionOp(id, next, input));
    hide Executed, GatePasses, CanTransition, Transitioned, Merged, MaxSequence;
    var current := Executed(ops).jobs[id];
    assert current.state != next by { NoSelfTransition(next); }
  }

  lemma Ungated(s: State, evidence: Sections, digest: string)
    requires s in {Requested, Accepted, Preflight, Backup, CancelRequested, Canceled, Failed,
                   RollbackRequested, RollingBack}
    ensures GatePasses(s, evidence, digest)
  {
  }

  lemma OnlyJob(jobs: map<JobId, Job>, id: JobId, job: Job, other: JobId, key: string)
    requires jobs == map[id := job] && job.lockReleased && other != id && key != job.key
    ensures CanInsert(jobs, other, key)
  {
    assert forall o :: !HasKey(jobs, key, o);
    assert forall o :: !HoldsLock(jobs, o);
  }

  function Harmless(): Json {
    Obj([Field("productionPreserved", Bool(true)), Field("verifiedAt", Str("now"))])
  }

  function FailedHarmlessly(): Update {
    Update(None, Some([Field("failure", Harmless())]), None, None)
  }

  /** A first job fails with proof that production was preserved, and lets the lock go. */
  function FirstFails(): seq<Operation> {
    [CreateOp("a", "first", "operator", TARGET)] + [TransitionOp("a", Failed, FailedHarmlessly())]
  }

  lemma FirstLetsGo() returns (row: Job)
    ensures Executed(FirstFails()).jobs == map["a" := row]
    ensures row.state == Failed && row.lockReleased && row.key == "first"
  {
    assert forall o :: !HasKey(map[], "first", o) && !HoldsLock(map[], o);
    assert [] + [CreateOp("a", "first", "operator", TARGET)] == [CreateOp("a", "first", "operator", TARGET)];
    Creates([], "a", "first");
    var job := NewJob("first", "operator", TARGET);
    var created := [CreateOp("a", "first", "operator", TARGET)];
    assert Executed(created).jobs == map["a" := job];
    Ungated(Failed, Merged(job, FailedHarmlessly()), TARGET.digest);
    row := Transitioned(job, job, Failed, FailedHarmlessly());
    hide Executed, GatePasses, Transitioned;
    Commits(created, "a", Failed, FailedHarmlessly());
    HarmlessFailureReleases(job);
  }

  lemma HarmlessFailureReleases(job: Job)
    ensures var row := Transitioned(job, job, Failed, FailedHarmlessly());
            row.state == Failed && row.lockReleased && row.key == job.key
  {
    var fields := [Field("productionPreserved", Bool(true)), Field("verifiedAt", Str("now"))];
    assert Lookup(fields, "productionPreserved") == Some(Bool(true));
    assert Lookup(fields[1..], "verifiedAt") == Some(Str("now"));
    assert Lookup([Field("failure", Obj(fields))], "failure") == Some(Obj(fields));
    hide Truncated, Coalesce;
  }

  /** The second job starts, and the first is rolled back beside it. */
  function RollbackSecond(): seq<Operation> {
    FirstFails() + [CreateOp("b", "second", "operator", TARGET)] + [TransitionOp("a", RollbackRequested, QUIET)]
  }

  /** The first job is rolled back, and the second starts beside it. */
  function RollbackFirst(): seq<Operation> {
    FirstFails() + [TransitionOp("a", RollbackRequested, QUIET)] + [CreateOp("b", "second", "operator", TARGET)]
  }

  lemma RolledBackRow(job: Job)
    requires job.lockReleased
    ensures var row := Transitioned(job, job, RollbackRequested, QUIET);
            row.state == RollbackRequested && row.lockReleased && row.key == job.key
  {
    hide CanReleaseLock, Merged;
  }

  lemma TwoUnderWay(jobs: map<JobId, Job>, a: JobId, b: JobId)
    requires a in jobs && b in jobs && a != b && jobs[a].state == RollbackRequested && jobs[b].state == Requested
    ensures UnderWay(jobs, a) && UnderWay(jobs, b) && !OneUnderWay(jobs)
  {
    assert UnderWay(jobs, a) && UnderWay(jobs, b);
  }

  /** The second job finds the lock free. */
  lemma SecondStarts(ops: seq<Operation>, row: Job)
    requires Executed(ops).jobs == map["a" := row] && row.lockReleased && row.key == "first"
    ensures Executed(ops + [CreateOp("b", "second", "operator", TARGET)]).jobs
            == map["a" := row]["b" := NewJob("second", "operator", TARGET)]
  {
    OnlyJob(map["a" := row], "a", row, "b", "second");
    hide Executed, CanInsert;
    Creates(ops, "b", "second");
  }

  lemma RollbackBesideANewJob()
    ensures var jobs := Executed(RollbackSecond()).jobs;
            UnderWay(jobs, "a") && UnderWay(jobs, "b") && jobs["a"].state == RollbackRequested && !OneUnderWay(jobs)
  {
    var row := FirstLetsGo();
    RolledBackRow(row);
    RollbackIsFree(Failed, Merged(row, QUIET), row.target.digest);
    hide Executed, FirstFails, GatePasses, Transitioned, OneUnderWay, UnderWay, CanTransition, Merged;
    var ops := FirstFails() + [CreateOp("b", "second", "operator", TARGET)];
    var rolled := Transitioned(row, row, RollbackRequested, QUIET);
    SecondStarts(FirstFails(), row);
    var jobs := Executed(ops).jobs;
    assert jobs == map["a" := row]["b" := NewJob("second", "operator", TARGET)];
    assert jobs["a"] == row;
    Commits(ops, "a", RollbackRequested, QUIET);
    var jobs' := Executed(RollbackSecond()).jobs;
    assert jobs' == jobs["a" := rolled] && jobs'["b"] == NewJob("second", "operator", TARGET);
    TwoUnderWay(jobs', "a", "b");
  }

  lemma FirstRollsBack() returns (row: Job)
    ensures Executed(FirstFails() + [TransitionOp("a", RollbackRequested, QUIET)]).jobs == map["a" := row]
    ensures row.state == RollbackRequested && row.lockReleased && row.key == "first"
  {
    var failed := FirstLetsGo();
    RolledBackRow(failed);
    RollbackIsFree(Failed, Merged(failed, QUIET), failed.target.digest);
    hide Executed, FirstFails, GatePasses, Transitioned, CanTransition, Merged;
    Commits(FirstFails(), "a", RollbackRequested, QUIET);
    row := Transitioned(failed, failed, RollbackRequested, QUIET);
  }

  lemma NewJobBesideARollback()
    ensures var jobs := Executed(RollbackFirst()).jobs;
            UnderWay(jobs, "a") && UnderWay(jobs, "b") && jobs["a"].state == RollbackRequested && !OneUnderWay(jobs)
  {
    hide Executed, FirstFails, OneUnderWay, UnderWay;
    var row := FirstRollsBack();
    SecondStarts(FirstFails() + [TransitionOp("a", RollbackRequested, QUIET)], row);
    TwoUnderWay(Executed(RollbackFirst()).jobs, "a", "b");
  }

  // ---- A withdrawn backup ---------------------------------------------------------------------------------

  function BackedUp(): Update {
    Update(None, Some([
      Field("backup", Obj([Field("verified", Bool(true)), Field("id", Str("b1"))])),
      Field("migrationValidation", Obj([Field("verified", Bool(true)), Field("restoredDatabaseId", Str("d1"))]))]),
      None, None)
  }

  function Withdrawn(): Update {
    Update(None, Some([Field("backup", Null)]), None, None)
  }

  function ToBackup(): seq<Operation> {
    [CreateOp("a", "first", "operator", TARGET)] + [TransitionOp("a", Accepted, QUIET)]
    + [TransitionOp("a", Preflight, QUIET)] + [TransitionOp("a", Backup, QUIET)]
  }

  /** A job on its way to validation, with the evidence that state demands. */
  function Validating(): seq<Operation> {
    ToBackup() + [TransitionOp("a", ValidatingArtifact, BackedUp())]
  }

  lemma QuietStep(ops: seq<Operation>, job: Job, next: State)
    requires Executed(ops).jobs == map["a" := job] && CanTransition(job.state, next)
    requires next in {Accepted, Preflight, Backup}
    ensures var row := Transitioned(job, job, next, QUIET);
            && Executed(ops + [TransitionOp("a", next, QUIET)]).jobs == map["a" := row]
            && row.state == next && row.target == job.target
  {
    hide Executed, GatePasses, CanTransition, CanReleaseLock;
    Ungated(next, Merged(job, QUIET), job.target.digest);
    Commits(ops, "a", next, QUIET);
  }

  lemma BackupSuffices(job: Job)
    ensures GatePasses(ValidatingArtifact, Merged(job, BackedUp()), job.target.digest)
  {
    var backup := [Field("verified", Bool(true)), Field("id", Str("b1"))];
    var validation := [Field("verified", Bool(true)), Field("restoredDatabaseId", Str("d1"))];
    assert Lookup(backup, "verified") == Some(Bool(true)) && Lookup(backup[1..], "id") == Some(Str("b1"));
    assert Lookup(validation, "verified") == Some(Bool(true));
    assert Lookup(validation[1..], "restoredDatabaseId") == Some(Str("d1"));
    var delta := BackedUp().evidence.value;
    assert Lookup(delta, "backup") == Some(Obj(backup));
    assert Lookup(delta[1..], "migrationValidation") == Some(Obj(validation));
    var merged := Merged(job, BackedUp());
    assert Lookup(merged, "backup") == Some(Obj(backup))
        && Lookup(merged, "migrationValidation") == Some(Obj(validation));
  }

  lemma Begins() returns (row: Job)
    ensures Executed([CreateOp("a", "first", "operator", TARGET)]).jobs == map["a" := row]
    ensures row == NewJob("first", "operator", TARGET)
  {
    assert forall o :: !HasKey(map[], "first", o) && !HoldsLock(map[], o);
    var ops := [CreateOp("a", "first", "operator", TARGET)];
    assert [] + ops == ops;
    row := NewJob("first", "operator", TARGET);
    Creates([], "a", "first");
  }

  lemma ReachesBackup() returns (row: Job)
    ensures Executed(ToBackup()).jobs == map["a" := row] && row.state == Backup
  {
    var job := Begins();
    hide Executed, Transitioned;
    var r1 := [CreateOp("a", "first", "operator", TARGET)];
    var r2 := r1 + [TransitionOp("a", Accepted, QUIET)];
    var r3 := r2 + [TransitionOp("a", Preflight, QUIET)];
    QuietStep(r1, job, Accepted);
    var accepted := Transitioned(job, job, Accepted, QUIET);
    QuietStep(r2, accepted, Preflight);
    var preflight := Transitioned(accepted, accepted, Preflight, QUIET);
    QuietStep(r3, preflight, Backup);
    row := Transitioned(preflight, preflight, Backup, QUIET);
  }

  lemma ReachesValidation() returns (row: Job)
    ensures Executed(Validating()).jobs == map["a" := row] && row.state == ValidatingArtifact
    ensures GatePasses(row.state, row.evidence, row.target.digest)
  {
    var backup := ReachesBackup();
    hide Executed, GatePasses, Transitioned, BackedUp, ToBackup;
    BackupSuffices(backup);
    Commits(ToBackup(), "a", ValidatingArtifact, BackedUp());
    row := Transitioned(backup, backup, ValidatingArtifact, BackedUp());
    GatedRow(backup);
  }

  lemma GatedRow(job: Job)
    ensures var row := Transitioned(job, job, ValidatingArtifact, BackedUp());
            row.state == ValidatingArtifact && row.target == job.target && row.evidence == Merged(job, BackedUp())
  {
    hide CanReleaseLock, Merged, Truncated;
  }

  /** A run that ends with a job in validation whose backup an observation has withdrawn. */
  lemma ObservationMayBreakTheGate()
    ensures var job := Executed(Validating() + [ObserveOp("a", Withdrawn())]).jobs;
            && "a" in job && job["a"].state == ValidatingArtifact
            && !GatePasses(job["a"].state, job["a"].evidence, job["a"].target.digest)
  {
    var row := ReachesValidation();
    Then(Validating(), ObserveOp("a", Withdrawn()));
    hide Executed, Validating, GatePasses, Observe, Withdraws;
    ObservationKeepsGate(Executed(Validating()), "a", Withdrawn());
    BackupIsWithdrawn(row.target.digest);
  }

  lemma BackupIsWithdrawn(digest: string)
    ensures Withdraws(Withdrawn().evidence.GetOr([]), ValidatingArtifact, digest, VerifiedBackup)
  {
    var delta := Withdrawn().evidence.value;
    assert Lookup(delta, "backup") == Some(Null);
  }
}
