/**
 Two runs of the upgrade store from its empty tables: an upgrade that goes through, with evidence as a
 controller reports it, and one whose failure is not known to have left production alone.
 */
module UpgradeRuns {
  import opened Wrappers
  import opened Evidence
  import opened Lifecycle
  import opened UpgradeTables
  import opened UpgradeStore
  import L = UpgradeLimits

  const TARGET := L.TARGET
  const TRUE: Json := Bool(true)

  // ---- An upgrade that goes through ------------------------------------------------------------------

  function Backup(): Sections {
    Put(Put(Put([], "verified", TRUE), "id", Str("backup-1")), "completedAt", Str("2026-09-05T00:02:00Z"))
  }

  function Validation(): Sections {
    Put(Put(Put([], "verified", TRUE), "restoredDatabaseId", Str("restore-1")), "sourceSchema", Num(9.0))
  }

  function Artifact(): Sections {
    Put(Put(Put(Put(Put([], "digest", Str("sha256:2")), "checksumVerified", TRUE), "provenanceVerified", TRUE),
            "signatureVerified", TRUE), "imageAvailable", TRUE)
  }

  function Rollback(): Sections {
    Put(Put(Put([], "available", TRUE), "revision", Str("previous")), "imageDigest", Str("sha256:1"))
  }

  function Deployment(): Sections {
    Put(Put(Put([], "revision", Str("candidate")), "imageDigest", Str("sha256:2")), "trafficPercent", Num(100.0))
  }

  function Health(): Sections {
    Put(Put(Put([], "application", TRUE), "schema", TRUE), "checkedAt", Str("2026-09-05T00:19:00Z"))
  }

  /** What has to be proved before the deployment, and what is proved by it. */
  function Prepared(): Sections {
    Put(Put(Put(Put([], "backup", Obj(Backup())), "migrationValidation", Obj(Validation())),
            "artifact", Obj(Artifact())), "rollback", Obj(Rollback()))
  }

  /** Everything at once, as a controller reports a finished upgrade. */
  function Everything(): Sections {
    Put(Put(Prepared(), "deployment", Obj(Deployment())), "health", Obj(Health()))
  }

  function Reported(): Update {
    Update(None, Some(Everything()), None, None)
  }

  lemma BackupIsProven(evidence: Sections)
    requires Lookup(evidence, "backup") == Some(Obj(Backup()))
    requires Lookup(evidence, "migrationValidation") == Some(Obj(Validation()))
    ensures BackupProven(evidence)
  {
    hide Lookup, Put;
  }

  lemma ArtifactFields()
    ensures Lookup(Artifact(), "digest") == Some(Str("sha256:2"))
    ensures Lookup(Artifact(), "checksumVerified") == Some(TRUE)
    ensures Lookup(Artifact(), "provenanceVerified") == Some(TRUE)
    ensures Lookup(Artifact(), "signatureVerified") == Some(TRUE)
    ensures Lookup(Artifact(), "imageAvailable") == Some(TRUE)
  {
    hide Lookup, Put;
  }

  lemma RollbackFields()
    ensures Lookup(Rollback(), "available") == Some(TRUE)
    ensures Lookup(Rollback(), "revision") == Some(Str("previous"))
    ensures Lookup(Rollback(), "imageDigest") == Some(Str("sha256:1"))
  {
    hide Lookup, Put;
  }

  lemma ArtifactIsProven(evidence: Sections)
    requires Lookup(evidence, "artifact") == Some(Obj(Artifact()))
    requires Lookup(evidence, "rollback") == Some(Obj(Rollback()))
    ensures ArtifactProven(evidence, "sha256:2")
  {
    ArtifactFields();
    RollbackFields();
    hide Lookup, Put, Artifact, Rollback;
  }

  lemma DeploymentFields()
    ensures Lookup(Deployment(), "revision") == Some(Str("candidate"))
    ensures Lookup(Deployment(), "imageDigest") == Some(Str("sha256:2"))
    ensures Lookup(Deployment(), "trafficPercent") == Some(Num(100.0))
  {
    hide Lookup, Put;
  }

  lemma TrafficIsMoved(evidence: Sections)
    requires Lookup(evidence, "deployment") == Some(Obj(Deployment()))
    requires Lookup(evidence, "health") == Some(Obj(Health()))
    ensures TrafficMoved(evidence, "sha256:2")
  {
    DeploymentFields();
    hide Lookup, Put, Deployment;
  }

  /** The sections of a report, wherever they are stored. */
  ghost predicate Holding(evidence: Sections) {
    && Lookup(evidence, "backup") == Some(Obj(Backup()))
    && Lookup(evidence, "migrationValidation") == Some(Obj(Validation()))
    && Lookup(evidence, "artifact") == Some(Obj(Artifact())) && Lookup(evidence, "rollback") == Some(Obj(Rollback()))
    && Lookup(evidence, "deployment") == Some(Obj(Deployment())) && Lookup(evidence, "health") == Some(Obj(Health()))
  }

  lemma EverySection()
    ensures Holding(Everything())
  {
    hide Lookup, Put, Backup, Validation, Artifact, Rollback, Deployment, Health;
  }

  lemma HoldingIsProven(evidence: Sections)
    requires Holding(evidence)
    ensures BackupProven(evidence) && ArtifactProven(evidence, "sha256:2") && TrafficMoved(evidence, "sha256:2")
  {
    hide Lookup, Backup, Validation, Artifact, Rollback, Deployment, Health, BackupProven, ArtifactProven, TrafficMoved;
    BackupIsProven(evidence);
    ArtifactIsProven(evidence);
    TrafficIsMoved(evidence);
  }

  lemma SectionOver(stored: Sections, delta: Sections, name: string)
    requires Lookup(delta, name).Some?
    ensures Lookup(Merge(stored, delta), name) == Lookup(delta, name)
  {
  }

  lemma ReportIsHeld(stored: Sections, delta: Sections)
    requires Holding(delta)
    ensures Holding(Merge(stored, delta))
  {
    hide Lookup, Merge, Backup, Validation, Artifact, Rollback, Deployment, Health;
    SectionOver(stored, delta, "backup");
    SectionOver(stored, delta, "migrationValidation");
    SectionOver(stored, delta, "artifact");
    SectionOver(stored, delta, "rollback");
    SectionOver(stored, delta, "deployment");
    SectionOver(stored, delta, "health");
  }

  lemma ProvenOver(stored: Sections)
    ensures var merged := Merge(stored, Everything());
            BackupProven(merged) && ArtifactProven(merged, "sha256:2") && TrafficMoved(merged, "sha256:2")
  {
    EverySection();
    hide Lookup, Merge, Everything, Holding, BackupProven, ArtifactProven, TrafficMoved;
    ReportIsHeld(stored, Everything());
    HoldingIsProven(Merge(stored, Everything()));
  }

  /** It passes every gate of the chain, whatever was stored before. */
  lemma EverythingPasses(job: Job, next: State)
    requires job.target == TARGET
    requires next != RolledBack
    ensures GatePasses(next, Merged(job, Reported()), job.target.digest)
  {
    var merged := Merged(job, Reported());
    ProvenOver(job.evidence);
    hide GatePasses, Merge, BackupProven, ArtifactProven, TrafficMoved, Everything;
    GateMeans(next, merged, "sha256:2");
  }

  function Begun(): seq<Operation> {
    [CreateOp("a", "first", "operator", TARGET)]
  }

  /** One transition after another along the chain, each with the whole report. */
  function Along(n: nat): seq<Operation>
    requires n <= |CHAIN|
  {
    if n == 0 then Begun() else Along(n - 1) + [TransitionOp("a", CHAIN[n - 1], Reported())]
  }

  lemma ChainStep(n: nat)
    requires n < |CHAIN|
    ensures CanTransition(if n == 0 then Requested else CHAIN[n - 1], CHAIN[n]) && CHAIN[n] != RolledBack
  {
  }

  lemma MovedRow(job: Job, next: State)
    ensures var row := Transitioned(job, job, next, Reported());
            row.state == next && row.target == job.target && (next == Completed ==> row.lockReleased)
  {
    ReleaseMeans(next, Merged(job, Reported()));
    hide CanReleaseLock, Merged, Truncated, Coalesce, HarmlessFailure;
  }

  lemma GoesOn(ops: seq<Operation>, job: Job, next: State)
    requires Executed(ops).jobs == map["a" := job] && job.target == TARGET
    requires CanTransition(job.state, next) && next != RolledBack
    ensures var row := Transitioned(job, job, next, Reported());
            && Executed(ops + [TransitionOp("a", next, Reported())]).jobs == map["a" := row]
            && row.state == next && row.target == TARGET && (next == Completed ==> row.lockReleased)
  {
    hide Executed, GatePasses, CanTransition, Merged, Transitioned, Reported;
    EverythingPasses(job, next);
    L.Commits(ops, "a", next, Reported());
    MovedRow(job, next);
  }

  lemma {:induction false} GoesAlong(n: nat) returns (row: Job)
    requires n <= |CHAIN|
    ensures Executed(Along(n)).jobs == map["a" := row] && row.target == TARGET
    ensures row.state == (if n == 0 then Requested else CHAIN[n - 1])
    ensures row.state == Completed ==> row.lockReleased
  {
    hide Executed, CanTransition, Transitioned, Reported;
    if n == 0 {
      row := L.Begins();
    } else {
      var job := GoesAlong(n - 1);
      ChainStep(n - 1);
      GoesOn(Along(n - 1), job, CHAIN[n - 1]);
      row := Transitioned(job, job, CHAIN[n - 1], Reported());
    }
  }

  /** With such a report the job goes from the request to its completion, and lets the lock go. */
  lemma UpgradeGoesThrough()
    ensures var jobs := Executed(Along(7)).jobs;
            && "a" in jobs && jobs["a"].state == Completed && jobs["a"].lockReleased
            && FindActive(jobs).None?
  {
    hide Executed, Along, FindActive;
    var row := GoesAlong(7);
  }

  // ---- A failure that is not known to be harmless ---------------------------------------------------------

  /** The controller has verified the failure, and found production changed. */
  function Harm(): Update {
    Update(None, Some([Field("failure", Obj([
        Field("productionPreserved", Bool(false)), Field("verifiedAt", Str("2026-09-04T00:00:00Z"))]))]), None, None)
  }

  function Harmful(): seq<Operation> {
    Begun() + [TransitionOp("a", Failed, Harm())]
  }

  lemma HarmIsNotHarmless(job: Job)
    ensures !HarmlessFailure(Merged(job, Harm()))
  {
    var fields := [Field("productionPreserved", Bool(false)), Field("verifiedAt", Str("2026-09-04T00:00:00Z"))];
    assert Lookup(fields, "productionPreserved") == Some(Bool(false));
    assert Lookup(Harm().evidence.value, "failure") == Some(Obj(fields));
  }

  /** The failed job keeps the lock, and no other job can be created. */
  lemma HarmKeepsTheLock(id: JobId, key: string, actor: string, target: Target)
    requires key != "first"
    ensures var t := Executed(Harmful());
            && "a" in t.jobs && t.jobs["a"].state == Failed && HoldsLock(t.jobs, "a")
            && Create(t, id, key, actor, target) == (t, InProgress("a"))
  {
    hide Executed, GatePasses, Transitioned, Merged, Harm;
    var job := L.Begins();
    L.Ungated(Failed, Merged(job, Harm()), TARGET.digest);
    FailureIsOpen();
    L.Commits(Begun(), "a", Failed, Harm());
    HarmIsNotHarmless(job);
    HarmedRow(job);
    var jobs := Executed(Harmful()).jobs;
    assert jobs == map["a" := Transitioned(job, job, Failed, Harm())];
    assert HoldsLock(jobs, "a") && forall o :: HoldsLock(jobs, o) ==> o == "a";
    assert forall o :: !HasKey(jobs, key, o);
  }

  lemma FailureIsOpen()
    ensures CanTransition(Requested, Failed)
  {
  }

  lemma HarmedRow(job: Job)
    requires !HarmlessFailure(Merged(job, Harm()))
    ensures var row := Transitioned(job, job, Failed, Harm());
            row.state == Failed && row.key == job.key && row.lockReleased == job.lockReleased
  {
    ReleaseMeans(Failed, Merged(job, Harm()));
    hide CanReleaseLock, Merged, Truncated, Coalesce, HarmlessFailure, Harm;
  }
}
