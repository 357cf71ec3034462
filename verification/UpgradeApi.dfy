/**
 The handlers behind the upgrade endpoints, each run to its end: polling a job reconciles it
 with the state its controller reports, a request creates a job and hands it to the
 controller, and an action cancels a job or rolls it back. The controller is an adversary:
 what it answers is a parameter.
 */
module UpgradeApi {
  import opened Wrappers
  import opened Evidence
  import opened Lifecycle
  import opened ShortestPath
  import opened UpgradeTables
  import opened UpgradeStore

  // ---- Polling --------------------------------------------------------------------------

  datatype Status = Status(
    state: State, evidence: Option<Sections>, errorCode: Option<string>, errorDetail: Option<string>)

  /** The error is recorded only with the state that was actually observed. */
  function Reported(status: Status, s: State): Update {
    if s == status.state then Update(None, status.evidence, status.errorCode, status.errorDetail)
    else Update(None, status.evidence, None, None)
  }

  ghost function Reconcile(t: Tables, id: JobId, path: seq<State>, status: Status): Tables
    decreases |path|
  {
    if path == [] then t
    else
      var (t', r) := Transition(t, id, path[0], Reported(status, path[0]));
      if r.Err? then t' else Reconcile(t', id, path[1..], status)
  }

  /** A job with a controller that has not come to an end. */
  predicate Polled(job: Job) {
    HasController(job) && !Terminal(job.state)
  }

  ghost predicate IsPoll(t: Tables, id: JobId, status: Option<Status>, t': Tables) {
    if id !in t.jobs || !Polled(t.jobs[id]) || status.None? then t' == t
    else if status.value.state == t.jobs[id].state then
      t' == Observe(t, id, Reported(status.value, status.value.state)).0
    else exists path :: IsGovernedPath(t.jobs[id].state, status.value.state, path)
                        && t' == Reconcile(t, id, path, status.value)
  }

  method PollJob(db: UpgradeDb, id: JobId, status: Option<Status>) returns (r: Option<Job>)
    requires db.Valid()
    modifies db
    ensures db.Valid() && IsPoll(old(db.Rows()), id, status, db.Rows())
    ensures r == if id in db.jobs then Some(db.jobs[id]) else None
  {
    hide Transition, Observed, EvidenceChanged, Sound, IsGovernedPath, Distinct, Lookup, Reconcile;
    if id !in db.jobs {
      return None;
    }
    var job := db.jobs[id];
    if Polled(job) && status.Some? {
      var observed := status.value;
      if observed.state != job.state {
        var path := [observed.state];
        if CanTransition(job.state, observed.state) {
          DirectTransitionIsGovernedPath(job.state, observed.state);
        } else {
          path := UpgradeJobTransitionPath(job.state, observed.state);
        }
        job := ReconcileJob(db, job, id, path, observed);
      } else {
        var result := db.RecordUpgradeJobObservation(id, Reported(observed, observed.state));
        job := result.value;
      }
    }
    r := Some(job);
  }

  method ReconcileJob(db: UpgradeDb, job: Job, id: JobId, path: seq<State>, status: Status) returns (r: Job)
    requires db.Valid() && id in db.jobs && db.jobs[id] == job
    modifies db
    ensures db.Valid() && db.Rows() == Reconcile(old(db.Rows()), id, path, status)
    ensures id in db.jobs && r == db.jobs[id]
  {
    hide Transition, Sound, Distinct, Lookup;
    r := job;
    for i := 0 to |path|
      invariant db.Valid() && id in db.jobs && r == db.jobs[id]
      invariant Reconcile(old(db.Rows()), id, path, status) == Reconcile(db.Rows(), id, path[i..], status)
    {
      assert path[i..][1..] == path[i + 1..] && path[i..][0] == path[i];
      TransitionOutcome(db.Rows(), id, path[i], Reported(status, path[i]));
      var result := db.TransitionUpgradeJob(id, path[i], Reported(status, path[i]));
      if result.Err? {
        return;
      }
      r := result.value;
    }
  }

  // ---- Where a poll ends ------------------------------------------------------------------

  ghost function Delta(status: Status): Sections {
    status.evidence.GetOr([])
  }

  /** How many states of the path pass their gates before the first that does not. */
  ghost function Steps(path: seq<State>, evidence: Sections, digest: string): (n: nat)
    ensures n <= |path| && (n == |path| <==> forall s | s in path :: GatePasses(s, evidence, digest))
  {
    if path == [] || !GatePasses(path[0], evidence, digest) then 0
    else 1 + Steps(path[1..], evidence, digest)
  }

  /** One step of the loop: the row moves on, with one event, exactly when the gate passes. */
  lemma ReconcileStep(t: Tables, id: JobId, next: State, status: Status)
    requires id in t.jobs && CanTransition(t.jobs[id].state, next)
    ensures var job, merged := t.jobs[id], Merge(t.jobs[id].evidence, Delta(status));
            var (t', r) := Transition(t, id, next, Reported(status, next));
            if GatePasses(next, merged, job.target.digest) then
              && r.Ok? && id in t'.jobs && t'.jobs[id].state == next && t'.jobs[id].target == job.target
              && t'.jobs[id].evidence == (if status.evidence.Some? then merged else job.evidence)
              && |t'.events| == |t.events| + 1 && t.events <= t'.events
              && t'.events[|t.events|].job == id && t'.events[|t.events|].to == next
              && Merge(t'.jobs[id].evidence, Delta(status)) == merged
            else r.Err? && t' == t
  {
    var job := t.jobs[id];
    MergeTwice(job.evidence, Delta(status));
    hide GatePasses, CanReleaseLock, MaxSequence, Lookup;
  }

  /** The row of the job has gone along the states of the path, writing one event for each. */
  ghost predicate Advanced(t: Tables, t': Tables, id: JobId, path: seq<State>) {
    && id in t.jobs && id in t'.jobs
    && t'.jobs[id].state == End(t.jobs[id].state, path)
    && |t'.events| == |t.events| + |path| && t.events <= t'.events
    && (forall k | |t.events| <= k < |t'.events| ::
          t'.events[k].job == id && t'.events[k].to == path[k - |t.events|])
    && (path == [] ==> t' == t)
  }

  lemma AdvancedOne(t: Tables, t1: Tables, id: JobId, s: State)
    requires id in t.jobs && id in t1.jobs && t1.jobs[id].state == s
    requires |t1.events| == |t.events| + 1 && t.events <= t1.events
    requires t1.events[|t.events|].job == id && t1.events[|t.events|].to == s
    ensures Advanced(t, t1, id, [s])
  {
  }

  lemma AdvancedFurther(t: Tables, t1: Tables, t': Tables, id: JobId, s: State, path: seq<State>)
    requires Advanced(t, t1, id, [s]) && Advanced(t1, t', id, path)
    ensures Advanced(t, t', id, [s] + path)
  {
    var whole := [s] + path;
    forall k | |t.events| <= k < |t'.events|
      ensures t'.events[k].job == id && t'.events[k].to == whole[k - |t.events|]
    {
      if k < |t1.events| {
        assert t'.events[k] == t1.events[k];
      }
    }
  }

  lemma AdvancedNowhere(t: Tables, id: JobId)
    requires id in t.jobs
    ensures Advanced(t, t, id, [])
  {
  }

  /** A poll advances the job along the part of the path that passes its gates. */
  lemma {:induction false} ReconcileAdvances(t: Tables, id: JobId, path: seq<State>, status: Status)
    requires id in t.jobs && IsWalk(AllowedTransitions, t.jobs[id].state, path)
    ensures var job := t.jobs[id];
            var n := Steps(path, Merge(job.evidence, Delta(status)), job.target.digest);
            Advanced(t, Reconcile(t, id, path, status), id, path[..n])
    decreases |path|
  {
    hide Transition, GatePasses, Lookup, IsWalk, Advanced, AllowedTransitions, Reported;
    var job := t.jobs[id];
    var n := Steps(path, Merge(job.evidence, Delta(status)), job.target.digest);
    if n == 0 {
      assert path[..n] == [];
      AdvancedNowhere(t, id);
      StepRefused(t, id, path, status);
    } else {
      StepTaken(t, id, path, status);
      var t1 := Transition(t, id, path[0], Reported(status, path[0])).0;
      ReconcileAdvances(t1, id, path[1..], status);
      assert path[..n] == [path[0]] + path[1..][..n - 1];
      AdvancedFurther(t, t1, Reconcile(t, id, path, status), id, path[0], path[1..][..n - 1]);
    }
  }

  lemma StepRefused(t: Tables, id: JobId, path: seq<State>, status: Status)
    requires id in t.jobs && IsWalk(AllowedTransitions, t.jobs[id].state, path)
    requires Steps(path, Merge(t.jobs[id].evidence, Delta(status)), t.jobs[id].target.digest) == 0
    ensures Reconcile(t, id, path, status) == t
  {
    hide Transition, GatePasses, Lookup, IsWalk;
    if path != [] {
      WalkFront(AllowedTransitions, t.jobs[id].state, path);
      ReconcileStep(t, id, path[0], status);
    }
  }

  lemma StepTaken(t: Tables, id: JobId, path: seq<State>, status: Status)
    requires id in t.jobs && IsWalk(AllowedTransitions, t.jobs[id].state, path)
    requires Steps(path, Merge(t.jobs[id].evidence, Delta(status)), t.jobs[id].target.digest) > 0
    ensures var t1 := Transition(t, id, path[0], Reported(status, path[0])).0;
            var job, digest := t.jobs[id], t.jobs[id].target.digest;
            && id in t1.jobs && Advanced(t, t1, id, [path[0]])
                && IsWalk(AllowedTransitions, t1.jobs[id].state, path[1..])
            && Reconcile(t, id, path, status) == Reconcile(t1, id, path[1..], status)
            && Steps(path, Merge(job.evidence, Delta(status)), digest)
               == 1 + Steps(path[1..], Merge(t1.jobs[id].evidence, Delta(status)), t1.jobs[id].target.digest)
  {
    hide Transition, GatePasses, Lookup, IsWalk, Advanced;
    WalkFront(AllowedTransitions, t.jobs[id].state, path);
    ReconcileStep(t, id, path[0], status);
    AdvancedOne(t, Transition(t, id, path[0], Reported(status, path[0])).0, id, path[0]);
  }

  /**
   A poll ends at the reported state exactly when every state of the governed path passes
   its gate with the evidence stored and reported; otherwise it stops short of it.
   */
  lemma PollEndsAtTarget(t: Tables, id: JobId, status: Status, path: seq<State>, t': Tables)
    requires id in t.jobs && Polled(t.jobs[id]) && status.state != t.jobs[id].state
    requires IsPoll(t, id, Some(status), t') && IsGovernedPath(t.jobs[id].state, status.state, path)
    ensures var job, merged := t.jobs[id], Merge(t.jobs[id].evidence, Delta(status));
            && (exists n | 0 <= n <= |path| :: Advanced(t, t', id, path[..n]))
            && (t'.jobs[id].state == status.state
                <==> path != [] && forall s | s in path :: GatePasses(s, merged, job.target.digest))
  {
    var job, merged := t.jobs[id], Merge(t.jobs[id].evidence, Delta(status));
    var p :| IsGovernedPath(job.state, status.state, p) && t' == Reconcile(t, id, p, status);
    SearchResultUnique(AllowedTransitions, job.state, status.state, path, p);
    hide GatePasses, Ranks, Precedes, Reconcile;
    ReconcileAdvances(t, id, path, status);
    var n := Steps(path, merged, job.target.digest);
    assert Advanced(t, t', id, path[..n]);
    if path != [] {
      assert path[..|path|] == path;
      if n < |path| && t'.jobs[id].state == status.state {
        WalkPrefix(AllowedTransitions, job.state, path, n);
        SearchResultIsShortest(AllowedTransitions, job.state, status.state, path, path[..n]);
        assert false;
      }
    }
  }

  /** A restored and healthy rollback says nothing about a deployment. */
  lemma RollbackProofIsNotDeploymentProof(digest: string)
    ensures GatePasses(RolledBack, RollbackProof(), digest) && !GatePasses(Deploying, RollbackProof(), digest)
  {
    var fields := [Field("restored", Bool(true)), Field("healthVerified", Bool(true))];
    assert Lookup(fields, "restored") == Some(Bool(true));
    assert Lookup(fields[1..], "healthVerified") == Some(Bool(true));
    assert Lookup(RollbackProof(), "rollback") == Some(Obj(fields)) && Lookup(RollbackProof(), "backup") == None;
    assert !Provides(RollbackProof(), digest, VerifiedBackup);
  }

  function RollbackProof(): Sections {
    [Field("rollback", Obj([Field("restored", Bool(true)), Field("healthVerified", Bool(true))]))]
  }
}
