/**
 What the gates on a governed path demand together: for every pair of states it is what the target's own
 gate demands, except for rollbacks reported during validation, whose path also passes the deployment gate.
 */
module GovernedGates {
  import opened Wrappers
  import opened Evidence
  import opened Lifecycle
  import opened ShortestPath
  import opened UpgradeTables
  import opened UpgradeStore
  import opened UpgradeApi

  const ROLLBACKS: set<State> := {RollbackRequested, RollingBack, RolledBack}

  /** The governed path makes a detour through the gated `Deploying`. */
  predicate Detours(from: State, to: State) {
    from == ValidatingArtifact && to in ROLLBACKS
  }

  // ---- Paths to a rollback -------------------------------------------------------------------------

  lemma FailedWalk(from: State)
    requires CanTransition(from, Failed)
    ensures Leads(AllowedTransitions, from, RollbackRequested, [Failed, RollbackRequested])
  {
    assert Init([Failed, RollbackRequested]) == [Failed];
    OneStep(AllowedTransitions, from, Failed);
  }

  lemma SecondToLast(from: State, walk: seq<State>)
    requires Leads(AllowedTransitions, from, RollbackRequested, walk) && |walk| == 2
    ensures walk == [walk[0], RollbackRequested] && CanTransition(from, walk[0])
    ensures walk[0] in {Deploying, Verifying, Completed, Failed}
  {
    LastStep(AllowedTransitions, from, walk);
    WalkFront(AllowedTransitions, from, walk);
    assert Init(walk) == [walk[0]];
  }

  lemma ShortWalk(from: State, walk: seq<State>)
    requires Leads(AllowedTransitions, from, RollbackRequested, walk) && |walk| < 2
    ensures from == RollbackRequested || CanTransition(from, RollbackRequested)
  {
    if walk != [] {
      WalkFront(AllowedTransitions, from, walk);
    }
  }

  /** From any other state the first path to a rollback request is direct, or through `Failed` or `Deploying`. */
  lemma FirstPathToRequest(from: State, path: seq<State>)
    requires from != RollbackRequested && IsFirstPath(AllowedTransitions, from, RollbackRequested, path)
    ensures path == if CanTransition(from, RollbackRequested) then [RollbackRequested]
                    else if from == ValidatingArtifact then [Deploying, RollbackRequested]
                    else [Failed, RollbackRequested]
  {
    hide IsWalk, Ranks, Precedes, AllowedTransitions;
    var next, to := AllowedTransitions, RollbackRequested;
    assert path != [] && Leads(next, from, to, path);
    assert IsGovernedPath(from, to, path);
    if CanTransition(from, to) {
      DirectTransitionIsGovernedPath(from, to);
      SearchResultUnique(next, from, to, path, [to]);
    } else {
      WalkFront(next, from, path);
      SomewhereIsFailure(from, path[0]);
      FailedWalk(from);
      SearchResultIsShortest(next, from, to, path, [Failed, to]);
      if |path| < 2 {
        ShortWalk(from, path);
        assert false;
      }
      SecondToLast(from, path);
      MiddleState(from, path[0]);
      if from == ValidatingArtifact && path[0] == Failed {
        DeployingIsFirst(path);
        assert false;
      }
    }
  }

  lemma SomewhereIsFailure(from: State, first: State)
    requires CanTransition(from, first) && !CanTransition(from, RollbackRequested)
    ensures CanTransition(from, Failed)
  {
  }

  lemma MiddleState(from: State, middle: State)
    requires CanTransition(from, middle) && !CanTransition(from, RollbackRequested)
    requires middle in {Deploying, Verifying, Completed, Failed}
    ensures middle == Failed || (middle == Deploying && from == ValidatingArtifact)
  {
  }

  lemma DeployingWalk()
    ensures Leads(AllowedTransitions, ValidatingArtifact, RollbackRequested, [Deploying, RollbackRequested])
  {
    assert Init([Deploying, RollbackRequested]) == [Deploying];
    OneStep(AllowedTransitions, ValidatingArtifact, Deploying);
  }

  /** The search meets `Deploying` before `Failed`. */
  lemma DeployingIsFirst(walk: seq<State>)
    requires Leads(AllowedTransitions, ValidatingArtifact, RollbackRequested, walk) && |walk| == 2 && walk[0] == Failed
    ensures !IsFirstPath(AllowedTransitions, ValidatingArtifact, RollbackRequested, walk)
    ensures IsWalk(AllowedTransitions, ValidatingArtifact, [Deploying, RollbackRequested])
    ensures Precedes(Ranks(AllowedTransitions, ValidatingArtifact, [Deploying, RollbackRequested]),
                     Ranks(AllowedTransitions, ValidatingArtifact, walk))
  {
    DeployingWalk();
    hide IsWalk, Ranks, Precedes;
    var next, from := AllowedTransitions, ValidatingArtifact;
    var path := [Deploying, RollbackRequested];
    FirstRank(next, from, walk);
    FirstRank(next, from, path);
    assert next(from) == [Deploying, Failed] && [Deploying, Failed][1..] == [Failed];
    FirstRankDecides(Ranks(next, from, walk), Ranks(next, from, path));
  }

  lemma RequestFromValidation()
    ensures IsFirstPath(AllowedTransitions, ValidatingArtifact, RollbackRequested, [Deploying, RollbackRequested])
  {
    DeployingWalk();
    hide IsWalk, Ranks, Precedes, AllowedTransitions;
    var next, from, to := AllowedTransitions, ValidatingArtifact, RollbackRequested;
    var path := [Deploying, RollbackRequested];
    forall walk | Leads(next, from, to, walk) ensures NotAfter(Ranks(next, from, path), Ranks(next, from, walk)) {
      if |walk| < 2 {
        ShortWalk(from, walk);
        NoDirectRollback();
        assert false;
      } else if |walk| == 2 {
        SecondToLast(from, walk);
        NoDirectRollback();
        MiddleState(from, walk[0]);
        if walk[0] == Failed {
          DeployingIsFirst(walk);
        }
      } else {
        PrecedesLonger(Ranks(next, from, path), Ranks(next, from, walk));
      }
    }
  }

  lemma NoDirectRollback()
    ensures !CanTransition(ValidatingArtifact, RollbackRequested)
  {
  }

  /** The one step from which a rolling back and a rolled back job come. */
  lemma OnlyPredecessors()
    ensures RollingBack in AllowedTransitions(RollbackRequested) && RolledBack in AllowedTransitions(RollingBack)
    ensures forall s | RollingBack in AllowedTransitions(s) :: s == RollbackRequested
    ensures forall s | RolledBack in AllowedTransitions(s) :: s == RollingBack
    ensures Canceled in AllowedTransitions(CancelRequested)
    ensures forall s | Canceled in AllowedTransitions(s) :: s == CancelRequested
  {
  }

  lemma NoStep(s: State, path: seq<State>)
    requires IsFirstPath(AllowedTransitions, s, s, path)
    ensures path == []
  {
    hide AllowedTransitions, Precedes;
    assert Leads(AllowedTransitions, s, s, []);
    assert NotAfter(Ranks(AllowedTransitions, s, path), Ranks(AllowedTransitions, s, []));
    assert Ranks(AllowedTransitions, s, []) == [];
    ShorterOrEqual(Ranks(AllowedTransitions, s, path), []);
  }

  /** The paths from validation; all of them start with the gated `Deploying`. */
  function Detour(to: State): seq<State>
    requires to in ROLLBACKS
  {
    match to
    case RollbackRequested => [Deploying, RollbackRequested]
    case RollingBack => [Deploying, RollbackRequested, RollingBack]
    case _ => [Deploying, RollbackRequested, RollingBack, RolledBack]
  }

  lemma DetourIsGoverned(to: State)
    requires to in ROLLBACKS
    ensures IsGovernedPath(ValidatingArtifact, to, Detour(to))
  {
    var next, from := AllowedTransitions, ValidatingArtifact;
    hide AllowedTransitions, IsFirstPath, IsWalk;
    var p1, p2 := Detour(RollbackRequested), Detour(RollingBack);
    RequestFromValidation();
    OnlyPredecessors();
    OnlyWayIn(next, from, RollbackRequested, RollingBack, p1);
    assert p1 + [RollingBack] == p2;
    OnlyWayIn(next, from, RollingBack, RolledBack, p2);
    assert p2 + [RolledBack] == Detour(RolledBack);
    FirstIsResult(from, to, Detour(to));
  }

  /** A rollback reported during validation is governed through the gated `Deploying`. */
  lemma RollbackGoesThroughDeploying(to: State, path: seq<State>)
    requires to in ROLLBACKS
    ensures IsGovernedPath(ValidatingArtifact, to, path) <==> path == Detour(to)
  {
    hide IsSearchResult;
    DetourIsGoverned(to);
    if IsGovernedPath(ValidatingArtifact, to, path) {
      SearchResultUnique(AllowedTransitions, ValidatingArtifact, to, path, Detour(to));
    }
  }

  /** From anywhere else a rollback is reached through nothing that is gated. */
  ghost predicate Tame(to: State, path: seq<State>) {
    forall s | s in path :: s == to || s in {Failed, RollbackRequested, RollingBack}
  }

  lemma FirstPathToRollback(from: State, to: State, path: seq<State>)
    requires to in ROLLBACKS && from != ValidatingArtifact && IsFirstPath(AllowedTransitions, from, to, path)
    ensures Tame(to, path)
    decreases if to == RolledBack then 2 else if to == RollingBack then 1 else 0
  {
    hide AllowedTransitions, IsFirstPath, IsWalk, CanTransition, Init, Last;
    if from == to {
      NoStep(from, path);
    } else if to == RollbackRequested {
      FirstPathToRequest(from, path);
    } else {
      var before := if to == RolledBack then RollingBack else RollbackRequested;
      OnlyPredecessors();
      OnlyWayIn(AllowedTransitions, from, before, to, path);
      FirstPathToRollback(from, before, Init(path));
      TameStep(before, Init(path), to);
    }
  }

  lemma TameStep(before: State, path: seq<State>, to: State)
    requires before in {RollbackRequested, RollingBack} && Tame(before, path)
    ensures Tame(to, path + [to])
  {
  }

  lemma FirstIsResult(from: State, to: State, path: seq<State>)
    requires from != to && path != [] && IsFirstPath(AllowedTransitions, from, to, path)
    ensures IsGovernedPath(from, to, path)
  {
    hide AllowedTransitions, IsWalk, Ranks;
    assert Leads(AllowedTransitions, from, to, path);
  }

  // ---- The gates of a path ----------------------------------------------------------------------------

  lemma FreeStates(s: State, evidence: Sections, digest: string)
    requires s in {Failed, RollbackRequested, RollingBack, Canceled, CancelRequested, Requested}
    ensures GatePasses(s, evidence, digest)
  {
  }

  /** A path to a state before the end, or to a cancellation, asks for nothing the target does not ask for. */
  lemma QuietTargets(from: State, to: State, path: seq<State>, s: State)
    requires Leads(AllowedTransitions, from, to, path) && s in path && (Phase(to) <= 5 || to == Canceled)
    ensures forall g | Guards(g, s) :: Guards(g, to)
  {
    hide AllowedTransitions, IsWalk;
    if to == Canceled {
      LastStep(AllowedTransitions, from, path);
      OnlyPredecessors();
      if s != Last(path) {
        assert s in Init(path);
        GatesOnTheWay(from, CancelRequested, Init(path), s);
      }
    } else {
      GatesOnTheWay(from, to, path, s);
    }
  }

  /** A failure is reported directly, or after the completed job has asked for its rollback. */
  lemma PathToFailure(from: State, path: seq<State>)
    requires IsGovernedPath(from, Failed, path)
    ensures forall s | s in path :: s in {Failed, RollbackRequested}
  {
    hide IsWalk, Ranks, NotAfter;
    var next := AllowedTransitions;
    if CanTransition(from, Failed) {
      DirectTransitionIsGovernedPath(from, Failed);
      SearchResultUnique(next, from, Failed, path, [Failed]);
    } else if path != [] {
      WalkFront(next, from, path);
      assert from == Completed || from == Failed;
      if from == Completed {
        CompletedToFailure();
        SearchResultIsShortest(next, from, Failed, path, [RollbackRequested, Failed]);
        assert path[0] == RollbackRequested && Last(path) == Failed;
      }
    }
  }

  lemma CompletedToFailure()
    ensures Leads(AllowedTransitions, Completed, Failed, [RollbackRequested, Failed])
  {
    assert Init([RollbackRequested, Failed]) == [RollbackRequested];
    OneStep(AllowedTransitions, Completed, RollbackRequested);
  }

  lemma TargetIsLast(from: State, to: State, path: seq<State>)
    requires IsGovernedPath(from, to, path) && path != []
    ensures Leads(AllowedTransitions, from, to, path) && from != to && to in path
    ensures IsFirstPath(AllowedTransitions, from, to, path)
  {
    hide AllowedTransitions, IsWalk, Ranks, NotAfter;
    assert Last(path) in path;
  }

  lemma DetourGates(to: State, evidence: Sections, digest: string)
    requires to in ROLLBACKS
    ensures (forall s | s in Detour(to) :: GatePasses(s, evidence, digest))
       <==> GatePasses(to, evidence, digest) && GatePasses(Deploying, evidence, digest)
  {
    FreeStates(RollbackRequested, evidence, digest);
    FreeStates(RollingBack, evidence, digest);
    hide GatePasses;
    assert to == Detour(to)[|Detour(to)| - 1] && Deploying == Detour(to)[0];
  }

  /** All gates on a governed path pass if and only if the target's gate does, and on a detour the deployment's. */
  lemma PathGates(from: State, to: State, path: seq<State>, evidence: Sections, digest: string)
    requires IsGovernedPath(from, to, path) && path != []
    ensures (forall s | s in path :: GatePasses(s, evidence, digest))
       <==> GatePasses(to, evidence, digest) && (Detours(from, to) ==> GatePasses(Deploying, evidence, digest))
  {
    hide AllowedTransitions, IsWalk, IsFirstPath, IsSearchResult, GatePasses;
    TargetIsLast(from, to, path);
    if Detours(from, to) {
      RollbackGoesThroughDeploying(to, path);
      DetourGates(to, evidence, digest);
    } else if GatePasses(to, evidence, digest) {
      forall s | s in path ensures GatePasses(s, evidence, digest) {
        OneGate(from, to, path, s, evidence, digest);
      }
    }
  }

  lemma OneGate(from: State, to: State, path: seq<State>, s: State, evidence: Sections, digest: string)
    requires IsGovernedPath(from, to, path) && s in path && !Detours(from, to) && GatePasses(to, evidence, digest)
    ensures GatePasses(s, evidence, digest)
  {
    hide AllowedTransitions, IsWalk, IsFirstPath, IsSearchResult;
    TargetIsLast(from, to, path);
    if to in ROLLBACKS || to == Failed {
      if to == Failed {
        PathToFailure(from, path);
      } else {
        FirstPathToRollback(from, to, path);
      }
      if s != to {
        FreeStates(s, evidence, digest);
      }
    } else {
      QuietTargets(from, to, path, s);
      hide Provides, Guards;
    }
  }

  /** Whatever the evidence, passing the gate of the target means passing every gate on the way. */
  ghost predicate GateSuffices(from: State, to: State) {
    forall path, evidence, digest | IsGovernedPath(from, to, path) && GatePasses(to, evidence, digest) ::
      forall s | s in path :: GatePasses(s, evidence, digest)
  }

  /** The gate of the target suffices for every pair of states but the rollbacks reported during validation. */
  lemma GateSufficesExactlyWithoutDetour(from: State, to: State)
    ensures GateSuffices(from, to) <==> !Detours(from, to)
  {
    hide GatePasses, IsGovernedPath;
    if Detours(from, to) {
      var path, proof := Detour(to), RollbackProof();
      DetourIsGoverned(to);
      RollbackProofIsNotDeploymentProof("");
      if to != RolledBack {
        FreeStates(to, proof, "");
      }
      assert path[0] in path && !GatePasses(path[0], proof, "");
    } else {
      forall path: seq<State>, evidence: Sections, digest: string, s: State
        | IsGovernedPath(from, to, path) && GatePasses(to, evidence, digest) && s in path
        ensures GatePasses(s, evidence, digest)
      {
        OneGate(from, to, path, s, evidence, digest);
      }
    }
  }

  // ---- Where a poll ends --------------------------------------------------------------------------------

  /**
   For every state a controller can report: the poll records it if and only if it is reachable, its own gate
   passes with the evidence stored and reported, and for a rollback during validation the deployment's does.
   */
  lemma PollReachesExactly(t: Tables, id: JobId, status: Status, t': Tables)
    requires id in t.jobs && Polled(t.jobs[id]) && status.state != t.jobs[id].state && IsPoll(t, id, Some(status), t')
    ensures var job, merged := t.jobs[id], Merge(t.jobs[id].evidence, Delta(status));
            && id in t'.jobs
            && (t'.jobs[id].state == status.state
                <==> (Reachable(AllowedTransitions, job.state, status.state)
                      && GatePasses(status.state, merged, job.target.digest)
                      && (Detours(job.state, status.state) ==> GatePasses(Deploying, merged, job.target.digest))))
  {
    hide GatePasses, IsGovernedPath, Reachable, Reconcile, Detours;
    var job, merged := t.jobs[id], Merge(t.jobs[id].evidence, Delta(status));
    var path :| IsGovernedPath(job.state, status.state, path) && t' == Reconcile(t, id, path, status);
    PollEndsAtTarget(t, id, status, path, t');
    EmptyExactlyWhenUnreachable(job.state, status.state, path);
    if path != [] {
      PathGates(job.state, status.state, path, merged, job.target.digest);
    }
  }

  lemma EmptyExactlyWhenUnreachable(from: State, to: State, path: seq<State>)
    requires from != to && IsGovernedPath(from, to, path)
    ensures path != [] <==> Reachable(AllowedTransitions, from, to)
  {
    hide IsFirstPath, Reachable;
  }

  lemma ObservationKeepsState(t: Tables, id: JobId, input: Update)
    requires id in t.jobs
    ensures var t' := Observe(t, id, input).0; id in t'.jobs && t'.jobs[id].state == t.jobs[id].state
  {
    hide EvidenceChanged, Merged, MaxSequence, Coalesce, Truncated;
  }

  /** For a state of the forward chain, the stored one included, evidence that passes its own gate is enough. */
  lemma ForwardTargetIsReached(t: Tables, id: JobId, status: Status, t': Tables)
    requires id in t.jobs && Polled(t.jobs[id]) && status.state in CHAIN
    requires IsPoll(t, id, Some(status), t') && Reachable(AllowedTransitions, t.jobs[id].state, status.state)
    requires GatePasses(status.state, Merge(t.jobs[id].evidence, Delta(status)), t.jobs[id].target.digest)
    ensures id in t'.jobs && t'.jobs[id].state == status.state
  {
    if status.state == t.jobs[id].state {
      ObservationKeepsState(t, id, Reported(status, status.state));
    } else {
      hide GatePasses, Reachable, IsPoll;
      PollReachesExactly(t, id, status, t');
    }
  }

  /** Without the evidence for a deployment, a rollback reported during validation changes nothing at all. */
  lemma RollbackDuringValidation(t: Tables, id: JobId, status: Status, t': Tables)
    requires id in t.jobs && Polled(t.jobs[id]) && Detours(t.jobs[id].state, status.state)
    requires IsPoll(t, id, Some(status), t')
    ensures var job, merged := t.jobs[id], Merge(t.jobs[id].evidence, Delta(status));
            !GatePasses(Deploying, merged, job.target.digest) ==> t' == t
  {
    hide GatePasses, IsGovernedPath, Transition, Lookup, AllowedTransitions;
    var job := t.jobs[id];
    var path :| IsGovernedPath(job.state, status.state, path) && t' == Reconcile(t, id, path, status);
    RollbackGoesThroughDeploying(status.state, path);
    GovernedIsWalk(job.state, status.state, path);
    if !GatePasses(Deploying, Merge(job.evidence, Delta(status)), job.target.digest) {
      StepRefused(t, id, path, status);
    }
  }
}
