/**
 What any sequence of API calls can do about the deployment lock. A job keeps the lock for good exactly
 when it is not polled any more and its rollback is not available; any other job can be brought to
 let the lock go.
 */
module UpgradeRecovery {
  import opened Wrappers
  import opened Evidence
  import opened Lifecycle
  import opened ShortestPath
  import opened UpgradeTables
  import opened UpgradeStore
  import opened UpgradeApi
  import opened UpgradeRequests

  // ---- API calls --------------------------------------------------------------------------------

  /** An approval is good for five minutes. */
  const LIFETIME: nat := 300

  datatype ApiCall =
    | ApiPrepare(at: nat, nonce: string, approval: Approval)
    | ApiRequest(at: nat, request: RequestBody, newId: JobId, receipt: Option<Update>)
    | ApiPoll(at: nat, polled: JobId, status: Option<Status>)
    | ApiAction(at: nat, call: ActionCall)

  ghost predicate IsApiStep(t: Tables, c: ApiCall, t': Tables) {
    match c
    case ApiPrepare(at, nonce, approval) => t' == RegisterNonce(t, nonce, approval, at + LIFETIME).0
    case ApiRequest(at, request, newId, receipt) => t' == Request(t, request, newId, at, receipt).0
    case ApiPoll(_, polled, status) => IsPoll(t, polled, status, t')
    case ApiAction(at, call) => call.now == at && t' == PerformAction(t, call).0
  }

  /** A prepared approval can be used for five minutes, once, for what it was prepared for. */
  lemma PreparedApprovalLasts(
      t: Tables, at: nat, nonce: string, approval: Approval, other: Approval, now: nat, t': Tables)
    requires nonce !in t.nonces && IsApiStep(t, ApiPrepare(at, nonce, approval), t')
    ensures ConsumeNonce(t', nonce, other, now).1 <==> other == approval && now <= at + 5 * 60
    ensures !ConsumeNonce(ConsumeNonce(t', nonce, approval, now).0, nonce, approval, now).1
  {
  }

  /** Calls from a given time on, one after another. */
  ghost predicate InOrder(calls: seq<ApiCall>, now: nat) {
    && (forall i | 0 <= i < |calls| :: now <= calls[i].at)
    && (forall i, j | 0 <= i < j < |calls| :: calls[i].at <= calls[j].at)
  }

  ghost predicate IsApiRun(states: seq<Tables>, calls: seq<ApiCall>, now: nat) {
    && |states| == |calls| + 1 && InOrder(calls, now)
    && forall i | 0 <= i < |calls| :: IsApiStep(states[i], calls[i], states[i + 1])
  }

  /** Somebody still looks after the job: the poll, or an operator with a rollback. */
  predicate Recoverable(job: Job) {
    Polled(job) || ActionAvailable(job, ToRollback)
  }

  ghost predicate Stuck(t: Tables, id: JobId) {
    HoldsLock(t.jobs, id) && !Recoverable(t.jobs[id])
  }

  // ---- How jobs get stuck --------------------------------------------------------------------------

  /** A new job whose controller call fails is left failed, with the lock and no controller. */
  lemma RefusedRequestIsStuck(t: Tables, r: RequestBody, id: JobId, now: nat)
    requires Request(t, r, id, now, None).1.RefusedByController?
    ensures var t' := Request(t, r, id, now, None).0;
            Stuck(t', id) && t'.jobs[id].state == Failed && t'.jobs[id].correlation.None?
  {
    hide FindByKey, FindActive, MaxSequence, SequenceTaken;
    var t1 := ConsumeNonce(t, r.nonce, Approval(r.actor, ToRequest, r.target), now).0;
    var t2 := Create(t1, id, r.key, r.actor, r.target).0;
    assert t2.jobs[id] == NewJob(r.key, r.actor, r.target);
    assert Lookup(Merged(t2.jobs[id], REFUSAL), "failure") == None;
  }

  lemma DirectPoll(t: Tables, id: JobId, status: Status, t': Tables)
    requires id in t.jobs && Polled(t.jobs[id]) && CanTransition(t.jobs[id].state, status.state)
    ensures IsPoll(t, id, Some(status), t') <==> t' == Transition(t, id, status.state, Reported(status, status.state)).0
  {
    hide Transition, AllowedTransitions, IsGovernedPath;
    var job, path := t.jobs[id], [status.state];
    NoSelfTransition(job.state);
    DirectTransitionIsGovernedPath(job.state, status.state);
    assert Reconcile(t, id, path, status) == Transition(t, id, status.state, Reported(status, status.state)).0;
    if IsPoll(t, id, Some(status), t') {
      var p :| IsGovernedPath(job.state, status.state, p) && t' == Reconcile(t, id, p, status);
      SamePath(job.state, status.state, path, p);
    }
  }

  lemma SamePath(from: State, to: State, p: seq<State>, q: seq<State>)
    requires IsGovernedPath(from, to, p) && IsGovernedPath(from, to, q)
    ensures p == q
  {
    hide IsSearchResult;
    SearchResultUnique(AllowedTransitions, from, to, p, q);
  }

  lemma FailureIsOpen(s: State)
    requires !Terminal(s)
    ensures CanTransition(s, Failed) && s != Failed
  {
  }

  lemma FailedRow(t: Tables, id: JobId, status: Status)
    requires id in t.jobs && !Terminal(t.jobs[id].state) && status.state == Failed
    ensures var t' := Transition(t, id, Failed, Reported(status, Failed)).0;
            var merged := Merge(t.jobs[id].evidence, Delta(status));
            && id in t'.jobs && t'.jobs[id].state == Failed && t'.jobs[id].evidence == merged
            && t'.jobs[id].correlation == t.jobs[id].correlation
            && (t'.jobs[id].lockReleased <==> t.jobs[id].lockReleased || HarmlessFailure(merged))
  {
    ReleaseMeans(Failed, Merge(t.jobs[id].evidence, Delta(status)));
    hide MaxSequence, CanReleaseLock, HarmlessFailure, Provides, Truncated;
    FailureIsOpen(t.jobs[id].state);
    assert forall g :: !Guards(g, Failed);
  }

  /**
   A controller that reports a failure leaves the job stuck if and only if the evidence neither proves that
   production was preserved nor offers a rollback.
   */
  lemma ReportedFailureMayStick(t: Tables, id: JobId, status: Status, t': Tables)
    requires HoldsLock(t.jobs, id) && Polled(t.jobs[id]) && status.state == Failed && IsPoll(t, id, Some(status), t')
    ensures var merged := Merge(t.jobs[id].evidence, Delta(status));
            Stuck(t', id) <==> !HarmlessFailure(merged)
                               && Lookup(FieldsOf(merged, "rollback"), "available") != Some(Bool(true))
  {
    EqualsExactly(Merge(t.jobs[id].evidence, Delta(status)), "rollback", "available", Bool(true));
    hide IsPoll, Transition, HarmlessFailure, Equals, Lookup, FieldsOf;
    FailureIsOpen(t.jobs[id].state);
    DirectPoll(t, id, status, t');
    FailedRow(t, id, status);
  }

  // ---- Stuck is for good -----------------------------------------------------------------------------

  /** The same jobs are stored, and this one is as it was. */
  ghost predicate Undisturbed(t: Tables, t': Tables, id: JobId) {
    t'.jobs.Keys == t.jobs.Keys && id in t.jobs && id in t'.jobs && t'.jobs[id] == t.jobs[id]
  }

  lemma TransitionIsLocal(t: Tables, other: JobId, next: State, input: Update, id: JobId)
    requires id in t.jobs && other != id
    ensures Undisturbed(t, Transition(t, other, next, input).0, id)
  {
    hide GatePasses, CanTransition, Transitioned;
  }

  lemma {:induction false} ReconcileIsLocal(t: Tables, other: JobId, path: seq<State>, status: Status, id: JobId)
    requires id in t.jobs && other != id
    ensures Undisturbed(t, Reconcile(t, other, path, status), id)
    decreases |path|
  {
    if path != [] {
      var (t1, r) := Transition(t, other, path[0], Reported(status, path[0]));
      TransitionIsLocal(t, other, path[0], Reported(status, path[0]), id);
      hide Transition;
      if r.Ok? {
        ReconcileIsLocal(t1, other, path[1..], status, id);
      }
    }
  }

  lemma PollLeavesStuck(t: Tables, polled: JobId, status: Option<Status>, t': Tables, id: JobId)
    requires Stuck(t, id) && IsPoll(t, polled, status, t')
    ensures Undisturbed(t, t', id)
  {
    if polled != id && polled in t.jobs && Polled(t.jobs[polled]) && status.Some?
       && status.value.state != t.jobs[polled].state {
      var path :| IsGovernedPath(t.jobs[polled].state, status.value.state, path)
                  && t' == Reconcile(t, polled, path, status.value);
      ReconcileIsLocal(t, polled, path, status.value, id);
    }
    hide Observed, EvidenceChanged, Reconcile, ActionAvailable;
  }

  lemma RequestLeavesStuck(t: Tables, r: RequestBody, newId: JobId, now: nat, receipt: Option<Update>, id: JobId)
    requires Stuck(t, id)
    ensures Undisturbed(t, Request(t, r, newId, now, receipt).0, id)
  {
    assert HoldsLock(t.jobs, id);
    hide Submit, Recoverable;
  }

  lemma ActionLeavesStuck(t: Tables, c: ActionCall, id: JobId)
    requires Stuck(t, id)
    ensures Undisturbed(t, PerformAction(t, c).0, id)
  {
    if c.id != id {
      var target := if c.id in t.jobs then t.jobs[c.id].target else t.jobs[id].target;
      var t1 := ConsumeNonce(t, c.nonce, Approval(c.actor, c.action, target), c.now).0;
      TransitionIsLocal(t1, c.id, ActionTarget(c.action), AcceptanceUpdate(c.receipt.GetOr(REFUSAL)), id);
    }
    hide Transition, Equals;
  }

  lemma StuckStep(t: Tables, c: ApiCall, t': Tables, id: JobId)
    requires Stuck(t, id) && IsApiStep(t, c, t')
    ensures Undisturbed(t, t', id)
  {
    match c
    case ApiPrepare(_, _, _) =>
    case ApiRequest(at, request, newId, receipt) => RequestLeavesStuck(t, request, newId, at, receipt, id);
    case ApiPoll(_, polled, status) => PollLeavesStuck(t, polled, status, t', id);
    case ApiAction(_, call) => ActionLeavesStuck(t, call, id);
  }

  /**
   No sequence of calls, whatever the controller answers, touches a stuck job or creates another:
   the deployment lock is never free again.
   */
  lemma {:induction false} StuckForever(
      states: seq<Tables>, calls: seq<ApiCall>, now: nat, id: JobId, k: nat)
    requires IsApiRun(states, calls, now) && Stuck(states[0], id) && k < |states|
    ensures states[k].jobs.Keys == states[0].jobs.Keys && states[k].jobs[id] == states[0].jobs[id]
    ensures Stuck(states[k], id)
    decreases k
  {
    if k > 0 {
      StuckForever(states, calls, now, id, k - 1);
      assert IsApiStep(states[k - 1], calls[k - 1], states[k - 1 + 1]);
      StuckStep(states[k - 1], calls[k - 1], states[k], id);
    }
  }

  // ---- Anything else can be freed ------------------------------------------------------------------------

  ghost predicate Frees(states: seq<Tables>, calls: seq<ApiCall>, now: nat, t: Tables, id: JobId) {
    && IsApiRun(states, calls, now) && states[0] == t
    && id in states[|calls|].jobs && states[|calls|].jobs[id].lockReleased
  }

  /** Some calls from now on, with some answers of the controller, make the job let the lock go. */
  ghost predicate CanBeFreed(t: Tables, id: JobId, now: nat) {
    exists states, calls :: Frees(states, calls, now, t, id)
  }

  function PreservedProof(): Sections {
    [Field("failure", Obj([Field("productionPreserved", Bool(true)), Field("verifiedAt", Str("now"))]))]
  }

  lemma ProofReleases(evidence: Sections)
    ensures HarmlessFailure(Merge(evidence, PreservedProof()))
  {
    var fields := [Field("productionPreserved", Bool(true)), Field("verifiedAt", Str("now"))];
    assert Lookup(fields, "productionPreserved") == Some(Bool(true));
    assert Lookup(fields[1..], "verifiedAt") == Some(Str("now"));
    assert Lookup(PreservedProof(), "failure") == Some(Obj(fields));
  }

  /** While a job is polled, a failure proven harmless frees the lock. */
  lemma PolledCanBeFreed(t: Tables, id: JobId, now: nat)
    requires id in t.jobs && Polled(t.jobs[id])
    ensures CanBeFreed(t, id, now)
  {
    hide Transition, IsPoll, HarmlessFailure;
    var status := Status(Failed, Some(PreservedProof()), None, None);
    var t' := Transition(t, id, Failed, Reported(status, Failed)).0;
    FailureIsOpen(t.jobs[id].state);
    DirectPoll(t, id, status, t');
    FailedRow(t, id, status);
    ProofReleases(t.jobs[id].evidence);
    assert IsApiStep(t, ApiPoll(now, id, Some(status)), t');
    assert Frees([t, t'], [ApiPoll(now, id, Some(status))], now, t, id);
  }

  /** A name longer than any of the given ones. */
  lemma FreshName(names: set<string>) returns (name: string)
    ensures forall n | n in names :: |n| < |name|
    decreases names
  {
    if names == {} {
      name := "";
    } else {
      var n :| n in names;
      var shorter := FreshName(names - {n});
      name := shorter + n + "x";
    }
  }

  const TAKEN: Update := Update(None, None, None, None)

  lemma RollbackIsTaken(t: Tables, id: JobId, nonce: string, now: nat)
    requires id in t.jobs && ActionAvailable(t.jobs[id], ToRollback) && nonce !in t.nonces
    ensures var approval := Approval("operator", ToRollback, t.jobs[id].target);
            var t1 := RegisterNonce(t, nonce, approval, now + LIFETIME).0;
            var t2 := PerformAction(t1, ActionCall(id, ToRollback, "operator", nonce, now, true, Some(TAKEN))).0;
            && id in t2.jobs && t2.jobs[id].state == RollbackRequested && HasController(t2.jobs[id])
  {
    hide MaxSequence, CanReleaseLock, Provides, Equals, Merged, Truncated;
    assert forall g :: !Guards(g, RollbackRequested);
  }

  lemma RollingBackRow(t: Tables, id: JobId)
    requires id in t.jobs && t.jobs[id].state == RollbackRequested && HasController(t.jobs[id])
    ensures var status := Status(RollingBack, None, None, None);
            var t' := Transition(t, id, RollingBack, Reported(status, RollingBack)).0;
            && id in t'.jobs && t'.jobs[id].state == RollingBack && HasController(t'.jobs[id])
  {
    hide MaxSequence, CanReleaseLock, Provides, Merged, Truncated;
    assert forall g :: !Guards(g, RollingBack);
  }

  lemma RolledBackRow(t: Tables, id: JobId)
    requires id in t.jobs && t.jobs[id].state == RollingBack
    ensures var status := Status(RolledBack, Some(RollbackProof()), None, None);
            var t' := Transition(t, id, RolledBack, Reported(status, RolledBack)).0;
            && id in t'.jobs && t'.jobs[id].lockReleased
  {
    hide MaxSequence, Truncated;
    RollbackProofSuffices(t.jobs[id].evidence, t.jobs[id].target.digest);
    hide GatePasses;
  }

  lemma RollbackProofSuffices(evidence: Sections, digest: string)
    ensures GatePasses(RolledBack, Merge(evidence, RollbackProof()), digest)
  {
    var fields := [Field("restored", Bool(true)), Field("healthVerified", Bool(true))];
    assert Lookup(fields, "restored") == Some(Bool(true));
    assert Lookup(fields[1..], "healthVerified") == Some(Bool(true));
    assert Lookup(RollbackProof(), "rollback") == Some(Obj(fields));
    assert Lookup(Merge(evidence, RollbackProof()), "rollback") == Some(Obj(fields));
  }

  const ROLLING := Status(RollingBack, None, None, None)
  const ROLLED := Status(RolledBack, Some(RollbackProof()), None, None)

  lemma RollbackEnds(t: Tables, id: JobId) returns (t1: Tables, t2: Tables)
    requires id in t.jobs && t.jobs[id].state == RollbackRequested && HasController(t.jobs[id])
    ensures IsPoll(t, id, Some(ROLLING), t1) && IsPoll(t1, id, Some(ROLLED), t2)
    ensures id in t2.jobs && t2.jobs[id].lockReleased
  {
    hide Transition, IsPoll;
    t1 := Transition(t, id, RollingBack, Reported(ROLLING, RollingBack)).0;
    RollingBackRow(t, id);
    DirectPoll(t, id, ROLLING, t1);
    t2 := Transition(t1, id, RolledBack, Reported(ROLLED, RolledBack)).0;
    RolledBackRow(t1, id);
    DirectPoll(t1, id, ROLLED, t2);
  }

  /** An available rollback frees the lock: prepare, roll back, and two polls of the controller. */
  lemma RollbackFrees(t: Tables, id: JobId, now: nat)
    requires id in t.jobs && ActionAvailable(t.jobs[id], ToRollback)
    ensures CanBeFreed(t, id, now)
  {
    var nonce := FreshName(t.nonces.Keys);
    assert nonce !in t.nonces;
    hide *;
    var approval := Approval("operator", ToRollback, t.jobs[id].target);
    var call := ActionCall(id, ToRollback, "operator", nonce, now, true, Some(TAKEN));
    var t1 := RegisterNonce(t, nonce, approval, now + LIFETIME).0;
    var t2 := PerformAction(t1, call).0;
    RollbackIsTaken(t, id, nonce, now);
    PreparesAndActs(t, now, nonce, approval, call);
    RollbackGoesOn(t, t1, t2, ApiPrepare(now, nonce, approval), ApiAction(now, call), id, now);
  }

  lemma PreparesAndActs(t: Tables, now: nat, nonce: string, approval: Approval, call: ActionCall)
    requires call.now == now
    ensures var t1 := RegisterNonce(t, nonce, approval, now + LIFETIME).0;
            && IsApiStep(t, ApiPrepare(now, nonce, approval), t1)
            && IsApiStep(t1, ApiAction(now, call), PerformAction(t1, call).0)
  {
    hide RegisterNonce, PerformAction, Request, IsPoll;
  }

  lemma RollbackGoesOn(t: Tables, t1: Tables, t2: Tables, c0: ApiCall, c1: ApiCall, id: JobId, now: nat)
    requires IsApiStep(t, c0, t1) && IsApiStep(t1, c1, t2) && c0.at == now && c1.at == now
    requires id in t2.jobs && t2.jobs[id].state == RollbackRequested && HasController(t2.jobs[id])
    ensures CanBeFreed(t, id, now)
  {
    hide Transition, PerformAction, IsPoll, RegisterNonce, CanBeFreed, HasController, Request;
    var t3, t4 := RollbackEnds(t2, id);
    assert IsApiStep(t2, ApiPoll(now, id, Some(ROLLING)), t3) && IsApiStep(t3, ApiPoll(now, id, Some(ROLLED)), t4);
    hide IsApiStep;
    FourSteps(t, t1, t2, t3, t4, c0, c1, ApiPoll(now, id, Some(ROLLING)), ApiPoll(now, id, Some(ROLLED)), id, now);
  }

  lemma FourSteps(t0: Tables, t1: Tables, t2: Tables, t3: Tables, t4: Tables,
                  c0: ApiCall, c1: ApiCall, c2: ApiCall, c3: ApiCall, id: JobId, now: nat)
    requires IsApiStep(t0, c0, t1) && IsApiStep(t1, c1, t2) && IsApiStep(t2, c2, t3) && IsApiStep(t3, c3, t4)
    requires c0.at == now && c1.at == now && c2.at == now && c3.at == now
    requires id in t4.jobs && t4.jobs[id].lockReleased
    ensures CanBeFreed(t0, id, now)
  {
    hide IsApiStep;
    assert Frees([t0, t1, t2, t3, t4], [c0, c1, c2, c3], now, t0, id);
  }

  /** At any time, calls can free the lock of a job if and only if it is polled or its rollback is available. */
  lemma FreedExactlyWhenRecoverable(t: Tables, id: JobId, now: nat)
    requires HoldsLock(t.jobs, id)
    ensures CanBeFreed(t, id, now) <==> Recoverable(t.jobs[id])
  {
    hide Polled, ActionAvailable;
    if Polled(t.jobs[id]) {
      PolledCanBeFreed(t, id, now);
    } else if ActionAvailable(t.jobs[id], ToRollback) {
      RollbackFrees(t, id, now);
    } else if CanBeFreed(t, id, now) {
      var states, calls :| Frees(states, calls, now, t, id);
      hide IsApiRun;
      StuckForever(states, calls, now, id, |calls|);
      assert false;
    }
  }

  /** In particular a failed job that holds the lock is stuck exactly when its rollback is not available. */
  lemma FailedJobsNeedARollback(t: Tables, id: JobId, now: nat)
    requires HoldsLock(t.jobs, id) && t.jobs[id].state == Failed
    ensures CanBeFreed(t, id, now) <==> ActionAvailable(t.jobs[id], ToRollback)
  {
    hide CanBeFreed, ActionAvailable;
    FreedExactlyWhenRecoverable(t, id, now);
  }
}
