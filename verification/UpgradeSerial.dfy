/**
 The two views of the upgrade store agree: a worker that runs its statements without interference and
 without faults leaves exactly the tables of the corresponding operation.
 */
module UpgradeSerial {
  import opened Wrappers
  import opened Evidence
  import opened Lifecycle
  import opened UpgradeTables
  import opened UpgradeStore
  import P = UpgradeProtocol
  import Q = UpgradeRequests

  /** Worker i executes n statements in a row. */
  ghost function Alone(s: P.System, i: nat, c: P.Choice, n: nat): P.System
    decreases n
  {
    if n == 0 then s else P.Apply(Alone(s, i, c, n - 1), P.Act(i, c))
  }

  lemma {:induction false} AloneTwice(s: P.System, i: nat, c: P.Choice, m: nat, n: nat)
    ensures Alone(Alone(s, i, c, m), i, c, n) == Alone(s, i, c, m + n)
    decreases n
  {
    hide P.Apply;
    if n > 0 {
      AloneTwice(s, i, c, m, n - 1);
    }
  }

  /** Worker i is at w, and the tables are t. */
  ghost predicate At(s: P.System, i: nat, t: Tables, w: P.Worker) {
    i < |s.workers| && s.workers[i] == w && s.tables == t
  }

  lemma NextIsFree(events: seq<Event>, id: JobId)
    ensures !SequenceTaken(events, id, MaxSequence(events, id) + 1)
  {
  }

  // ---- Transitions ------------------------------------------------------------------------

  ghost predicate Commits(t: Tables, change: P.Change) {
    && change.id in t.jobs && t.jobs[change.id].state != change.next
    && CanTransition(t.jobs[change.id].state, change.next)
    && GatePasses(change.next, Merged(t.jobs[change.id], change.input), t.jobs[change.id].target.digest)
  }

  ghost function StepsOf(t: Tables, change: P.Change): nat {
    if Commits(t, change) then 5 else 1
  }

  lemma CommitAlone(s: P.System, i: nat, c: P.Choice, t: Tables, change: P.Change)
    requires At(s, i, t, P.ReadForTransition(change)) && !c.fault && Commits(t, change)
    ensures var row := t.jobs[change.id];
            At(Alone(s, i, c, 2), i,
               t.(jobs := t.jobs[change.id := Transitioned(row, row, change.next, change.input)]),
               P.NumberTransition(change, row))
  {
    hide GatePasses, CanTransition, Transitioned, Merged;
    var s1 := P.Apply(s, P.Act(i, c));
    assert At(s1, i, t, P.CommitTransition(change, t.jobs[change.id]));
    assert Alone(s, i, c, 1) == s1 && Alone(s, i, c, 2) == P.Apply(s1, P.Act(i, c)) by {
      assert Alone(s, i, c, 0) == s;
    }
  }

  lemma LogAlone(s: P.System, i: nat, c: P.Choice, t: Tables, change: P.Change, row: Job)
    requires At(s, i, t, P.NumberTransition(change, row)) && !c.fault
    ensures var n := MaxSequence(t.events, change.id) + 1;
            At(Alone(s, i, c, 2), i,
               t.(events := t.events + [TransitionEvent(change.id, n, row.state, change.next, change.input)]),
               P.ReadTransitioned(change))
  {
    hide MaxSequence, SequenceTaken, TransitionEvent;
    NextIsFree(t.events, change.id);
    var s1 := P.Apply(s, P.Act(i, c));
    assert At(s1, i, t, P.LogTransition(change, row, MaxSequence(t.events, change.id) + 1));
    assert Alone(s, i, c, 1) == s1 && Alone(s, i, c, 2) == P.Apply(s1, P.Act(i, c)) by {
      assert Alone(s, i, c, 0) == s;
    }
  }

  lemma ConcludeAlone(s: P.System, i: nat, c: P.Choice, t: Tables, change: P.Change)
    requires At(s, i, t, P.ReadTransitioned(change)) && !c.fault
    ensures At(Alone(s, i, c, 1), i, t, P.Finished)
  {
    assert Alone(s, i, c, 0) == s;
  }

  lemma RefuseAlone(s: P.System, i: nat, c: P.Choice, t: Tables, change: P.Change)
    requires At(s, i, t, P.ReadForTransition(change)) && !c.fault && !Commits(t, change)
    ensures var r := Transition(t, change.id, change.next, change.input).1;
            At(Alone(s, i, c, 1), i, t, if r.Ok? then P.Finished else P.Raise(change))
  {
    hide GatePasses, CanTransition, Merged, MaxSequence, Transitioned, P.Raise;
    assert Alone(s, i, c, 0) == s;
  }

  /** A transition worker alone is `Transition`; what it refuses it passes on to its error path. */
  lemma TransitionAlone(s: P.System, i: nat, c: P.Choice, t: Tables, change: P.Change)
    requires At(s, i, t, P.ReadForTransition(change)) && !c.fault
    ensures var (t', r) := Transition(t, change.id, change.next, change.input);
            At(Alone(s, i, c, StepsOf(t, change)), i, t', if r.Ok? then P.Finished else P.Raise(change))
  {
    hide P.Apply, Alone, GatePasses, CanTransition, Transitioned, Merged, MaxSequence, P.Raise;
    if Commits(t, change) {
      var row := t.jobs[change.id];
      var s2 := Alone(s, i, c, 2);
      var t2 := t.(jobs := t.jobs[change.id := Transitioned(row, row, change.next, change.input)]);
      CommitAlone(s, i, c, t, change);
      LogAlone(s2, i, c, t2, change, row);
      AloneTwice(s, i, c, 2, 2);
      var n := MaxSequence(t2.events, change.id) + 1;
      var t4 := t2.(events := t2.events + [TransitionEvent(change.id, n, row.state, change.next, change.input)]);
      ConcludeAlone(Alone(s, i, c, 4), i, c, t4, change);
      AloneTwice(s, i, c, 4, 1);
    } else {
      RefuseAlone(s, i, c, t, change);
      hide Commits;
      TransitionRefused(t, change);
    }
  }

  lemma TransitionRefused(t: Tables, change: P.Change)
    requires !Commits(t, change)
    ensures Transition(t, change.id, change.next, change.input).0 == t
  {
    hide GatePasses, CanTransition, Merged, MaxSequence, Transitioned;
  }

  // ---- Observations -------------------------------------------------------------------------

  /** Worker i, alone, gets to w with the tables t. */
  ghost predicate Reaches(s: P.System, i: nat, c: P.Choice, t: Tables, w: P.Worker) {
    exists n: nat :: At(Alone(s, i, c, n), i, t, w)
  }

  lemma Arrived(s: P.System, i: nat, c: P.Choice, t: Tables, w: P.Worker)
    requires At(s, i, t, w)
    ensures Reaches(s, i, c, t, w)
  {
    assert At(Alone(s, i, c, 0), i, t, w);
  }

  lemma OneStepBefore(s: P.System, i: nat, c: P.Choice, t: Tables, w: P.Worker)
    requires Reaches(P.Apply(s, P.Act(i, c)), i, c, t, w)
    ensures Reaches(s, i, c, t, w)
  {
    hide P.Apply;
    var s1 := P.Apply(s, P.Act(i, c));
    assert Alone(s, i, c, 0) == s && Alone(s, i, c, 1) == s1;
    var n: nat :| At(Alone(s1, i, c, n), i, t, w);
    AloneTwice(s, i, c, 1, n);
    assert At(Alone(s, i, c, 1 + n), i, t, w);
  }

  lemma StepsBefore(s: P.System, i: nat, c: P.Choice, m: nat, t: Tables, w: P.Worker)
    requires Reaches(Alone(s, i, c, m), i, c, t, w)
    ensures Reaches(s, i, c, t, w)
  {
    hide P.Apply;
    var n: nat :| At(Alone(Alone(s, i, c, m), i, c, n), i, t, w);
    AloneTwice(s, i, c, m, n);
    assert At(Alone(s, i, c, m + n), i, t, w);
  }

  lemma ObservationLogs(s: P.System, i: nat, c: P.Choice, t: Tables, id: JobId, input: Update, row: Job)
    requires At(s, i, t, P.NumberObservation(id, input, row)) && !c.fault
    ensures var n := MaxSequence(t.events, id) + 1;
            Reaches(s, i, c, t.(events := t.events + [ObservationEvent(id, n, row.state, input)]), P.Finished)
  {
    hide MaxSequence, SequenceTaken, ObservationEvent, Alone;
    NextIsFree(t.events, id);
    var n := MaxSequence(t.events, id) + 1;
    var s1 := P.Apply(s, P.Act(i, c));
    assert At(s1, i, t, P.LogObservation(id, input, row, n));
    var s2 := P.Apply(s1, P.Act(i, c));
    var t2 := t.(events := t.events + [ObservationEvent(id, n, row.state, input)]);
    assert At(s2, i, t2, P.Finished);
    hide P.Apply, At;
    Arrived(s2, i, c, t2, P.Finished);
    OneStepBefore(s1, i, c, t2, P.Finished);
    OneStepBefore(s, i, c, t2, P.Finished);
  }

  lemma ObservationCommits(s: P.System, i: nat, c: P.Choice, t: Tables, id: JobId, input: Update)
    requires id in t.jobs && At(s, i, t, P.CommitObservation(id, input, t.jobs[id])) && !c.fault
    ensures Reaches(s, i, c, Observe(t, id, input).0, P.Finished)
  {
    hide MaxSequence, SequenceTaken, ObservationEvent, EvidenceChanged, Observed, Alone, Reaches;
    var s1 := P.Apply(s, P.Act(i, c));
    var stored := t.(jobs := t.jobs[id := Observed(t.jobs[id], t.jobs[id], input)]);
    if EvidenceChanged(t.jobs[id], input) {
      assert At(s1, i, stored, P.NumberObservation(id, input, t.jobs[id]));
      hide P.Apply, At;
      ObservationLogs(s1, i, c, stored, id, input, t.jobs[id]);
    } else {
      assert At(s1, i, stored, P.Finished);
      hide P.Apply, At;
      Arrived(s1, i, c, stored, P.Finished);
    }
    OneStepBefore(s, i, c, Observe(t, id, input).0, P.Finished);
  }

  /** An observation worker alone is `Observe`. */
  lemma ObservationAlone(s: P.System, i: nat, c: P.Choice, t: Tables, id: JobId, input: Update)
    requires At(s, i, t, P.ReadForObservation(id, input)) && !c.fault
    ensures Reaches(s, i, c, Observe(t, id, input).0, P.Finished)
  {
    hide MaxSequence, SequenceTaken, ObservationEvent, EvidenceChanged, Observed, Alone, Reaches;
    var s1 := P.Apply(s, P.Act(i, c));
    if id !in t.jobs {
      Arrived(s1, i, c, t, P.Finished);
    } else {
      ObservationCommits(s1, i, c, t, id, input);
    }
    hide P.Apply, Observe;
    OneStepBefore(s, i, c, Observe(t, id, input).0, P.Finished);
  }

  // ---- Requests --------------------------------------------------------------------------------

  lemma RefusalAlone(s: P.System, i: nat, c: P.Choice, t: Tables, r: RequestBody, id: JobId)
    requires At(s, i, t, P.Raise(P.Change(id, Accepted, Q.REFUSAL, P.Acceptance(r)))) && !c.fault
    ensures Reaches(s, i, c, Q.Refuse(t, id).0, P.Finished)
  {
    hide P.Apply, Alone, Transition;
    var change := P.Change(id, Failed, Q.REFUSAL, P.Refusal(r));
    TransitionAlone(s, i, c, t, change);
    assert At(Alone(s, i, c, StepsOf(t, change)), i, Q.Refuse(t, id).0, P.Finished);
  }

  lemma AcceptanceAlone(s: P.System, i: nat, c: P.Choice, t: Tables, r: RequestBody, id: JobId, receipt: Update)
    requires At(s, i, t, P.ReadForTransition(P.Change(id, Accepted, Q.AcceptanceUpdate(receipt), P.Acceptance(r))))
             && !c.fault
    ensures Reaches(s, i, c, Q.Submit(t, id, Some(receipt)).0, P.Finished)
  {
    hide P.Apply, Alone, Transition, Reaches, Q.Refuse, StepsOf;
    var change := P.Change(id, Accepted, Q.AcceptanceUpdate(receipt), P.Acceptance(r));
    TransitionAlone(s, i, c, t, change);
    var (t', outcome) := Transition(t, id, Accepted, Q.AcceptanceUpdate(receipt));
    var s' := Alone(s, i, c, StepsOf(t, change));
    if outcome.Ok? {
      Arrived(s', i, c, t', P.Finished);
    } else {
      assert P.Raise(change) == P.Raise(P.Change(id, Accepted, Q.REFUSAL, P.Acceptance(r)));
      RefusalAlone(s', i, c, t', r, id);
    }
    StepsBefore(s, i, c, StepsOf(t, change), Q.Submit(t, id, Some(receipt)).0, P.Finished);
  }

  lemma CallAlone(s: P.System, i: nat, c: P.Choice, t: Tables, r: RequestBody, id: JobId)
    requires At(s, i, t, P.CallController(r, id)) && !c.fault
    ensures Reaches(s, i, c, Q.Submit(t, id, c.receipt).0, P.Finished)
  {
    hide Alone, Reaches, Q.Refuse, Transition;
    var s1 := P.Apply(s, P.Act(i, c));
    if c.receipt.Some? {
      assert At(s1, i, t, P.ReadForTransition(P.Change(id, Accepted, Q.AcceptanceUpdate(c.receipt.value),
          P.Acceptance(r))));
      hide P.Apply, At;
      AcceptanceAlone(s1, i, c, t, r, id, c.receipt.value);
    } else {
      assert At(s1, i, t, P.Raise(P.Change(id, Accepted, Q.REFUSAL, P.Acceptance(r))));
      hide P.Apply, At;
      RefusalAlone(s1, i, c, t, r, id);
    }
    OneStepBefore(s, i, c, Q.Submit(t, id, c.receipt).0, P.Finished);
  }

  lemma CreatedAlone(s: P.System, i: nat, c: P.Choice, t: Tables, r: RequestBody, id: JobId)
    requires At(s, i, t, P.InsertRequestEvent(r, id)) && !c.fault
    ensures Reaches(s, i, c, if SequenceTaken(t.events, id, 1) then t
                             else Q.Submit(t.(events := t.events + [RequestEvent(id)]), id, c.receipt).0, P.Finished)
  {
    hide Alone, Reaches, Q.Submit, SequenceTaken, RequestEvent;
    var s1 := P.Apply(s, P.Act(i, c));
    if SequenceTaken(t.events, id, 1) {
      Arrived(s1, i, c, t, P.Finished);
      OneStepBefore(s, i, c, t, P.Finished);
    } else {
      var t1 := t.(events := t.events + [RequestEvent(id)]);
      assert At(s1, i, t1, P.ReadCreated(r, id));
      var s2 := P.Apply(s1, P.Act(i, c));
      assert At(s2, i, t1, P.CallController(r, id));
      hide P.Apply, At;
      CallAlone(s2, i, c, t1, r, id);
      OneStepBefore(s1, i, c, Q.Submit(t1, id, c.receipt).0, P.Finished);
      OneStepBefore(s, i, c, Q.Submit(t1, id, c.receipt).0, P.Finished);
    }
  }

  /** What a request does once its approval is consumed. */
  ghost function Continue(t: Tables, r: RequestBody, c: P.Choice): Tables {
    var (t2, outcome) := Create(t, c.id, r.key, r.actor, r.target);
    if outcome.Created? then Q.Submit(t2, c.id, c.receipt).0 else t2
  }

  lemma InsertAlone(s: P.System, i: nat, c: P.Choice, t: Tables, r: RequestBody)
    requires At(s, i, t, P.InsertJob(r)) && !c.fault && FindByKey(t.jobs, r.key).None? && FindActive(t.jobs).None?
    ensures Reaches(s, i, c, Continue(t, r, c), P.Finished)
  {
    hide Alone, Reaches, Q.Submit, SequenceTaken, FindByKey, FindActive;
    var s1 := P.Apply(s, P.Act(i, c));
    if c.id in t.jobs {
      assert At(s1, i, t, P.ReplayAfterConflict(r));
      var s2 := P.Apply(s1, P.Act(i, c));
      assert At(s2, i, t, P.Finished);
      hide P.Apply, At;
      Arrived(s2, i, c, t, P.Finished);
      OneStepBefore(s1, i, c, t, P.Finished);
    } else {
      var inserted := t.(jobs := t.jobs[c.id := NewJob(r.key, r.actor, r.target)]);
      assert At(s1, i, inserted, P.InsertRequestEvent(r, c.id));
      hide P.Apply, At;
      CreatedAlone(s1, i, c, inserted, r, c.id);
    }
    OneStepBefore(s, i, c, Continue(t, r, c), P.Finished);
  }

  lemma ApprovedAlone(s: P.System, i: nat, c: P.Choice, t: Tables, r: RequestBody)
    requires At(s, i, t, P.RecheckKey(r)) && !c.fault && FindByKey(t.jobs, r.key).None?
    ensures Reaches(s, i, c, Continue(t, r, c), P.Finished)
  {
    hide Alone, Reaches, Q.Submit, SequenceTaken, FindByKey, FindActive;
    var s1 := P.Apply(s, P.Act(i, c));
    assert At(s1, i, t, P.CheckLock(r));
    var s2 := P.Apply(s1, P.Act(i, c));
    if FindActive(t.jobs).Some? {
      assert At(s2, i, t, P.Finished);
      hide P.Apply, At;
      Arrived(s2, i, c, t, P.Finished);
    } else {
      assert At(s2, i, t, P.InsertJob(r));
      hide P.Apply, At;
      InsertAlone(s2, i, c, t, r);
    }
    OneStepBefore(s1, i, c, Continue(t, r, c), P.Finished);
    OneStepBefore(s, i, c, Continue(t, r, c), P.Finished);
  }

  /** A request worker alone is `Request`. */
  lemma RequestAlone(s: P.System, i: nat, c: P.Choice, t: Tables, r: RequestBody)
    requires At(s, i, t, P.LookUpKey(r)) && !c.fault
    ensures Reaches(s, i, c, Q.Request(t, r, c.id, s.now, c.receipt).0, P.Finished)
  {
    hide Alone, Reaches, Q.Submit, Create, Consumable, FindByKey;
    var s1 := P.Apply(s, P.Act(i, c));
    if FindByKey(t.jobs, r.key).Some? {
      assert At(s1, i, t, P.Finished);
      hide P.Apply, At;
      Arrived(s1, i, c, t, P.Finished);
    } else {
      assert At(s1, i, t, P.ConsumeNonce(r)) && s1.now == s.now;
      ConsumeAlone(s1, i, c, t, r);
    }
    hide P.Apply;
    OneStepBefore(s, i, c, Q.Request(t, r, c.id, s.now, c.receipt).0, P.Finished);
  }

  lemma ConsumeAlone(s: P.System, i: nat, c: P.Choice, t: Tables, r: RequestBody)
    requires At(s, i, t, P.ConsumeNonce(r)) && !c.fault && FindByKey(t.jobs, r.key).None?
    ensures Reaches(s, i, c, Q.Request(t, r, c.id, s.now, c.receipt).0, P.Finished)
  {
    hide Alone, Reaches, Q.Submit, FindByKey;
    var approval := Approval(r.actor, ToRequest, r.target);
    var s1 := P.Apply(s, P.Act(i, c));
    if Consumable(t.nonces, r.nonce, approval, s.now) {
      var t1 := ConsumeNonce(t, r.nonce, approval, s.now).0;
      assert At(s1, i, t1, P.RecheckKey(r));
      hide P.Apply, At;
      ApprovedAlone(s1, i, c, t1, r);
      ContinueIsTheRest(t, r, c, s.now);
    } else {
      assert At(s1, i, t, P.Finished);
      hide P.Apply, At;
      Arrived(s1, i, c, t, P.Finished);
    }
    OneStepBefore(s, i, c, Q.Request(t, r, c.id, s.now, c.receipt).0, P.Finished);
  }

  lemma ContinueIsTheRest(t: Tables, r: RequestBody, c: P.Choice, now: nat)
    requires FindByKey(t.jobs, r.key).None?
             && Consumable(t.nonces, r.nonce, Approval(r.actor, ToRequest, r.target), now)
    ensures Q.Request(t, r, c.id, now, c.receipt).0
            == Continue(ConsumeNonce(t, r.nonce, Approval(r.actor, ToRequest, r.target), now).0, r, c)
  {
    hide Q.Submit, Create, Consumable, FindByKey;
  }
}
