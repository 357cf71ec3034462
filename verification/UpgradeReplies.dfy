/**
 What request handlers answer when they interleave. A key known at the first look-up is compared with the
 request; a key that turns up later, because another handler stored it in between, is not.
 */
module UpgradeReplies {
  import opened Wrappers
  import opened Evidence
  import opened Lifecycle
  import opened UpgradeTables
  import opened UpgradeProtocol
  import opened UpgradeConcurrency

  // ---- When a handler answers ----------------------------------------------------------------------

  /** The job is for the very actor and target of the request. */
  predicate ForRequest(job: Job, r: RequestBody) {
    job.actor == r.actor && job.target == r.target
  }

  ghost predicate Answers(s: System, i: nat, c: Choice, reply: Reply)
    requires i < |s.workers|
  {
    PlanOf(s, i, c).effect == Answer(reply)
  }

  /**
   A handler answers with a stored job of its key: at its first look-up only if the job is for the request,
   at the later ones whatever the job is for.
   */
  lemma LookUpsAnswer(s: System, i: nat, c: Choice, id: JobId)
    requires i < |s.workers| && UniqueKeys(s.tables.jobs) && InRequest(s.workers[i])
    ensures Answers(s, i, c, Reply(s.workers[i].request.key, id))
       <==> && HasKey(s.tables.jobs, s.workers[i].request.key, id)
            && (s.workers[i].RecheckKey? || s.workers[i].ReplayAfterConflict?
                || (s.workers[i].LookUpKey? && ForRequest(s.tables.jobs[id], s.workers[i].request)))
  {
    hide Consumable, FindActive, CanInsert, SequenceTaken;
    if HasKey(s.tables.jobs, s.workers[i].request.key, id) {
      assert FindByKey(s.tables.jobs, s.workers[i].request.key) == Some(id);
    }
  }

  /** A handler that stops without an answer has found one of these, and none of them lets it answer. */
  ghost predicate Stops(s: System, w: Worker, c: Choice)
    requires InRequest(w)
  {
    var t, r := s.tables, w.request;
    match w
    case LookUpKey(_) => exists id :: HasKey(t.jobs, r.key, id) && !ForRequest(t.jobs[id], r)
    case ConsumeNonce(_) =>
      !(r.nonce in t.nonces && t.nonces[r.nonce].approval == Approval(r.actor, ToRequest, r.target)
        && t.nonces[r.nonce].usedAt.None? && s.now <= t.nonces[r.nonce].expiresAt)
    case CheckLock(_) => exists o :: HoldsLock(t.jobs, o)
    case ReplayAfterConflict(_) => forall id :: !HasKey(t.jobs, r.key, id)
    case InsertRequestEvent(_, id) => c.fault || exists e | e in t.events :: e.job == id && e.sequence == 1
    case ReadCreated(_, _) => c.fault
    case _ => false
  }

  lemma HandlersStop(s: System, i: nat, c: Choice)
    requires i < |s.workers| && UniqueKeys(s.tables.jobs) && InRequest(s.workers[i])
    ensures PlanOf(s, i, c).rest.Finished? && !PlanOf(s, i, c).effect.Answer? <==> Stops(s, s.workers[i], c)
  {
    hide CanInsert;
    var r, jobs := s.workers[i].request, s.tables.jobs;
    var found, active := FindByKey(jobs, r.key), FindActive(jobs);
    assert found.Some? ==> HasKey(jobs, r.key, found.value);
    assert active.Some? ==> HoldsLock(jobs, active.value);
    hide FindByKey, FindActive;
  }

  /** Once its controller has been called, a handler answers as soon as the acceptance is found or recorded. */
  lemma AcceptanceAnswers(s: System, i: nat, c: Choice, id: JobId)
    requires i < |s.workers| && InTransition(s.workers[i]) && s.workers[i].change.origin.Acceptance?
    ensures var w, change := s.workers[i], s.workers[i].change;
            Answers(s, i, c, Reply(change.origin.request.key, id))
            <==> id == change.id && !c.fault
                 && (w.ReadTransitioned?
                     || (w.ReadForTransition? && id in s.tables.jobs && s.tables.jobs[id].state == change.next))
  {
    hide GatePasses, CanTransition, Merged, MaxSequence, SequenceTaken, StateMatches;
  }

  /** It is never given up: it goes on, is answered, or turns into recording the refusal. */
  lemma AcceptanceNeverEndsSilently(s: System, i: nat, c: Choice)
    requires i < |s.workers| && InTransition(s.workers[i]) && s.workers[i].change.origin.Acceptance?
    ensures var change, plan := s.workers[i].change, PlanOf(s, i, c);
            || plan.effect == Answer(Reply(change.origin.request.key, change.id))
            || (InTransition(plan.rest) && plan.rest.change == change)
            || plan.rest == ReadForTransition(
                 Change(change.id, Failed,
                        Update(None, None, Some("controller_request_failed"), Some("Controller request failed.")),
                        Refusal(change.origin.request)))
  {
    hide GatePasses, CanTransition, Merged, MaxSequence, SequenceTaken, StateMatches;
  }

  // ---- Answers for another request -----------------------------------------------------------------

  /** The request a worker acts for. */
  function RequestOf(w: Worker): Option<RequestBody> {
    if InRequest(w) then Some(w.request)
    else if InTransition(w) then
      match w.change.origin
      case Acceptance(r) => Some(r)
      case Refusal(r) => Some(r)
      case Alone => None
    else None
  }

  /** The step answers a request with a job for another actor or target. */
  ghost predicate AnswersFalsely(s: System, e: Step) {
    && e.Act? && e.i < |s.workers| && RequestOf(s.workers[e.i]).Some?
    && exists id :: && Answers(s, e.i, e.choice, Reply(RequestOf(s.workers[e.i]).value.key, id))
                    && id in s.tables.jobs && !ForRequest(s.tables.jobs[id], RequestOf(s.workers[e.i]).value)
  }

  /** The handler looks its key up once more, and it has meanwhile been stored for another actor or target. */
  ghost predicate MeetsAnother(s: System, e: Step) {
    && e.Act? && e.i < |s.workers| && (s.workers[e.i].RecheckKey? || s.workers[e.i].ReplayAfterConflict?)
    && exists id :: && HasKey(s.tables.jobs, s.workers[e.i].request.key, id)
                    && !ForRequest(s.tables.jobs[id], s.workers[e.i].request)
  }

  lemma OnlyLateLookUpsAnswerFalsely(s: System, e: Step)
    requires Inv(s)
    ensures AnswersFalsely(s, e) <==> MeetsAnother(s, e)
  {
    hide Inv, Answers, PlanOf;
    if e.Act? && e.i < |s.workers| {
      var w := s.workers[e.i];
      assert UniqueKeys(s.tables.jobs) && WorkerOk(s, w, e.i) by { InvGives(s, e.i); }
      forall id
        ensures InRequest(w) ==> (Answers(s, e.i, e.choice, Reply(w.request.key, id))
                                  <==> && HasKey(s.tables.jobs, w.request.key, id)
                                       && (w.RecheckKey? || w.ReplayAfterConflict?
                                           || (w.LookUpKey? && ForRequest(s.tables.jobs[id], w.request))))
        ensures InTransition(w) && w.change.origin.Acceptance?
                && Answers(s, e.i, e.choice, Reply(w.change.origin.request.key, id)) ==>
                  id == w.change.id && StoredFor(s, w.change.origin.request, id)
        ensures InTransition(w) && w.change.origin.Refusal? ==>
                  !Answers(s, e.i, e.choice, Reply(w.change.origin.request.key, id))
      {
        if InRequest(w) {
          LookUpsAnswer(s, e.i, e.choice, id);
        } else if InTransition(w) && w.change.origin.Acceptance? {
          AcceptanceAnswers(s, e.i, e.choice, id);
          AcceptancesAreStored(s, w, e.i);
        } else if InTransition(w) && w.change.origin.Refusal? {
          RefusalsDoNotAnswer(s, e.i, e.choice, id);
        }
      }
    }
  }

  lemma InvGives(s: System, i: nat)
    requires Inv(s) && i < |s.workers|
    ensures UniqueKeys(s.tables.jobs) && WorkerOk(s, s.workers[i], i)
  {
  }

  lemma AcceptancesAreStored(s: System, w: Worker, i: nat)
    requires WorkerOk(s, w, i) && InTransition(w) && w.change.origin.Acceptance?
    ensures StoredFor(s, w.change.origin.request, w.change.id)
  {
    hide GatePasses, CanTransition, Merged;
  }

  lemma RefusalsDoNotAnswer(s: System, i: nat, c: Choice, id: JobId)
    requires i < |s.workers| && InTransition(s.workers[i]) && s.workers[i].change.origin.Refusal?
    ensures !Answers(s, i, c, Reply(s.workers[i].change.origin.request.key, id))
  {
    hide GatePasses, CanTransition, Merged, MaxSequence, SequenceTaken, StateMatches;
  }

  /** In a run every answer is for its request, if and only if no later look-up of the run meets another's job. */
  lemma AnswersAreTrueExactly(run: seq<Step>)
    ensures (forall k: nat | k < |run| :: !AnswersFalsely(After(run[..k]), run[k]))
       <==> (forall k: nat | k < |run| :: !MeetsAnother(After(run[..k]), run[k]))
  {
    hide AnswersFalsely, MeetsAnother, After, Inv;
    forall k: nat | k < |run|
      ensures AnswersFalsely(After(run[..k]), run[k]) <==> MeetsAnother(After(run[..k]), run[k])
    {
      RunKeepsInv(run[..k]);
      OnlyLateLookUpsAnswerFalsely(After(run[..k]), run[k]);
    }
  }

  // ---- Requests that agree ---------------------------------------------------------------------------

  /** Requests of one key are for one actor and target. */
  ghost predicate Agreeing(run: seq<Step>) {
    forall a, b | Begin(LookUpKey(a)) in run && Begin(LookUpKey(b)) in run && a.key == b.key ::
      a.actor == b.actor && a.target == b.target
  }

  ghost predicate Requested(run: seq<Step>, job: Job) {
    exists r :: Begin(LookUpKey(r)) in run && job.key == r.key && ForRequest(job, r)
  }

  /** Handlers act for requests of the run, and jobs were stored for requests of the run. */
  ghost predicate Traced(run: seq<Step>, s: System) {
    && (forall i | 0 <= i < |s.workers| && InRequest(s.workers[i]) :: Begin(LookUpKey(s.workers[i].request)) in run)
    && (forall id | id in s.tables.jobs :: Requested(run, s.tables.jobs[id]))
  }

  lemma HandlersKeepTheirRequest(s: System, i: nat, c: Choice)
    requires i < |s.workers|
    ensures InRequest(PlanOf(s, i, c).rest) ==>
              InRequest(s.workers[i]) && PlanOf(s, i, c).rest.request == s.workers[i].request
  {
    hide Consumable, FindActive, CanInsert, SequenceTaken, FindByKey, GatePasses, CanTransition, Merged, MaxSequence,
        StateMatches, RowMatches, EvidenceChanged;
  }

  lemma JobsKeepTheirRequest(s: System, i: nat, c: Choice, id: JobId)
    requires Inv(s) && i < |s.workers| && id in Apply(s, Act(i, c)).tables.jobs
    ensures var job' := Apply(s, Act(i, c)).tables.jobs[id];
            if id in s.tables.jobs then
              var job := s.tables.jobs[id];
              job'.key == job.key && job'.actor == job.actor && job'.target == job.target
            else
              InRequest(s.workers[i]) && job'.key == s.workers[i].request.key && ForRequest(job', s.workers[i].request)
  {
    hide Apply, Inv;
    ActKeepsInv(s, i, c);
    if id in s.tables.jobs {
      RowsOnlyGrow(s, Apply(s, Act(i, c)), id);
    } else {
      StepRows(s, Act(i, c));
      hide Grows, CanInsert, Transitioned, Observed;
    }
  }

  lemma RowsOnlyGrow(s: System, s': System, id: JobId)
    requires Grows(s, s') && id in s.tables.jobs
    ensures id in s'.tables.jobs && RowGrows(s.tables.jobs[id], s'.tables.jobs[id])
  {
    hide NoncesGrow, HistoryGrows, Extends;
  }

  lemma {:induction false} RunIsTraced(run: seq<Step>)
    ensures Traced(run, After(run))
    decreases |run|
  {
    if run != [] {
      var n := |run| - 1;
      var front, last := run[..n], run[n];
      assert run == front + [last];
      RunIsTraced(front);
      RunKeepsInv(front);
      hide After, Inv, Initial;
      var s, s' := After(front), After(run);
      assert s' == Apply(s, last) by { AfterLast(run); }
      StepIsTraced(front, s, last);
    }
  }

  lemma AfterLast(run: seq<Step>)
    requires run != []
    ensures After(run) == Apply(After(run[..|run| - 1]), run[|run| - 1])
  {
  }

  lemma StepIsTraced(front: seq<Step>, s: System, last: Step)
    requires Traced(front, s) && Inv(s)
    ensures Traced(front + [last], Apply(s, last))
  {
    hide Inv, PlanOf, Perform;
    var run, s' := front + [last], Apply(s, last);
    if last.Act? && last.i < |s.workers| {
      HandlersKeepTheirRequest(s, last.i, last.choice);
      ActWorkers(s, last.i, last.choice);
      hide Apply;
      forall id | id in s'.tables.jobs ensures Requested(run, s'.tables.jobs[id]) {
        JobsKeepTheirRequest(s, last.i, last.choice, id);
        if id in s.tables.jobs {
          var r :| Begin(LookUpKey(r)) in front && s.tables.jobs[id].key == r.key && ForRequest(s.tables.jobs[id], r);
          assert Begin(LookUpKey(r)) in run;
        } else {
          assert Begin(LookUpKey(s.workers[last.i].request)) in run;
        }
      }
    } else {
      assert s'.tables.jobs == s.tables.jobs;
      forall id | id in s'.tables.jobs ensures Requested(run, s'.tables.jobs[id]) {
        var r :| Begin(LookUpKey(r)) in front && s.tables.jobs[id].key == r.key && ForRequest(s.tables.jobs[id], r);
        assert Begin(LookUpKey(r)) in run;
      }
    }
  }

  lemma ActWorkers(s: System, i: nat, c: Choice)
    requires i < |s.workers|
    ensures Apply(s, Act(i, c)).workers == s.workers[i := PlanOf(s, i, c).rest]
  {
    hide PlanOf;
  }

  lemma TracedJobsAgree(run: seq<Step>, s: System, r: RequestBody, id: JobId)
    requires Agreeing(run) && Traced(run, s) && Begin(LookUpKey(r)) in run && HasKey(s.tables.jobs, r.key, id)
    ensures ForRequest(s.tables.jobs[id], r)
  {
    assert Requested(run, s.tables.jobs[id]);
  }

  /** When the requests of a run agree on what their keys are for, every answer is for its request. */
  lemma AgreeingRequestsAreAnsweredTruly(run: seq<Step>, k: nat)
    requires Agreeing(run) && k < |run|
    ensures !AnswersFalsely(After(run[..k]), run[k])
  {
    hide After, Inv, AnswersFalsely;
    var s, e := After(run[..k]), run[k];
    RunKeepsInv(run[..k]);
    RunIsTraced(run[..k]);
    OnlyLateLookUpsAnswerFalsely(s, e);
    if e.Act? && e.i < |s.workers| && InRequest(s.workers[e.i]) {
      assert Begin(LookUpKey(s.workers[e.i].request)) in run[..k];
      forall id | HasKey(s.tables.jobs, s.workers[e.i].request.key, id)
        ensures ForRequest(s.tables.jobs[id], s.workers[e.i].request)
      {
        TracedJobsAgree(run[..k], s, s.workers[e.i].request, id);
      }
    }
  }
}
