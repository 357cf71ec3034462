/**
 Back-off and claims. A claimer selects a row in one statement and takes it in another that only
 compares the state, so a failure in between sets a back-off that the claim does not look at.
 */
module SyncBackoff {
  import opened Wrappers
  import opened SyncQueue
  import opened SyncProtocol

  // ---- Endings of a job in a run ----------------------------------------------------------------

  /** Step e of a holder of the job writes one of the four outcomes. */
  ghost predicate Ends(s: System, e: Step, id: JobId) {
    && e.Act? && e.i < |s.workers| && s.workers[e.i].Holding? && s.workers[e.i].id == id
    && id in s.jobs && !e.ending.Die?
  }

  ghost predicate EndsAt(run: seq<Step>, m: nat, id: JobId) {
    m < |run| && Ends(After(run[..m]), run[m], id)
  }

  /** The last ending of the job from step j on and before step n. */
  ghost function LastEnding(run: seq<Step>, id: JobId, j: nat, n: nat): (r: Option<nat>)
    requires j <= n <= |run|
    ensures r.Some? ==> j <= r.value < n && EndsAt(run, r.value, id)
    decreases n
  {
    if n == j then None
    else if EndsAt(run, n - 1, id) then Some(n - 1)
    else LastEnding(run, id, j, n - 1)
  }

  /** What an ending leaves of the time at which the job may be selected again. */
  ghost predicate Leaves(s: System, e: Step, row: SyncJob)
    requires e.Act? && e.i < |s.workers| && s.workers[e.i].Holding? && s.workers[e.i].id in s.jobs
  {
    match e.ending
    case Checkpoint(_, _) => row.nextEligible == s.now
    case Fail(_) => row.nextEligible == s.now + s.jobs[s.workers[e.i].id].attempts * BACKOFF_SECONDS
    case Die => true
    case _ => row.state in {Done, Failed}
  }

  lemma EndingLeaves(s: System, e: Step, id: JobId)
    requires Ends(s, e, id)
    ensures id in Apply(s, e).jobs && Leaves(s, e, Apply(s, e).jobs[id]) && Apply(s, e).now == s.now
  {
  }

  lemma OtherStepsKeep(s: System, e: Step, id: JobId)
    requires id in s.jobs && !Ends(s, e, id)
    ensures id in Apply(s, e).jobs && Apply(s, e).now >= s.now
    ensures Apply(s, e).jobs[id].nextEligible == s.jobs[id].nextEligible
    ensures s.jobs[id].state in {Done, Failed} ==> Apply(s, e).jobs[id].state == s.jobs[id].state
  {
    hide HasPending, IsNext;
    if e.Act? && e.i < |s.workers| {
      match s.workers[e.i]
      case Holding(_, _) => hide ReclaimStep;
      case _ => hide EndStep;
    }
  }

  lemma {:induction false} NothingEndsAfterTheLast(run: seq<Step>, id: JobId, j: nat, n: nat, m: nat)
    requires j <= m < n <= |run| && EndsAt(run, m, id)
    ensures LastEnding(run, id, j, n).Some? && m <= LastEnding(run, id, j, n).value
    decreases n
  {
    hide EndsAt;
    if m < n - 1 {
      NothingEndsAfterTheLast(run, id, j, n - 1, m);
    }
  }

  /** What is known of the job at step n, given its last ending since step j. */
  ghost predicate Decided(run: seq<Step>, id: JobId, j: nat, n: nat, last: Option<nat>)
    requires j <= n <= |run| && (last.Some? ==> EndsAt(run, last.value, id))
  {
    var s, s' := After(run[..j]), After(run[..n]);
    && id in s'.jobs && s.now <= s'.now
    && match last
       case None => id in s.jobs && s'.jobs[id].nextEligible == s.jobs[id].nextEligible
       case Some(m) => s.now <= After(run[..m]).now <= s'.now && Leaves(After(run[..m]), run[m], s'.jobs[id])
  }

  lemma DecidedByEnding(run: seq<Step>, id: JobId, j: nat, n: nat)
    requires j <= n < |run| && EndsAt(run, n, id) && After(run[..j]).now <= After(run[..n]).now
    ensures Decided(run, id, j, n + 1, Some(n))
  {
    hide After, Apply, Leaves;
    AfterOneMore(run, n);
    EndingLeaves(After(run[..n]), run[n], id);
  }

  lemma DecidedStill(run: seq<Step>, id: JobId, j: nat, n: nat, last: Option<nat>)
    requires j <= n < |run| && !EndsAt(run, n, id) && (last.Some? ==> EndsAt(run, last.value, id))
    requires Decided(run, id, j, n, last)
    ensures Decided(run, id, j, n + 1, last)
  {
    hide After, Apply;
    AfterOneMore(run, n);
    OtherStepsKeep(After(run[..n]), run[n], id);
  }

  /** The time a job may be selected again is what its last ending left, or what it was. */
  lemma {:induction false} LastEndingDecides(run: seq<Step>, id: JobId, j: nat, n: nat)
    requires j <= n <= |run| && id in After(run[..j]).jobs
    ensures Decided(run, id, j, n, LastEnding(run, id, j, n))
    decreases n
  {
    if j < n {
      LastEndingDecides(run, id, j, n - 1);
      assert After(run[..j]).now <= After(run[..n - 1]).now;
      hide Decided, EndsAt, After;
      if EndsAt(run, n - 1, id) {
        DecidedByEnding(run, id, j, n - 1);
      } else {
        DecidedStill(run, id, j, n - 1, LastEnding(run, id, j, n - 1));
      }
    }
  }

  // ---- Claims --------------------------------------------------------------------------------------

  /** Worker i selects the job at step j. */
  ghost predicate SelectsAt(run: seq<Step>, j: nat, i: nat, id: JobId) {
    && j < |run| && run[j].Act? && run[j].i == i < |After(run[..j]).workers|
    && After(run[..j]).workers[i].Selecting? && run[j].selected == id
    && IsNext(After(run[..j]).jobs, After(run[..j]).now, id)
  }

  /** Worker i takes the job at step k. */
  ghost predicate TakesAt(run: seq<Step>, k: nat, i: nat, id: JobId) {
    && k < |run| && run[k].Act? && run[k].i == i < |After(run[..k]).workers|
    && After(run[..k]).workers[i] == Claiming(id) && CanClaim(After(run[..k]).jobs, id)
  }

  lemma ClaimerCameFrom(s: System, e: Step, i: nat, id: JobId)
    requires i < |Apply(s, e).workers| && Apply(s, e).workers[i] == Claiming(id)
    ensures i < |s.workers|
    ensures s.workers[i] == Claiming(id)
            || (e.Act? && e.i == i && s.workers[i].Selecting? && e.selected == id && IsNext(s.jobs, s.now, id))
  {
    hide HasPending, IsNext;
    if e.Act? && e.i < |s.workers| {
      match s.workers[e.i]
      case Holding(_, _) => hide ReclaimStep;
      case _ => hide EndStep;
    }
  }

  lemma StartsEmpty(run: seq<Step>)
    ensures After(run[..0]) == EMPTY
  {
    assert run[..0] == [];
  }

  /** Every claimer selected its job in some earlier step. */
  lemma {:induction false} ClaimerSelected(run: seq<Step>, n: nat, i: nat, id: JobId) returns (j: nat)
    requires n <= |run| && i < |After(run[..n]).workers| && After(run[..n]).workers[i] == Claiming(id)
    ensures j < n && SelectsAt(run, j, i, id)
    decreases n
  {
    StartsEmpty(run);
    if n == 0 {
      assert false;
    } else {
      hide After, Apply;
      AfterOneMore(run, n - 1);
      ClaimerCameFrom(After(run[..n - 1]), run[n - 1], i, id);
      if After(run[..n - 1]).workers[i] == Claiming(id) {
        j := ClaimerSelected(run, n - 1, i, id);
      } else {
        j := n - 1;
      }
    }
  }

  /** The back-off of a failure at step m is still running at the given time. */
  ghost predicate BacksOffAt(run: seq<Step>, m: nat, id: JobId, time: nat)
    requires EndsAt(run, m, id)
  {
    && run[m].ending.Fail?
    && time < After(run[..m]).now + After(run[..m]).jobs[id].attempts * BACKOFF_SECONDS
  }

  /**
   A claim respects the back-off of its job if and only if the last ending of the job between the
   selection and the claim, if there is one, is not a failure whose back-off is still running.
   */
  lemma ClaimRespectsBackoff(run: seq<Step>, j: nat, k: nat, i: nat, id: JobId)
    requires j < k && SelectsAt(run, j, i, id) && TakesAt(run, k, i, id)
    ensures var s, last := After(run[..k]), LastEnding(run, id, j, k);
            id in s.jobs && (s.jobs[id].nextEligible <= s.now
                <==> !(last.Some? && BacksOffAt(run, last.value, id, s.now)))
  {
    hide After;
    LastEndingDecides(run, id, j, k);
  }

  /** For a claim within fifteen minutes of its selection the kind of the last ending alone decides. */
  lemma PromptClaimRespectsBackoff(run: seq<Step>, j: nat, k: nat, i: nat, id: JobId)
    requires j < k && SelectsAt(run, j, i, id) && TakesAt(run, k, i, id)
    requires After(run[..k]).now < After(run[..j]).now + BACKOFF_SECONDS
    ensures var s, last := After(run[..k]), LastEnding(run, id, j, k);
            id in s.jobs && (s.jobs[id].nextEligible <= s.now <==> !(last.Some? && run[last.value].ending.Fail?))
  {
    hide After;
    ClaimRespectsBackoff(run, j, k, i, id);
    LastEndingDecides(run, id, j, k);
    var last := LastEnding(run, id, j, k);
    if last.Some? {
      RunKeepsBase(run[..last.value]);
      HolderTried(After(run[..last.value]), run[last.value], id);
    }
  }

  lemma HolderTried(s: System, e: Step, id: JobId)
    requires Base(s) && Ends(s, e, id)
    ensures s.jobs[id].attempts >= 1
  {
    assert WorkerFits(s, s.workers[e.i]);
  }
}
