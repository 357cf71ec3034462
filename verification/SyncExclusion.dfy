/**
 Exclusion of sync jobs. Claims carry no fencing token, so a holder that is still at work after ten
 minutes may lose its row to another claimer; this is the only way two holders come to share a job,
 and without it nothing that is done or failed is ever touched again.
 */
module SyncExclusion {
  import opened Wrappers
  import opened SyncQueue
  import opened SyncProtocol

  /** At work longer than ten minutes after its claim. */
  ghost predicate Overstays(s: System, w: Worker) {
    w.Holding? && s.now > w.since + CLAIM_SECONDS
  }

  ghost predicate Exclusive(s: System) {
    forall i, j | 0 <= i < j < |s.workers| && s.workers[i].Holding? && s.workers[j].Holding? ::
      s.workers[i].id != s.workers[j].id
  }

  /** The step claims a job that somebody who has overstayed still holds. */
  ghost predicate TakesOver(s: System, e: Step) {
    && e.Act? && e.i < |s.workers| && s.workers[e.i].Claiming? && CanClaim(s.jobs, s.workers[e.i].id)
    && exists j | 0 <= j < |s.workers| :: Overstays(s, s.workers[j]) && s.workers[j].id == s.workers[e.i].id
  }

  /** A holder's row still runs under its claim, unless the holder has overstayed. */
  ghost predicate Tracked(s: System, w: Worker) {
    w.Holding? ==>
      || Overstays(s, w)
      || (w.id in s.jobs && s.jobs[w.id].state == Running && s.jobs[w.id].startedAt == Some(w.since))
  }

  ghost predicate AllTracked(s: System) {
    forall j | 0 <= j < |s.workers| :: Tracked(s, s.workers[j])
  }

  // ---- One step ---------------------------------------------------------------------------------

  /** What a step does to the row of another holder. */
  lemma OthersStayTracked(s: System, w: Worker, e: Ending, v: Worker)
    requires Tracked(s, v) && (w.Holding? && v.Holding? ==> w.id != v.id)
    ensures Tracked(Executed(s, w, e), v)
  {
    match w
    case Holding(_, _) => hide ReclaimStep;
    case _ => hide EndStep;
  }

  lemma NextIsTracked(s: System, w: Worker, selected: JobId, e: Ending)
    ensures Tracked(Executed(s, w, e), Next(s, w, selected))
    ensures Next(s, w, selected).Holding? ==>
              w.Claiming? && CanClaim(s.jobs, w.id) && Next(s, w, selected) == Holding(w.id, s.now)
    ensures w.Claiming? && CanClaim(s.jobs, w.id) ==> Next(s, w, selected) == Holding(w.id, s.now)
  {
    hide HasPending, IsNext;
    match w
    case Holding(_, _) => hide ReclaimStep;
    case _ => hide EndStep;
  }

  lemma SameRowsTrack(p: System, s': System, v: Worker)
    requires s'.jobs == p.jobs && s'.now >= p.now
    ensures Tracked(p, v) ==> Tracked(s', v)
  {
  }

  lemma StepKeepsTracked(s: System, e: Step)
    requires Exclusive(s) && AllTracked(s)
    ensures AllTracked(Apply(s, e))
  {
    hide Executed, Next;
    var s' := Apply(s, e);
    forall j | 0 <= j < |s'.workers| ensures Tracked(s', s'.workers[j]) {
      if e.Act? && e.i < |s.workers| {
        var w := s.workers[e.i];
        var p := Executed(s, w, e.ending);
        KeepsWorkers(s, w, e.ending);
        if j == e.i {
          NextIsTracked(s, w, e.selected, e.ending);
        } else {
          assert Tracked(s, s.workers[j]);
          OthersStayTracked(s, w, e.ending, s.workers[j]);
        }
        hide Tracked;
        SameRowsTrack(p, s', s'.workers[j]);
      } else if j < |s.workers| {
        assert Tracked(s, s.workers[j]);
        SameRowsTrack(s, s', s.workers[j]);
      }
    }
  }

  /** A step leaves two holders on one job if and only if it claims a job from a holder that has overstayed. */
  lemma StepKeepsExclusive(s: System, e: Step)
    requires Exclusive(s) && AllTracked(s)
    ensures Exclusive(Apply(s, e)) <==> !TakesOver(s, e)
  {
    hide Executed, Next;
    var s' := Apply(s, e);
    if e.Act? && e.i < |s.workers| {
      var w := s.workers[e.i];
      KeepsWorkers(s, w, e.ending);
      NextIsTracked(s, w, e.selected, e.ending);
      if w.Claiming? && CanClaim(s.jobs, w.id) {
        assert s'.workers[e.i] == Holding(w.id, s.now);
        forall j | 0 <= j < |s.workers| && s.workers[j].Holding? && s.workers[j].id == w.id
          ensures Overstays(s, s.workers[j]) && !Exclusive(s')
        {
          assert Tracked(s, s.workers[j]);
          assert s'.workers[j] == s.workers[j];
        }
      }
    }
  }

  // ---- Whole runs -----------------------------------------------------------------------------------

  ghost predicate ExclusiveAt(run: seq<Step>, k: nat)
    requires k <= |run|
  {
    Exclusive(After(run[..k]))
  }

  ghost predicate TakesOverAt(run: seq<Step>, k: nat)
    requires k < |run|
  {
    TakesOver(After(run[..k]), run[k])
  }

  lemma PrefixAgrees(run: seq<Step>, n: nat, k: nat)
    requires k <= n <= |run|
    ensures ExclusiveAt(run[..n], k) == ExclusiveAt(run, k)
    ensures k < n ==> TakesOverAt(run[..n], k) == TakesOverAt(run, k)
  {
    hide After, Exclusive, TakesOver;
    assert run[..n][..k] == run[..k];
  }

  /** As long as no job was shared, every holder is tracked. */
  lemma {:induction false} TrackedWhileExclusive(run: seq<Step>, n: nat)
    requires n <= |run| && forall k: nat | k < n :: ExclusiveAt(run, k)
    ensures AllTracked(After(run[..n]))
    decreases n
  {
    if n == 0 {
      assert run[..0] == [];
    } else {
      hide After, Apply, AllTracked, Exclusive;
      TrackedWhileExclusive(run, n - 1);
      assert ExclusiveAt(run, n - 1);
      AfterOneMore(run, n - 1);
      StepKeepsTracked(After(run[..n - 1]), run[n - 1]);
    }
  }

  lemma LastStepDecides(run: seq<Step>, n: nat)
    requires n < |run| && forall k: nat | k <= n :: ExclusiveAt(run, k)
    ensures ExclusiveAt(run, n + 1) <==> !TakesOverAt(run, n)
  {
    TrackedWhileExclusive(run, n);
    assert ExclusiveAt(run, n);
    hide After, Apply, Exclusive, TakesOver, AllTracked;
    AfterOneMore(run, n);
    StepKeepsExclusive(After(run[..n]), run[n]);
  }

  lemma StartsExclusive(run: seq<Step>)
    ensures ExclusiveAt(run, 0)
  {
    assert run[..0] == [];
  }

  /** No two holders ever share a job in a run, if and only if no step of the run takes a job over. */
  lemma {:induction false} ExclusiveExactlyWithoutTakeovers(run: seq<Step>)
    ensures (forall k: nat | k <= |run| :: ExclusiveAt(run, k)) <==> (forall k: nat | k < |run| :: !TakesOverAt(run, k))
    decreases |run|
  {
    hide ExclusiveAt, TakesOverAt;
    if run == [] {
      StartsExclusive(run);
    } else {
      var n := |run| - 1;
      ExclusiveExactlyWithoutTakeovers(run[..n]);
      forall k: nat | k <= n
        ensures ExclusiveAt(run[..n], k) == ExclusiveAt(run, k)
        ensures k < n ==> TakesOverAt(run[..n], k) == TakesOverAt(run, k)
      {
        PrefixAgrees(run, n, k);
      }
      if forall k: nat | k <= n :: ExclusiveAt(run, k) {
        LastStepDecides(run, n);
      }
    }
  }

  // ---- Timely runs ------------------------------------------------------------------------------------

  /** No holder is at work longer than ten minutes after its claim. */
  ghost predicate InTime(s: System) {
    forall w | w in s.workers :: !Overstays(s, w)
  }

  ghost predicate Timely(run: seq<Step>) {
    forall k: nat | k <= |run| :: InTime(After(run[..k]))
  }

  lemma TimelyRunsTakeNothingOver(run: seq<Step>)
    requires Timely(run)
    ensures forall k: nat | k <= |run| :: ExclusiveAt(run, k)
  {
    forall k: nat | k < |run| ensures !TakesOverAt(run, k) {
      hide After;
      assert InTime(After(run[..k]));
    }
    ExclusiveExactlyWithoutTakeovers(run);
  }

  /** In particular no two live holders own the same job as long as no holder overstays. */
  lemma HoldersAreExclusive(run: seq<Step>, i: nat, j: nat)
    requires Timely(run)
    requires i < j < |After(run).workers| && After(run).workers[i].Holding? && After(run).workers[j].Holding?
    ensures After(run).workers[i].id != After(run).workers[j].id
  {
    hide After, Timely;
    TimelyRunsTakeNothingOver(run);
    assert ExclusiveAt(run, |run|);
    assert run[..|run|] == run;
  }

  // ---- Final rows -----------------------------------------------------------------------------------------

  ghost predicate Final(s: System, id: JobId) {
    id in s.jobs && s.jobs[id].state in {Done, Failed}
  }

  /** Some holder of the job writes an outcome. */
  ghost predicate Writes(s: System, e: Step, id: JobId) {
    && e.Act? && e.i < |s.workers| && s.workers[e.i].Holding? && s.workers[e.i].id == id
    && id in s.jobs && !e.ending.Die?
  }

  /** A late outcome that sends the job back to the queue. */
  ghost predicate Reopens(s: System, e: Step, id: JobId) {
    Writes(s, e, id) && (e.ending.Checkpoint? || (e.ending.Fail? && s.jobs[id].attempts < MAX_ATTEMPTS))
  }

  /** A final row is changed only by a holder's outcome, and stops being final exactly when that reopens the job. */
  lemma FinalRowMoves(s: System, e: Step, id: JobId)
    requires Final(s, id)
    ensures id in Apply(s, e).jobs && (Apply(s, e).jobs[id] != s.jobs[id] ==> Writes(s, e, id))
    ensures Final(Apply(s, e), id) <==> !Reopens(s, e, id)
  {
    hide HasPending, IsNext;
    if e.Act? && e.i < |s.workers| {
      match s.workers[e.i]
      case Holding(_, _) => hide ReclaimStep;
      case _ => hide EndStep;
    }
  }

  /** While jobs are not shared, only a holder that has overstayed can write to a final row. */
  lemma OnlyOverstayersWriteFinalRows(run: seq<Step>, n: nat, id: JobId)
    requires n < |run| && forall k: nat | k < n :: ExclusiveAt(run, k)
    requires Final(After(run[..n]), id) && Writes(After(run[..n]), run[n], id)
    ensures Overstays(After(run[..n]), After(run[..n]).workers[run[n].i])
  {
    TrackedWhileExclusive(run, n);
    hide After, ExclusiveAt;
    assert Tracked(After(run[..n]), After(run[..n]).workers[run[n].i]);
  }

  /** From step j to the end of a run a final job stays final, if and only if no step in between reopens it. */
  lemma {:induction false} FinalExactlyUntilReopened(run: seq<Step>, j: nat, id: JobId)
    requires j <= |run| && Final(After(run[..j]), id)
    ensures (forall n: nat | j <= n <= |run| :: Final(After(run[..n]), id))
       <==> (forall n: nat | j <= n < |run| :: !Reopens(After(run[..n]), run[n], id))
    decreases |run| - j
  {
    hide After, Apply, Final, Reopens;
    if j < |run| {
      AfterOneMore(run, j);
      FinalRowMoves(After(run[..j]), run[j], id);
      if Final(After(run[..j + 1]), id) {
        FinalExactlyUntilReopened(run, j + 1, id);
      }
    }
  }

  /** In a timely run a final row is never changed again. */
  lemma {:induction false} FinalForever(run: seq<Step>, j: nat, n: nat, id: JobId)
    requires Timely(run) && j <= n <= |run| && Final(After(run[..j]), id)
    ensures id in After(run[..n]).jobs && After(run[..n]).jobs[id] == After(run[..j]).jobs[id]
    decreases n
  {
    if j < n {
      FinalForever(run, j, n - 1, id);
      TimelyRunsTakeNothingOver(run);
      assert InTime(After(run[..n - 1]));
      hide After, Apply, Timely, ExclusiveAt;
      AfterOneMore(run, n - 1);
      FinalRowMoves(After(run[..n - 1]), run[n - 1], id);
      if Writes(After(run[..n - 1]), run[n - 1], id) {
        OnlyOverstayersWriteFinalRows(run, n - 1, id);
        assert false;
      }
    }
  }
}
