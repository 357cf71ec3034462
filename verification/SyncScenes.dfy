/**
 Runs of the sync queue from its empty table: claims after a failure, one of which does not wait for the
 back-off, and a holder that overstays, shares its job, and reopens it when it is done. All of them play
 with one job and two claimers.
 */
module SyncScenes {
  import opened Wrappers
  import opened SyncQueue
  import opened SyncProtocol
  import opened SyncBackoff
  import opened SyncExclusion

  const JOB: JobId := "job"
  const ORDER: Order := Order(JOB, "sync", Some("all"), 5)
  const NEW: SyncJob := NewJob("sync", Some("all"), 5, 0)

  /** After the run the table holds just this row, the enqueuer is gone, and the claimers are at v and w. */
  ghost predicate Scene(run: seq<Step>, row: SyncJob, v: Worker, w: Worker, now: nat) {
    After(run).jobs == map[JOB := row] && After(run).workers == [Gone, v, w] && After(run).now == now
  }

  lemma Then(run: seq<Step>, e: Step)
    ensures After(run + [e]) == Apply(After(run), e)
  {
    assert (run + [e])[..|run|] == run;
  }

  /** Claimer i, 1 or 2, executes its statement. */
  lemma Moves(
      run: seq<Step>, row: SyncJob, v: Worker, w: Worker, now: nat, i: nat, e: Step, row': SyncJob,
      next: Worker)
    requires Scene(run, row, v, w, now) && i in {1, 2} && e.Act? && e.i == i && e.selected == JOB
    requires var s, x := After(run), if i == 1 then v else w;
             && Executed(s, x, e.ending).jobs == map[JOB := row'] && Executed(s, x, e.ending).workers == s.workers
             && Executed(s, x, e.ending).now == now && Next(s, x, JOB) == next
    ensures Scene(run + [e], row', if i == 1 then next else v, if i == 2 then next else w, now)
  {
    Then(run, e);
    hide After, Executed, Next;
  }

  lemma Reclaims(run: seq<Step>, row: SyncJob, v: Worker, w: Worker, now: nat, i: nat)
    requires Scene(run, row, v, w, now) && i in {1, 2} && (if i == 1 then v else w) == Reclaiming
    ensures Scene(run + [Act(i, JOB, Die)], Reclaimed(row, now),
                  if i == 1 then Selecting else v, if i == 2 then Selecting else w, now)
  {
    hide After, Reclaimed;
    assert ReclaimAll(map[JOB := row], now) == map[JOB := Reclaimed(row, now)];
    Moves(run, row, v, w, now, i, Act(i, JOB, Die), Reclaimed(row, now), Selecting);
  }

  lemma Selects(run: seq<Step>, row: SyncJob, v: Worker, w: Worker, now: nat, i: nat)
    requires Scene(run, row, v, w, now) && i in {1, 2} && (if i == 1 then v else w) == Selecting
    requires row.state == Pending && row.nextEligible <= now
    ensures Scene(run + [Act(i, JOB, Die)], row,
                  if i == 1 then Claiming(JOB) else v, if i == 2 then Claiming(JOB) else w, now)
    ensures IsNext(After(run).jobs, now, JOB)
  {
    hide After;
    assert IsNext(After(run).jobs, now, JOB);
    Moves(run, row, v, w, now, i, Act(i, JOB, Die), row, Claiming(JOB));
  }

  lemma Claims(run: seq<Step>, row: SyncJob, v: Worker, w: Worker, now: nat, i: nat)
    requires Scene(run, row, v, w, now) && i in {1, 2} && (if i == 1 then v else w) == Claiming(JOB)
    requires row.state == Pending
    ensures Scene(run + [Act(i, JOB, Die)], Claimed(row, now),
                  if i == 1 then Holding(JOB, now) else v, if i == 2 then Holding(JOB, now) else w, now)
  {
    hide After, Claimed;
    Moves(run, row, v, w, now, i, Act(i, JOB, Die), Claimed(row, now), Holding(JOB, now));
  }

  lemma Fails(run: seq<Step>, row: SyncJob, since: nat, w: Worker, now: nat)
    requires Scene(run, row, Holding(JOB, since), w, now)
    ensures Scene(run + [Act(1, JOB, Fail(""))], FailedAttempt(row, "", now), Gone, w, now)
  {
    hide After, FailedAttempt;
    Moves(run, row, Holding(JOB, since), w, now, 1, Act(1, JOB, Fail("")), FailedAttempt(row, "", now), Gone);
  }

  lemma Waits(run: seq<Step>, row: SyncJob, v: Worker, w: Worker, now: nat, seconds: nat)
    requires Scene(run, row, v, w, now)
    ensures Scene(run + [Tick(seconds)], row, v, w, now + seconds)
  {
    Then(run, Tick(seconds));
    hide After;
  }

  /** The job is queued, and two claimers begin. */
  function Opening(): seq<Step> {
    [Begin(Checking(ORDER))] + [Act(0, JOB, Die)] + [Act(0, JOB, Die)] + [Begin(Reclaiming)] + [Begin(Reclaiming)]
  }

  lemma Opens()
    ensures Scene(Opening(), NEW, Reclaiming, Reclaiming, 0)
  {
    var r1 := [Begin(Checking(ORDER))];
    var r2 := r1 + [Act(0, JOB, Die)];
    var r3 := r2 + [Act(0, JOB, Die)];
    var r4 := r3 + [Begin(Reclaiming)];
    assert After([]) == EMPTY && [] + r1 == r1;
    Then([], Begin(Checking(ORDER)));
    Then(r1, Act(0, JOB, Die));
    Then(r2, Act(0, JOB, Die));
    Then(r3, Begin(Reclaiming));
    Then(r4, Begin(Reclaiming));
    hide After;
    assert After(r1) == EMPTY.(workers := [Checking(ORDER)]);
    assert After(r2) == EMPTY.(workers := [Inserting(ORDER)]);
    var s3 := After(r3);
    assert s3.jobs == map[JOB := NEW] && s3.workers == [Gone] && s3.now == 0;
    hide InsertStep, HasPending;
    assert After(r4) == s3.(workers := [Gone, Reclaiming]);
    assert After(Opening()) == s3.(workers := [Gone, Reclaiming, Reclaiming]);
  }

  // ---- A claim before its time --------------------------------------------------------------------

  /** Both claimers have selected the job. */
  function Selected(): seq<Step> {
    Opening() + [Act(1, JOB, Die)] + [Act(2, JOB, Die)] + [Act(1, JOB, Die)] + [Act(2, JOB, Die)]
  }

  /** The first takes it and fails; the second takes it at once. */
  function Hasty(): seq<Step> {
    Selected() + [Act(1, JOB, Die)] + [Act(1, JOB, Fail(""))] + [Act(2, JOB, Die)]
  }

  lemma BothSelect()
    ensures Scene(Selected(), NEW, Claiming(JOB), Claiming(JOB), 0)
    ensures SelectsAt(Selected(), 8, 2, JOB)
  {
    Opens();
    assert |Opening()| == 5;
    var r5 := Opening();
    var r6 := r5 + [Act(1, JOB, Die)];
    var r7 := r6 + [Act(2, JOB, Die)];
    var r8 := r7 + [Act(1, JOB, Die)];
    hide After, Opening, Scene;
    Reclaims(r5, NEW, Reclaiming, Reclaiming, 0, 1);
    Reclaims(r6, NEW, Selecting, Reclaiming, 0, 2);
    Selects(r7, NEW, Selecting, Selecting, 0, 1);
    Selects(r8, NEW, Claiming(JOB), Selecting, 0, 2);
    SecondSelects(r8, NEW);
    assert Selected()[..8] == r8;
  }

  lemma SecondSelects(run: seq<Step>, row: SyncJob)
    requires Scene(run, row, Claiming(JOB), Selecting, 0) && IsNext(After(run).jobs, 0, JOB)
    ensures 2 < |After(run).workers| && After(run).workers[2].Selecting? && IsNext(After(run).jobs, After(run).now, JOB)
  {
    hide After, IsNext;
  }

  /** The second claimer takes the job with the whole back-off of fifteen minutes still before it. */
  lemma ClaimMayPrecedeBackoff()
    ensures SelectsAt(Hasty(), 8, 2, JOB) && TakesAt(Hasty(), 11, 2, JOB)
    ensures var s := After(Hasty()[..11]); JOB in s.jobs && s.jobs[JOB].nextEligible == s.now + BACKOFF_SECONDS
    ensures var s := After(Hasty()); |s.workers| == 3 && s.workers[2] == Holding(JOB, 0)
  {
    BothSelect();
    assert |Selected()| == 9 by { assert |Opening()| == 5; }
    var r9 := Selected();
    var r10 := r9 + [Act(1, JOB, Die)];
    var r11 := r10 + [Act(1, JOB, Fail(""))];
    var taken := Claimed(NEW, 0);
    assert Hasty()[..8] == r9[..8] && Hasty()[8] == r9[8] && Hasty()[..11] == r11;
    hide After, Selected, IsNext;
    Claims(r9, NEW, Claiming(JOB), Claiming(JOB), 0, 1);
    Fails(r10, taken, 0, Claiming(JOB), 0);
    Claims(r11, FailedAttempt(taken, "", 0), Gone, Claiming(JOB), 0, 2);
  }

  /** The same, but the second claimer comes fifteen minutes after the failure. */
  function Slow(): seq<Step> {
    Selected() + [Act(1, JOB, Die)] + [Act(1, JOB, Fail(""))] + [Tick(900)] + [Act(2, JOB, Die)]
  }

  /** A failure in between does no harm to a claimer that is slow enough. */
  lemma SlowClaimRespectsBackoff()
    ensures SelectsAt(Slow(), 8, 2, JOB) && TakesAt(Slow(), 12, 2, JOB) && Slow()[10].Act? && Slow()[10].ending.Fail?
    ensures var s := After(Slow()[..12]); JOB in s.jobs && s.jobs[JOB].nextEligible <= s.now
  {
    BothSelect();
    assert |Selected()| == 9 by { assert |Opening()| == 5; }
    var r9 := Selected();
    var r10 := r9 + [Act(1, JOB, Die)];
    var r11 := r10 + [Act(1, JOB, Fail(""))];
    var r12 := r11 + [Tick(900)];
    var taken := Claimed(NEW, 0);
    assert Slow()[..8] == r9[..8] && Slow()[8] == r9[8] && Slow()[..12] == r12;
    hide After, Selected, IsNext;
    Claims(r9, NEW, Claiming(JOB), Claiming(JOB), 0, 1);
    Fails(r10, taken, 0, Claiming(JOB), 0);
    Waits(r11, FailedAttempt(taken, "", 0), Gone, Claiming(JOB), 0, 900);
  }

  // ---- A holder that overstays --------------------------------------------------------------------------

  /** The first claimer holds the job for more than ten minutes. */
  function HeldTooLong(): seq<Step> {
    Opening() + [Act(1, JOB, Die)] + [Act(1, JOB, Die)] + [Act(1, JOB, Die)] + [Tick(601)]
  }

  /** The second takes it back and claims it. */
  function Overstayed(): seq<Step> {
    HeldTooLong() + [Act(2, JOB, Die)] + [Act(2, JOB, Die)] + [Act(2, JOB, Die)]
  }

  lemma IsHeldTooLong()
    ensures Scene(HeldTooLong(), Claimed(NEW, 0), Holding(JOB, 0), Reclaiming, 601)
  {
    Opens();
    var r5 := Opening();
    var r6 := r5 + [Act(1, JOB, Die)];
    var r7 := r6 + [Act(1, JOB, Die)];
    var r8 := r7 + [Act(1, JOB, Die)];
    hide After, Opening, Scene;
    Reclaims(r5, NEW, Reclaiming, Reclaiming, 0, 1);
    Selects(r6, NEW, Selecting, Reclaiming, 0, 1);
    Claims(r7, NEW, Claiming(JOB), Reclaiming, 0, 1);
    Waits(r8, Claimed(NEW, 0), Holding(JOB, 0), Reclaiming, 0, 601);
  }

  lemma BothHold() returns (row: SyncJob)
    ensures Scene(Overstayed(), row, Holding(JOB, 0), Holding(JOB, 601), 601) && row.state == Running
  {
    IsHeldTooLong();
    var r9 := HeldTooLong();
    var r10 := r9 + [Act(2, JOB, Die)];
    var r11 := r10 + [Act(2, JOB, Die)];
    var held := Claimed(NEW, 0);
    var back := Reclaimed(held, 601);
    row := Claimed(back, 601);
    hide After, HeldTooLong, Scene;
    Reclaims(r9, held, Holding(JOB, 0), Reclaiming, 601, 2);
    Selects(r10, back, Holding(JOB, 0), Selecting, 601, 2);
    Claims(r11, back, Holding(JOB, 0), Claiming(JOB), 601, 2);
  }

  /** Two holders at work on one job, in a run that is not timely. */
  lemma TwoHoldersOfOneJob()
    ensures After(Overstayed()).workers == [Gone, Holding(JOB, 0), Holding(JOB, 601)]
    ensures !Timely(Overstayed())
  {
    IsHeldTooLong();
    var row := BothHold();
    var r9 := HeldTooLong();
    assert Overstayed()[..|r9|] == r9;
    hide After, HeldTooLong;
    assert Holding(JOB, 0) in [Gone, Holding(JOB, 0), Reclaiming];
    assert !InTime(After(r9));
  }

  /** The second holder completes the job; then the first, late, hands in its checkpoint. */
  function Reopened(): seq<Step> {
    Overstayed() + [Act(2, JOB, Complete(0))] + [Act(1, JOB, Checkpoint("", 0))]
  }

  /** A job that was done waits in the queue again. */
  lemma DoneJobIsReopened()
    ensures Final(After(Overstayed() + [Act(2, JOB, Complete(0))]), JOB)
    ensures JOB in After(Reopened()).jobs && After(Reopened()).jobs[JOB].state == Pending
  {
    var row := BothHold();
    var done := Completed(row, 0, 601);
    var r13 := Overstayed() + [Act(2, JOB, Complete(0))];
    hide After, Overstayed;
    Moves(Overstayed(), row, Holding(JOB, 0), Holding(JOB, 601), 601, 2, Act(2, JOB, Complete(0)), done, Gone);
    Moves(r13, done, Holding(JOB, 0), Gone, 601, 1, Act(1, JOB, Checkpoint("", 0)), Checkpointed(done, "", 0, 601),
          Gone);
  }
}
