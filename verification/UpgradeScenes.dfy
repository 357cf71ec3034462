/**
 Three runs of the upgrade protocol from the empty deployment: an observation is lost, a job enters validation
 after the backup it was checked against has been withdrawn, and a request is answered with another one's job.
 */
module UpgradeScenes {
  import opened Wrappers
  import opened Evidence
  import opened Lifecycle
  import opened UpgradeTables
  import opened UpgradeProtocol
  import L = UpgradeLimits
  import C = UpgradeConcurrency
  import R = UpgradeReplies

  type Nonces = map<string, Nonce>

  /** After the run these are the rows and the workers, and no time has passed. */
  ghost predicate Scene(run: seq<Step>, jobs: map<JobId, Job>, nonces: Nonces, workers: seq<Worker>) {
    var s := After(run);
    s.tables.jobs == jobs && s.tables.nonces == nonces && s.workers == workers && s.now == 0
  }

  lemma Then(run: seq<Step>, e: Step)
    ensures After(run + [e]) == Apply(After(run), e)
  {
    assert (run + [e])[..|run|] == run;
  }

  const TARGET := Target("production", "2.0", "sha256:2")
  const REQUEST := RequestBody("key", "operator", TARGET, "nonce")
  const APPROVAL := Approval("operator", ToRequest, TARGET)
  const CHOICE := Choice("a", false, None)

  function Accepting(): Change {
    Change("a", Accepted, Update(None, Some([Field("controller", Str("taken"))]), None, None), Alone)
  }

  function Seen(): Update {
    Update(None, Some([Field("health", Str("seen"))]), None, None)
  }

  function Fresh(): Nonces {
    map["nonce" := Nonce(APPROVAL, 10, None)]
  }

  function Used(): Nonces {
    map["nonce" := Nonce(APPROVAL, 10, Some(0))]
  }

  const NEW := NewJob("key", "operator", TARGET)

  // ---- The request is on its way ------------------------------------------------------------------

  function Approved(): seq<Step> {
    [Register("nonce", APPROVAL, 10)] + [Begin(LookUpKey(REQUEST))]
  }

  lemma IsApproved()
    ensures Scene(Approved(), map[], Fresh(), [LookUpKey(REQUEST)])
  {
    assert After([]) == EMPTY && [] + [Register("nonce", APPROVAL, 10)] == [Register("nonce", APPROVAL, 10)];
    Then([], Register("nonce", APPROVAL, 10));
    Then([Register("nonce", APPROVAL, 10)], Begin(LookUpKey(REQUEST)));
    hide After;
    assert After([Register("nonce", APPROVAL, 10)]).tables.nonces == Fresh();
  }

  lemma NothingStored()
    ensures forall key :: FindByKey(map[], key).None?
    ensures FindActive(map[]).None? && forall id, key :: CanInsert(map[], id, key)
  {
    forall key ensures FindByKey(map[], key).None? {
      var found := FindByKey(map[], key);
    }
    var active := FindActive(map[]);
  }

  // ---- A request in an empty table, one step of one worker ----------------------------------------------

  lemma LooksUp(run: seq<Step>, nonces: Nonces, workers: seq<Worker>, i: nat, r: RequestBody)
    requires Scene(run, map[], nonces, workers) && i < |workers| && workers[i] == LookUpKey(r)
    ensures Scene(run + [Act(i, CHOICE)], map[], nonces, workers[i := ConsumeNonce(r)])
  {
    NothingStored();
    Then(run, Act(i, CHOICE));
    hide After, FindByKey;
  }

  /** Whatever is stored, an approval is consumed. */
  lemma Consumes(
      run: seq<Step>, jobs: map<JobId, Job>, nonces: Nonces, workers: seq<Worker>, i: nat, r: RequestBody)
    requires Scene(run, jobs, nonces, workers) && i < |workers| && workers[i] == ConsumeNonce(r)
    requires Consumable(nonces, r.nonce, Approval(r.actor, ToRequest, r.target), 0)
    ensures Scene(run + [Act(i, CHOICE)], jobs, nonces[r.nonce := nonces[r.nonce].(usedAt := Some(0))],
                  workers[i := RecheckKey(r)])
  {
    Then(run, Act(i, CHOICE));
    hide After, FindByKey;
  }

  lemma Rechecks(run: seq<Step>, nonces: Nonces, workers: seq<Worker>, i: nat, r: RequestBody)
    requires Scene(run, map[], nonces, workers) && i < |workers| && workers[i] == RecheckKey(r)
    ensures Scene(run + [Act(i, CHOICE)], map[], nonces, workers[i := CheckLock(r)])
  {
    NothingStored();
    Then(run, Act(i, CHOICE));
    hide After, FindByKey;
  }

  lemma ChecksLock(run: seq<Step>, nonces: Nonces, workers: seq<Worker>, i: nat, r: RequestBody)
    requires Scene(run, map[], nonces, workers) && i < |workers| && workers[i] == CheckLock(r)
    ensures Scene(run + [Act(i, CHOICE)], map[], nonces, workers[i := InsertJob(r)])
  {
    NothingStored();
    Then(run, Act(i, CHOICE));
    hide After, FindByKey, FindActive;
  }

  lemma InsertsJob(run: seq<Step>, nonces: Nonces, workers: seq<Worker>, i: nat, r: RequestBody)
    requires Scene(run, map[], nonces, workers) && i < |workers| && workers[i] == InsertJob(r)
    ensures Scene(run + [Act(i, CHOICE)], map["a" := NewJob(r.key, r.actor, r.target)], nonces,
                  workers[i := InsertRequestEvent(r, "a")])
  {
    NothingStored();
    Then(run, Act(i, CHOICE));
    hide After, FindByKey, FindActive, CanInsert;
  }

  function Stored(): seq<Step> {
    Approved() + [Act(0, CHOICE)] + [Act(0, CHOICE)] + [Act(0, CHOICE)] + [Act(0, CHOICE)] + [Act(0, CHOICE)]
  }

  lemma IsConsumed()
    ensures Scene(Approved() + [Act(0, CHOICE)] + [Act(0, CHOICE)], map[], Used(), [RecheckKey(REQUEST)])
  {
    IsApproved();
    assert Consumable(Fresh(), "nonce", APPROVAL, 0);
    assert Fresh()["nonce" := Fresh()["nonce"].(usedAt := Some(0))] == Used();
    hide Scene, Approved, Fresh, Used, Consumable;
    var w := [LookUpKey(REQUEST)];
    LooksUp(Approved(), Fresh(), w, 0, REQUEST);
    assert w[0 := ConsumeNonce(REQUEST)] == [ConsumeNonce(REQUEST)];
    Consumes(Approved() + [Act(0, CHOICE)], map[], Fresh(), [ConsumeNonce(REQUEST)], 0, REQUEST);
    assert [ConsumeNonce(REQUEST)][0 := RecheckKey(REQUEST)] == [RecheckKey(REQUEST)];
  }

  lemma IsStored()
    ensures Scene(Stored(), map["a" := NEW], Used(), [InsertRequestEvent(REQUEST, "a")])
  {
    IsConsumed();
    var r2 := Approved() + [Act(0, CHOICE)] + [Act(0, CHOICE)];
    var r3 := r2 + [Act(0, CHOICE)];
    hide Scene, Approved, Used;
    Rechecks(r2, Used(), [RecheckKey(REQUEST)], 0, REQUEST);
    assert [RecheckKey(REQUEST)][0 := CheckLock(REQUEST)] == [CheckLock(REQUEST)];
    ChecksLock(r3, Used(), [CheckLock(REQUEST)], 0, REQUEST);
    assert [CheckLock(REQUEST)][0 := InsertJob(REQUEST)] == [InsertJob(REQUEST)];
    InsertsJob(r3 + [Act(0, CHOICE)], Used(), [InsertJob(REQUEST)], 0, REQUEST);
    assert [InsertJob(REQUEST)][0 := InsertRequestEvent(REQUEST, "a")] == [InsertRequestEvent(REQUEST, "a")];
  }

  // ---- One step of one worker -------------------------------------------------------------------------

  lemma WorkerJoins(run: seq<Step>, job: Job, workers: seq<Worker>, w: Worker)
    requires Scene(run, map["a" := job], Used(), workers) && Initial(w)
    ensures Scene(run + [Begin(w)], map["a" := job], Used(), workers + [w])
  {
    Then(run, Begin(w));
    hide After, Initial;
  }

  lemma TransitionReads(run: seq<Step>, job: Job, workers: seq<Worker>, i: nat, change: Change)
    requires Scene(run, map["a" := job], Used(), workers)
    requires i < |workers| && workers[i] == ReadForTransition(change) && change.id == "a"
    requires CanTransition(job.state, change.next)
    requires GatePasses(change.next, Merged(job, change.input), job.target.digest)
    ensures Scene(run + [Act(i, CHOICE)], map["a" := job], Used(), workers[i := CommitTransition(change, job)])
  {
    Then(run, Act(i, CHOICE));
    assert job.state != change.next by { NoSelfTransition(job.state); }
    hide After, GatePasses, CanTransition, Merged, Raise;
  }

  lemma TransitionWrites(run: seq<Step>, job: Job, read: Job, workers: seq<Worker>, i: nat, change: Change)
    requires Scene(run, map["a" := job], Used(), workers)
    requires i < |workers| && workers[i] == CommitTransition(change, read)
    requires change.id == "a" && job.state == read.state
    ensures Scene(run + [Act(i, CHOICE)], map["a" := Transitioned(job, read, change.next, change.input)], Used(),
                  workers[i := NumberTransition(change, read)])
  {
    Then(run, Act(i, CHOICE));
    hide After, Transitioned, Raise;
  }

  lemma ObservationReads(run: seq<Step>, job: Job, workers: seq<Worker>, i: nat, input: Update)
    requires Scene(run, map["a" := job], Used(), workers)
    requires i < |workers| && workers[i] == ReadForObservation("a", input)
    ensures Scene(run + [Act(i, CHOICE)], map["a" := job], Used(), workers[i := CommitObservation("a", input, job)])
  {
    Then(run, Act(i, CHOICE));
    hide After;
  }

  lemma ObservationWrites(run: seq<Step>, job: Job, workers: seq<Worker>, i: nat, input: Update) returns (w: Worker)
    requires Scene(run, map["a" := job], Used(), workers)
    requires i < |workers| && workers[i] == CommitObservation("a", input, job)
    ensures Scene(run + [Act(i, CHOICE)], map["a" := Observed(job, job, input)], Used(), workers[i := w])
  {
    Then(run, Act(i, CHOICE));
    w := if EvidenceChanged(job, input) then NumberObservation("a", input, job) else Finished;
    hide After, Observed, EvidenceChanged;
  }

  // ---- An acceptance and an observation --------------------------------------------------------------

  const WAITING := InsertRequestEvent(REQUEST, "a")

  function Joined(): seq<Step> {
    Stored() + [Begin(ReadForTransition(Accepting()))] + [Begin(ReadForObservation("a", Seen()))]
  }

  lemma BothJoin()
    ensures Scene(Joined(), map["a" := NEW], Used(),
             [WAITING, ReadForTransition(Accepting()), ReadForObservation("a", Seen())])
  {
    IsStored();
    hide Scene, Stored;
    WorkerJoins(Stored(), NEW, [WAITING], ReadForTransition(Accepting()));
    assert [WAITING] + [ReadForTransition(Accepting())] == [WAITING, ReadForTransition(Accepting())];
    WorkerJoins(Stored() + [Begin(ReadForTransition(Accepting()))], NEW, [WAITING, ReadForTransition(Accepting())],
          ReadForObservation("a", Seen()));
    assert [WAITING, ReadForTransition(Accepting())] + [ReadForObservation("a", Seen())]
        == [WAITING, ReadForTransition(Accepting()), ReadForObservation("a", Seen())];
  }

  lemma AcceptanceIsOpen()
    ensures CanTransition(Requested, Accepted) && GatePasses(Accepted, Merged(NEW, Accepting().input), TARGET.digest)
  {
  }

  /** Both have read the new row. */
  function BothRead(): seq<Step> {
    Joined() + [Act(1, CHOICE)] + [Act(2, CHOICE)]
  }

  lemma BothHaveRead()
    ensures Scene(BothRead(), map["a" := NEW], Used(),
                  [WAITING, CommitTransition(Accepting(), NEW), CommitObservation("a", Seen(), NEW)])
  {
    BothJoin();
    AcceptanceIsOpen();
    hide Scene, Joined, GatePasses, CanTransition, Merged;
    var w := [WAITING, ReadForTransition(Accepting()), ReadForObservation("a", Seen())];
    TransitionReads(Joined(), NEW, w, 1, Accepting());
    w := w[1 := CommitTransition(Accepting(), NEW)];
    ObservationReads(Joined() + [Act(1, CHOICE)], NEW, w, 2, Seen());
    assert w[2 := CommitObservation("a", Seen(), NEW)]
        == [WAITING, CommitTransition(Accepting(), NEW), CommitObservation("a", Seen(), NEW)];
  }

  /** The observation commits, then the acceptance does. */
  function Lost(): seq<Step> {
    BothRead() + [Act(2, CHOICE)] + [Act(1, CHOICE)]
  }

  /** What was seen is stored one step before the end of the run, and gone at its end. */
  lemma ObservationGetsLost()
    ensures var s1, s2 := After(BothRead() + [Act(2, CHOICE)]), After(Lost());
            && "a" in s1.tables.jobs && "a" in s2.tables.jobs && s2.tables.jobs["a"].state == Accepted
            && Lookup(s1.tables.jobs["a"].evidence, "health") == Some(Str("seen"))
            && Lookup(s2.tables.jobs["a"].evidence, "health").None?
  {
    BothHaveRead();
    Then(BothRead(), Act(2, CHOICE));
    Then(BothRead() + [Act(2, CHOICE)], Act(1, CHOICE));
    assert Lookup(Seen().evidence.GetOr([]), "health") == Some(Str("seen"));
    assert Lookup(Accepting().input.evidence.value, "health").None?;
    hide After, Apply, Lookup, BothRead;
    ObservationIsLost(After(BothRead()), 1, 2, Accepting(), Seen(), NEW, CHOICE, "health");
    NothingSeenYet();
  }

  lemma NothingSeenYet()
    ensures Lookup(NEW.evidence, "health").None?
  {
  }

  // ---- A withdrawal between the check and the commit ---------------------------------------------------

  function Moving(next: State, input: Update): Change {
    Change("a", next, input, Alone)
  }

  /** A transition that a worker of its own begins, reads and commits, with nothing in between. */
  function ByItself(i: nat, change: Change): seq<Step> {
    [Begin(ReadForTransition(change))] + [Act(i, CHOICE)] + [Act(i, CHOICE)]
  }

  lemma RunsAlone(run: seq<Step>, job: Job, workers: seq<Worker>, change: Change)
    requires Scene(run, map["a" := job], Used(), workers) && change.id == "a" && change.origin == Alone
    requires CanTransition(job.state, change.next)
    requires GatePasses(change.next, Merged(job, change.input), job.target.digest)
    ensures Scene(run + ByItself(|workers|, change),
                  map["a" := Transitioned(job, job, change.next, change.input)], Used(),
                  workers + [NumberTransition(change, job)])
  {
    var i, w := |workers|, ReadForTransition(change);
    assert Initial(w);
    ThreeSteps(run, i, change);
    hide Scene, GatePasses, CanTransition, Merged, Transitioned, Initial, ByItself, Used;
    var r1 := run + [Begin(w)];
    WorkerJoins(run, job, workers, w);
    TransitionReads(r1, job, workers + [w], i, change);
    LastOf(workers, w, CommitTransition(change, job));
    TransitionWrites(r1 + [Act(i, CHOICE)], job, job, workers + [CommitTransition(change, job)], i, change);
    LastOf(workers, CommitTransition(change, job), NumberTransition(change, job));
  }

  lemma ThreeSteps(run: seq<Step>, i: nat, change: Change)
    ensures run + ByItself(i, change)
            == run + [Begin(ReadForTransition(change))] + [Act(i, CHOICE)] + [Act(i, CHOICE)]
  {
  }

  lemma LastOf(workers: seq<Worker>, w: Worker, v: Worker)
    ensures (workers + [w])[|workers| := v] == workers + [v]
  {
  }

  /** The job is taken to its backup, with proof of the backup and of a restored migration. */
  function BackedUpRun(): seq<Step> {
    Stored() + ByItself(1, Moving(Accepted, L.QUIET)) + ByItself(2, Moving(Preflight, L.QUIET))
    + ByItself(3, Moving(Backup, L.BackedUp()))
  }

  lemma FreeStep(run: seq<Step>, job: Job, workers: seq<Worker>, next: State, input: Update)
    requires Scene(run, map["a" := job], Used(), workers)
    requires CanTransition(job.state, next) && next in {Accepted, Preflight, Backup}
    ensures Scene(run + ByItself(|workers|, Moving(next, input)),
                  map["a" := Transitioned(job, job, next, input)], Used(),
                  workers + [NumberTransition(Moving(next, input), job)])
    ensures Transitioned(job, job, next, input).state == next
  {
    L.Ungated(next, Merged(job, input), job.target.digest);
    hide GatePasses, Scene, CanTransition, Merged, CanReleaseLock, Truncated, Coalesce;
    RunsAlone(run, job, workers, Moving(next, input));
  }

  lemma IsBackedUp() returns (before: Job, workers: seq<Worker>)
    ensures before.state == Preflight && |workers| == 4
    ensures Scene(BackedUpRun(), map["a" := Transitioned(before, before, Backup, L.BackedUp())], Used(), workers)
  {
    IsStored();
    hide Scene, Stored, Transitioned;
    var w1 := [WAITING];
    FreeStep(Stored(), NEW, w1, Accepted, L.QUIET);
    var accepted := Transitioned(NEW, NEW, Accepted, L.QUIET);
    var r1 := Stored() + ByItself(1, Moving(Accepted, L.QUIET));
    var w2 := w1 + [NumberTransition(Moving(Accepted, L.QUIET), NEW)];
    FreeStep(r1, accepted, w2, Preflight, L.QUIET);
    before := Transitioned(accepted, accepted, Preflight, L.QUIET);
    var r2 := r1 + ByItself(2, Moving(Preflight, L.QUIET));
    var w3 := w2 + [NumberTransition(Moving(Preflight, L.QUIET), accepted)];
    FreeStep(r2, before, w3, Backup, L.BackedUp());
    workers := w3 + [NumberTransition(Moving(Backup, L.BackedUp()), before)];
  }

  lemma BackupIsEnough(before: Job)
    ensures var job := Transitioned(before, before, Backup, L.BackedUp());
            && job.state == Backup && CanTransition(job.state, ValidatingArtifact)
            && GatePasses(ValidatingArtifact, Merged(job, L.QUIET), job.target.digest)
            && job.target == before.target
  {
    var job := Transitioned(before, before, Backup, L.BackedUp());
    L.BackupSuffices(before);
    hide GatePasses, CanReleaseLock, Lookup;
    assert job.evidence == Merged(before, L.BackedUp());
    assert Merged(job, L.QUIET) == job.evidence;
  }

  /** The worker has read the row for validation. */
  function CheckedRun(): seq<Step> {
    BackedUpRun() + [Begin(ReadForTransition(Moving(ValidatingArtifact, L.QUIET)))] + [Act(4, CHOICE)]
  }

  lemma IsChecked() returns (read: Job, workers: seq<Worker>)
    ensures read.state == Backup && Scene(CheckedRun(), map["a" := read], Used(), workers)
    ensures |workers| == 5 && workers[4] == CommitTransition(Moving(ValidatingArtifact, L.QUIET), read)
  {
    var change := Moving(ValidatingArtifact, L.QUIET);
    var w := ReadForTransition(change);
    assert Initial(w);
    hide Scene, GatePasses, CanTransition, Merged, Transitioned, BackedUpRun, Initial;
    var before, others := IsBackedUp();
    BackupIsEnough(before);
    read := Transitioned(before, before, Backup, L.BackedUp());
    WorkerJoins(BackedUpRun(), read, others, w);
    TransitionReads(BackedUpRun() + [Begin(w)], read, others + [w], 4, change);
    workers := (others + [w])[4 := CommitTransition(change, read)];
  }

  /** Then an observation withdraws the backup. */
  function WithdrawnRun(): seq<Step> {
    CheckedRun() + [Begin(ReadForObservation("a", L.Withdrawn()))] + [Act(5, CHOICE)] + [Act(5, CHOICE)]
  }

  lemma IsWithdrawn() returns (job: Job, read: Job, workers: seq<Worker>)
    ensures job.state == Backup && read.state == Backup && job == Observed(read, read, L.Withdrawn())
    ensures |workers| == 6 && workers[4] == CommitTransition(Moving(ValidatingArtifact, L.QUIET), read)
    ensures Scene(WithdrawnRun(), map["a" := job], Used(), workers)
  {
    var input := L.Withdrawn();
    var v := ReadForObservation("a", input);
    assert Initial(v);
    hide Scene, Observed, CheckedRun, Initial;
    var w;
    read, w := IsChecked();
    WorkerJoins(CheckedRun(), read, w, v);
    ObservationReads(CheckedRun() + [Begin(v)], read, w + [v], 5, input);
    w := (w + [v])[5 := CommitObservation("a", input, read)];
    var rest := ObservationWrites(CheckedRun() + [Begin(v)] + [Act(5, CHOICE)], read, w, 5, input);
    job, workers := Observed(read, read, input), w[5 := rest];
    ObservedKeepsState(read, input);
  }

  lemma ObservedKeepsState(job: Job, input: Update)
    ensures Observed(job, job, input).state == job.state && Observed(job, job, input).target == job.target
  {
    hide Merged, Truncated, Coalesce;
  }

  /** The withdrawal leaves the job gated, for a backup is not demanded in `Backup`; the commit after it does not. */
  lemma ValidationWithoutBackup()
    ensures var s1, s2 := After(WithdrawnRun()).tables.jobs, After(WithdrawnRun() + [Act(4, CHOICE)]).tables.jobs;
            && "a" in s1 && s1["a"].state == Backup && C.Gated(s1["a"])
            && "a" in s2 && s2["a"].state == ValidatingArtifact && !C.Gated(s2["a"])
  {
    var job, read, workers := IsWithdrawn();
    hide After, WithdrawnRun, GatePasses, Transitioned, Observed;
    var change := Moving(ValidatingArtifact, L.QUIET);
    TransitionWrites(WithdrawnRun(), job, read, workers, 4, change);
    NothingLeft(job, read);
    L.Ungated(Backup, job.evidence, job.target.digest);
  }

  lemma NothingLeft(job: Job, read: Job)
    requires job == Observed(read, read, L.Withdrawn())
    ensures var row := Transitioned(job, read, ValidatingArtifact, L.QUIET);
            row.state == ValidatingArtifact && !C.Gated(row)
  {
    var row := Transitioned(job, read, ValidatingArtifact, L.QUIET);
    assert row.evidence == Merge(read.evidence, L.Withdrawn().evidence.value);
    assert Lookup(L.Withdrawn().evidence.value, "backup") == Some(Null);
    assert Lookup(row.evidence, "backup") == Some(Null);
    hide CanReleaseLock, Merge, Truncated, Coalesce;
    assert Guards(VerifiedBackup, row.state) && !Provides(row.evidence, row.target.digest, VerifiedBackup);
  }

  // ---- An answer for another request ---------------------------------------------------------------------

  const RIVAL := RequestBody("key", "rival", Target("production", "3.0", "sha256:3"), "second")
  const PERMIT := Approval("rival", ToRequest, Target("production", "3.0", "sha256:3"))

  function Both(): Nonces {
    map["nonce" := Nonce(APPROVAL, 10, None), "second" := Nonce(PERMIT, 10, None)]
  }

  /** Two operators use one key for different targets, and both look it up before either is stored. */
  function TwoRequests(): seq<Step> {
    [Register("nonce", APPROVAL, 10)] + [Register("second", PERMIT, 10)]
    + [Begin(LookUpKey(REQUEST))] + [Begin(LookUpKey(RIVAL))]
  }

  lemma BothAreApproved()
    ensures Scene([Register("nonce", APPROVAL, 10)] + [Register("second", PERMIT, 10)], map[], Both(), [])
  {
    var r1 := [Register("nonce", APPROVAL, 10)];
    assert After([]) == EMPTY && [] + r1 == r1;
    Then([], Register("nonce", APPROVAL, 10));
    Then(r1, Register("second", PERMIT, 10));
    hide After;
    assert After(r1).tables.nonces == Fresh();
    assert After(r1 + [Register("second", PERMIT, 10)]).tables.nonces == Both();
  }

  lemma RequestBegins(run: seq<Step>, nonces: Nonces, workers: seq<Worker>, r: RequestBody)
    requires Scene(run, map[], nonces, workers)
    ensures Scene(run + [Begin(LookUpKey(r))], map[], nonces, workers + [LookUpKey(r)])
  {
    Then(run, Begin(LookUpKey(r)));
    hide After;
  }

  lemma BothBegin()
    ensures Scene(TwoRequests(), map[], Both(), [LookUpKey(REQUEST), LookUpKey(RIVAL)])
  {
    BothAreApproved();
    hide Scene, Both;
    var r2 := [Register("nonce", APPROVAL, 10)] + [Register("second", PERMIT, 10)];
    RequestBegins(r2, Both(), [], REQUEST);
    assert [] + [LookUpKey(REQUEST)] == [LookUpKey(REQUEST)];
    RequestBegins(r2 + [Begin(LookUpKey(REQUEST))], Both(), [LookUpKey(REQUEST)], RIVAL);
    assert [LookUpKey(REQUEST)] + [LookUpKey(RIVAL)] == [LookUpKey(REQUEST), LookUpKey(RIVAL)];
  }

  /** Both have found nothing; the first goes on until its approval is used. */
  function FirstApproved(): seq<Step> {
    TwoRequests() + [Act(0, CHOICE)] + [Act(1, CHOICE)] + [Act(0, CHOICE)]
  }

  function OneUsed(): Nonces {
    Both()["nonce" := Nonce(APPROVAL, 10, Some(0))]
  }

  lemma IsFirstApproved()
    ensures Scene(FirstApproved(), map[], OneUsed(), [RecheckKey(REQUEST), ConsumeNonce(RIVAL)])
  {
    BothBegin();
    assert Consumable(Both(), "nonce", APPROVAL, 0);
    assert Both()["nonce"].(usedAt := Some(0)) == Nonce(APPROVAL, 10, Some(0));
    hide Scene, Both, TwoRequests, Consumable;
    var r := TwoRequests();
    LooksUp(r, Both(), [LookUpKey(REQUEST), LookUpKey(RIVAL)], 0, REQUEST);
    var w := [ConsumeNonce(REQUEST), LookUpKey(RIVAL)];
    assert [LookUpKey(REQUEST), LookUpKey(RIVAL)][0 := ConsumeNonce(REQUEST)] == w;
    LooksUp(r + [Act(0, CHOICE)], Both(), w, 1, RIVAL);
    assert w[1 := ConsumeNonce(RIVAL)] == [ConsumeNonce(REQUEST), ConsumeNonce(RIVAL)];
    Consumes(r + [Act(0, CHOICE)] + [Act(1, CHOICE)], map[], Both(), [ConsumeNonce(REQUEST), ConsumeNonce(RIVAL)], 0,
             REQUEST);
    assert [ConsumeNonce(REQUEST), ConsumeNonce(RIVAL)][0 := RecheckKey(REQUEST)]
        == [RecheckKey(REQUEST), ConsumeNonce(RIVAL)];
  }

  /** Then its job is stored, and the rival's approval is used as well. */
  function Rivals(): seq<Step> {
    FirstApproved() + [Act(0, CHOICE)] + [Act(0, CHOICE)] + [Act(0, CHOICE)] + [Act(1, CHOICE)]
  }

  lemma FirstIsStored()
    ensures Scene(FirstApproved() + [Act(0, CHOICE)] + [Act(0, CHOICE)] + [Act(0, CHOICE)], map["a" := NEW], OneUsed(),
                  [WAITING, ConsumeNonce(RIVAL)])
  {
    IsFirstApproved();
    hide Scene, OneUsed, FirstApproved;
    var r := FirstApproved();
    Rechecks(r, OneUsed(), [RecheckKey(REQUEST), ConsumeNonce(RIVAL)], 0, REQUEST);
    var w := [CheckLock(REQUEST), ConsumeNonce(RIVAL)];
    assert [RecheckKey(REQUEST), ConsumeNonce(RIVAL)][0 := CheckLock(REQUEST)] == w;
    ChecksLock(r + [Act(0, CHOICE)], OneUsed(), w, 0, REQUEST);
    assert w[0 := InsertJob(REQUEST)] == [InsertJob(REQUEST), ConsumeNonce(RIVAL)];
    InsertsJob(r + [Act(0, CHOICE)] + [Act(0, CHOICE)], OneUsed(), [InsertJob(REQUEST), ConsumeNonce(RIVAL)], 0,
               REQUEST);
    assert [InsertJob(REQUEST), ConsumeNonce(RIVAL)][0 := WAITING] == [WAITING, ConsumeNonce(RIVAL)];
  }

  /** The rival is answered with the first operator's job, which is for another target. */
  lemma RivalIsAnswered()
    ensures R.AnswersFalsely(After(Rivals()), Act(1, CHOICE))
    ensures var s := After(Rivals() + [Act(1, CHOICE)]);
            && Reply("key", "a") in s.replies && "a" in s.tables.jobs
            && s.tables.jobs["a"].target == TARGET != RIVAL.target
  {
    FirstIsStored();
    hide FirstApproved, After, R.AnswersFalsely;
    var before := FirstApproved() + [Act(0, CHOICE)] + [Act(0, CHOICE)] + [Act(0, CHOICE)];
    assert Consumable(OneUsed(), "second", PERMIT, 0);
    Consumes(before, map["a" := NEW], OneUsed(), [WAITING, ConsumeNonce(RIVAL)], 1, RIVAL);
    RivalRechecks(After(Rivals()));
    Then(Rivals(), Act(1, CHOICE));
  }

  lemma RivalRechecks(s: System)
    requires s.tables.jobs == map["a" := NEW] && s.workers == [WAITING, RecheckKey(RIVAL)]
    ensures R.AnswersFalsely(s, Act(1, CHOICE))
    ensures var s' := Apply(s, Act(1, CHOICE)); Reply("key", "a") in s'.replies && s'.tables.jobs == s.tables.jobs
  {
    assert HasKey(s.tables.jobs, "key", "a");
    assert FindByKey(s.tables.jobs, "key") == Some("a");
    assert R.Answers(s, 1, CHOICE, Reply("key", "a"));
  }
}
