/**
 Checkpointed discovery runs. A run records what it sees in a ledger that survives checkpoints and
 restarts; when the pass is over, active repositories of completely scanned workspaces that the run
 never recorded become inaccessible.
 */
module Discovery {
  import opened Wrappers
  import opened EstateTables

  type RunId = string
  type Repos = map<RepoId, Repo>

  datatype RunStatus = Pending | Running | Reconciling | Completed | Failed

  datatype SeenKey = SeenKey(run: RunId, connection: ConnectionId, externalId: string)

  datatype SeenWorkspace = SeenWorkspace(workspace: Option<WorkspaceId>, complete: bool)

  datatype SeenRepo = SeenRepo(run: RunId, workspace: WorkspaceId, externalId: string)

  datatype Ledger = Ledger(runs: map<RunId, RunStatus>, workspaces: map<SeenKey, SeenWorkspace>, seen: set<SeenRepo>)

  datatype Step =
    | Begin(run: RunId)
    | Checkpoint(run: RunId)
    | Finish(run: RunId, failed: bool)
    | SeeWorkspace(key: SeenKey, known: Option<WorkspaceId>)
    | SeeRepo(repo: SeenRepo)
    | MarkComplete(run: RunId, workspace: WorkspaceId)
    | Prepare(run: RunId)

  // ---- Statements -----------------------------------------------------------------------------

  function SetStatus(runs: map<RunId, RunStatus>, run: RunId, status: RunStatus): map<RunId, RunStatus> {
    if run in runs then runs[run := status] else runs
  }

  predicate IsRunning(runs: map<RunId, RunStatus>, run: RunId) {
    run in runs && runs[run] == Running
  }

  /** INSERT OR IGNORE, then the workspace is filled in when it is known. */
  function Recorded(
      entries: map<SeenKey, SeenWorkspace>, key: SeenKey,
      workspace: Option<WorkspaceId>): map<SeenKey, SeenWorkspace>
  {
    var inserted := if key in entries then entries else entries[key := SeenWorkspace(workspace, false)];
    if workspace.Some? then inserted[key := inserted[key].(workspace := workspace)] else inserted
  }

  predicate InScope(key: SeenKey, entry: SeenWorkspace, run: RunId, workspace: WorkspaceId) {
    key.run == run && entry.workspace == Some(workspace)
  }

  function ScanCompleted(
      entries: map<SeenKey, SeenWorkspace>, run: RunId, workspace: WorkspaceId): map<SeenKey, SeenWorkspace>
  {
    map key | key in entries ::
      if InScope(key, entries[key], run, workspace) then entries[key].(complete := true) else entries[key]
  }

  function Take(l: Ledger, step: Step): Ledger {
    match step
    case Begin(run) => l.(runs := l.runs[run := Running])
    case Checkpoint(run) => l.(runs := SetStatus(l.runs, run, Pending))
    case Finish(run, failed) => l.(runs := SetStatus(l.runs, run, if failed then Failed else Completed))
    case SeeWorkspace(key, known) => l.(workspaces := Recorded(l.workspaces, key, known))
    case SeeRepo(repo) => l.(seen := l.seen + {repo})
    case MarkComplete(run, workspace) => l.(workspaces := ScanCompleted(l.workspaces, run, workspace))
    case Prepare(run) => l.(runs := if IsRunning(l.runs, run) then SetStatus(l.runs, run, Reconciling) else l.runs)
  }

  predicate Scanned(l: Ledger, run: RunId, workspace: WorkspaceId) {
    exists key | key in l.workspaces :: InScope(key, l.workspaces[key], run, workspace) && l.workspaces[key].complete
  }

  predicate Missing(l: Ledger, run: RunId, r: Repo) {
    && r.status == Active
    && run in l.runs && l.runs[run] == Reconciling
    && Scanned(l, run, r.workspace)
    && SeenRepo(run, r.workspace, r.externalId) !in l.seen
  }

  function Reconcile(l: Ledger, repos: Repos, run: RunId): Repos {
    map id | id in repos :: if Missing(l, run, repos[id]) then Unseen(repos[id]) else repos[id]
  }

  // ---- Reconciling -------------------------------------------------------------------------------

  /** The scan of each workspace in turn, against the full list of what was seen there. */
  function Sweep(repos: Repos, workspaces: seq<WorkspaceId>, lists: map<WorkspaceId, seq<string>>): Repos
    requires forall w | w in workspaces :: w in lists
  {
    if workspaces == [] then repos
    else
      var front, last := workspaces[..|workspaces| - 1], workspaces[|workspaces| - 1];
      MarkUnseenInaccessible(Sweep(repos, front, lists), last, lists[last])
  }

  lemma {:induction false} SweptRow(
      repos: Repos, workspaces: seq<WorkspaceId>, lists: map<WorkspaceId, seq<string>>, id: RepoId)
    requires (forall w | w in workspaces :: w in lists) && id in repos
    ensures id in Sweep(repos, workspaces, lists) && Sweep(repos, workspaces, lists).Keys == repos.Keys
    ensures Sweep(repos, workspaces, lists)[id] ==
            if repos[id].status == Active && repos[id].workspace in workspaces
                && repos[id].externalId !in lists[repos[id].workspace]
            then Unseen(repos[id]) else repos[id]
    decreases |workspaces|
  {
    if workspaces != [] {
      var front, last := workspaces[..|workspaces| - 1], workspaces[|workspaces| - 1];
      assert workspaces == front + [last];
      SweptRow(repos, front, lists, id);
    }
  }

  ghost predicate Enumerates(l: Ledger, run: RunId, workspaces: seq<WorkspaceId>, lists: map<WorkspaceId, seq<string>>)
  {
    && (forall w :: w in workspaces <==> Scanned(l, run, w))
    && (forall w | w in workspaces :: w in lists)
    && (forall w, externalId | w in workspaces :: externalId in lists[w] <==> SeenRepo(run, w, externalId) in l.seen)
  }

  /** One statement over the ledger does what the per-workspace marking does, whatever the order. */
  lemma ReconcileIsTheSweep(
      l: Ledger, repos: Repos, run: RunId, workspaces: seq<WorkspaceId>,
      lists: map<WorkspaceId, seq<string>>)
    requires run in l.runs && l.runs[run] == Reconciling && Enumerates(l, run, workspaces, lists)
    ensures Reconcile(l, repos, run) == Sweep(repos, workspaces, lists)
  {
    hide Sweep, Scanned;
    assert Sweep(repos, workspaces, lists).Keys == repos.Keys by {
      SweepKeeps(repos, workspaces, lists);
    }
    forall id | id in repos ensures Reconcile(l, repos, run)[id] == Sweep(repos, workspaces, lists)[id] {
      SweptRow(repos, workspaces, lists, id);
    }
  }

  lemma {:induction false} SweepKeeps(repos: Repos, workspaces: seq<WorkspaceId>, lists: map<WorkspaceId, seq<string>>)
    requires forall w | w in workspaces :: w in lists
    ensures Sweep(repos, workspaces, lists).Keys == repos.Keys
    decreases |workspaces|
  {
    if workspaces != [] {
      SweepKeeps(repos, workspaces[..|workspaces| - 1], lists);
    }
  }

  lemma ReconcileIsIdempotent(l: Ledger, repos: Repos, run: RunId)
    ensures Reconcile(l, Reconcile(l, repos, run), run) == Reconcile(l, repos, run)
  {
    hide Scanned;
  }

  /** Statuses of repositories change only for a prepared run and only in workspaces it scanned completely. */
  lemma ReconcileSparesTheRest(l: Ledger, repos: Repos, run: RunId)
    ensures !(run in l.runs && l.runs[run] == Reconciling) ==> Reconcile(l, repos, run) == repos
    ensures forall id | id in repos && !Scanned(l, run, repos[id].workspace) ::
              Reconcile(l, repos, run)[id] == repos[id]
    ensures forall id | id in repos && SeenRepo(run, repos[id].workspace, repos[id].externalId) in l.seen ::
              Reconcile(l, repos, run)[id] == repos[id]
  {
    hide Scanned;
  }

  // ---- Whole runs ----------------------------------------------------------------------------------

  const EMPTY := Ledger(map[], map[], {})

  function After(l: Ledger, steps: seq<Step>): Ledger {
    if steps == [] then l else Take(After(l, steps[..|steps| - 1]), steps[|steps| - 1])
  }

  ghost predicate EntryGrows(before: SeenWorkspace, after: SeenWorkspace) {
    (before.complete ==> after.complete) && (before.workspace.Some? ==> after.workspace.Some?)
  }

  ghost predicate Grows(l: Ledger, l': Ledger) {
    && l.seen <= l'.seen
    && forall key | key in l.workspaces :: key in l'.workspaces && EntryGrows(l.workspaces[key], l'.workspaces[key])
  }

  /** Whatever is checkpointed, restarted or failed in between, the ledger only grows. */
  lemma {:induction false} LedgerOnlyGrows(l: Ledger, steps: seq<Step>)
    ensures Grows(l, After(l, steps))
    decreases |steps|
  {
    if steps != [] {
      LedgerOnlyGrows(l, steps[..|steps| - 1]);
      var last := steps[|steps| - 1];
      assert last.MarkComplete? || !last.MarkComplete?;
    }
  }

  /** What the ledger of a run knows is exactly what the run ever recorded. */
  lemma {:induction false} SeenIsWhatWasRecorded(steps: seq<Step>, repo: SeenRepo)
    ensures repo in After(EMPTY, steps).seen <==> SeeRepo(repo) in steps
    decreases |steps|
  {
    if steps != [] {
      var front := steps[..|steps| - 1];
      assert steps == front + [steps[|steps| - 1]];
      SeenIsWhatWasRecorded(front, repo);
    }
  }

  predicate SetsStatus(step: Step, run: RunId) {
    match step
    case Begin(r) => r == run
    case Checkpoint(r) => r == run
    case Finish(r, _) => r == run
    case _ => false
  }

  ghost predicate PreparedAt(steps: seq<Step>, run: RunId, begun: nat, prepared: nat) {
    && begun < prepared < |steps| && steps[begun] == Begin(run) && steps[prepared] == Prepare(run)
    && forall i | begun < i < |steps| :: !SetsStatus(steps[i], run)
  }

  ghost predicate BegunAt(steps: seq<Step>, run: RunId, begun: nat) {
    && begun < |steps| && steps[begun] == Begin(run)
    && forall i | begun < i < |steps| :: !SetsStatus(steps[i], run)
  }

  /** A run reconciles only after it was begun and prepared with no checkpoint, end or restart since. */
  lemma {:induction false} ReconcilingWasPrepared(steps: seq<Step>, run: RunId)
    ensures IsRunning(After(EMPTY, steps).runs, run) ==> exists begun :: BegunAt(steps, run, begun)
    ensures run in After(EMPTY, steps).runs && After(EMPTY, steps).runs[run] == Reconciling ==>
              exists begun, prepared :: PreparedAt(steps, run, begun, prepared)
    decreases |steps|
  {
    if steps != [] {
      var front, last := steps[..|steps| - 1], steps[|steps| - 1];
      ReconcilingWasPrepared(front, run);
      var l := After(EMPTY, front);
      hide After, EntryGrows, Recorded, ScanCompleted;
      if SetsStatus(last, run) {
        if last == Begin(run) {
          assert BegunAt(steps, run, |steps| - 1);
        }
      } else {
        if IsRunning(l.runs, run) {
          var begun :| BegunAt(front, run, begun);
          assert BegunAt(steps, run, begun);
          if last == Prepare(run) {
            assert PreparedAt(steps, run, begun, |steps| - 1);
          }
        } else if run in l.runs && l.runs[run] == Reconciling {
          var begun, prepared :| PreparedAt(front, run, begun, prepared);
          assert PreparedAt(steps, run, begun, prepared);
        }
      }
    }
  }

  // ---- Complete means scanned ----------------------------------------------------------------------

  ghost predicate EntryHonest(steps: seq<Step>, key: SeenKey, entry: SeenWorkspace) {
    entry.complete ==> entry.workspace.Some? && MarkComplete(key.run, entry.workspace.value) in steps
  }

  /** Every completed entry stands for a workspace that was itself scanned to the end. */
  ghost predicate Honest(l: Ledger, steps: seq<Step>) {
    forall key | key in l.workspaces :: EntryHonest(steps, key, l.workspaces[key])
  }

  /** A completed entry is given a workspace that was not scanned to the end. */
  ghost predicate Repoints(l: Ledger, steps: seq<Step>, step: Step) {
    && step.SeeWorkspace? && step.known.Some? && step.key in l.workspaces && l.workspaces[step.key].complete
    && MarkComplete(step.key.run, step.known.value) !in steps
  }

  lemma StepKeepsHonest(l: Ledger, steps: seq<Step>, step: Step)
    requires Honest(l, steps)
    ensures Honest(Take(l, step), steps + [step]) <==> !Repoints(l, steps, step)
  {
    var l', steps' := Take(l, step), steps + [step];
    forall key | key in l.workspaces ensures EntryHonest(steps', key, l.workspaces[key]) {
      assert EntryHonest(steps, key, l.workspaces[key]);
    }
    if Repoints(l, steps, step) {
      assert !EntryHonest(steps', step.key, l'.workspaces[step.key]);
    } else {
      forall key | key in l'.workspaces ensures EntryHonest(steps', key, l'.workspaces[key]) {
        assert key in l.workspaces ==> EntryHonest(steps', key, l.workspaces[key]);
      }
    }
  }

  /** The same provider workspace is recorded under one id throughout. */
  ghost predicate Stable(steps: seq<Step>) {
    forall a, b | a in steps && b in steps && a.SeeWorkspace? && b.SeeWorkspace? && a.key == b.key
                  && a.known.Some? && b.known.Some? :: a.known == b.known
  }

  lemma {:induction false} WorkspacesWereRecorded(steps: seq<Step>, key: SeenKey)
    requires key in After(EMPTY, steps).workspaces && After(EMPTY, steps).workspaces[key].workspace.Some?
    ensures SeeWorkspace(key, After(EMPTY, steps).workspaces[key].workspace) in steps
    decreases |steps|
  {
    if steps != [] {
      var front, last := steps[..|steps| - 1], steps[|steps| - 1];
      assert steps == front + [last];
      var l := After(EMPTY, front);
      if key in l.workspaces && l.workspaces[key].workspace.Some? {
        WorkspacesWereRecorded(front, key);
      }
    }
  }

  lemma {:induction false} StableRunsAreHonest(steps: seq<Step>)
    requires Stable(steps)
    ensures Honest(After(EMPTY, steps), steps)
    decreases |steps|
  {
    if steps != [] {
      var front, last := steps[..|steps| - 1], steps[|steps| - 1];
      assert steps == front + [last];
      var l := After(EMPTY, front);
      StableRunsAreHonest(front);
      if Repoints(l, front, last) {
        assert EntryHonest(front, last.key, l.workspaces[last.key]);
        WorkspacesWereRecorded(front, last.key);
      }
      hide Take;
      StepKeepsHonest(l, front, last);
    }
  }

  /** Re-recording a completed workspace under another id hands over the completed flag. */
  lemma UnstableRunsNeedNotBe()
    ensures exists steps :: !Honest(After(EMPTY, steps), steps)
  {
    var key := SeenKey("r", "c", "e");
    var first := [SeeWorkspace(key, Some("w")), MarkComplete("r", "w")];
    assert first[..1][..0] == [] && first[..1] == [first[0]];
    var l := After(EMPTY, first);
    assert After(EMPTY, first[..1]) == Take(EMPTY, first[0]);
    assert key in l.workspaces && l.workspaces[key] == SeenWorkspace(Some("w"), true);
    var steps := first + [SeeWorkspace(key, Some("v"))];
    assert steps[..2] == first;
    assert !EntryHonest(steps, key, After(EMPTY, steps).workspaces[key]);
  }

  // ---- The store ---------------------------------------------------------------------------------------

  class DiscoveryDb {
    var runs: map<RunId, RunStatus>
    var workspaces: map<SeenKey, SeenWorkspace>
    var seen: set<SeenRepo>
    var repos: Repos

    ghost function Rows(): Ledger
      reads this
    {
      Ledger(runs, workspaces, seen)
    }

    constructor (repos: Repos)
      ensures Rows() == EMPTY && this.repos == repos
    {
      runs, workspaces, seen := map[], map[], {};
      this.repos := repos;
    }

    method BeginDiscoveryRun(run: RunId)
      modifies `runs
      ensures Rows() == Take(old(Rows()), Begin(run))
    {
      runs := runs[run := Running];
    }

    method CheckpointDiscoveryRun(run: RunId)
      modifies `runs
      ensures Rows() == Take(old(Rows()), Checkpoint(run))
    {
      if run in runs {
        runs := runs[run := Pending];
      }
    }

    method EndDiscoveryRun(run: RunId, failed: bool)
      modifies `runs
      ensures Rows() == Take(old(Rows()), Finish(run, failed))
    {
      if run in runs {
        runs := runs[run := if failed then Failed else Completed];
      }
    }

    method RecordDiscoveryWorkspaceSeen(key: SeenKey, known: Option<WorkspaceId>)
      modifies `workspaces
      ensures Rows() == Take(old(Rows()), SeeWorkspace(key, known))
    {
      if key !in workspaces {
        workspaces := workspaces[key := SeenWorkspace(known, false)];
      }
      if known.Some? {
        workspaces := workspaces[key := workspaces[key].(workspace := known)];
      }
    }

    method RecordDiscoveryRepositorySeen(repo: SeenRepo)
      modifies `seen
      ensures Rows() == Take(old(Rows()), SeeRepo(repo))
    {
      seen := seen + {repo};
    }

    method MarkDiscoveryWorkspaceScanComplete(run: RunId, workspace: WorkspaceId)
      modifies `workspaces
      ensures Rows() == Take(old(Rows()), MarkComplete(run, workspace))
    {
      var entries := set key | key in workspaces && InScope(key, workspaces[key], run, workspace);
      workspaces := map key | key in workspaces ::
          if key in entries then workspaces[key].(complete := true) else workspaces[key];
      assert workspaces == ScanCompleted(old(workspaces), run, workspace);
    }

    method PrepareDiscoveryRunForReconciliation(run: RunId)
      modifies `runs
      ensures Rows() == Take(old(Rows()), Prepare(run))
    {
      if run in runs && runs[run] == Running {
        runs := runs[run := Reconciling];
      }
    }

    /** The number of rows changed is returned. */
    method ReconcileMissingRepositories(run: RunId) returns (changes: nat)
      modifies `repos
      ensures repos == Reconcile(old(Rows()), old(repos), run)
      ensures changes == |set id | id in old(repos) && repos[id] != old(repos)[id]|
    {
      var scanned := set key | key in workspaces && key.run == run && workspaces[key].complete
          && workspaces[key].workspace.Some?
                         :: workspaces[key].workspace.value;
      var missing := set id | id in repos && repos[id].status == Active && run in runs && runs[run] == Reconciling
                       && repos[id].workspace in scanned
                       && SeenRepo(run, repos[id].workspace, repos[id].externalId) !in seen;
      forall w ensures w in scanned <==> Scanned(Rows(), run, w) {
        if Scanned(Rows(), run, w) {
          var key :| key in workspaces && InScope(key, workspaces[key], run, w) && workspaces[key].complete;
          assert workspaces[key].workspace.value in scanned;
        }
      }
      hide Scanned;
      assert missing == set id | id in repos && Missing(Rows(), run, repos[id]);
      repos := map id | id in repos :: if id in missing then Unseen(repos[id]) else repos[id];
      assert repos == Reconcile(old(Rows()), old(repos), run);
      assert missing == set id | id in old(repos) && repos[id] != old(repos)[id];
      changes := |missing|;
    }
  }
}
