/**
 Whole discovery runs: exactly when completed entries of the ledger stand for scanned workspaces, exactly
 which repositories a run makes inaccessible, and why the collectors never get the first of these wrong.
 */
module DiscoveryRuns {
  import opened Wrappers
  import opened EstateTables
  import opened Discovery

  // ---- Honest ledgers ------------------------------------------------------------------------------

  ghost predicate HonestAt(steps: seq<Step>, k: nat)
    requires k <= |steps|
  {
    Honest(After(EMPTY, steps[..k]), steps[..k])
  }

  ghost predicate RepointsAt(steps: seq<Step>, k: nat)
    requires k < |steps|
  {
    Repoints(After(EMPTY, steps[..k]), steps[..k], steps[k])
  }

  lemma PrefixAgrees(steps: seq<Step>, n: nat, k: nat)
    requires k <= n <= |steps|
    ensures HonestAt(steps[..n], k) == HonestAt(steps, k)
    ensures k < n ==> RepointsAt(steps[..n], k) == RepointsAt(steps, k)
  {
    hide After, Honest, Repoints;
    assert steps[..n][..k] == steps[..k];
  }

  lemma AfterOneMore(steps: seq<Step>, n: nat)
    requires n < |steps|
    ensures steps[..n + 1] == steps[..n] + [steps[n]]
    ensures After(EMPTY, steps[..n + 1]) == Take(After(EMPTY, steps[..n]), steps[n])
  {
    assert steps[..n + 1][..n] == steps[..n];
    hide Take;
  }

  lemma LastStepDecides(steps: seq<Step>, n: nat)
    requires n < |steps| && HonestAt(steps, n)
    ensures HonestAt(steps, n + 1) <==> !RepointsAt(steps, n)
  {
    hide After, Take, Honest, Repoints;
    AfterOneMore(steps, n);
    StepKeepsHonest(After(EMPTY, steps[..n]), steps[..n], steps[n]);
  }

  lemma StartsHonest(steps: seq<Step>)
    ensures HonestAt(steps, 0)
  {
    assert steps[..0] == [];
  }

  /** Completed entries stand for scanned workspaces throughout a run, if and only if no step re-points one. */
  lemma {:induction false} HonestExactlyWithoutRepointing(steps: seq<Step>)
    ensures (forall k: nat | k <= |steps| :: HonestAt(steps, k))
       <==> (forall k: nat | k < |steps| :: !RepointsAt(steps, k))
    decreases |steps|
  {
    hide HonestAt, RepointsAt;
    if steps == [] {
      StartsHonest(steps);
    } else {
      var n := |steps| - 1;
      HonestExactlyWithoutRepointing(steps[..n]);
      forall k: nat | k <= n
        ensures HonestAt(steps[..n], k) == HonestAt(steps, k)
        ensures k < n ==> RepointsAt(steps[..n], k) == RepointsAt(steps, k)
      {
        PrefixAgrees(steps, n, k);
      }
      if HonestAt(steps, n) {
        LastStepDecides(steps, n);
      }
    }
  }

  // ---- The status of a run ---------------------------------------------------------------------------

  ghost predicate PreparedSince(steps: seq<Step>, run: RunId, begun: nat) {
    exists prepared :: begun < prepared < |steps| && steps[prepared] == Prepare(run)
  }

  /** Since it last began, a run is running, or reconciling exactly if it was prepared. */
  lemma {:induction false} StatusSince(steps: seq<Step>, run: RunId, begun: nat)
    requires BegunAt(steps, run, begun)
    ensures var runs := After(EMPTY, steps).runs;
            run in runs && runs[run] == if PreparedSince(steps, run, begun) then Reconciling else Running
    decreases |steps|
  {
    var n := |steps| - 1;
    var front := steps[..n];
    hide Recorded, ScanCompleted;
    if begun < n {
      assert BegunAt(front, run, begun);
      StatusSince(front, run, begun);
      if PreparedSince(front, run, begun) {
        var p :| begun < p < n && front[p] == Prepare(run);
        assert steps[p] == Prepare(run);
      } else if steps[n] == Prepare(run) {
        assert PreparedSince(steps, run, begun);
      } else {
        forall p | begun < p < |steps| ensures steps[p] != Prepare(run) {
          assert p < n ==> front[p] == steps[p];
        }
      }
    }
  }

  ghost predicate Prepared(steps: seq<Step>, run: RunId) {
    exists begun, prepared :: PreparedAt(steps, run, begun, prepared)
  }

  /** A run reconciles if and only if it was begun and prepared with no checkpoint, end or restart since. */
  lemma ReconcilesExactlyWhenPrepared(steps: seq<Step>, run: RunId)
    ensures run in After(EMPTY, steps).runs && After(EMPTY, steps).runs[run] == Reconciling <==> Prepared(steps, run)
  {
    hide After;
    ReconcilingWasPrepared(steps, run);
    if Prepared(steps, run) {
      var begun, prepared :| PreparedAt(steps, run, begun, prepared);
      StatusSince(steps, run, begun);
    }
  }

  /** The last step that set the status of the run. */
  ghost predicate LastSet(steps: seq<Step>, run: RunId, k: nat) {
    k < |steps| && SetsStatus(steps[k], run) && forall i | k < i < |steps| :: !SetsStatus(steps[i], run)
  }

  /** A run that was begun has the status last set, by a beginning, a checkpoint or its end. */
  lemma {:induction false} StatusIsTheLastOneSet(steps: seq<Step>, run: RunId, k: nat)
    requires LastSet(steps, run, k) && Begin(run) in steps[..k + 1]
    ensures var runs := After(EMPTY, steps).runs;
            && run in runs
            && runs[run] == match steps[k]
                            case Checkpoint(_) => Pending
                            case Finish(_, failed) => if failed then Failed else Completed
                            case _ => if PreparedSince(steps, run, k) then Reconciling else Running
    decreases |steps|
  {
    hide Recorded, ScanCompleted;
    var n := |steps| - 1;
    var front := steps[..n];
    if steps[k].Begin? {
      StatusSince(steps, run, k);
    } else if k < n {
      assert front[..k + 1] == steps[..k + 1];
      StatusIsTheLastOneSet(front, run, k);
    } else {
      assert steps[..k + 1] == front + [steps[n]];
      BegunRunsAreKnown(front, run);
    }
  }

  lemma {:induction false} BegunRunsAreKnown(steps: seq<Step>, run: RunId)
    requires Begin(run) in steps
    ensures run in After(EMPTY, steps).runs
    decreases |steps|
  {
    var n := |steps| - 1;
    assert steps == steps[..n] + [steps[n]];
    hide Recorded, ScanCompleted;
    if steps[n] != Begin(run) {
      BegunRunsAreKnown(steps[..n], run);
    }
  }

  // ---- Scanned workspaces --------------------------------------------------------------------------------

  /** A provider workspace was recorded under this id, and the id later marked complete. */
  ghost predicate ScannedAt(steps: seq<Step>, key: SeenKey, workspace: WorkspaceId, seen: nat, marked: nat) {
    && seen < marked < |steps| && steps[seen] == SeeWorkspace(key, Some(workspace))
    && steps[marked] == MarkComplete(key.run, workspace)
  }

  ghost predicate WasScanned(steps: seq<Step>, run: RunId, workspace: WorkspaceId) {
    exists key: SeenKey, seen, marked :: key.run == run && ScannedAt(steps, key, workspace, seen, marked)
  }

  ghost predicate EntryIs(l: Ledger, key: SeenKey, workspace: WorkspaceId) {
    key in l.workspaces && l.workspaces[key].workspace == Some(workspace)
  }

  /** In a stable run an entry keeps the id it was first given. */
  lemma {:induction false} RecordedEntry(steps: seq<Step>, key: SeenKey, workspace: WorkspaceId)
    requires Stable(steps) && SeeWorkspace(key, Some(workspace)) in steps
    ensures EntryIs(After(EMPTY, steps), key, workspace)
    decreases |steps|
  {
    var front, last := steps[..|steps| - 1], steps[|steps| - 1];
    assert steps == front + [last];
    if last != SeeWorkspace(key, Some(workspace)) {
      assert Stable(front);
      RecordedEntry(front, key, workspace);
      assert SeeWorkspace(key, Some(workspace)) in steps && last in steps;
    }
  }

  lemma {:induction false} MarkedEntry(
      steps: seq<Step>, key: SeenKey, workspace: WorkspaceId, seen: nat, marked: nat)
    requires Stable(steps) && ScannedAt(steps, key, workspace, seen, marked)
    ensures EntryIs(After(EMPTY, steps), key, workspace) && After(EMPTY, steps).workspaces[key].complete
    decreases |steps|
  {
    var front, last := steps[..|steps| - 1], steps[|steps| - 1];
    assert steps == front + [last];
    assert steps[seen] in steps && front[seen] == steps[seen];
    RecordedEntry(steps, key, workspace);
    assert Stable(front);
    if marked < |front| {
      MarkedEntry(front, key, workspace, seen, marked);
    } else {
      RecordedEntry(front, key, workspace);
    }
  }

  lemma {:induction false} CompleteWasMarked(steps: seq<Step>, key: SeenKey, workspace: WorkspaceId)
    requires Stable(steps) && EntryIs(After(EMPTY, steps), key, workspace)
    requires After(EMPTY, steps).workspaces[key].complete
    ensures exists seen, marked :: ScannedAt(steps, key, workspace, seen, marked)
    decreases |steps|
  {
    var front, last := steps[..|steps| - 1], steps[|steps| - 1];
    assert steps == front + [last];
    var l := After(EMPTY, front);
    assert Stable(front);
    assert key in l.workspaces;
    if l.workspaces[key].complete {
      StableRunsAreHonest(front);
      assert EntryHonest(front, key, l.workspaces[key]);
      SameEntry(steps, key, workspace);
      CompleteWasMarked(front, key, workspace);
      var seen, marked :| ScannedAt(front, key, workspace, seen, marked);
      assert ScannedAt(steps, key, workspace, seen, marked);
    } else {
      assert last == MarkComplete(key.run, workspace);
      WorkspacesWereRecorded(front, key);
      var seen :| 0 <= seen < |front| && front[seen] == SeeWorkspace(key, Some(workspace));
      assert ScannedAt(steps, key, workspace, seen, |front|);
    }
  }

  /** The last step of a stable run does not change an id that was known. */
  lemma SameEntry(steps: seq<Step>, key: SeenKey, workspace: WorkspaceId)
    requires steps != [] && Stable(steps) && EntryIs(After(EMPTY, steps), key, workspace)
    requires var l := After(EMPTY, steps[..|steps| - 1]); key in l.workspaces && l.workspaces[key].workspace.Some?
    ensures EntryIs(After(EMPTY, steps[..|steps| - 1]), key, workspace)
  {
    hide After;
    var front := steps[..|steps| - 1];
    WorkspacesWereRecorded(steps, key);
    WorkspacesWereRecorded(front, key);
    var a := SeeWorkspace(key, After(EMPTY, front).workspaces[key].workspace);
    assert a in front && a in steps;
  }

  lemma ScannedExactly(steps: seq<Step>, run: RunId, workspace: WorkspaceId)
    requires Stable(steps)
    ensures Scanned(After(EMPTY, steps), run, workspace) <==> WasScanned(steps, run, workspace)
  {
    hide After, Stable;
    var l := After(EMPTY, steps);
    if Scanned(l, run, workspace) {
      var key :| key in l.workspaces && InScope(key, l.workspaces[key], run, workspace) && l.workspaces[key].complete;
      CompleteWasMarked(steps, key, workspace);
    }
    if WasScanned(steps, run, workspace) {
      var key: SeenKey, seen, marked :| key.run == run && ScannedAt(steps, key, workspace, seen, marked);
      MarkedEntry(steps, key, workspace, seen, marked);
      assert InScope(key, l.workspaces[key], run, workspace);
    }
  }

  // ---- What a run makes inaccessible --------------------------------------------------------------------

  /**
   Reconciling changes exactly the active repositories of workspaces the run scanned to the end, provided it
   was prepared since it last began, that it never recorded; and it makes them inaccessible.
   */
  lemma ExactlyMissingRepositoriesFlip(steps: seq<Step>, repos: Repos, run: RunId, id: RepoId)
    requires Stable(steps) && id in repos
    ensures var r, r' := repos[id], Reconcile(After(EMPTY, steps), repos, run)[id];
            && (r' != r <==> (r.status == Active && Prepared(steps, run) && WasScanned(steps, run, r.workspace)
                              && SeeRepo(SeenRepo(run, r.workspace, r.externalId)) !in steps))
            && (r' != r ==> r' == r.(status := Inaccessible, reason := Some("not_seen_after_complete_discovery")))
  {
    hide After, Stable, Scanned, WasScanned, Prepared;
    ScannedExactly(steps, run, repos[id].workspace);
    ReconcilesExactlyWhenPrepared(steps, run);
    SeenIsWhatWasRecorded(steps, SeenRepo(run, repos[id].workspace, repos[id].externalId));
  }

  // ---- Where the collectors take their ids from ---------------------------------------------------------

  datatype ProviderKey = ProviderKey(connection: ConnectionId, externalId: string)

  /** An upsert of a workspace row, or a step of the ledger; other writers may come in between. */
  datatype Deed = Upsert(workspace: ProviderKey, newId: WorkspaceId) | Do(step: Step)

  /** The rows of workspaces: one per connection and external id, never deleted. */
  function Ids(deeds: seq<Deed>): map<ProviderKey, WorkspaceId> {
    if deeds == [] then map[]
    else
      var ids, last := Ids(deeds[..|deeds| - 1]), deeds[|deeds| - 1];
      if last.Upsert? && last.workspace !in ids then ids[last.workspace := last.newId] else ids
  }

  function StepsOf(deeds: seq<Deed>): seq<Step> {
    if deeds == [] then []
    else
      var last := deeds[|deeds| - 1];
      StepsOf(deeds[..|deeds| - 1]) + if last.Do? then [last.step] else []
  }

  /** The upsert at j returned this id for this provider workspace. */
  ghost predicate Returned(deeds: seq<Deed>, j: nat, workspace: ProviderKey, id: WorkspaceId) {
    && j < |deeds| && deeds[j].Upsert? && deeds[j].workspace == workspace
    && workspace in Ids(deeds[..j + 1]) && Ids(deeds[..j + 1])[workspace] == id
  }

  function ProviderOf(key: SeenKey): ProviderKey {
    ProviderKey(key.connection, key.externalId)
  }

  /** Whoever records a workspace with its id has the id from an upsert of that workspace. */
  ghost predicate Supplied(deeds: seq<Deed>) {
    forall k | 0 <= k < |deeds| && deeds[k].Do? && deeds[k].step.SeeWorkspace? && deeds[k].step.known.Some? ::
      exists j: nat | j < k :: Returned(deeds, j, ProviderOf(deeds[k].step.key), deeds[k].step.known.value)
  }

  lemma {:induction false} IdsStay(deeds: seq<Deed>, n: nat, workspace: ProviderKey)
    requires n <= |deeds| && workspace in Ids(deeds[..n])
    ensures workspace in Ids(deeds) && Ids(deeds)[workspace] == Ids(deeds[..n])[workspace]
    decreases |deeds|
  {
    if n == |deeds| {
      assert deeds[..n] == deeds;
    } else {
      var front := deeds[..|deeds| - 1];
      assert front[..n] == deeds[..n];
      IdsStay(front, n, workspace);
    }
  }

  lemma {:induction false} StepWasDone(deeds: seq<Deed>, step: Step) returns (k: nat)
    requires step in StepsOf(deeds)
    ensures k < |deeds| && deeds[k] == Do(step)
    decreases |deeds|
  {
    var last := deeds[|deeds| - 1];
    if last == Do(step) {
      k := |deeds| - 1;
    } else {
      k := StepWasDone(deeds[..|deeds| - 1], step);
    }
  }

  /** Such runs record every provider workspace under one id. */
  lemma CollectorsAreStable(deeds: seq<Deed>)
    requires Supplied(deeds)
    ensures Stable(StepsOf(deeds))
  {
    var steps := StepsOf(deeds);
    forall a, b | a in steps && b in steps && a.SeeWorkspace? && b.SeeWorkspace? && a.key == b.key
                  && a.known.Some? && b.known.Some?
      ensures a.known == b.known
    {
      KnownId(deeds, a);
      KnownId(deeds, b);
    }
  }

  lemma KnownId(deeds: seq<Deed>, step: Step)
    requires Supplied(deeds) && step in StepsOf(deeds) && step.SeeWorkspace? && step.known.Some?
    ensures var w := ProviderOf(step.key);
            w in Ids(deeds) && Ids(deeds)[w] == step.known.value
  {
    hide Ids, StepsOf;
    var w := ProviderOf(step.key);
    var k := StepWasDone(deeds, step);
    var j: nat :| j < k && Returned(deeds, j, w, step.known.value);
    IdsStay(deeds, j + 1, w);
  }

  /** So their ledgers are honest, and they make exactly the missing repositories inaccessible. */
  lemma CollectorsFlipExactlyTheMissing(deeds: seq<Deed>, repos: Repos, run: RunId, id: RepoId)
    requires Supplied(deeds) && id in repos
    ensures var steps := StepsOf(deeds);
            var r, r' := repos[id], Reconcile(After(EMPTY, steps), repos, run)[id];
            && Honest(After(EMPTY, steps), steps)
            && (r' != r <==> (r.status == Active && Prepared(steps, run) && WasScanned(steps, run, r.workspace)
                              && SeeRepo(SeenRepo(run, r.workspace, r.externalId)) !in steps))
  {
    hide After, Stable, Supplied, StepsOf, Reconcile, Honest, Prepared, WasScanned;
    CollectorsAreStable(deeds);
    StableRunsAreHonest(StepsOf(deeds));
    ExactlyMissingRepositoriesFlip(StepsOf(deeds), repos, run, id);
  }
}
