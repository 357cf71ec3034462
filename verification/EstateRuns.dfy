/**
 Runs of the estate store: any sequence of workspace additions, repository upserts and moves,
 removals, completed scans, budget upserts and budget replacements, from the empty store.
 */
module EstateRuns {
  import opened Wrappers
  import opened EstateTables
  import opened EstateIdentity
  import opened EstateBudgets

  datatype Operation =
    | AddWorkspace(workspace: WorkspaceId, connection: ConnectionId)
    | PutRepo(workspace: WorkspaceId, snapshot: Snapshot, newId: RepoId)
    | RemoveRepo(workspace: WorkspaceId, externalId: string)
    | MarkUnseen(workspace: WorkspaceId, seen: seq<string>)
    | PutBudget(workspace: WorkspaceId, budget: BudgetSnapshot, newBudget: BudgetId)
    | ReplaceAll(workspace: WorkspaceId, snapshots: seq<BudgetSnapshot>, ids: seq<BudgetId>)

  ghost predicate WellTyped(op: Operation) {
    op.ReplaceAll? ==> |op.ids| == |op.snapshots|
  }

  const EMPTY := Tables(map[], map[], map[], [], map[], map[])

  ghost function Execute(t: Tables, op: Operation): Tables
    requires WellTyped(op)
  {
    match op
    case AddWorkspace(workspace, connection) =>
      if workspace in t.workspaces then t else t.(workspaces := t.workspaces[workspace := connection])
    case PutRepo(workspace, snapshot, newId) => UpsertRepository(t, workspace, snapshot, newId).0
    case RemoveRepo(workspace, externalId) => t.(repos := MarkRepositoryRemoved(t.repos, workspace, externalId))
    case MarkUnseen(workspace, seen) => t.(repos := MarkUnseenInaccessible(t.repos, workspace, seen))
    case PutBudget(workspace, budget, newBudget) => UpsertBudget(t, workspace, budget, newBudget).0
    case ReplaceAll(workspace, snapshots, ids) => ReplaceBudgets(t, workspace, snapshots, ids).0
  }

  ghost function After(t: Tables, ops: seq<Operation>): Tables
    requires forall op | op in ops :: WellTyped(op)
  {
    if ops == [] then t else Execute(After(t, ops[..|ops| - 1]), ops[|ops| - 1])
  }

  // ---- One operation --------------------------------------------------------------------------

  /** The rows change their status at most. */
  ghost predicate StatusOnly(repos: Repos, repos': Repos) {
    repos'.Keys == repos.Keys
    && forall id | id in repos :: repos'[id].workspace == repos[id].workspace
        && repos'[id].externalId == repos[id].externalId
  }

  lemma StatusKeepsIdentities(ws: Workspaces, repos: Repos, repos': Repos, ids: Identities)
    requires WellFormed(ws, repos, ids) && StatusOnly(repos, repos')
    ensures WellFormed(ws, repos', ids) && (OneRowEach(ws, repos) ==> OneRowEach(ws, repos'))
  {
    forall id | id in repos ensures Known(ws, ids, repos'[id]) {
      assert Known(ws, ids, repos[id]);
    }
    forall key | key in ids ensures PointsTo(ws, repos', key, ids[key]) {
      assert PointsTo(ws, repos, key, ids[key]);
    }
    forall id, key | id in repos && HasKey(ws, repos'[id], key) ensures HasKey(ws, repos[id], key) {
    }
  }

  lemma StatusKeepsBudgets(t: Tables, repos': Repos)
    requires Consistent(t) && StatusOnly(t.repos, repos')
    ensures Consistent(t.(repos := repos')) && (Exact(t) ==> Exact(t.(repos := repos')))
  {
    var t' := t.(repos := repos');
    forall l | l in t'.links ensures SamePlace(t', l.budget, l.repo) {
      assert SamePlace(t, l.budget, l.repo);
    }
    forall b | b in t'.budgets ensures HoldsInPlace(t', b) && Attributed(t', b) {
      assert HoldsInPlace(t, b) && Attributed(t, b);
    }
  }

  lemma AddingKeepsIdentities(
      ws: Workspaces, repos: Repos, ids: Identities, workspace: WorkspaceId, connection: ConnectionId)
    requires WellFormed(ws, repos, ids) && workspace !in ws
    ensures var ws' := ws[workspace := connection];
            WellFormed(ws', repos, ids) && (OneRowEach(ws, repos) ==> OneRowEach(ws', repos))
  {
    hide UniqueRows;
    var ws' := ws[workspace := connection];
    forall id | id in repos
      ensures Known(ws', ids, repos[id]) && forall key :: HasKey(ws', repos[id], key) == HasKey(ws, repos[id], key)
    {
      assert Known(ws, ids, repos[id]);
    }
    hide HasKey, Known;
    forall key | key in ids ensures PointsTo(ws', repos, key, ids[key]) {
      assert PointsTo(ws, repos, key, ids[key]);
    }
  }

  lemma AddingKeepsBudgets(t: Tables, ws: Workspaces)
    requires Consistent(t)
    ensures Consistent(t.(workspaces := ws))
  {
    var t' := t.(workspaces := ws);
    forall l | l in t'.links ensures SamePlace(t', l.budget, l.repo) {
      assert SamePlace(t, l.budget, l.repo);
    }
    forall b | b in t'.budgets ensures HoldsInPlace(t', b) && Attributed(t', b) {
      assert HoldsInPlace(t, b) && Attributed(t, b);
    }
  }

  lemma PlaceMovesOneRow(t: Tables, key: Identity, workspace: WorkspaceId, s: Snapshot, newId: RepoId)
    requires Sound(t) && workspace in t.workspaces && key == Identity(t.workspaces[workspace], s.externalId)
    ensures var (t', r) := Place(t, key, workspace, s, newId);
            && t'.budgets == t.budgets && t'.links == t.links
            && (r.Some? ==>
                  OthersStay(t.repos, t'.repos, r.value) && r.value in t'.repos
                  && t'.repos[r.value] == NewRepo(workspace, s))
            && (r.None? ==> t' == t)
  {
    hide WellFormed, OneRowEach;
    PlaceKeeps(t, key, workspace, s, newId);
    if key in t.identities {
      PlaceMovesTheRow(t, key, workspace, s, newId);
      hide Place;
    } else {
      LocateFollowsTheIdentity(t, key, workspace);
    }
  }

  lemma PutRepoKeepsBudgets(t: Tables, workspace: WorkspaceId, s: Snapshot, newId: RepoId)
    requires Sound(t) && Consistent(t)
    ensures Consistent(UpsertRepository(t, workspace, s, newId).0)
  {
    hide Sound, Consistent, ConsistentBeside, OthersStay, Place, RefreshLinks;
    if workspace in t.workspaces {
      var key := Identity(t.workspaces[workspace], s.externalId);
      var (placed, r) := Place(t, key, workspace, s, newId);
      PlaceMovesOneRow(t, key, workspace, s, newId);
      if r.Some? {
        PlacingDisturbsOneRepo(t, placed, r.value);
        RefreshRestores(placed, r.value, workspace);
      }
    }
  }

  /**
   Direct attributions stay exact through a repository upsert if and only if it fails, or no budget of the
   workspace that names the repository is held by a row other than the one the upsert is about to fill.
   */
  lemma PutRepoKeepsExact(t: Tables, workspace: WorkspaceId, s: Snapshot, newId: RepoId)
    requires Sound(t) && Consistent(t) && Exact(t)
    ensures Exact(UpsertRepository(t, workspace, s, newId).0) <==>
            || Fails(t, workspace, s, newId)
            || forall b :: !Contested(t, b, TargetRow(t, workspace, s, newId), NewRepo(workspace, s))
  {
    hide UpsertRepository, Sound, Consistent, Exact, Contested, TargetRow;
    UpsertKeeps(t, workspace, s, newId);
    ResultKeepsExact(t, workspace, s, newId);
    if !Fails(t, workspace, s, newId) {
      UpsertReturnsTheTarget(t, workspace, s, newId);
    }
  }

  /** The same, in terms of the row that is returned. */
  lemma ResultKeepsExact(t: Tables, workspace: WorkspaceId, s: Snapshot, newId: RepoId)
    requires Sound(t) && Consistent(t) && Exact(t)
    ensures var (t', r) := UpsertRepository(t, workspace, s, newId);
            Exact(t') <==> r.None? || forall b :: !Contested(t, b, r.value, NewRepo(workspace, s))
  {
    hide Sound, ConsistentBeside, OthersStay, Place, RefreshLinks;
    if workspace in t.workspaces {
      var key := Identity(t.workspaces[workspace], s.externalId);
      var (placed, r) := Place(t, key, workspace, s, newId);
      PlaceMovesOneRow(t, key, workspace, s, newId);
      if r.Some? {
        PlacingDisturbsOneRepo(t, placed, r.value);
        assert Exact(placed) && AllAttributed(placed) by { hide *; ExactBeside(t, placed, r.value); }
        hide Exact, AllAttributed, Consistent;
        RefreshKeepsExact(placed, r.value, workspace);
        forall b
          ensures Contested(placed, b, r.value, placed.repos[r.value])
               == Contested(t, b, r.value, NewRepo(workspace, s))
        {
        }
      }
    }
  }

  lemma ExactBeside(t: Tables, placed: Tables, id: RepoId)
    requires Exact(t) && ConsistentBeside(placed, id) && placed.budgets == t.budgets && placed.links == t.links
    ensures Exact(placed) && AllAttributed(placed)
  {
  }

  lemma ExecuteKeepsIdentities(t: Tables, op: Operation)
    requires Sound(t) && WellTyped(op)
    ensures var t' := Execute(t, op);
            && Sound(t') && (Clean(t) ==> Clean(t') && Extends(t.identities, t'.identities))
            && (forall w | w in t.workspaces :: w in t'.workspaces && t'.workspaces[w] == t.workspaces[w])
  {
    hide WellFormed, OneRowEach, UpsertBudget, ReplaceBudgets;
    match op
    case AddWorkspace(workspace, connection) =>
      if workspace !in t.workspaces {
        AddingKeepsIdentities(t.workspaces, t.repos, t.identities, workspace, connection);
      }
    case PutRepo(workspace, snapshot, newId) =>
      hide UpsertRepository;
      UpsertKeeps(t, workspace, snapshot, newId);
    case RemoveRepo(workspace, externalId) =>
      StatusKeepsIdentities(t.workspaces, t.repos, MarkRepositoryRemoved(t.repos, workspace, externalId), t.identities);
    case MarkUnseen(workspace, seen) =>
      StatusKeepsIdentities(t.workspaces, t.repos, MarkUnseenInaccessible(t.repos, workspace, seen), t.identities);
    case PutBudget(workspace, budget, newBudget) =>
      BudgetKeepsTheRest(t, workspace, budget, newBudget);
    case ReplaceAll(workspace, snapshots, ids) =>
      ReplaceKeepsTheRest(t, workspace, snapshots, ids);
  }

  ghost predicate SameEstate(t: Tables, t': Tables) {
    t'.workspaces == t.workspaces && t'.repos == t.repos && t'.identities == t.identities && t'.moves == t.moves
  }

  lemma BudgetKeepsTheRest(t: Tables, workspace: WorkspaceId, s: BudgetSnapshot, newId: BudgetId)
    ensures SameEstate(t, UpsertBudget(t, workspace, s, newId).0)
  {
    hide MatchRepository, FindBudget, LinksOfBudget, Detached;
  }

  lemma {:induction false} BudgetsKeepTheRest(
      t: Tables, workspace: WorkspaceId, snapshots: seq<BudgetSnapshot>, ids: seq<BudgetId>)
    requires |ids| == |snapshots|
    ensures SameEstate(t, UpsertBudgets(t, workspace, snapshots, ids).0)
    decreases |snapshots|
  {
    hide UpsertBudget;
    if snapshots != [] {
      BudgetKeepsTheRest(t, workspace, snapshots[0], ids[0]);
      BudgetsKeepTheRest(UpsertBudget(t, workspace, snapshots[0], ids[0]).0, workspace, snapshots[1..], ids[1..]);
    }
  }

  lemma ReplaceKeepsTheRest(t: Tables, workspace: WorkspaceId, snapshots: seq<BudgetSnapshot>, ids: seq<BudgetId>)
    requires |ids| == |snapshots|
    ensures SameEstate(t, ReplaceBudgets(t, workspace, snapshots, ids).0)
  {
    hide UpsertBudgets;
    BudgetsKeepTheRest(t, workspace, snapshots, ids);
  }

  lemma ExecuteKeepsBudgets(t: Tables, op: Operation)
    requires Sound(t) && Consistent(t) && WellTyped(op)
    ensures Consistent(Execute(t, op))
    ensures Exact(t) && !op.PutRepo? ==> Exact(Execute(t, op))
  {
    hide Sound, Consistent, UpsertBudget, ReplaceBudgets, UpsertRepository;
    match op
    case AddWorkspace(workspace, connection) =>
      if workspace !in t.workspaces {
        AddingKeepsBudgets(t, t.workspaces[workspace := connection]);
      }
    case PutRepo(workspace, snapshot, newId) =>
      PutRepoKeepsBudgets(t, workspace, snapshot, newId);
    case RemoveRepo(workspace, externalId) =>
      StatusKeepsBudgets(t, MarkRepositoryRemoved(t.repos, workspace, externalId));
    case MarkUnseen(workspace, seen) =>
      StatusKeepsBudgets(t, MarkUnseenInaccessible(t.repos, workspace, seen));
    case PutBudget(workspace, budget, newBudget) =>
      UpsertBudgetKeeps(t, workspace, budget, newBudget);
    case ReplaceAll(workspace, snapshots, ids) =>
      ReplaceKeeps(t, workspace, snapshots, ids);
  }

  // ---- Whole runs -------------------------------------------------------------------------------

  ghost predicate Typed(ops: seq<Operation>) {
    forall op | op in ops :: WellTyped(op)
  }

  /**
   After any run each (connection, external id) has exactly one row, its identity names that row in a
   workspace of that connection, and budgets and attributions stay within their workspace.
   */
  lemma {:induction false} EveryRunIsSound(ops: seq<Operation>)
    requires Typed(ops)
    ensures Clean(After(EMPTY, ops)) && Consistent(After(EMPTY, ops))
    decreases |ops|
  {
    if ops != [] {
      hide Clean, Sound, Consistent, Execute;
      var before := ops[..|ops| - 1];
      EveryRunIsSound(before);
      CleanIsSound(After(EMPTY, before));
      ExecuteKeepsIdentities(After(EMPTY, before), ops[|ops| - 1]);
      ExecuteKeepsBudgets(After(EMPTY, before), ops[|ops| - 1]);
    }
  }

  lemma CleanIsSound(t: Tables)
    requires Clean(t)
    ensures Sound(t)
  {
  }

  /** Identities and workspaces are never taken back. */
  lemma {:induction false} IdentitiesAreForGood(ops: seq<Operation>, m: nat)
    requires Typed(ops) && m <= |ops|
    ensures var t, t' := After(EMPTY, ops[..m]), After(EMPTY, ops);
            && Extends(t.identities, t'.identities)
            && (forall w | w in t.workspaces :: w in t'.workspaces && t'.workspaces[w] == t.workspaces[w])
    decreases |ops|
  {
    if m == |ops| {
      assert ops[..m] == ops;
    } else {
      hide Clean, Sound, Consistent, Execute;
      var before := ops[..|ops| - 1];
      assert before[..m] == ops[..m];
      IdentitiesAreForGood(before, m);
      EveryRunIsSound(before);
      CleanIsSound(After(EMPTY, before));
      ExecuteKeepsIdentities(After(EMPTY, before), ops[|ops| - 1]);
    }
  }

  ghost function Returned(t: Tables, op: Operation): Option<RepoId>
    requires op.PutRepo?
  {
    UpsertRepository(t, op.workspace, op.snapshot, op.newId).1
  }

  /** Whatever happens in between, a later upsert of the same resource returns the id the earlier one returned. */
  lemma UpsertReturnsTheSameId(ops: seq<Operation>, i: nat, j: nat)
    requires Typed(ops) && i < j < |ops| && ops[i].PutRepo? && ops[j].PutRepo?
    requires var t, t' := After(EMPTY, ops[..i]), After(EMPTY, ops[..j]);
             && ops[i].workspace in t.workspaces && ops[j].workspace in t'.workspaces
             && t.workspaces[ops[i].workspace] == t'.workspaces[ops[j].workspace]
             && ops[i].snapshot.externalId == ops[j].snapshot.externalId
             && Returned(t, ops[i]).Some?
    ensures Returned(After(EMPTY, ops[..j]), ops[j]) == Returned(After(EMPTY, ops[..i]), ops[i])
  {
    hide UpsertRepository, Clean, Consistent, WellFormed, OneRowEach;
    var t, t', later := After(EMPTY, ops[..i]), After(EMPTY, ops[..j]), After(EMPTY, ops[..i + 1]);
    assert ops[..i + 1][..i] == ops[..i] && ops[..j][..i + 1] == ops[..i + 1];
    EveryRunIsSound(ops[..i]);
    EveryRunIsSound(ops[..j]);
    CleanIsSound(t);
    CleanIsSound(t');
    IdentitiesAreForGood(ops[..j], i + 1);
    UpsertNamesItsRow(t, ops[i].workspace, ops[i].snapshot, ops[i].newId);
    UpsertNamesItsRow(t', ops[j].workspace, ops[j].snapshot, ops[j].newId);
  }

  lemma UpsertNamesItsRow(t: Tables, workspace: WorkspaceId, s: Snapshot, newId: RepoId)
    requires Clean(t) && workspace in t.workspaces
    ensures var (t', r) := UpsertRepository(t, workspace, s, newId);
            var key := Identity(t.workspaces[workspace], s.externalId);
            && (r.Some? ==> key in t'.identities && t'.identities[key] == r.value)
            && (key in t.identities ==> r == Some(t.identities[key]))
  {
    hide WellFormed, OneRowEach, Place;
    PlaceKeeps(t, Identity(t.workspaces[workspace], s.externalId), workspace, s, newId);
  }

  // ---- A stale direct attribution -----------------------------------------------------------------

  const CONTESTED := [
    AddWorkspace("w", "c"),
    PutBudget("w", BudgetSnapshot("b", Some("repo"), None, Some("x"), None), 0),
    PutRepo("w", Snapshot("1", "x", "a/x"), 1),
    PutRepo("w", Snapshot("2", "x", "b/x"), 2)]

  lemma AfterOneMore(t: Tables, ops: seq<Operation>, n: nat)
    requires Typed(ops) && n < |ops|
    ensures After(t, ops[..n + 1]) == Execute(After(t, ops[..n]), ops[n])
  {
    assert ops[..n + 1][..n] == ops[..n];
  }

  lemma FirstTwo()
    ensures var t := After(EMPTY, CONTESTED[..2]);
            && t == EMPTY.(workspaces := map["w" := "c"],
                           budgets := map[0 := Budget("w", "b", Some("repo"), None, Some("x"), None)])
  {
    AfterOneMore(EMPTY, CONTESTED, 0);
    AfterOneMore(EMPTY, CONTESTED, 1);
    hide After;
    var t1 := EMPTY.(workspaces := map["w" := "c"]);
    assert Execute(EMPTY, CONTESTED[0]) == t1;
    assert FindBudget(t1.budgets, "w", "b").None?;
    assert MatchRepository(t1.repos, "w", "").None?;
  }

  /** The first repository takes the budget that names it. */
  lemma FirstPlacement(t: Tables, s: Snapshot)
    requires t == EMPTY.(workspaces := map["w" := "c"],
                         budgets := map[0 := Budget("w", "b", Some("repo"), None, Some("x"), None)])
    requires s.name == "x"
    ensures var t' := UpsertRepository(t, "w", s, 1).0;
            && t'.repos.Keys == {1} && t'.identities == map[Identity("c", s.externalId) := 1]
                && t'.workspaces == t.workspaces
            && t'.budgets == map[0 := Budget("w", "b", Some("repo"), None, Some("x"), Some(1))]
  {
    var key := Identity("c", s.externalId);
    assert Place(t, key, "w", s, 1) == (Insert(t, key, "w", s, 1), Some(1));
    hide Place;
    var placed := Insert(t, key, "w", s, 1);
    NamedBudget(NewRepo("w", s));
    RefreshedBudget(placed, 1, "w", 0);
    RefreshedBudgets(placed, 1, "w");
    hide Reassigned;
    assert RefreshLinks(placed, 1, "w").budgets.Keys == {0};
  }

  lemma FirstThree()
    ensures var t := After(EMPTY, CONTESTED[..3]);
            && t.repos.Keys == {1} && t.identities == map[Identity("c", "1") := 1] && t.workspaces == map["w" := "c"]
            && t.budgets == map[0 := Budget("w", "b", Some("repo"), None, Some("x"), Some(1))]
            && Exact(t)
  {
    hide After, UpsertRepository;
    FirstTwo();
    EveryRunIsSound(CONTESTED[..2]);
    AfterOneMore(EMPTY, CONTESTED, 2);
    var t := After(EMPTY, CONTESTED[..2]);
    var s := Snapshot("1", "x", "a/x");
    FirstPlacement(t, s);
    hide NamesRepo, RepositoryScope, WellFormed, Consistent;
    ResultKeepsExact(t, "w", s, 1);
  }

  lemma NamedBudget(r: Repo)
    requires r.workspace == "w" && r.name == "x"
    ensures forall repo, id: RepoId ::
             Reassigned(Budget("w", "b", Some("repo"), None, Some("x"), repo), id, r, "w").repo == Some(id)
    ensures forall repo ::
              var b := Budget("w", "b", Some("repo"), None, Some("x"), repo);
              RepositoryScope(b) && NamesRepo(b, r)
  {
    assert Lower("repo") == "repo";
  }

  lemma FreshRow(t: Tables, workspace: WorkspaceId, s: Snapshot, newId: RepoId)
    requires Sound(t) && !Fails(t, workspace, s, newId)
             && Identity(t.workspaces[workspace], s.externalId) !in t.identities
    ensures UpsertRepository(t, workspace, s, newId).1 == Some(newId)
  {
    hide WellFormed, RefreshLinks;
    LocateFollowsTheIdentity(t, Identity(t.workspaces[workspace], s.externalId), workspace);
  }

  lemma SecondPlacement(t: Tables, s: Snapshot)
    requires Sound(t) && Consistent(t) && Exact(t) && s.name == "x"
    requires t.repos.Keys == {1} && t.workspaces == map["w" := "c"] && Identity("c", s.externalId) !in t.identities
    requires t.budgets == map[0 := Budget("w", "b", Some("repo"), None, Some("x"), Some(1))]
    ensures !Exact(UpsertRepository(t, "w", s, 2).0)
  {
    hide UpsertRepository, Sound, Consistent;
    NamedBudget(NewRepo("w", s));
    assert Contested(t, 0, 2, NewRepo("w", s));
    ResultKeepsExact(t, "w", s, 2);
    FreshRow(t, "w", s, 2);
  }

  /** Two repositories that one budget names: the second takes the budget, the first keeps its attribution. */
  lemma StaleDirectAttribution()
    ensures Typed(CONTESTED) && !Exact(After(EMPTY, CONTESTED))
  {
    hide After, UpsertRepository, Sound, Consistent, Exact, OneRowEach;
    FirstThree();
    AfterOneMore(EMPTY, CONTESTED, 3);
    EveryRunIsSound(CONTESTED[..3]);
    assert CONTESTED[..4] == CONTESTED;
    SecondPlacement(After(EMPTY, CONTESTED[..3]), Snapshot("2", "x", "b/x"));
  }
}
