/**
 Attribution of budgets to repositories, kept consistent by three writers that each see only
 part of it: repository upserts and moves, budget upserts, and replacement of a workspace's budgets.
 */
module EstateBudgets {
  import opened Wrappers
  import opened EstateTables

  ghost predicate SamePlace(t: Tables, b: BudgetId, r: RepoId) {
    b in t.budgets && r in t.repos && t.budgets[b].workspace == t.repos[r].workspace
  }

  /** Attributions and budgets refer to repositories of the budget's own workspace. */
  ghost predicate LinksInPlace(t: Tables) {
    forall l | l in t.links :: SamePlace(t, l.budget, l.repo)
  }

  ghost predicate HoldsInPlace(t: Tables, b: BudgetId)
    requires b in t.budgets
  {
    t.budgets[b].repo.Some? ==> SamePlace(t, b, t.budgets[b].repo.value)
  }

  ghost predicate BudgetsInPlace(t: Tables) {
    forall b | b in t.budgets :: HoldsInPlace(t, b)
  }

  ghost predicate IsDirect(links: map<Link, Kind>, l: Link) {
    l in links && links[l] == Direct
  }

  /** A budget that names a repository is directly attributed to it. */
  ghost predicate Attributed(t: Tables, b: BudgetId)
    requires b in t.budgets
  {
    t.budgets[b].repo.Some? ==> IsDirect(t.links, Link(b, t.budgets[b].repo.value))
  }

  ghost predicate AllAttributed(t: Tables) {
    forall b | b in t.budgets :: Attributed(t, b)
  }

  /** UNIQUE (workspace_id, external_id) */
  ghost predicate UniqueBudgets(budgets: map<BudgetId, Budget>) {
    forall a, b | a in budgets && b in budgets && budgets[a].workspace == budgets[b].workspace
                  && budgets[a].externalId == budgets[b].externalId :: a == b
  }

  ghost predicate Consistent(t: Tables) {
    LinksInPlace(t) && BudgetsInPlace(t) && AllAttributed(t) && UniqueBudgets(t.budgets)
  }

  /** No attribution is direct unless the budget names that very repository. */
  ghost predicate Exact(t: Tables) {
    forall l | IsDirect(t.links, l) :: l.budget in t.budgets && t.budgets[l.budget].repo == Some(l.repo)
  }

  // ---- Repository upserts and moves --------------------------------------------------------------

  /** Consistent, except for what concerns one repository that has just been placed. */
  ghost predicate ConsistentBeside(t: Tables, id: RepoId) {
    && UniqueBudgets(t.budgets) && AllAttributed(t)
    && (forall l | l in t.links && l.repo != id :: SamePlace(t, l.budget, l.repo))
    && (forall b | b in t.budgets && t.budgets[b].repo != Some(id) :: HoldsInPlace(t, b))
  }

  ghost predicate OthersStay(repos: map<RepoId, Repo>, repos': map<RepoId, Repo>, id: RepoId) {
    forall o | o in repos && o != id :: o in repos' && repos'[o].workspace == repos[o].workspace
  }

  lemma PlacingDisturbsOneRepo(t: Tables, t': Tables, id: RepoId)
    requires Consistent(t) && OthersStay(t.repos, t'.repos, id) && t'.budgets == t.budgets && t'.links == t.links
    ensures ConsistentBeside(t', id)
  {
    forall l | l in t'.links && l.repo != id ensures SamePlace(t', l.budget, l.repo) {
      assert SamePlace(t, l.budget, l.repo);
    }
    forall b | b in t'.budgets && t'.budgets[b].repo != Some(id) ensures HoldsInPlace(t', b) {
      assert HoldsInPlace(t, b);
    }
    forall b | b in t'.budgets ensures Attributed(t', b) {
      assert Attributed(t, b);
    }
  }

  lemma RefreshedBudget(t: Tables, id: RepoId, workspace: WorkspaceId, b: BudgetId)
    requires id in t.repos && b in t.budgets
    ensures var t' := RefreshLinks(t, id, workspace);
            && b in t'.budgets && t'.budgets[b] == Reassigned(t.budgets[b], id, t.repos[id], workspace)
            && t'.repos == t.repos && t'.budgets.Keys == t.budgets.Keys
  {
  }

  lemma RefreshedLink(t: Tables, id: RepoId, workspace: WorkspaceId, l: Link)
    requires id in t.repos
    ensures var t' := RefreshLinks(t, id, workspace);
            && (l.repo != id ==> (l in t'.links <==> l in t.links) && (l in t.links ==> t'.links[l] == t.links[l]))
            && (l.repo == id ==>
                  (l in t'.links <==> l.budget in t'.budgets && Applies(t'.budgets[l.budget], id, workspace)))
            && (l.repo == id && l in t'.links ==> t'.links[l] == KindOf(t'.budgets[l.budget], id))
  {
    hide Reassigned, Applies, KindOf;
    var t' := RefreshLinks(t, id, workspace);
    assert l in LinksOfRepo(t'.budgets, id, workspace) ==>
        l == Link(l.budget, id) && l.budget in t'.budgets && Applies(t'.budgets[l.budget], id, workspace);
  }

  /** What a refresh does to the budgets, in the form the invariants need. */
  lemma RefreshedBudgets(t: Tables, id: RepoId, workspace: WorkspaceId)
    requires id in t.repos && t.repos[id].workspace == workspace
    ensures var t' := RefreshLinks(t, id, workspace);
            && t'.repos == t.repos && t'.budgets.Keys == t.budgets.Keys
            && forall b | b in t.budgets ::
                 && t'.budgets[b].workspace == t.budgets[b].workspace
                     && t'.budgets[b].externalId == t.budgets[b].externalId
                 && (t'.budgets[b].repo == Some(id) ==> t.budgets[b].workspace == workspace)
                 && (t'.budgets[b].repo != Some(id) && t'.budgets[b].repo.Some? ==>
                       t'.budgets[b].repo == t.budgets[b].repo)
  {
    hide RepositoryScope, NamesRepo, LinksOfRepo, Unlinked;
  }

  lemma RefreshRestores(t: Tables, id: RepoId, workspace: WorkspaceId)
    requires ConsistentBeside(t, id) && id in t.repos && t.repos[id].workspace == workspace
    ensures Consistent(RefreshLinks(t, id, workspace))
  {
    hide RefreshLinks, SharedScope;
    var t' := RefreshLinks(t, id, workspace);
    RefreshedBudgets(t, id, workspace);
    forall l | l in t'.links ensures SamePlace(t', l.budget, l.repo) {
      RefreshedLink(t, id, workspace, l);
      assert l.repo != id ==> SamePlace(t, l.budget, l.repo);
    }
    forall b | b in t'.budgets ensures HoldsInPlace(t', b) && Attributed(t', b) {
      RestoredBudget(t, id, workspace, b);
    }
  }

  lemma RestoredBudget(t: Tables, id: RepoId, workspace: WorkspaceId, b: BudgetId)
    requires ConsistentBeside(t, id) && id in t.repos && t.repos[id].workspace == workspace
    requires b in RefreshLinks(t, id, workspace).budgets
    ensures var t' := RefreshLinks(t, id, workspace); HoldsInPlace(t', b) && Attributed(t', b)
  {
    hide RefreshLinks, SharedScope, LinksInPlace, UniqueBudgets;
    var t' := RefreshLinks(t, id, workspace);
    RefreshedBudgets(t, id, workspace);
    assert Attributed(t, b);
    assert t.budgets[b].repo != Some(id) ==> HoldsInPlace(t, b);
    if t'.budgets[b].repo.Some? {
      RefreshedLink(t, id, workspace, Link(b, t'.budgets[b].repo.value));
    }
  }

  /** Another repository holds a budget of this workspace that also names this one. */
  ghost predicate Contested(t: Tables, b: BudgetId, id: RepoId, r: Repo) {
    && b in t.budgets && t.budgets[b].workspace == r.workspace && RepositoryScope(t.budgets[b])
        && NamesRepo(t.budgets[b], r)
    && t.budgets[b].repo.Some? && t.budgets[b].repo.value != id
  }

  /** A refresh leaves a stale direct attribution exactly when it takes a budget from another repository. */
  lemma RefreshKeepsExact(t: Tables, id: RepoId, workspace: WorkspaceId)
    requires AllAttributed(t) && Exact(t) && id in t.repos && t.repos[id].workspace == workspace
    ensures Exact(RefreshLinks(t, id, workspace)) <==> forall b :: !Contested(t, b, id, t.repos[id])
  {
    hide RefreshLinks, SharedScope, RepositoryScope, NamesRepo;
    var t' := RefreshLinks(t, id, workspace);
    forall b | b in t.budgets
      ensures b in t'.budgets && t'.budgets[b] == Reassigned(t.budgets[b], id, t.repos[id], workspace) {
      RefreshedBudget(t, id, workspace, b);
    }
    forall l ensures IsDirect(t'.links, l) && (forall b :: !Contested(t, b, id, t.repos[id])) ==>
        l.budget in t'.budgets && t'.budgets[l.budget].repo == Some(l.repo) {
      RefreshedLink(t, id, workspace, l);
      assert l.repo != id && IsDirect(t'.links, l) ==> IsDirect(t.links, l);
      assert !Contested(t, l.budget, id, t.repos[id]) || Contested(t, l.budget, id, t.repos[id]);
    }
    forall b | Contested(t, b, id, t.repos[id]) ensures !Exact(t') {
      assert Attributed(t, b);
      var l := Link(b, t.budgets[b].repo.value);
      RefreshedLink(t, id, workspace, l);
      assert IsDirect(t'.links, l);
    }
  }

  // ---- Budget upserts ------------------------------------------------------------------------------

  lemma StoredLink(t: Tables, id: BudgetId, b: Budget, l: Link)
    ensures var t' := StoreBudget(t, id, b);
            && (l.budget != id ==> (l in t'.links <==> l in t.links) && (l in t.links ==> t'.links[l] == t.links[l]))
            && (l.budget == id ==> (l in t'.links <==> l in LinksOfBudget(t.repos, id, b)))
            && (l.budget == id && l in t'.links ==> t'.links[l] == LinksOfBudget(t.repos, id, b)[l])
  {
  }

  lemma StoreKeeps(t: Tables, id: BudgetId, b: Budget)
    requires Consistent(t)
    requires b.repo.Some? ==> b.repo.value in t.repos && t.repos[b.repo.value].workspace == b.workspace
    requires forall o | BudgetAs(t.budgets, b.workspace, b.externalId, o) :: o == id
    ensures Consistent(StoreBudget(t, id, b))
    ensures Exact(t) ==> Exact(StoreBudget(t, id, b))
  {
    hide SharedScope, UniqueBudgets;
    var t' := StoreBudget(t, id, b);
    forall l | l in t'.links
      ensures SamePlace(t', l.budget, l.repo)
              && (Exact(t) && IsDirect(t'.links, l) ==> t'.budgets[l.budget].repo == Some(l.repo))
    {
      StoredLink(t, id, b, l);
      assert l.budget != id ==> SamePlace(t, l.budget, l.repo) && (IsDirect(t'.links, l) ==> IsDirect(t.links, l));
    }
    forall o | o in t'.budgets ensures HoldsInPlace(t', o) && Attributed(t', o) {
      assert o != id ==> HoldsInPlace(t, o) && Attributed(t, o);
      if t'.budgets[o].repo.Some? {
        StoredLink(t, id, b, Link(o, t'.budgets[o].repo.value));
      }
    }
    StoreKeepsUnique(t, id, b);
  }

  lemma StoreKeepsUnique(t: Tables, id: BudgetId, b: Budget)
    requires UniqueBudgets(t.budgets)
    requires forall o | BudgetAs(t.budgets, b.workspace, b.externalId, o) :: o == id
    ensures UniqueBudgets(t.budgets[id := b])
  {
    var budgets := t.budgets[id := b];
    forall x, y | x in budgets && y in budgets && budgets[x].workspace == budgets[y].workspace
                    && budgets[x].externalId == budgets[y].externalId ensures x == y {
      assert x != id && y == id ==> BudgetAs(t.budgets, b.workspace, b.externalId, x);
      assert y != id && x == id ==> BudgetAs(t.budgets, b.workspace, b.externalId, y);
    }
  }

  lemma UpsertBudgetKeeps(t: Tables, workspace: WorkspaceId, s: BudgetSnapshot, newId: BudgetId)
    requires Consistent(t)
    ensures Consistent(UpsertBudget(t, workspace, s, newId).0)
    ensures Exact(t) ==> Exact(UpsertBudget(t, workspace, s, newId).0)
    ensures UpsertBudget(t, workspace, s, newId).0.repos == t.repos
  {
    hide Consistent, Exact, StoreBudget, SharedScope, SameName, NotBehind;
    var b := BudgetRow(workspace, s, MatchRepository(t.repos, workspace, s.repositoryFullName.GetOr("")));
    var found := FindBudget(t.budgets, workspace, s.externalId);
    if found.Some? {
      UniqueBudget(t, found.value, workspace, s.externalId);
      StoreKeeps(t, found.value, b);
    } else if newId !in t.budgets {
      StoreKeeps(t, newId, b);
    }
    StoringKeepsRepos(t, if found.Some? then found.value else newId, b);
  }

  lemma UniqueBudget(t: Tables, id: BudgetId, workspace: WorkspaceId, externalId: string)
    requires Consistent(t) && BudgetAs(t.budgets, workspace, externalId, id)
    ensures forall o | BudgetAs(t.budgets, workspace, externalId, o) :: o == id
  {
  }

  lemma StoringKeepsRepos(t: Tables, id: BudgetId, b: Budget)
    ensures var t' := StoreBudget(t, id, b);
            t'.repos == t.repos && t'.workspaces == t.workspaces && t'.identities == t.identities
  {
  }

  lemma {:induction false} UpsertBudgetsKeep(
      t: Tables, workspace: WorkspaceId, snapshots: seq<BudgetSnapshot>, ids: seq<BudgetId>)
    requires Consistent(t) && |ids| == |snapshots|
    ensures Consistent(UpsertBudgets(t, workspace, snapshots, ids).0)
    ensures Exact(t) ==> Exact(UpsertBudgets(t, workspace, snapshots, ids).0)
    decreases |snapshots|
  {
    hide Consistent, Exact, UpsertBudget;
    if snapshots != [] {
      var (t1, ok) := UpsertBudget(t, workspace, snapshots[0], ids[0]);
      UpsertBudgetKeeps(t, workspace, snapshots[0], ids[0]);
      if ok {
        UpsertBudgetsKeep(t1, workspace, snapshots[1..], ids[1..]);
      }
    }
  }

  lemma DropKeeps(t: Tables, workspace: WorkspaceId, keep: set<string>)
    requires Consistent(t)
    ensures Consistent(DropStale(t, workspace, keep))
    ensures Exact(t) ==> Exact(DropStale(t, workspace, keep))
  {
    var t' := DropStale(t, workspace, keep);
    forall l | l in t'.links ensures SamePlace(t', l.budget, l.repo) {
      assert SamePlace(t, l.budget, l.repo);
    }
    forall b | b in t'.budgets ensures HoldsInPlace(t', b) && Attributed(t', b) {
      assert HoldsInPlace(t, b) && Attributed(t, b);
    }
    forall l | IsDirect(t'.links, l) ensures IsDirect(t.links, l) {
    }
  }

  lemma ReplaceKeeps(t: Tables, workspace: WorkspaceId, snapshots: seq<BudgetSnapshot>, ids: seq<BudgetId>)
    requires Consistent(t) && |ids| == |snapshots|
    ensures Consistent(ReplaceBudgets(t, workspace, snapshots, ids).0)
    ensures Exact(t) ==> Exact(ReplaceBudgets(t, workspace, snapshots, ids).0)
  {
    hide Consistent, Exact, UpsertBudgets, DropStale;
    UpsertBudgetsKeep(t, workspace, snapshots, ids);
    DropKeeps(UpsertBudgets(t, workspace, snapshots, ids).0, workspace, Provided(snapshots));
  }

  // ---- What a replacement leaves ---------------------------------------------------------------------

  ghost predicate HasBudget(budgets: map<BudgetId, Budget>, workspace: WorkspaceId, externalId: string) {
    exists id :: BudgetAs(budgets, workspace, externalId, id)
  }

  /** Rows of other workspaces are the very same. */
  ghost predicate OthersKept(budgets: map<BudgetId, Budget>, budgets': map<BudgetId, Budget>, workspace: WorkspaceId) {
    && (forall b | b in budgets && budgets[b].workspace != workspace :: b in budgets' && budgets'[b] == budgets[b])
    && (forall b | b in budgets' && budgets'[b].workspace != workspace :: b in budgets && budgets[b] == budgets'[b])
  }

  lemma UpsertAddsOne(t: Tables, workspace: WorkspaceId, s: BudgetSnapshot, newId: BudgetId)
    requires UpsertBudget(t, workspace, s, newId).1
    ensures var t' := UpsertBudget(t, workspace, s, newId).0;
            && OthersKept(t.budgets, t'.budgets, workspace)
            && forall e :: HasBudget(t'.budgets, workspace, e) <==>
                           HasBudget(t.budgets, workspace, e) || e == s.externalId
  {
    hide LinksOfBudget, Detached, MatchRepository;
    var t' := UpsertBudget(t, workspace, s, newId).0;
    var found := FindBudget(t.budgets, workspace, s.externalId);
    var id := found.GetOr(newId);
    assert BudgetAs(t'.budgets, workspace, s.externalId, id);
    forall e ensures HasBudget(t'.budgets, workspace, e) <==> HasBudget(t.budgets, workspace, e) || e == s.externalId {
      if e != s.externalId {
        forall b ensures BudgetAs(t'.budgets, workspace, e, b) == BudgetAs(t.budgets, workspace, e, b) {
        }
      }
    }
  }

  lemma {:induction false} UpsertsAddAll(
      t: Tables, workspace: WorkspaceId, snapshots: seq<BudgetSnapshot>, ids: seq<BudgetId>)
    requires |ids| == |snapshots| && UpsertBudgets(t, workspace, snapshots, ids).1
    ensures var t' := UpsertBudgets(t, workspace, snapshots, ids).0;
            && OthersKept(t.budgets, t'.budgets, workspace)
            && forall e :: HasBudget(t'.budgets, workspace, e) <==>
                           HasBudget(t.budgets, workspace, e) || e in Provided(snapshots)
    decreases |snapshots|
  {
    hide UpsertBudget, HasBudget;
    if snapshots != [] {
      var t1 := UpsertBudget(t, workspace, snapshots[0], ids[0]).0;
      UpsertAddsOne(t, workspace, snapshots[0], ids[0]);
      UpsertsAddAll(t1, workspace, snapshots[1..], ids[1..]);
      assert snapshots == [snapshots[0]] + snapshots[1..];
      assert Provided(snapshots) == {snapshots[0].externalId} + Provided(snapshots[1..]);
    }
  }

  /** A completed replacement leaves the workspace with the budgets of the response and no others. */
  lemma ReplacementIsExact(t: Tables, workspace: WorkspaceId, snapshots: seq<BudgetSnapshot>, ids: seq<BudgetId>)
    requires |ids| == |snapshots| && ReplaceBudgets(t, workspace, snapshots, ids).1
    ensures var t' := ReplaceBudgets(t, workspace, snapshots, ids).0;
            && OthersKept(t.budgets, t'.budgets, workspace)
            && forall e :: HasBudget(t'.budgets, workspace, e) <==> e in Provided(snapshots)
  {
    UpsertsAddAll(t, workspace, snapshots, ids);
    var upserted := UpsertBudgets(t, workspace, snapshots, ids).0;
    hide UpsertBudgets, Provided;
    var t' := DropStale(upserted, workspace, Provided(snapshots));
    forall e ensures HasBudget(t'.budgets, workspace, e) <==> e in Provided(snapshots) {
      if e in Provided(snapshots) {
        var id :| BudgetAs(upserted.budgets, workspace, e, id);
        assert BudgetAs(t'.budgets, workspace, e, id);
      }
    }
  }
}
