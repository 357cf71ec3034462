/** The estate store itself: each writer as the sequence of statements it issues. */
module Estate {
  import opened Wrappers
  import opened EstateTables
  import opened EstateIdentity
  import opened EstateBudgets
  import opened EstateRuns

  class EstateDb {
    var workspaces: map<WorkspaceId, ConnectionId>
    var repos: map<RepoId, Repo>
    var identities: map<Identity, RepoId>
    var moves: seq<Move>
    var budgets: map<BudgetId, Budget>
    var links: map<Link, Kind>

    ghost function Rows(): Tables
      reads this
    {
      Tables(workspaces, repos, identities, moves, budgets, links)
    }

    ghost predicate Valid()
      reads this
    {
      Sound(Rows()) && Consistent(Rows())
    }

    constructor ()
      ensures Rows() == EMPTY && Valid()
    {
      workspaces, repos, identities, moves, budgets, links := map[], map[], map[], [], map[], map[];
    }

    method SelectRepo(workspace: WorkspaceId, externalId: string) returns (r: Option<RepoId>)
      requires UniqueRows(repos)
      ensures r == FindRepo(repos, workspace, externalId)
    {
      if id: RepoId :| id in repos && repos[id].workspace == workspace && repos[id].externalId == externalId {
        assert StoredAs(repos, workspace, externalId, id);
        r := Some(id);
      } else {
        r := None;
      }
    }

    method UpsertRepository(workspace: WorkspaceId, s: Snapshot, newId: RepoId) returns (r: Option<RepoId>)
      requires Valid()
      modifies this
      ensures Valid()
      ensures Rows() == EstateTables.UpsertRepository(old(Rows()), workspace, s, newId).0
      ensures r == EstateTables.UpsertRepository(old(Rows()), workspace, s, newId).1
    {
      hide Sound, Consistent, RefreshLinks;
      UpsertKeeps(Rows(), workspace, s, newId);
      PutRepoKeepsBudgets(Rows(), workspace, s, newId);
      if workspace !in workspaces {
        return None;
      }
      var key := Identity(workspaces[workspace], s.externalId);
      r := PlaceRow(key, workspace, s, newId);
      if r.Some? {
        RefreshAttributions(r.value, workspace);
      }
    }

    /** Everything up to the attributions. */
    method PlaceRow(key: Identity, workspace: WorkspaceId, s: Snapshot, newId: RepoId) returns (r: Option<RepoId>)
      requires Sound(Rows()) && workspace in workspaces && key == Identity(workspaces[workspace], s.externalId)
      modifies `repos, `identities, `moves
      ensures Rows() == Place(old(Rows()), key, workspace, s, newId).0
      ensures r == Place(old(Rows()), key, workspace, s, newId).1
      ensures r.Some? ==> r.value in repos
    {
      assert UniqueRows(repos);
      hide WellFormed, Relocate, Refreshed, NewRepo;
      var existing: Option<RepoId> := None;
      if key in identities && identities[key] in repos {
        existing := Some(identities[key]);
      } else {
        existing := SelectRepo(workspace, s.externalId);
      }
      assert existing == Locate(Rows(), key, workspace);
      if existing.None? {
        if newId in repos {
          return None;
        }
        repos := repos[newId := NewRepo(workspace, s)];
        identities := identities[key := newId];
        return Some(newId);
      }
      var id := RelocateRow(key, existing.value, workspace, s);
      repos := repos[id := Refreshed(repos[id], s)];
      identities := identities[key := id];
      r := Some(id);
    }

    /** Merging re-points the identity at once; settling the row later does so again. */
    method RelocateRow(key: Identity, known: RepoId, workspace: WorkspaceId, s: Snapshot) returns (id: RepoId)
      requires UniqueRows(repos) && known in repos && key.externalId == s.externalId
      modifies `repos, `identities, `moves
      ensures Rows().(identities := old(identities)) == Relocate(old(Rows()), known, workspace, s).0
      ensures id == Relocate(old(Rows()), known, workspace, s).1 && id in repos
      ensures identities == old(identities) || identities == old(identities)[key := id]
    {
      hide Merged;
      id := known;
      var was := repos[known];
      if was.workspace != workspace {
        var collision := SelectRepo(workspace, s.externalId);
        if collision.Some? {
          moves := moves + [Move(collision.value, was.workspace, workspace, was.fullName, s.fullName)];
          repos := repos[known := Merged(was)];
          id := collision.value;
          identities := identities[key := id];
        } else {
          moves := moves + [Move(known, was.workspace, workspace, was.fullName, s.fullName)];
          repos := repos[known := was.(workspace := workspace)];
        }
      }
    }

    method RefreshAttributions(id: RepoId, workspace: WorkspaceId)
      requires id in repos
      modifies `budgets, `links
      ensures Rows() == RefreshLinks(old(Rows()), id, workspace)
    {
      hide Released, Taken, LinksOfRepo;
      links := Unlinked(links, id);
      budgets := map b | b in budgets :: Released(budgets[b], id, workspace);
      budgets := map b | b in budgets :: Taken(budgets[b], id, repos[id], workspace);
      assert budgets == map b | b in old(budgets) :: Reassigned(old(budgets)[b], id, repos[id], workspace);
      hide Reassigned, Unlinked;
      assert budgets == RefreshLinks(old(Rows()), id, workspace).budgets;
      links := links + LinksOfRepo(budgets, id, workspace);
    }

    method MarkRepositoryRemoved(workspace: WorkspaceId, externalId: string)
      requires Valid()
      modifies `repos
      ensures Valid()
      ensures Rows() == old(Rows()).(repos := EstateTables.MarkRepositoryRemoved(old(repos), workspace, externalId))
      ensures MarkedRemoved(old(repos), repos, workspace, externalId)
    {
      hide WellFormed, Consistent, MarkedRemoved, MarkedUnseen;
      ghost var after := EstateTables.MarkRepositoryRemoved(repos, workspace, externalId);
      assert Sound(Rows().(repos := after)) && Consistent(Rows().(repos := after)) by {
        StatusKeepsIdentities(workspaces, repos, after, identities);
        StatusKeepsBudgets(Rows(), after);
      }
      var found := set id | id in repos && repos[id].workspace == workspace && repos[id].externalId == externalId;
      RemovalMarks(repos, workspace, externalId);
      repos := map id | id in repos :: if id in found then Deleted(repos[id]) else repos[id];
      assert repos == after;
    }

    /** The number of rows changed is returned. */
    method MarkUnseenInaccessible(workspace: WorkspaceId, seen: seq<string>) returns (changes: nat)
      requires Valid()
      modifies `repos
      ensures Valid()
      ensures Rows() == old(Rows()).(repos := EstateTables.MarkUnseenInaccessible(old(repos), workspace, seen))
      ensures changes == |set id | id in old(repos) && repos[id] != old(repos)[id]|
      ensures MarkedUnseen(old(repos), repos, workspace, seen)
    {
      hide WellFormed, Consistent, MarkedRemoved, MarkedUnseen;
      ghost var after := EstateTables.MarkUnseenInaccessible(repos, workspace, seen);
      assert Sound(Rows().(repos := after)) && Consistent(Rows().(repos := after)) by {
        StatusKeepsIdentities(workspaces, repos, after, identities);
        StatusKeepsBudgets(Rows(), after);
      }
      var unseen := set id | id in repos && repos[id].workspace == workspace && repos[id].status == Active
                             && repos[id].externalId !in seen;
      UnseenMarks(repos, workspace, seen);
      repos := map id | id in repos :: if id in unseen then Unseen(repos[id]) else repos[id];
      assert repos == after;
      assert unseen == set id | id in old(repos) && repos[id] != old(repos)[id];
      changes := |unseen|;
    }

    // ---- Budgets ------------------------------------------------------------------------------

    method BestMatch(workspace: WorkspaceId, name: string) returns (r: Option<RepoId>)
      ensures r == MatchRepository(repos, workspace, name)
    {
      hide SameName;
      if id: RepoId :| id in repos && IsBestMatch(repos, workspace, name, id) {
        r := Some(id);
      } else {
        r := None;
      }
    }

    method SelectBudget(workspace: WorkspaceId, externalId: string) returns (r: Option<BudgetId>)
      requires UniqueBudgets(budgets)
      ensures r == FindBudget(budgets, workspace, externalId)
    {
      if id: BudgetId :| id in budgets && budgets[id].workspace == workspace && budgets[id].externalId == externalId {
        assert BudgetAs(budgets, workspace, externalId, id);
        r := Some(id);
      } else {
        r := None;
      }
    }

    method UpsertBudget(workspace: WorkspaceId, s: BudgetSnapshot, newId: BudgetId) returns (ok: bool)
      requires Valid()
      modifies `budgets, `links
      ensures Valid()
      ensures Rows() == EstateTables.UpsertBudget(old(Rows()), workspace, s, newId).0
      ensures ok == EstateTables.UpsertBudget(old(Rows()), workspace, s, newId).1
    {
      UpsertBudgetKeeps(Rows(), workspace, s, newId);
      BudgetKeepsTheRest(Rows(), workspace, s, newId);
      assert UniqueBudgets(budgets);
      hide Sound, Consistent, StoreBudget, MatchRepository, FindBudget;
      var repo := BestMatch(workspace, s.repositoryFullName.GetOr(""));
      var b := BudgetRow(workspace, s, repo);
      var existing := SelectBudget(workspace, s.externalId);
      if existing.None? && newId in budgets {
        return false;
      }
      StoreRow(existing.GetOr(newId), b);
      ok := true;
    }

    method StoreRow(id: BudgetId, b: Budget)
      modifies `budgets, `links
      ensures Rows() == StoreBudget(old(Rows()), id, b)
    {
      hide SharedScope;
      budgets := budgets[id := b];
      links := Detached(links, id);
      hide Detached;
      if b.repo.Some? {
        links := links + map[Link(id, b.repo.value) := Direct];
      } else if SharedScope(b) {
        links := links + map r | r in repos && repos[r].workspace == b.workspace && repos[r].status == Active ::
          Link(id, r) := Inherited;
      }
      assert links == Detached(old(links), id) + LinksOfBudget(repos, id, b);
    }

    /** All snapshots in turn; the first failure ends the call before anything is deleted. */
    method ReplaceWorkspaceBudgets(workspace: WorkspaceId, snapshots: seq<BudgetSnapshot>, ids: seq<BudgetId>)
      returns (ok: bool)
      requires Valid() && |ids| == |snapshots|
      modifies `budgets, `links
      ensures Valid()
      ensures Rows() == ReplaceBudgets(old(Rows()), workspace, snapshots, ids).0
      ensures ok == ReplaceBudgets(old(Rows()), workspace, snapshots, ids).1
    {
      hide WellFormed, Consistent, EstateTables.UpsertBudget, DropStale;
      ReplaceKeeps(Rows(), workspace, snapshots, ids);
      ReplaceKeepsTheRest(Rows(), workspace, snapshots, ids);
      var i := 0;
      while i < |snapshots|
        invariant 0 <= i <= |snapshots| && Valid()
        invariant UpsertBudgets(old(Rows()), workspace, snapshots, ids)
            == UpsertBudgets(Rows(), workspace, snapshots[i..], ids[i..])
      {
        assert snapshots[i..][1..] == snapshots[i + 1..] && ids[i..][1..] == ids[i + 1..];
        ok := UpsertBudget(workspace, snapshots[i], ids[i]);
        if !ok {
          assert UpsertBudgets(old(Rows()), workspace, snapshots, ids) == (Rows(), false);
          return;
        }
        i := i + 1;
      }
      assert UpsertBudgets(old(Rows()), workspace, snapshots, ids) == (Rows(), true);
      if |snapshots| == 0 {
        assert Provided(snapshots) == {};
        DeleteBudgets(workspace, {});
      } else {
        DeleteBudgets(workspace, Provided(snapshots));
      }
      ok := true;
    }

    method DeleteBudgets(workspace: WorkspaceId, keep: set<string>)
      modifies `budgets, `links
      ensures Rows() == DropStale(old(Rows()), workspace, keep)
    {
      links := map l | l in links && !(l.budget in budgets && Stale(budgets[l.budget], workspace, keep)) :: links[l];
      budgets := map b | b in budgets && !Stale(budgets[b], workspace, keep) :: budgets[b];
    }
  }
}
