/**
 Which repositories a budget reaches. A stored budget is attributed to the repository it resolves to, or, when
 it is shared, inherited by exactly the active repositories of its workspace; a placed repository gets exactly
 the budgets of its workspace that hold it or are shared. The two writers keep shared budgets inherited
 throughout, except when a repository moves away from a shared budget that holds it.
 */
module EstateInheritance {
  import opened Wrappers
  import opened EstateTables
  import opened EstateIdentity
  import opened EstateBudgets
  import opened EstateRuns

  // ---- Names, letter by letter -----------------------------------------------------------------------

  /** Equal, or the upper and lower form of one letter. */
  predicate SameLetter(c: char, d: char) {
    c == d || ('A' <= c <= 'Z' && d as int == c as int + 32) || ('A' <= d <= 'Z' && c as int == d as int + 32)
  }

  predicate Alike(a: string, b: string) {
    |a| == |b| && forall i | 0 <= i < |a| :: SameLetter(a[i], b[i])
  }

  lemma LowerMeans(a: string, b: string)
    ensures Lower(a) == Lower(b) <==> Alike(a, b)
  {
    if Lower(a) == Lower(b) {
      assert |Lower(a)| == |a| && |Lower(b)| == |b|;
      forall i | 0 <= i < |a| ensures SameLetter(a[i], b[i]) {
        assert Lower(a)[i] == LowerChar(a[i]) && Lower(b)[i] == LowerChar(b[i]);
      }
    }
    if Alike(a, b) {
      forall i | 0 <= i < |a| ensures Lower(a)[i] == Lower(b)[i] {
      }
    }
  }

  predicate ScopeIs(b: Budget, name: string) {
    b.scopeType.Some? && Alike(b.scopeType.value, name)
  }

  predicate IsShared(b: Budget) {
    ScopeIs(b, "organization") || ScopeIs(b, "org") || ScopeIs(b, "enterprise") || ScopeIs(b, "cost_center")
  }

  /** A repository budget whose entity or target is the name or the full name of the repository. */
  predicate IsFor(b: Budget, name: string, fullName: string) {
    && (ScopeIs(b, "repository") || ScopeIs(b, "repo"))
    && ((b.scopeEntity.Some? && (Alike(b.scopeEntity.value, fullName) || Alike(b.scopeEntity.value, name)))
        || (b.scopeTarget.Some? && (Alike(b.scopeTarget.value, fullName) || Alike(b.scopeTarget.value, name))))
  }

  lemma LowercaseStays()
    ensures Lower("organization") == "organization" && Lower("org") == "org" && Lower("enterprise") == "enterprise"
    ensures Lower("cost_center") == "cost_center" && Lower("repository") == "repository" && Lower("repo") == "repo"
    ensures Lower("") == ""
  {
  }

  lemma ScopeMeans(b: Budget)
    ensures SharedScope(b) <==> IsShared(b)
    ensures RepositoryScope(b) <==> ScopeIs(b, "repository") || ScopeIs(b, "repo")
  {
    LowercaseStays();
    var scope := b.scopeType.GetOr("");
    LowerMeans(scope, "organization");
    LowerMeans(scope, "org");
    LowerMeans(scope, "enterprise");
    LowerMeans(scope, "cost_center");
    LowerMeans(scope, "repository");
    LowerMeans(scope, "repo");
    hide Lower, Alike;
    if b.scopeType.None? {
      assert scope == "";
    }
  }

  lemma NameMeans(b: Budget, r: Repo)
    ensures RepositoryScope(b) && NamesRepo(b, r) <==> IsFor(b, r.name, r.fullName)
  {
    ScopeMeans(b);
    hide Lower, Alike, RepositoryScope, ScopeIs;
    LowerMeans(b.scopeEntity.GetOr(""), r.fullName);
    LowerMeans(b.scopeEntity.GetOr(""), r.name);
    LowerMeans(b.scopeTarget.GetOr(""), r.fullName);
    LowerMeans(b.scopeTarget.GetOr(""), r.name);
  }

  // ---- What a stored budget reaches --------------------------------------------------------------------

  predicate FullName(repos: map<RepoId, Repo>, workspace: WorkspaceId, name: string, id: RepoId) {
    id in repos && repos[id].workspace == workspace && Alike(name, repos[id].fullName)
  }

  predicate ShortName(repos: map<RepoId, Repo>, workspace: WorkspaceId, name: string, id: RepoId) {
    id in repos && repos[id].workspace == workspace && Alike(name, repos[id].name)
  }

  /** Full names before short names, and the smallest id among those. */
  ghost predicate Resolves(repos: map<RepoId, Repo>, workspace: WorkspaceId, name: string, id: RepoId) {
    if exists o :: FullName(repos, workspace, name, o)
    then FullName(repos, workspace, name, id) && forall o | FullName(repos, workspace, name, o) :: id <= o
    else ShortName(repos, workspace, name, id) && forall o | ShortName(repos, workspace, name, o) :: id <= o
  }

  lemma MatchMeans(repos: map<RepoId, Repo>, workspace: WorkspaceId, name: string, id: RepoId)
    ensures Matches(repos, workspace, name, id)
       <==> FullName(repos, workspace, name, id) || ShortName(repos, workspace, name, id)
    ensures id in repos && repos[id].workspace == workspace ==>
              (SameName(Some(name), repos[id].fullName) <==> FullName(repos, workspace, name, id))
  {
    if id in repos {
      LowerMeans(name, repos[id].fullName);
      LowerMeans(name, repos[id].name);
    }
    hide Lower, Alike;
  }

  lemma MatchResolves(repos: map<RepoId, Repo>, workspace: WorkspaceId, name: string)
    ensures var r := MatchRepository(repos, workspace, name);
            && (r.Some? ==> Resolves(repos, workspace, name, r.value))
            && (r.None? ==> forall o :: !FullName(repos, workspace, name, o) && !ShortName(repos, workspace, name, o))
  {
    var r := MatchRepository(repos, workspace, name);
    forall o ensures Matches(repos, workspace, name, o)
                <==> FullName(repos, workspace, name, o) || ShortName(repos, workspace, name, o)
    {
      MatchMeans(repos, workspace, name, o);
    }
    if r.Some? {
      MatchMeans(repos, workspace, name, r.value);
      forall o | Matches(repos, workspace, name, o)
        ensures NotBehind(repos, name, r.value, o)
        ensures SameName(Some(name), repos[o].fullName) <==> FullName(repos, workspace, name, o)
      {
        MatchMeans(repos, workspace, name, o);
      }
    }
    hide SameName, Matches, Alike;
  }

  ghost function StoredId(t: Tables, workspace: WorkspaceId, s: BudgetSnapshot, newId: BudgetId): BudgetId {
    FindBudget(t.budgets, workspace, s.externalId).GetOr(newId)
  }

  /**
   A stored budget has the columns of its snapshot. It is directly attributed to the repository its name
   resolves to; if there is none and its scope is shared, it is inherited by exactly the active repositories
   of its workspace; and it has no other attribution. Other budgets' attributions stay.
   */
  lemma StoredBudgetReaches(t: Tables, workspace: WorkspaceId, s: BudgetSnapshot, newId: BudgetId)
    requires UpsertBudget(t, workspace, s, newId).1
    ensures var t', id := UpsertBudget(t, workspace, s, newId).0, StoredId(t, workspace, s, newId);
            var name := s.repositoryFullName.GetOr("");
            && id in t'.budgets && BudgetAs(t'.budgets, workspace, s.externalId, id)
            && var b := t'.budgets[id];
            && b == Budget(workspace, s.externalId, s.scopeType, s.scopeTarget, s.scopeEntity, b.repo)
            && (b.repo.Some? ==> Resolves(t.repos, workspace, name, b.repo.value))
            && (b.repo.None? ==>
                  forall o :: !FullName(t.repos, workspace, name, o) && !ShortName(t.repos, workspace, name, o))
            && (forall r ::
                  Link(id, r) in t'.links
                  <==> b.repo == Some(r)
                       || (b.repo.None? && IsShared(b) && r in t.repos && t.repos[r].workspace == workspace
                           && t.repos[r].status == Active))
            && (forall r | Link(id, r) in t'.links ::
                  t'.links[Link(id, r)] == if b.repo.Some? then Direct else Inherited)
            && (forall l: Link | l.budget != id ::
                  (l in t'.links <==> l in t.links) && (l in t.links ==> t'.links[l] == t.links[l]))
  {
    var id := StoredId(t, workspace, s, newId);
    MatchResolves(t.repos, workspace, s.repositoryFullName.GetOr(""));
    hide MatchRepository, Resolves, FullName, ShortName, FindBudget, SharedScope, IsShared;
    var b := BudgetRow(workspace, s, MatchRepository(t.repos, workspace, s.repositoryFullName.GetOr("")));
    ScopeMeans(b);
    assert UpsertBudget(t, workspace, s, newId).0 == StoreBudget(t, id, b);
    forall l: Link ensures var t' := StoreBudget(t, id, b);
                     && (l.budget != id ==>
                           (l in t'.links <==> l in t.links) && (l in t.links ==> t'.links[l] == t.links[l]))
                     && (l.budget == id ==> (l in t'.links <==> l in LinksOfBudget(t.repos, id, b)))
                     && (l.budget == id && l in t'.links ==> t'.links[l] == LinksOfBudget(t.repos, id, b)[l])
    {
      StoredLink(t, id, b, l);
    }
    LinksReach(t.repos, id, b);
    hide StoreBudget, LinksOfBudget, UpsertBudget;
  }

  lemma LinksReach(repos: map<RepoId, Repo>, id: BudgetId, b: Budget)
    ensures var links := LinksOfBudget(repos, id, b);
            && (forall r ::
                  Link(id, r) in links
                  <==> b.repo == Some(r) || (b.repo.None? && SharedScope(b) && r in repos
                                             && repos[r].workspace == b.workspace && repos[r].status == Active))
            && (forall r | Link(id, r) in links :: links[Link(id, r)] == if b.repo.Some? then Direct else Inherited)
  {
    hide SharedScope;
  }

  // ---- What a placed repository gets -----------------------------------------------------------------------

  /** Whom the budget holds after the repository r has been placed in the workspace. */
  function HolderAfter(b: Budget, r: RepoId, workspace: WorkspaceId, s: Snapshot): Option<RepoId> {
    if b.workspace == workspace && IsFor(b, s.name, s.fullName) then Some(r)
    else if b.workspace != workspace && b.repo == Some(r) then None
    else b.repo
  }

  /**
   After an upsert the budgets of the workspace that name the repository hold it, those elsewhere have let it
   go, and it has exactly the attributions of the budgets of its workspace that hold it or are shared.
   */
  lemma PlacedRepositoryGets(t: Tables, workspace: WorkspaceId, s: Snapshot, newId: RepoId)
    requires Sound(t) && !Fails(t, workspace, s, newId)
    ensures var (t', r) := UpsertRepository(t, workspace, s, newId);
            && r.Some? && t'.budgets.Keys == t.budgets.Keys
            && (forall b | b in t.budgets ::
                  t'.budgets[b] == t.budgets[b].(repo := HolderAfter(t.budgets[b], r.value, workspace, s)))
            && (forall b ::
                  Link(b, r.value) in t'.links
                  <==> b in t'.budgets && t'.budgets[b].workspace == workspace
                       && (t'.budgets[b].repo == Some(r.value) || IsShared(t'.budgets[b])))
            && (forall b | Link(b, r.value) in t'.links ::
                  t'.links[Link(b, r.value)] == if t'.budgets[b].repo == Some(r.value) then Direct else Inherited)
            && (forall l: Link | l.repo != r.value ::
                  (l in t'.links <==> l in t.links) && (l in t.links ==> t'.links[l] == t.links[l]))
  {
    var key := Identity(t.workspaces[workspace], s.externalId);
    UpsertKeeps(t, workspace, s, newId);
    PlaceMovesOneRow(t, key, workspace, s, newId);
    hide Sound, Clean, Place, RefreshLinks, IsShared, SharedScope;
    var (placed, r) := Place(t, key, workspace, s, newId);
    var t' := RefreshLinks(placed, r.value, workspace);
    forall b | b in t.budgets
      ensures b in t'.budgets
      ensures t'.budgets[b] == t.budgets[b].(repo := HolderAfter(t.budgets[b], r.value, workspace, s))
    {
      RefreshedBudget(placed, r.value, workspace, b);
      ReassignedMeans(t.budgets[b], r.value, workspace, s);
    }
    RefreshedBudgets(placed, r.value, workspace);
    hide HolderAfter;
    forall l: Link
      ensures l.repo != r.value ==>
                (l in t'.links <==> l in t.links) && (l in t.links ==> t'.links[l] == t.links[l])
      ensures l.repo == r.value ==>
                (l in t'.links <==> l.budget in t'.budgets && Applies(t'.budgets[l.budget], r.value, workspace))
      ensures l.repo == r.value && l in t'.links ==> t'.links[l] == KindOf(t'.budgets[l.budget], r.value)
    {
      RefreshedLink(placed, r.value, workspace, l);
    }
    forall b | b in t'.budgets ensures SharedScope(t'.budgets[b]) <==> IsShared(t'.budgets[b]) {
      ScopeMeans(t'.budgets[b]);
    }
  }

  lemma ReassignedMeans(b: Budget, r: RepoId, workspace: WorkspaceId, s: Snapshot)
    ensures Reassigned(b, r, NewRepo(workspace, s), workspace) == b.(repo := HolderAfter(b, r, workspace, s))
  {
    NameMeans(b, NewRepo(workspace, s));
    NameMeans(b.(repo := None), NewRepo(workspace, s));
    hide IsFor, NamesRepo, RepositoryScope;
    SameNames(b, workspace, s);
  }

  lemma SameNames(b: Budget, workspace: WorkspaceId, s: Snapshot)
    ensures IsFor(b.(repo := None), s.name, s.fullName) == IsFor(b, s.name, s.fullName)
  {
    hide Alike;
  }

  // ---- Shared budgets over whole runs -----------------------------------------------------------------------

  /** A stored budget that is shared and holds no repository. */
  ghost predicate Spreads(t: Tables, b: BudgetId) {
    b in t.budgets && t.budgets[b].repo.None? && IsShared(t.budgets[b])
  }

  ghost predicate ActiveIn(t: Tables, workspace: WorkspaceId, r: RepoId) {
    r in t.repos && t.repos[r].workspace == workspace && t.repos[r].status == Active
  }

  ghost predicate InheritsFrom(t: Tables, b: BudgetId, r: RepoId) {
    Link(b, r) in t.links && t.links[Link(b, r)] == Inherited
  }

  /** Every active repository of its workspace inherits the budget. */
  ghost predicate Spread(t: Tables, b: BudgetId)
    requires b in t.budgets
  {
    forall r | ActiveIn(t, t.budgets[b].workspace, r) :: InheritsFrom(t, b, r)
  }

  ghost predicate AllSpread(t: Tables) {
    forall b | Spreads(t, b) :: Spread(t, b)
  }

  /**
   The repository moves away from a shared budget that holds it, while an active repository the budget does
   not reach stays behind.
   */
  ghost predicate Strands(t: Tables, workspace: WorkspaceId, s: Snapshot, newId: RepoId, b: BudgetId, o: RepoId)
    requires workspace in t.workspaces
  {
    var r, key := TargetRow(t, workspace, s, newId), Identity(t.workspaces[workspace], s.externalId);
    && b in t.budgets && IsShared(t.budgets[b]) && t.budgets[b].repo == Some(r)
    && t.budgets[b].workspace != workspace && ActiveIn(t, t.budgets[b].workspace, o) && !InheritsFrom(t, b, o)
    && o != r && !(key in t.identities && o == t.identities[key])
  }

  ghost predicate Stranded(t: Tables, workspace: WorkspaceId, s: Snapshot, newId: RepoId, b: BudgetId)
    requires workspace in t.workspaces
  {
    exists o :: Strands(t, workspace, s, newId, b, o)
  }

  /** What an upsert does to the rows and attributions a budget depends on. */
  ghost predicate RowsPlaced(t: Tables, t': Tables, r: RepoId, workspace: WorkspaceId, key: Identity) {
    && (forall w, o | o != r ::
          ActiveIn(t', w, o) <==> ActiveIn(t, w, o) && !(key in t.identities && o == t.identities[key]))
    && (forall w :: ActiveIn(t', w, r) <==> w == workspace)
  }

  ghost predicate LinksPlaced(t: Tables, t': Tables, r: RepoId, workspace: WorkspaceId, s: Snapshot, b: BudgetId) {
    && b in t.budgets && b in t'.budgets
    && t'.budgets[b] == t.budgets[b].(repo := HolderAfter(t.budgets[b], r, workspace, s))
    && (forall o | o != r :: InheritsFrom(t', b, o) <==> InheritsFrom(t, b, o))
    && (InheritsFrom(t', b, r) <==> t'.budgets[b].workspace == workspace && IsShared(t'.budgets[b])
                                    && t'.budgets[b].repo != Some(r))
  }

  lemma UpsertPlacesRows(t: Tables, workspace: WorkspaceId, s: Snapshot, newId: RepoId)
    requires Sound(t) && !Fails(t, workspace, s, newId)
    ensures var key := Identity(t.workspaces[workspace], s.externalId);
            RowsPlaced(t, UpsertRepository(t, workspace, s, newId).0, TargetRow(t, workspace, s, newId), workspace, key)
  {
    UpsertReturnsTheTarget(t, workspace, s, newId);
    UpsertPlacesTheRow(t, workspace, s, newId);
    hide UpsertRepository, Sound, TargetRow, MovesAfter, Fails, RowsPlaced, RowAfter;
    AllRowsStay(t, UpsertRepository(t, workspace, s, newId).0, Identity(t.workspaces[workspace], s.externalId),
                workspace, s, TargetRow(t, workspace, s, newId));
  }

  lemma AllRowsStay(t: Tables, t': Tables, key: Identity, workspace: WorkspaceId, s: Snapshot, r: RepoId)
    requires t'.repos.Keys == t.repos.Keys + {r}
    requires forall id | id in t'.repos :: t'.repos[id] == RowAfter(t, key, workspace, s, r, id)
    ensures RowsPlaced(t, t', r, workspace, key)
  {
    forall o | o in t'.repos
      ensures if o == r then t'.repos[o].workspace == workspace && t'.repos[o].status == Active
              else if key in t.identities && o == t.identities[key] then t'.repos[o].status == Removed
              else t'.repos[o] == t.repos[o]
    {
      RowStays(t, key, workspace, s, r, o);
    }
    hide RowAfter;
  }

  lemma RowStays(t: Tables, key: Identity, workspace: WorkspaceId, s: Snapshot, r: RepoId, o: RepoId)
    requires o in t.repos || o == r
    ensures var row := RowAfter(t, key, workspace, s, r, o);
            if o == r then row.workspace == workspace && row.status == Active
            else if key in t.identities && o == t.identities[key] then row.status == Removed
            else row == t.repos[o]
  {
  }

  lemma UpsertPlacesLinks(t: Tables, workspace: WorkspaceId, s: Snapshot, newId: RepoId, b: BudgetId)
    requires Sound(t) && !Fails(t, workspace, s, newId) && b in t.budgets
    ensures var r := TargetRow(t, workspace, s, newId);
            LinksPlaced(t, UpsertRepository(t, workspace, s, newId).0, r, workspace, s, b)
  {
    UpsertReturnsTheTarget(t, workspace, s, newId);
    PlacedRepositoryGets(t, workspace, s, newId);
    hide UpsertRepository, Sound, TargetRow, IsShared, HolderAfter, Fails;
  }

  /** A budget that is no longer spread after an upsert is one the upsert strands. */
  lemma UnspreadIsStranded(t: Tables, t': Tables, workspace: WorkspaceId, s: Snapshot, newId: RepoId, b: BudgetId)
    requires workspace in t.workspaces && AllSpread(t)
    requires LinksPlaced(t, t', TargetRow(t, workspace, s, newId), workspace, s, b)
    requires RowsPlaced(t, t', TargetRow(t, workspace, s, newId), workspace,
                        Identity(t.workspaces[workspace], s.externalId))
    ensures Spreads(t', b) && !Spread(t', b) <==> Stranded(t, workspace, s, newId, b)
  {
    hide TargetRow, ActiveIn, InheritsFrom, IsFor, IsShared;
    var r := TargetRow(t, workspace, s, newId);
    SharedEither(t.budgets[b], HolderAfter(t.budgets[b], r, workspace, s));
    if Spreads(t', b) && !Spread(t', b) {
      var o :| ActiveIn(t', t'.budgets[b].workspace, o) && !InheritsFrom(t', b, o);
      assert Spreads(t, b) ==> Spread(t, b);
      assert Strands(t, workspace, s, newId, b, o);
    }
    if Stranded(t, workspace, s, newId, b) {
      var o :| Strands(t, workspace, s, newId, b, o);
      assert ActiveIn(t', t'.budgets[b].workspace, o) && !InheritsFrom(t', b, o);
    }
  }

  lemma SharedEither(b: Budget, repo: Option<RepoId>)
    ensures IsShared(b.(repo := repo)) == IsShared(b)
  {
  }

  /** Shared budgets stay inherited through an upsert if and only if it fails or strands no budget. */
  lemma PutRepoKeepsSpread(t: Tables, workspace: WorkspaceId, s: Snapshot, newId: RepoId)
    requires Sound(t) && AllSpread(t)
    ensures AllSpread(UpsertRepository(t, workspace, s, newId).0)
       <==> Fails(t, workspace, s, newId) || forall b :: !Stranded(t, workspace, s, newId, b)
  {
    var t' := UpsertRepository(t, workspace, s, newId).0;
    UpsertKeeps(t, workspace, s, newId);
    if !Fails(t, workspace, s, newId) {
      PlacedRepositoryGets(t, workspace, s, newId);
      UpsertPlacesRows(t, workspace, s, newId);
      hide UpsertRepository, Sound, Clean, HolderAfter, IsShared, Spread, LinksPlaced, RowsPlaced, TargetRow;
      forall b | b in t.budgets ensures Spreads(t', b) && !Spread(t', b) <==> Stranded(t, workspace, s, newId, b) {
        UpsertPlacesLinks(t, workspace, s, newId, b);
        UnspreadIsStranded(t, t', workspace, s, newId, b);
      }
    }
  }

  lemma StatusKeepsSpread(t: Tables, repos': Repos)
    requires AllSpread(t) && repos'.Keys == t.repos.Keys
    requires forall id | id in repos' ::
               && repos'[id].workspace == t.repos[id].workspace
               && (repos'[id].status == Active ==> repos'[id] == t.repos[id])
    ensures AllSpread(t.(repos := repos'))
  {
    hide IsShared;
    var t' := t.(repos := repos');
    forall b | Spreads(t', b) ensures Spread(t', b) {
      assert Spreads(t, b);
      forall r | ActiveIn(t', t'.budgets[b].workspace, r) ensures InheritsFrom(t', b, r) {
        assert ActiveIn(t, t.budgets[b].workspace, r);
      }
    }
  }

  lemma PutBudgetKeepsSpread(t: Tables, workspace: WorkspaceId, s: BudgetSnapshot, newId: BudgetId)
    requires AllSpread(t)
    ensures AllSpread(UpsertBudget(t, workspace, s, newId).0)
  {
    var (t', ok) := UpsertBudget(t, workspace, s, newId);
    var id := StoredId(t, workspace, s, newId);
    BudgetKeepsTheRest(t, workspace, s, newId);
    BudgetsElsewhere(t, workspace, s, newId);
    if ok {
      StoredBudgetReaches(t, workspace, s, newId);
      hide UpsertBudget, IsShared, StoredId, Resolves, FullName, ShortName;
      forall b, r | Spreads(t', b) && ActiveIn(t', t'.budgets[b].workspace, r) ensures InheritsFrom(t', b, r) {
        assert ActiveIn(t, t'.budgets[b].workspace, r);
        if b != id {
          assert Spreads(t, b) && InheritsFrom(t, b, r);
          assert Link(b, r) in t'.links;
        } else {
          assert Link(id, r) in t'.links;
        }
      }
    }
  }

  lemma BudgetsElsewhere(t: Tables, workspace: WorkspaceId, s: BudgetSnapshot, newId: BudgetId)
    ensures var (t', ok) := UpsertBudget(t, workspace, s, newId);
            var id := StoredId(t, workspace, s, newId);
            && (!ok ==> t' == t)
            && (forall b | b != id :: (b in t'.budgets <==> b in t.budgets)
                                      && (b in t.budgets ==> t'.budgets[b] == t.budgets[b]))
  {
    hide MatchRepository, LinksOfBudget, Detached;
  }

  lemma {:induction false} PutBudgetsKeepSpread(
      t: Tables, workspace: WorkspaceId, snapshots: seq<BudgetSnapshot>, ids: seq<BudgetId>)
    requires AllSpread(t) && |ids| == |snapshots|
    ensures AllSpread(UpsertBudgets(t, workspace, snapshots, ids).0)
    decreases |snapshots|
  {
    hide AllSpread, UpsertBudget;
    if snapshots != [] {
      var (t1, ok) := UpsertBudget(t, workspace, snapshots[0], ids[0]);
      PutBudgetKeepsSpread(t, workspace, snapshots[0], ids[0]);
      if ok {
        PutBudgetsKeepSpread(t1, workspace, snapshots[1..], ids[1..]);
      }
    }
  }

  lemma DropKeepsSpread(t: Tables, workspace: WorkspaceId, keep: set<string>)
    requires AllSpread(t)
    ensures AllSpread(DropStale(t, workspace, keep))
  {
    hide IsShared;
    var t' := DropStale(t, workspace, keep);
    forall b | Spreads(t', b) ensures Spread(t', b) {
      assert Spreads(t, b);
      forall r | ActiveIn(t', t'.budgets[b].workspace, r) ensures InheritsFrom(t', b, r) {
        assert ActiveIn(t, t.budgets[b].workspace, r) && InheritsFrom(t, b, r);
      }
    }
  }

  /** The operation is an upsert that strands a shared budget. */
  ghost predicate StrandsOne(t: Tables, op: Operation) {
    && op.PutRepo? && !Fails(t, op.workspace, op.snapshot, op.newId)
    && exists b :: Stranded(t, op.workspace, op.snapshot, op.newId, b)
  }

  lemma ExecuteKeepsSpread(t: Tables, op: Operation)
    requires Sound(t) && AllSpread(t) && WellTyped(op)
    ensures AllSpread(Execute(t, op)) <==> !StrandsOne(t, op)
  {
    hide Sound, AllSpread, UpsertRepository, UpsertBudget, UpsertBudgets, Stranded, DropStale;
    match op
    case AddWorkspace(workspace, connection) =>
      assert AllSpread(t.(workspaces := t.workspaces[workspace := connection])) by {
        WorkspacesKeepSpread(t, t.workspaces[workspace := connection]);
      }
    case PutRepo(workspace, snapshot, newId) =>
      PutRepoKeepsSpread(t, workspace, snapshot, newId);
    case RemoveRepo(workspace, externalId) =>
      StatusKeepsSpread(t, MarkRepositoryRemoved(t.repos, workspace, externalId));
    case MarkUnseen(workspace, seen) =>
      StatusKeepsSpread(t, MarkUnseenInaccessible(t.repos, workspace, seen));
    case PutBudget(workspace, budget, newBudget) =>
      PutBudgetKeepsSpread(t, workspace, budget, newBudget);
    case ReplaceAll(workspace, snapshots, ids) =>
      PutBudgetsKeepSpread(t, workspace, snapshots, ids);
      DropKeepsSpread(UpsertBudgets(t, workspace, snapshots, ids).0, workspace, Provided(snapshots));
  }

  lemma WorkspacesKeepSpread(t: Tables, workspaces: Workspaces)
    requires AllSpread(t)
    ensures AllSpread(t.(workspaces := workspaces))
  {
    hide IsShared;
    var t' := t.(workspaces := workspaces);
    forall b | Spreads(t', b) ensures Spread(t', b) {
      assert Spreads(t, b);
      forall r | ActiveIn(t', t'.budgets[b].workspace, r) ensures InheritsFrom(t', b, r) {
        assert ActiveIn(t, t.budgets[b].workspace, r);
      }
    }
  }

  ghost predicate SpreadAt(ops: seq<Operation>, k: nat)
    requires Typed(ops) && k <= |ops|
  {
    AllSpread(After(EMPTY, ops[..k]))
  }

  ghost predicate StrandsAt(ops: seq<Operation>, k: nat)
    requires Typed(ops) && k < |ops|
  {
    StrandsOne(After(EMPTY, ops[..k]), ops[k])
  }

  lemma PrefixAgrees(ops: seq<Operation>, n: nat, k: nat)
    requires Typed(ops) && k <= n <= |ops|
    ensures SpreadAt(ops[..n], k) == SpreadAt(ops, k)
    ensures k < n ==> StrandsAt(ops[..n], k) == StrandsAt(ops, k)
  {
    hide After, AllSpread, StrandsOne;
    assert ops[..n][..k] == ops[..k];
  }

  lemma LastOperationDecides(ops: seq<Operation>, n: nat)
    requires Typed(ops) && n < |ops| && SpreadAt(ops, n)
    ensures SpreadAt(ops, n + 1) <==> !StrandsAt(ops, n)
  {
    hide After, Execute, AllSpread, StrandsOne, Clean, Sound, Consistent;
    EveryRunIsSound(ops[..n]);
    CleanIsSound(After(EMPTY, ops[..n]));
    AfterOneMore(EMPTY, ops, n);
    ExecuteKeepsSpread(After(EMPTY, ops[..n]), ops[n]);
  }

  lemma NothingToSpread(ops: seq<Operation>)
    requires Typed(ops)
    ensures SpreadAt(ops, 0)
  {
    assert ops[..0] == [];
  }

  /**
   Throughout a run every shared budget without a repository of its own is inherited by every active
   repository of its workspace, if and only if no upsert of the run strands one.
   */
  lemma {:induction false} SpreadExactlyWithoutStranding(ops: seq<Operation>)
    requires Typed(ops)
    ensures (forall k: nat | k <= |ops| :: SpreadAt(ops, k)) <==> (forall k: nat | k < |ops| :: !StrandsAt(ops, k))
    decreases |ops|
  {
    hide SpreadAt, StrandsAt;
    if ops == [] {
      NothingToSpread(ops);
    } else {
      var n := |ops| - 1;
      SpreadExactlyWithoutStranding(ops[..n]);
      forall k: nat | k <= n
        ensures SpreadAt(ops[..n], k) == SpreadAt(ops, k) && (k < n ==> StrandsAt(ops[..n], k) == StrandsAt(ops, k))
      {
        PrefixAgrees(ops, n, k);
      }
      if SpreadAt(ops, n) {
        LastOperationDecides(ops, n);
      }
    }
  }

  // ---- A stranded budget ------------------------------------------------------------------------------------

  const SHARED := BudgetSnapshot("x", Some("organization"), None, None, Some("o/a"))

  const STRANDING := [
    AddWorkspace("v", "c"),
    AddWorkspace("w", "c"),
    PutRepo("v", Snapshot("1", "a", "o/a"), 1),
    PutRepo("v", Snapshot("2", "b", "o/b"), 2),
    PutBudget("v", SHARED, 0),
    PutRepo("w", Snapshot("1", "a", "p/a"), 9)]

  const TWO: map<WorkspaceId, ConnectionId> := map["v" := "c", "w" := "c"]
  const MOVED := Repo("v", "1", "a", "o/a", Active, None)
  const LEFT := Repo("v", "2", "b", "o/b", Active, None)

  lemma TwoWorkspaces()
    ensures After(EMPTY, STRANDING[..2]) == EMPTY.(workspaces := TWO)
  {
    AfterOneMore(EMPTY, STRANDING, 0);
    AfterOneMore(EMPTY, STRANDING, 1);
    hide After;
    assert STRANDING[..0] == [] && After(EMPTY, []) == EMPTY by { EmptyRun(); }
    assert Execute(EMPTY, STRANDING[0]) == EMPTY.(workspaces := map["v" := "c"]);
  }

  lemma EmptyRun()
    ensures After(EMPTY, []) == EMPTY
  {
  }

  /** A repository that is new to a store without budgets. */
  lemma Appears(t: Tables, s: Snapshot, newId: RepoId)
    requires Sound(t) && t.workspaces == TWO && t.budgets == map[] && t.links == map[]
    requires Identity("c", s.externalId) !in t.identities && newId !in t.repos
    ensures var t' := UpsertRepository(t, "v", s, newId).0;
            && t'.workspaces == TWO && t'.budgets == map[] && t'.links == map[]
            && t'.repos == t.repos[newId := Repo("v", s.externalId, s.name, s.fullName, Active, None)]
            && t'.identities == t.identities[Identity("c", s.externalId) := newId]
  {
    hide UpsertRepository, Sound;
    AppearsAlone(t, s, newId);
    ReachesNothing(t, s, newId);
  }

  lemma AppearsAlone(t: Tables, s: Snapshot, newId: RepoId)
    requires Sound(t) && t.workspaces == TWO && Identity("c", s.externalId) !in t.identities && newId !in t.repos
    ensures var (t', r) := UpsertRepository(t, "v", s, newId);
            && r == Some(newId) && t'.workspaces == TWO
            && t'.repos == t.repos[newId := Repo("v", s.externalId, s.name, s.fullName, Active, None)]
            && t'.identities == t.identities[Identity("c", s.externalId) := newId]
  {
    var key := Identity("c", s.externalId);
    assert Fails(t, "v", s, newId) == false;
    FreshRow(t, "v", s, newId);
    UpsertKeeps(t, "v", s, newId);
    hide UpsertRepository, Sound, Clean, MovesAfter, Fails, RowAfter, Extends;
    UpsertPlacesTheRow(t, "v", s, newId);
    RowsBeside(t, UpsertRepository(t, "v", s, newId).0, key, s, newId);
  }

  lemma RowsBeside(t: Tables, t': Tables, key: Identity, s: Snapshot, newId: RepoId)
    requires key !in t.identities && newId !in t.repos && t'.repos.Keys == t.repos.Keys + {newId}
    requires forall id | id in t'.repos :: t'.repos[id] == RowAfter(t, key, "v", s, newId, id)
    ensures t'.repos == t.repos[newId := Repo("v", s.externalId, s.name, s.fullName, Active, None)]
  {
  }

  lemma ReachesNothing(t: Tables, s: Snapshot, newId: RepoId)
    requires Sound(t) && t.workspaces == TWO && Identity("c", s.externalId) !in t.identities && newId !in t.repos
    requires t.budgets == map[] && t.links == map[]
    ensures var t' := UpsertRepository(t, "v", s, newId).0; t'.budgets == map[] && t'.links == map[]
  {
    AppearsAlone(t, s, newId);
    PlacedRepositoryGets(t, "v", s, newId);
    hide UpsertRepository, Sound, IsShared, HolderAfter;
    var t' := UpsertRepository(t, "v", s, newId).0;
    assert t'.budgets.Keys == {};
    forall l: Link ensures l !in t'.links {
      assert l == Link(l.budget, l.repo);
    }
  }

  lemma TwoRepositories()
    ensures var t := After(EMPTY, STRANDING[..4]);
            && t.workspaces == TWO && t.repos == map[1 := MOVED, 2 := LEFT] && t.budgets == map[] && t.links == map[]
            && t.identities == map[Identity("c", "1") := 1, Identity("c", "2") := 2]
  {
    hide After, UpsertRepository, Clean, Sound, Consistent;
    TwoWorkspaces();
    AfterOneMore(EMPTY, STRANDING, 2);
    AfterOneMore(EMPTY, STRANDING, 3);
    EveryRunIsSound(STRANDING[..2]);
    CleanIsSound(After(EMPTY, STRANDING[..2]));
    Appears(After(EMPTY, STRANDING[..2]), Snapshot("1", "a", "o/a"), 1);
    EveryRunIsSound(STRANDING[..3]);
    CleanIsSound(After(EMPTY, STRANDING[..3]));
    assert After(EMPTY, STRANDING[..3]).identities == map[Identity("c", "1") := 1];
    Appears(After(EMPTY, STRANDING[..3]), Snapshot("2", "b", "o/b"), 2);
  }

  lemma OnlyOneIsCalled(o: RepoId)
    ensures var repos := map[1 := MOVED, 2 := LEFT];
            && FullName(repos, "v", "o/a", 1) && (FullName(repos, "v", "o/a", o) ==> o == 1)
  {
    assert !SameLetter("o/a"[2], "o/b"[2]);
  }

  /** The organization's budget resolves to the first repository, and reaches it alone. */
  lemma BudgetOfTheFirst(t: Tables)
    requires t.repos == map[1 := MOVED, 2 := LEFT] && t.budgets == map[] && t.links == map[]
    ensures var t' := UpsertBudget(t, "v", SHARED, 0).0;
            && t'.repos == t.repos && t'.workspaces == t.workspaces && t'.identities == t.identities
            && t'.budgets == map[0 := Budget("v", "x", Some("organization"), None, None, Some(1))]
            && Link(0, 2) !in t'.links
  {
    assert FindBudget(t.budgets, "v", "x").None?;
    assert StoredId(t, "v", SHARED, 0) == 0;
    StoredBudgetReaches(t, "v", SHARED, 0);
    BudgetsElsewhere(t, "v", SHARED, 0);
    BudgetKeepsTheRest(t, "v", SHARED, 0);
    forall o ensures FullName(t.repos, "v", "o/a", 1) && (FullName(t.repos, "v", "o/a", o) ==> o == 1) {
      OnlyOneIsCalled(o);
    }
    hide UpsertBudget, FullName, ShortName, IsShared, StoredId;
    var t' := UpsertBudget(t, "v", SHARED, 0).0;
    var holder := t'.budgets[0].repo;
    assert FullName(t.repos, "v", "o/a", 1);
    assert holder.Some? && FullName(t.repos, "v", "o/a", holder.value);
    assert holder == Some(1) && t'.budgets.Keys == {0};
    assert Link(0, 2) in t'.links <==> holder == Some(2);
  }

  lemma OrganizationIsShared(repo: Option<RepoId>)
    ensures IsShared(Budget("v", "x", Some("organization"), None, None, repo))
  {
  }

  /** The first repository moves away: the budget is nobody's, and the second does not inherit it. */
  lemma BudgetIsStranded()
    ensures Typed(STRANDING) && !AllSpread(After(EMPTY, STRANDING))
  {
    hide After, UpsertRepository, UpsertBudget, Clean, Sound, Consistent;
    TwoRepositories();
    AfterOneMore(EMPTY, STRANDING, 4);
    AfterOneMore(EMPTY, STRANDING, 5);
    BudgetOfTheFirst(After(EMPTY, STRANDING[..4]));
    EveryRunIsSound(STRANDING[..5]);
    CleanIsSound(After(EMPTY, STRANDING[..5]));
    assert STRANDING[..6] == STRANDING;
    MoveStrands(After(EMPTY, STRANDING[..5]));
  }

  lemma MoveStrands(t: Tables)
    requires Sound(t) && t.workspaces == TWO && t.repos == map[1 := MOVED, 2 := LEFT]
    requires t.identities == map[Identity("c", "1") := 1, Identity("c", "2") := 2]
    requires t.budgets == map[0 := Budget("v", "x", Some("organization"), None, None, Some(1))]
    requires Link(0, 2) !in t.links
    ensures !AllSpread(UpsertRepository(t, "w", Snapshot("1", "a", "p/a"), 9).0)
  {
    hide UpsertRepository, Sound, IsShared;
    var s := Snapshot("1", "a", "p/a");
    OrganizationIsShared(Some(1));
    assert FindRepo(t.repos, "w", "1").None?;
    assert Strands(t, "w", s, 9, 0, 2) && Stranded(t, "w", s, 9, 0);
    assert AllSpread(t) && !Fails(t, "w", s, 9);
    PutRepoKeepsSpread(t, "w", s, 9);
  }
}
