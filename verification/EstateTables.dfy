/**
 The estate tables that several writers share: workspaces, repositories with their stable
 provider identities, budgets, and the attribution of budgets to repositories. Each function
 is one statement, or one storage operation as a caller sees it.
 */
module EstateTables {
  import opened Wrappers

  type WorkspaceId = string
  type ConnectionId = string
  /** Row identifiers, numbered in the order of their text. */
  type RepoId = nat
  type BudgetId = nat

  datatype Status = Active | Inaccessible | Removed

  datatype Repo = Repo(
    workspace: WorkspaceId, externalId: string, name: string, fullName: string, status: Status, reason: Option<string>)

  datatype Snapshot = Snapshot(externalId: string, name: string, fullName: string)

  datatype Identity = Identity(connection: ConnectionId, externalId: string)

  datatype Move = Move(repo: RepoId, from: WorkspaceId, to: WorkspaceId, before: string, after: string)

  datatype Budget = Budget(
    workspace: WorkspaceId,
    externalId: string,
    scopeType: Option<string>,
    scopeTarget: Option<string>,
    scopeEntity: Option<string>,
    repo: Option<RepoId>)

  datatype BudgetSnapshot = BudgetSnapshot(
    externalId: string, scopeType: Option<string>, scopeTarget: Option<string>, scopeEntity: Option<string>,
    repositoryFullName: Option<string>)

  datatype Kind = Direct | Inherited

  datatype Link = Link(budget: BudgetId, repo: RepoId)

  datatype Tables = Tables(
    workspaces: map<WorkspaceId, ConnectionId>,
    repos: map<RepoId, Repo>,
    identities: map<Identity, RepoId>,
    moves: seq<Move>,
    budgets: map<BudgetId, Budget>,
    links: map<Link, Kind>)

  // ---- Names ----------------------------------------------------------------------------

  function LowerChar(c: char): char {
    if 'A' <= c <= 'Z' then c + ('a' - 'A') else c
  }

  function Lower(s: string): string {
    seq(|s|, i requires 0 <= i < |s| => LowerChar(s[i]))
  }

  /** lower(a) = lower(b), where a may be null. */
  predicate SameName(a: Option<string>, b: string) {
    a.Some? && Lower(a.value) == Lower(b)
  }

  predicate RepositoryScope(b: Budget) {
    Lower(b.scopeType.GetOr("")) in {"repository", "repo"}
  }

  predicate SharedScope(b: Budget) {
    Lower(b.scopeType.GetOr("")) in {"organization", "org", "enterprise", "cost_center"}
  }

  predicate NamesRepo(b: Budget, r: Repo) {
    || SameName(b.scopeEntity, r.fullName) || SameName(b.scopeEntity, r.name)
    || SameName(b.scopeTarget, r.fullName) || SameName(b.scopeTarget, r.name)
  }

  // ---- Repositories -----------------------------------------------------------------------

  ghost predicate StoredAs(repos: map<RepoId, Repo>, workspace: WorkspaceId, externalId: string, id: RepoId) {
    id in repos && repos[id].workspace == workspace && repos[id].externalId == externalId
  }

  /** SELECT id ... WHERE workspace_id = ? AND external_id = ? */
  ghost function FindRepo(repos: map<RepoId, Repo>, workspace: WorkspaceId, externalId: string): (r: Option<RepoId>)
    ensures r.Some? ==> StoredAs(repos, workspace, externalId, r.value)
    ensures r.None? ==> forall id :: !StoredAs(repos, workspace, externalId, id)
  {
    if id :| StoredAs(repos, workspace, externalId, id) then Some(id) else None
  }

  function Refreshed(r: Repo, s: Snapshot): Repo {
    r.(name := s.name, fullName := s.fullName, status := Active, reason := None)
  }

  function Merged(r: Repo): Repo {
    r.(status := Removed, reason := Some("duplicate_merged"))
  }

  /** A known repository seen elsewhere: merged into the row already there, or moved. */
  ghost function Relocate(t: Tables, id: RepoId, workspace: WorkspaceId, s: Snapshot): (r: (Tables, RepoId))
    requires id in t.repos
    ensures r.1 in r.0.repos
  {
    var r := t.repos[id];
    if r.workspace == workspace then (t, id)
    else
      match FindRepo(t.repos, workspace, s.externalId)
      case Some(there) =>
        (t.(repos := t.repos[id := Merged(r)],
            moves := t.moves + [Move(there, r.workspace, workspace, r.fullName, s.fullName)]),
         there)
      case None =>
        (t.(repos := t.repos[id := r.(workspace := workspace)],
            moves := t.moves + [Move(id, r.workspace, workspace, r.fullName, s.fullName)]),
         id)
  }

  /** The row a snapshot belongs to: by provider identity first, then by workspace. */
  ghost function Locate(t: Tables, key: Identity, workspace: WorkspaceId): (r: Option<RepoId>)
    ensures r.Some? ==> r.value in t.repos
  {
    if key in t.identities && t.identities[key] in t.repos then Some(t.identities[key])
    else FindRepo(t.repos, workspace, key.externalId)
  }

  /** The row is refreshed and its identity points to it. */
  function Settle(t: Tables, key: Identity, id: RepoId, s: Snapshot): Tables
    requires id in t.repos
  {
    t.(repos := t.repos[id := Refreshed(t.repos[id], s)], identities := t.identities[key := id])
  }

  function NewRepo(workspace: WorkspaceId, s: Snapshot): Repo {
    Repo(workspace, s.externalId, s.name, s.fullName, Active, None)
  }

  function Insert(t: Tables, key: Identity, workspace: WorkspaceId, s: Snapshot, id: RepoId): Tables {
    t.(repos := t.repos[id := NewRepo(workspace, s)], identities := t.identities[key := id])
  }

  /** Everything an upsert does to repositories, identities and moves, before the budgets are looked at. */
  ghost function Place(
      t: Tables, key: Identity, workspace: WorkspaceId, s: Snapshot, newId: RepoId): (Tables, Option<RepoId>)
  {
    match Locate(t, key, workspace)
    case Some(known) =>
      var (relocated, id) := Relocate(t, known, workspace, s);
      (Settle(relocated, key, id, s), Some(id))
    case None =>
      if newId in t.repos then (t, None) else (Insert(t, key, workspace, s, newId), Some(newId))
  }

  ghost function UpsertRepository(
      t: Tables, workspace: WorkspaceId, s: Snapshot, newId: RepoId): (Tables, Option<RepoId>)
  {
    if workspace !in t.workspaces then (t, None)
    else
      var (placed, id) := Place(t, Identity(t.workspaces[workspace], s.externalId), workspace, s, newId);
      if id.None? then (placed, None) else (RefreshLinks(placed, id.value, workspace), id)
  }

  function Deleted(r: Repo): Repo {
    r.(status := Removed, reason := Some("provider_resource_deleted"))
  }

  function MarkRepositoryRemoved(
      repos: map<RepoId, Repo>, workspace: WorkspaceId, externalId: string): map<RepoId, Repo>
  {
    map id | id in repos ::
      if repos[id].workspace == workspace && repos[id].externalId == externalId then Deleted(repos[id]) else repos[id]
  }

  function Unseen(r: Repo): Repo {
    r.(status := Inaccessible, reason := Some("not_seen_after_complete_discovery"))
  }

  function MarkUnseenInaccessible(
      repos: map<RepoId, Repo>, workspace: WorkspaceId, seen: seq<string>): map<RepoId, Repo>
  {
    map id | id in repos ::
      if repos[id].workspace == workspace && repos[id].status == Active && repos[id].externalId !in seen
      then Unseen(repos[id]) else repos[id]
  }

  /** Exactly the rows of the resource are tombstoned, with their other columns kept. */
  ghost predicate MarkedRemoved(
      repos: map<RepoId, Repo>, repos': map<RepoId, Repo>, workspace: WorkspaceId, externalId: string)
  {
    repos'.Keys == repos.Keys
    && forall id | id in repos ::
         repos'[id] == if repos[id].workspace == workspace && repos[id].externalId == externalId
                       then repos[id].(status := Removed, reason := Some("provider_resource_deleted")) else repos[id]
  }

  lemma RemovalMarks(repos: map<RepoId, Repo>, workspace: WorkspaceId, externalId: string)
    ensures MarkedRemoved(repos, MarkRepositoryRemoved(repos, workspace, externalId), workspace, externalId)
  {
  }

  /** Exactly the active rows of the workspace that were not seen become inaccessible, with their names kept. */
  ghost predicate MarkedUnseen(
      repos: map<RepoId, Repo>, repos': map<RepoId, Repo>, workspace: WorkspaceId, seen: seq<string>)
  {
    repos'.Keys == repos.Keys
    && forall id | id in repos ::
         repos'[id] == if repos[id].workspace == workspace && repos[id].status == Active
                           && repos[id].externalId !in seen
                       then repos[id].(status := Inaccessible, reason := Some("not_seen_after_complete_discovery"))
                       else repos[id]
  }

  lemma UnseenMarks(repos: map<RepoId, Repo>, workspace: WorkspaceId, seen: seq<string>)
    ensures MarkedUnseen(repos, MarkUnseenInaccessible(repos, workspace, seen), workspace, seen)
  {
  }

  // ---- Attributions -------------------------------------------------------------------------

  function Unlinked(links: map<Link, Kind>, id: RepoId): map<Link, Kind> {
    map l | l in links && l.repo != id :: links[l]
  }

  /** A budget elsewhere lets go of the repository. */
  function Released(b: Budget, id: RepoId, workspace: WorkspaceId): Budget {
    if b.repo == Some(id) && b.workspace != workspace then b.(repo := None) else b
  }

  /** A budget here that names the repository takes it. */
  function Taken(b: Budget, id: RepoId, r: Repo, workspace: WorkspaceId): Budget {
    if b.workspace == workspace && RepositoryScope(b) && NamesRepo(b, r) then b.(repo := Some(id)) else b
  }

  function Reassigned(b: Budget, id: RepoId, r: Repo, workspace: WorkspaceId): Budget {
    Taken(Released(b, id, workspace), id, r, workspace)
  }

  predicate Applies(b: Budget, id: RepoId, workspace: WorkspaceId) {
    b.workspace == workspace && (b.repo == Some(id) || SharedScope(b))
  }

  function KindOf(b: Budget, id: RepoId): Kind {
    if b.repo == Some(id) then Direct else Inherited
  }

  function LinksOfRepo(budgets: map<BudgetId, Budget>, id: RepoId, workspace: WorkspaceId): map<Link, Kind> {
    map b | b in budgets && Applies(budgets[b], id, workspace) :: Link(b, id) := KindOf(budgets[b], id)
  }

  function RefreshLinks(t: Tables, id: RepoId, workspace: WorkspaceId): Tables {
    if id !in t.repos then t
    else
      var budgets := map b | b in t.budgets :: Reassigned(t.budgets[b], id, t.repos[id], workspace);
      t.(budgets := budgets, links := Unlinked(t.links, id) + LinksOfRepo(budgets, id, workspace))
  }

  // ---- Budgets --------------------------------------------------------------------------------

  predicate Matches(repos: map<RepoId, Repo>, workspace: WorkspaceId, name: string, id: RepoId) {
    && id in repos && repos[id].workspace == workspace
    && (SameName(Some(name), repos[id].fullName) || SameName(Some(name), repos[id].name))
  }

  /** ORDER BY (full name first), id */
  predicate NotBehind(repos: map<RepoId, Repo>, name: string, a: RepoId, b: RepoId)
    requires a in repos && b in repos
  {
    var fullA, fullB := SameName(Some(name), repos[a].fullName), SameName(Some(name), repos[b].fullName);
    if fullA == fullB then a <= b else fullA
  }

  predicate IsBestMatch(repos: map<RepoId, Repo>, workspace: WorkspaceId, name: string, id: RepoId) {
    && Matches(repos, workspace, name, id)
    && forall o | o in repos && Matches(repos, workspace, name, o) :: NotBehind(repos, name, id, o)
  }

  /** Among finitely many repositories one is behind none of the others. */
  lemma SomeComesFirst(repos: map<RepoId, Repo>, name: string, candidates: set<RepoId>) returns (first: RepoId)
    requires candidates != {} && candidates <= repos.Keys
    ensures first in candidates && forall o | o in candidates :: NotBehind(repos, name, first, o)
    decreases candidates
  {
    var x :| x in candidates;
    var rest := candidates - {x};
    first := x;
    if rest != {} {
      var best := SomeComesFirst(repos, name, rest);
      if NotBehind(repos, name, best, x) {
        first := best;
      }
    }
    forall o | o in candidates ensures NotBehind(repos, name, first, o) {
      assert o != x ==> o in rest;
    }
  }

  lemma MatchesHaveABest(repos: map<RepoId, Repo>, workspace: WorkspaceId, name: string, id: RepoId)
    requires Matches(repos, workspace, name, id)
    ensures exists best :: IsBestMatch(repos, workspace, name, best)
  {
    hide NotBehind, SameName;
    var candidates := set o | o in repos && Matches(repos, workspace, name, o);
    assert id in candidates;
    var best := SomeComesFirst(repos, name, candidates);
    assert IsBestMatch(repos, workspace, name, best);
  }

  /** Full names come before short names, then the smallest id; no result means that nothing matches. */
  ghost function MatchRepository(repos: map<RepoId, Repo>, workspace: WorkspaceId, name: string): (r: Option<RepoId>)
    ensures r.Some? ==> IsBestMatch(repos, workspace, name, r.value)
    ensures r.None? ==> forall id :: !Matches(repos, workspace, name, id)
  {
    if id :| IsBestMatch(repos, workspace, name, id) then Some(id)
    else
      assert forall id :: !Matches(repos, workspace, name, id) by {
        forall id ensures !Matches(repos, workspace, name, id) {
          if Matches(repos, workspace, name, id) {
            MatchesHaveABest(repos, workspace, name, id);
          }
        }
      }
      None
  }

  ghost predicate BudgetAs(budgets: map<BudgetId, Budget>, workspace: WorkspaceId, externalId: string, id: BudgetId) {
    id in budgets && budgets[id].workspace == workspace && budgets[id].externalId == externalId
  }

  ghost function FindBudget(
      budgets: map<BudgetId, Budget>, workspace: WorkspaceId, externalId: string): (r: Option<BudgetId>)
    ensures r.Some? ==> BudgetAs(budgets, workspace, externalId, r.value)
    ensures r.None? ==> forall id :: !BudgetAs(budgets, workspace, externalId, id)
  {
    if id :| BudgetAs(budgets, workspace, externalId, id) then Some(id) else None
  }

  function BudgetRow(workspace: WorkspaceId, s: BudgetSnapshot, repo: Option<RepoId>): Budget {
    Budget(workspace, s.externalId, s.scopeType, s.scopeTarget, s.scopeEntity, repo)
  }

  function LinksOfBudget(repos: map<RepoId, Repo>, id: BudgetId, b: Budget): map<Link, Kind> {
    if b.repo.Some? then map[Link(id, b.repo.value) := Direct]
    else if SharedScope(b) then
      map r | r in repos && repos[r].workspace == b.workspace && repos[r].status == Active :: Link(id, r) := Inherited
    else map[]
  }

  function Detached(links: map<Link, Kind>, id: BudgetId): map<Link, Kind> {
    map l | l in links && l.budget != id :: links[l]
  }

  ghost function StoreBudget(t: Tables, id: BudgetId, b: Budget): Tables {
    t.(budgets := t.budgets[id := b], links := Detached(t.links, id) + LinksOfBudget(t.repos, id, b))
  }

  ghost function UpsertBudget(t: Tables, workspace: WorkspaceId, s: BudgetSnapshot, newId: BudgetId): (Tables, bool) {
    var b := BudgetRow(workspace, s, MatchRepository(t.repos, workspace, s.repositoryFullName.GetOr("")));
    match FindBudget(t.budgets, workspace, s.externalId)
    case Some(id) => (StoreBudget(t, id, b), true)
    case None => if newId in t.budgets then (t, false) else (StoreBudget(t, newId, b), true)
  }

  /** The loop over the snapshots stops at the first failure. */
  ghost function UpsertBudgets(
      t: Tables, workspace: WorkspaceId, snapshots: seq<BudgetSnapshot>, ids: seq<BudgetId>): (Tables, bool)
    requires |ids| == |snapshots|
    decreases |snapshots|
  {
    if snapshots == [] then (t, true)
    else
      var (t1, ok) := UpsertBudget(t, workspace, snapshots[0], ids[0]);
      if !ok then (t1, false) else UpsertBudgets(t1, workspace, snapshots[1..], ids[1..])
  }

  predicate Stale(b: Budget, workspace: WorkspaceId, keep: set<string>) {
    b.workspace == workspace && b.externalId !in keep
  }

  function DropStale(t: Tables, workspace: WorkspaceId, keep: set<string>): Tables {
    t.(links := map l | l in t.links && !(l.budget in t.budgets && Stale(t.budgets[l.budget], workspace, keep)) ::
                  t.links[l],
       budgets := map b | b in t.budgets && !Stale(t.budgets[b], workspace, keep) :: t.budgets[b])
  }

  function Provided(snapshots: seq<BudgetSnapshot>): set<string> {
    set s | s in snapshots :: s.externalId
  }

  ghost function ReplaceBudgets(
      t: Tables, workspace: WorkspaceId, snapshots: seq<BudgetSnapshot>, ids: seq<BudgetId>): (Tables, bool)
    requires |ids| == |snapshots|
  {
    var (t1, ok) := UpsertBudgets(t, workspace, snapshots, ids);
    if !ok then (t1, false) else (DropStale(t1, workspace, Provided(snapshots)), true)
  }
}
