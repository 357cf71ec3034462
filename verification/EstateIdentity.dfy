/**
 Stable repository identity: whatever is upserted and moved, a provider resource keeps one
 row and one id, and a store that already holds duplicates converges to one live row.
 */
module EstateIdentity {
  import opened Wrappers
  import opened EstateTables

  type Workspaces = map<WorkspaceId, ConnectionId>
  type Repos = map<RepoId, Repo>
  type Identities = map<Identity, RepoId>

  ghost predicate HasKey(ws: Workspaces, r: Repo, key: Identity) {
    r.workspace in ws && key == Identity(ws[r.workspace], r.externalId)
  }

  function KeyOf(ws: Workspaces, r: Repo): (key: Identity)
    requires r.workspace in ws
    ensures HasKey(ws, r, key)
  {
    Identity(ws[r.workspace], r.externalId)
  }

  /** UNIQUE (workspace_id, external_id) */
  ghost predicate UniqueRows(repos: Repos) {
    forall a, b | a in repos && b in repos && repos[a].workspace == repos[b].workspace
                  && repos[a].externalId == repos[b].externalId :: a == b
  }

  ghost predicate Known(ws: Workspaces, ids: Identities, r: Repo) {
    r.workspace in ws && KeyOf(ws, r) in ids
  }

  ghost predicate PointsTo(ws: Workspaces, repos: Repos, key: Identity, id: RepoId) {
    id in repos && HasKey(ws, repos[id], key)
  }

  /** Every row has an identity, every identity a row with its connection and external id. */
  ghost predicate Identified(ws: Workspaces, repos: Repos, ids: Identities) {
    && (forall id | id in repos :: Known(ws, ids, repos[id]))
    && (forall key | key in ids :: PointsTo(ws, repos, key, ids[key]))
  }

  /** What the constraints and the migration of older stores establish; duplicates are allowed. */
  ghost predicate WellFormed(ws: Workspaces, repos: Repos, ids: Identities) {
    UniqueRows(repos) && Identified(ws, repos, ids)
  }

  /** No duplicates: one row for each connection and external id. */
  ghost predicate OneRowEach(ws: Workspaces, repos: Repos) {
    forall a, b, key | a in repos && b in repos && HasKey(ws, repos[a], key) && HasKey(ws, repos[b], key) :: a == b
  }

  ghost predicate Sound(t: Tables) {
    WellFormed(t.workspaces, t.repos, t.identities)
  }

  ghost predicate Clean(t: Tables) {
    Sound(t) && OneRowEach(t.workspaces, t.repos)
  }

  // ---- Rewriting one row ----------------------------------------------------------------------

  lemma LocateFollowsTheIdentity(t: Tables, key: Identity, workspace: WorkspaceId)
    requires Sound(t) && workspace in t.workspaces && key.connection == t.workspaces[workspace]
    ensures key in t.identities ==> Locate(t, key, workspace) == Some(t.identities[key])
    ensures key !in t.identities ==> Locate(t, key, workspace).None?
    ensures key in t.identities ==> PointsTo(t.workspaces, t.repos, key, t.identities[key])
  {
    var found := FindRepo(t.repos, workspace, key.externalId);
    if found.Some? {
      assert Known(t.workspaces, t.identities, t.repos[found.value]);
    }
  }

  /** A row may change as long as it keeps its key and takes no other row's place. */
  lemma RewriteKeeps(ws: Workspaces, repos: Repos, ids: Identities, id: RepoId, r: Repo, key: Identity)
    requires WellFormed(ws, repos, ids) && id in repos && HasKey(ws, repos[id], key) && HasKey(ws, r, key)
    requires forall o | StoredAs(repos, r.workspace, r.externalId, o) :: o == id
    ensures WellFormed(ws, repos[id := r], ids)
    ensures OneRowEach(ws, repos) ==> OneRowEach(ws, repos[id := r])
  {
    var repos' := repos[id := r];
    forall a, b | a in repos' && b in repos' && repos'[a].workspace == repos'[b].workspace
                  && repos'[a].externalId == repos'[b].externalId ensures a == b {
      assert a != id && b == id ==> StoredAs(repos, r.workspace, r.externalId, a);
      assert b != id && a == id ==> StoredAs(repos, r.workspace, r.externalId, b);
    }
  }

  lemma OnlyRow(repos: Repos, id: RepoId, r: Repo)
    requires UniqueRows(repos) && id in repos
    requires r.workspace == repos[id].workspace && r.externalId == repos[id].externalId
    ensures forall o | StoredAs(repos, r.workspace, r.externalId, o) :: o == id
  {
  }

  lemma RelinkKeeps(ws: Workspaces, repos: Repos, ids: Identities, key: Identity, id: RepoId)
    requires WellFormed(ws, repos, ids) && PointsTo(ws, repos, key, id)
    ensures WellFormed(ws, repos, ids[key := id])
    ensures OneRowEach(ws, repos) ==> ids[key := id] == ids
  {
    assert Known(ws, ids, repos[id]);
  }

  lemma InsertKeeps(ws: Workspaces, repos: Repos, ids: Identities, key: Identity, id: RepoId, r: Repo)
    requires WellFormed(ws, repos, ids) && key !in ids && id !in repos && HasKey(ws, r, key)
    ensures WellFormed(ws, repos[id := r], ids[key := id])
    ensures OneRowEach(ws, repos) ==> OneRowEach(ws, repos[id := r])
  {
    forall o | o in repos ensures !HasKey(ws, repos[o], key) {
      assert Known(ws, ids, repos[o]);
    }
    forall o | o in repos ensures !(repos[o].workspace == r.workspace && repos[o].externalId == r.externalId) {
      assert !HasKey(ws, repos[o], key);
    }
  }

  // ---- One upsert -------------------------------------------------------------------------------

  lemma RelocateKeeps(t: Tables, key: Identity, id: RepoId, workspace: WorkspaceId, s: Snapshot)
    requires Sound(t) && PointsTo(t.workspaces, t.repos, key, id)
    requires workspace in t.workspaces && key == Identity(t.workspaces[workspace], s.externalId)
    ensures var (t', id') := Relocate(t, id, workspace, s);
            && Sound(t') && (Clean(t) ==> Clean(t') && id' == id)
            && StoredAs(t'.repos, workspace, s.externalId, id') && t'.workspaces == t.workspaces
                && t'.identities == t.identities
  {
    hide WellFormed, OneRowEach;
    var r := t.repos[id];
    if r.workspace != workspace {
      var found := FindRepo(t.repos, workspace, s.externalId);
      if found.Some? {
        MergeKeeps(t, key, id, found.value, workspace);
      } else {
        RewriteKeeps(t.workspaces, t.repos, t.identities, id, r.(workspace := workspace), key);
      }
    }
  }

  lemma MergeKeeps(t: Tables, key: Identity, id: RepoId, there: RepoId, workspace: WorkspaceId)
    requires Sound(t) && PointsTo(t.workspaces, t.repos, key, id) && t.repos[id].workspace != workspace
    requires workspace in t.workspaces && key.connection == t.workspaces[workspace]
    requires StoredAs(t.repos, workspace, key.externalId, there)
    ensures WellFormed(t.workspaces, t.repos[id := Merged(t.repos[id])], t.identities)
    ensures there != id && !Clean(t)
  {
    assert HasKey(t.workspaces, t.repos[there], key);
    OnlyRow(t.repos, id, Merged(t.repos[id]));
    RewriteKeeps(t.workspaces, t.repos, t.identities, id, Merged(t.repos[id]), key);
  }

  lemma SettleKeeps(t: Tables, key: Identity, id: RepoId, workspace: WorkspaceId, s: Snapshot)
    requires Sound(t) && workspace in t.workspaces && key == Identity(t.workspaces[workspace], s.externalId)
    requires StoredAs(t.repos, workspace, s.externalId, id)
    ensures Sound(Settle(t, key, id, s))
    ensures Clean(t) ==> Clean(Settle(t, key, id, s)) && Settle(t, key, id, s).identities == t.identities
  {
    hide Identified, OneRowEach;
    var r := Refreshed(t.repos[id], s);
    OnlyRow(t.repos, id, r);
    hide UniqueRows;
    RewriteKeeps(t.workspaces, t.repos, t.identities, id, r, key);
    RelinkKeeps(t.workspaces, t.repos[id := r], t.identities, key, id);
  }

  lemma PlaceKeeps(t: Tables, key: Identity, workspace: WorkspaceId, s: Snapshot, newId: RepoId)
    requires Sound(t) && workspace in t.workspaces && key == Identity(t.workspaces[workspace], s.externalId)
    ensures var (t', r) := Place(t, key, workspace, s, newId);
            && Sound(t') && (Clean(t) ==> Clean(t'))
            && (r.Some? ==> key in t'.identities && t'.identities[key] == r.value && r.value in t'.repos
                            && t'.repos[r.value] == NewRepo(workspace, s))
            && (r.None? <==> key !in t.identities && newId in t.repos) && (r.None? ==> t' == t)
            && (forall k | k in t.identities && k != key :: k in t'.identities && t'.identities[k] == t.identities[k])
            && (Clean(t) && key in t.identities ==> t'.identities == t.identities)
            && t'.workspaces == t.workspaces && t'.budgets == t.budgets && t'.links == t.links
  {
    hide WellFormed, OneRowEach;
    LocateFollowsTheIdentity(t, key, workspace);
    if key in t.identities {
      RelocateKeeps(t, key, t.identities[key], workspace, s);
      var (relocated, id) := Relocate(t, t.identities[key], workspace, s);
      SettleKeeps(relocated, key, id, workspace, s);
    } else if newId !in t.repos {
      InsertKeeps(t.workspaces, t.repos, t.identities, key, newId, NewRepo(workspace, s));
    }
  }

  ghost predicate Fails(t: Tables, workspace: WorkspaceId, s: Snapshot, newId: RepoId) {
    || workspace !in t.workspaces
    || (Identity(t.workspaces[workspace], s.externalId) !in t.identities && newId in t.repos)
  }

  ghost predicate Extends(ids: Identities, ids': Identities) {
    forall k | k in ids :: k in ids' && ids'[k] == ids[k]
  }

  /** An upsert keeps the identities sound; without duplicates no identity ever changes its row. */
  lemma UpsertKeeps(t: Tables, workspace: WorkspaceId, s: Snapshot, newId: RepoId)
    requires Sound(t)
    ensures var (t', r) := UpsertRepository(t, workspace, s, newId);
            && Sound(t') && (Clean(t) ==> Clean(t') && Extends(t.identities, t'.identities))
            && (r.None? <==> Fails(t, workspace, s, newId)) && (r.None? ==> t' == t)
            && t'.workspaces == t.workspaces
  {
    hide WellFormed, OneRowEach, Place;
    if workspace in t.workspaces {
      PlaceKeeps(t, Identity(t.workspaces[workspace], s.externalId), workspace, s, newId);
    }
  }

  /** The row an upsert is about to return: the identity's, unless another one is already in the workspace. */
  ghost function TargetRow(t: Tables, workspace: WorkspaceId, s: Snapshot, newId: RepoId): RepoId
    requires workspace in t.workspaces
  {
    var key := Identity(t.workspaces[workspace], s.externalId);
    if key !in t.identities then newId
    else
      var known := t.identities[key];
      if known in t.repos && t.repos[known].workspace == workspace then known
      else FindRepo(t.repos, workspace, s.externalId).GetOr(known)
  }

  lemma UpsertReturnsTheTarget(t: Tables, workspace: WorkspaceId, s: Snapshot, newId: RepoId)
    requires Sound(t) && !Fails(t, workspace, s, newId)
    ensures UpsertRepository(t, workspace, s, newId).1 == Some(TargetRow(t, workspace, s, newId))
  {
    hide WellFormed, RefreshLinks;
    LocateFollowsTheIdentity(t, Identity(t.workspaces[workspace], s.externalId), workspace);
  }

  /** The row the identity named before the upsert, when the upsert leaves it for another. */
  ghost predicate LeftBehind(t: Tables, key: Identity, id: RepoId, r: RepoId) {
    key in t.identities && t.identities[key] == id && id != r
  }

  ghost function RowAfter(t: Tables, key: Identity, workspace: WorkspaceId, s: Snapshot, r: RepoId, id: RepoId): Repo
    requires id in t.repos || id == r
  {
    if id == r then Repo(workspace, s.externalId, s.name, s.fullName, Active, None)
    else if LeftBehind(t, key, id, r) then t.repos[id].(status := Removed, reason := Some("duplicate_merged"))
    else t.repos[id]
  }

  ghost function MovesAfter(t: Tables, key: Identity, workspace: WorkspaceId, s: Snapshot, r: RepoId): seq<Move>
    requires key in t.identities ==> t.identities[key] in t.repos
  {
    if key !in t.identities || t.repos[t.identities[key]].workspace == workspace then t.moves
    else
      var was := t.repos[t.identities[key]];
      t.moves + [Move(r, was.workspace, workspace, was.fullName, s.fullName)]
  }

  lemma PlaceMovesTheRow(t: Tables, key: Identity, workspace: WorkspaceId, s: Snapshot, newId: RepoId)
    requires Sound(t) && workspace in t.workspaces && key == Identity(t.workspaces[workspace], s.externalId)
    requires key in t.identities
    ensures var (t', r) := Place(t, key, workspace, s, newId);
            && r.Some? && t.identities[key] in t.repos && r.value in t.repos
                && t'.identities == t.identities[key := r.value]
            && t'.repos.Keys == t.repos.Keys
            && (forall id | id in t.repos :: t'.repos[id] == RowAfter(t, key, workspace, s, r.value, id))
            && t'.moves == MovesAfter(t, key, workspace, s, r.value)
  {
    hide WellFormed, OneRowEach;
    LocateFollowsTheIdentity(t, key, workspace);
    RelocateKeeps(t, key, t.identities[key], workspace, s);
    var (relocated, id) := Relocate(t, t.identities[key], workspace, s);
    if t.repos[t.identities[key]].workspace != workspace {
      var found := FindRepo(t.repos, workspace, s.externalId);
      if found.Some? {
        MergeKeeps(t, key, t.identities[key], found.value, workspace);
      }
    }
  }

  /**
   The whole effect on rows: the returned row sits in the workspace with the snapshot's names, the
   identity names it, a row it replaces is marked as merged, every other row is untouched, and
   a change of workspace is logged once.
   */
  lemma UpsertPlacesTheRow(t: Tables, workspace: WorkspaceId, s: Snapshot, newId: RepoId)
    requires Sound(t) && !Fails(t, workspace, s, newId)
    ensures var (t', r) := UpsertRepository(t, workspace, s, newId);
            var key := Identity(t.workspaces[workspace], s.externalId);
            && r.Some? && t'.identities == t.identities[key := r.value]
            && (key in t.identities ==> t.identities[key] in t.repos)
            && t'.repos.Keys == t.repos.Keys + {r.value}
            && (forall id | id in t'.repos :: t'.repos[id] == RowAfter(t, key, workspace, s, r.value, id))
            && t'.moves == MovesAfter(t, key, workspace, s, r.value)
  {
    hide WellFormed, OneRowEach, FindRepo;
    var key := Identity(t.workspaces[workspace], s.externalId);
    LocateFollowsTheIdentity(t, key, workspace);
    if key in t.identities {
      hide Place, RowAfter, MovesAfter;
      PlaceMovesTheRow(t, key, workspace, s, newId);
    }
  }

  /** The row a duplicated resource converges to is the one already in the workspace it was seen in. */
  lemma DuplicatesConverge(t: Tables, workspace: WorkspaceId, s: Snapshot, newId: RepoId, known: RepoId, there: RepoId)
    requires Sound(t) && workspace in t.workspaces && known != there
    requires var key := Identity(t.workspaces[workspace], s.externalId);
             key in t.identities && t.identities[key] == known
    requires StoredAs(t.repos, workspace, s.externalId, there)
    ensures var (t', r) := UpsertRepository(t, workspace, s, newId);
            && r == Some(there) && known in t'.repos
            && t'.repos[known] == t.repos[known].(status := Removed, reason := Some("duplicate_merged"))
            && t'.repos[there] == Repo(workspace, s.externalId, s.name, s.fullName, Active, None) && !Clean(t)
  {
    hide Identified, RefreshLinks;
    var key := Identity(t.workspaces[workspace], s.externalId);
    LocateFollowsTheIdentity(t, key, workspace);
    assert HasKey(t.workspaces, t.repos[there], key);
    UpsertPlacesTheRow(t, workspace, s, newId);
  }

  // ---- One live row ---------------------------------------------------------------------------------

  ghost predicate ActiveUnder(t: Tables, key: Identity, id: RepoId) {
    PointsTo(t.workspaces, t.repos, key, id) && t.repos[id].status == Active
  }

  /**
   After an upsert the returned row is active, and it is the only active row of its resource if and only if
   every other row that was active was the one the identity named.
   */
  lemma OneLiveRowExactly(t: Tables, workspace: WorkspaceId, s: Snapshot, newId: RepoId)
    requires Sound(t) && !Fails(t, workspace, s, newId)
    ensures var (t', r) := UpsertRepository(t, workspace, s, newId);
            var key := Identity(t.workspaces[workspace], s.externalId);
            && r.Some? && ActiveUnder(t', key, r.value)
            && ((forall o | ActiveUnder(t', key, o) :: o == r.value)
                <==> (forall o | ActiveUnder(t, key, o) ::
                        o == r.value || (key in t.identities && o == t.identities[key])))
  {
    var (t', r) := UpsertRepository(t, workspace, s, newId);
    var key := Identity(t.workspaces[workspace], s.externalId);
    UpsertPlacesTheRow(t, workspace, s, newId);
    UpsertKeeps(t, workspace, s, newId);
    hide UpsertRepository, Sound, Clean;
    forall o | o != r.value
      ensures ActiveUnder(t', key, o)
         <==> ActiveUnder(t, key, o) && !(key in t.identities && o == t.identities[key])
    {
    }
  }

  /** No other row than these two belongs to the resource. */
  ghost predicate TwoRows(t: Tables, key: Identity, known: RepoId, other: RepoId) {
    && known != other && key in t.identities && t.identities[key] == known
    && forall o :: PointsTo(t.workspaces, t.repos, key, o) <==> o == known || o == other
  }

  /**
   Of two rows of one resource a single one is live after an upsert, if and only if the resource was seen
   where the row is that its identity does not name, or that row was not active anyway.
   */
  lemma TwoRowsConverge(t: Tables, workspace: WorkspaceId, s: Snapshot, newId: RepoId, known: RepoId, other: RepoId)
    requires Sound(t) && !Fails(t, workspace, s, newId)
    requires TwoRows(t, Identity(t.workspaces[workspace], s.externalId), known, other)
    requires PointsTo(t.workspaces, t.repos, Identity(t.workspaces[workspace], s.externalId), other)
    ensures var (t', r) := UpsertRepository(t, workspace, s, newId);
            var key := Identity(t.workspaces[workspace], s.externalId);
            && r.Some?
            && ((forall o | ActiveUnder(t', key, o) :: o == r.value)
                <==> t.repos[other].workspace == workspace || t.repos[other].status != Active)
  {
    var key := Identity(t.workspaces[workspace], s.externalId);
    OneLiveRowExactly(t, workspace, s, newId);
    UpsertReturnsTheTarget(t, workspace, s, newId);
    TargetOfTwo(t, workspace, s, newId, known, other);
    hide UpsertRepository, Sound, TargetRow;
    assert ActiveUnder(t, key, other) <==> t.repos[other].status == Active;
    forall o | ActiveUnder(t, key, o) ensures o == known || o == other {
      assert PointsTo(t.workspaces, t.repos, key, o);
    }
  }

  lemma TargetOfTwo(t: Tables, workspace: WorkspaceId, s: Snapshot, newId: RepoId, known: RepoId, other: RepoId)
    requires Sound(t) && workspace in t.workspaces
    requires TwoRows(t, Identity(t.workspaces[workspace], s.externalId), known, other)
    requires PointsTo(t.workspaces, t.repos, Identity(t.workspaces[workspace], s.externalId), other)
    ensures TargetRow(t, workspace, s, newId) == if t.repos[other].workspace == workspace then other else known
  {
    var key := Identity(t.workspaces[workspace], s.externalId);
    assert PointsTo(t.workspaces, t.repos, key, known);
    var found := FindRepo(t.repos, workspace, s.externalId);
    if found.Some? {
      assert PointsTo(t.workspaces, t.repos, key, found.value);
    }
    if t.repos[other].workspace == workspace {
      assert StoredAs(t.repos, workspace, s.externalId, other);
    }
  }

  /** Seen again where its identity already points, a duplicated resource stays listed twice. */
  lemma DuplicateMayStay()
    ensures exists t, s ::
              && Sound(t) && !Fails(t, "here", s, 3)
              && var t' := UpsertRepository(t, "here", s, 3).0;
                 1 in t'.repos && 2 in t'.repos && t'.repos[1].status == Active && t'.repos[2].status == Active
                 && t'.repos[1].externalId == t'.repos[2].externalId
  {
    var here, there := Repo("here", "x", "n", "o/n", Active, None), Repo("there", "x", "n", "p/n", Active, None);
    var key, s := Identity("c", "x"), Snapshot("x", "n", "o/n");
    var t := Tables(map["here" := "c", "there" := "c"], map[1 := here, 2 := there], map[key := 1], [], map[], map[]);
    assert WellFormed(t.workspaces, t.repos, t.identities) by {
      assert HasKey(t.workspaces, here, key) && HasKey(t.workspaces, there, key);
    }
    UpsertPlacesTheRow(t, "here", s, 3);
    UpsertReturnsTheTarget(t, "here", s, 3);
    hide UpsertRepository, WellFormed;
    assert Sound(t) && !Fails(t, "here", s, 3);
  }
}
