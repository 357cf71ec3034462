/**
 Billing periods. Usage rows are keyed by workspace and source key; an older constraint on
 (workspace, date, product, sku, repository) is still in force, and rows written before source keys
 existed have none. Replacing a period upserts its snapshots and then deletes what they did not touch.
 */
module UsageLedger {
  import opened Wrappers
  import opened SourceKeys

  type WorkspaceId = string
  type RepoId = string
  type RunId = string

  datatype RowKey = Keyed(workspace: WorkspaceId, sourceKey: string) | Unkeyed(workspace: WorkspaceId, id: string)

  datatype Row = Row(
    date: string,
    product: string,
    sku: string,
    unit: Option<string>,
    repo: Option<RepoId>,
    user: Option<string>,
    model: Option<string>,
    unitType: Option<string>,
    granularity: string,
    details: Details,
    run: Option<RunId>)

  type Usage = map<RowKey, Row>

  /** The repository each full name currently resolves to. */
  type Names = map<string, RepoId>

  function Resolve(names: Names, s: Snapshot): Option<RepoId> {
    if s.repository.GetOr("") in names then Some(names[s.repository.GetOr("")]) else None
  }

  // ---- One upsert -----------------------------------------------------------------------------

  function KeyOf(workspace: WorkspaceId, s: Snapshot): RowKey {
    Keyed(workspace, SourceKey(s))
  }

  function NewRow(names: Names, s: Snapshot, run: Option<RunId>): Row {
    Row(s.date, s.product, s.sku, s.unitType, Resolve(names, s), s.user, s.model, s.unitType, s.granularity,
        s.details, run)
  }

  /** Date, product, sku and unit are the ones the row was first written with. */
  function Refreshed(row: Row, names: Names, s: Snapshot, run: Option<RunId>): Row {
    row.(repo := Resolve(names, s), user := s.user, model := s.model, unitType := s.unitType,
         granularity := s.granularity, details := s.details, run := run)
  }

  function RowFor(usage: Usage, names: Names, workspace: WorkspaceId, s: Snapshot, run: Option<RunId>): Row {
    var key := KeyOf(workspace, s);
    if key in usage then Refreshed(usage[key], names, s, run) else NewRow(names, s, run)
  }

  datatype Slot = Slot(date: string, product: string, sku: string, repo: Option<RepoId>)

  function SlotOf(row: Row): Slot {
    Slot(row.date, row.product, row.sku, row.repo)
  }

  function SlotFor(names: Names, s: Snapshot): Slot {
    Slot(s.date, s.product, s.sku, Resolve(names, s))
  }

  /** UNIQUE (workspace_id, usage_date, product, sku, repository_id): rows without a repository never clash. */
  predicate Occupies(usage: Usage, key: RowKey, workspace: WorkspaceId, slot: Slot) {
    key in usage && key.workspace == workspace && slot.repo.Some? && SlotOf(usage[key]) == slot
  }

  predicate Blocked(usage: Usage, own: RowKey, slot: Slot) {
    exists key | key in usage :: key != own && Occupies(usage, key, own.workspace, slot)
  }

  /** The result is false when the statement fails. */
  function Upsert(usage: Usage, names: Names, workspace: WorkspaceId, s: Snapshot, run: Option<RunId>): (Usage, bool) {
    var key, row := KeyOf(workspace, s), RowFor(usage, names, workspace, s, run);
    if Blocked(usage, key, SlotOf(row)) then (usage, false) else (usage[key := row], true)
  }

  /** The loop over the snapshots ends at the first failure. */
  function UpsertAll(
      usage: Usage, names: Names, workspace: WorkspaceId, snapshots: seq<Snapshot>,
      run: Option<RunId>): (Usage, bool)
  {
    if snapshots == [] then (usage, true)
    else
      var (before, ok) := UpsertAll(usage, names, workspace, snapshots[..|snapshots| - 1], run);
      if !ok then (before, false) else Upsert(before, names, workspace, snapshots[|snapshots| - 1], run)
  }

  predicate AtMost(a: string, b: string) {
    a == [] || (b != [] && (a[0] < b[0] || (a[0] == b[0] && AtMost(a[1..], b[1..]))))
  }

  datatype Period = Period(first: string, last: string)

  predicate Within(row: Row, period: Period) {
    AtMost(period.first, row.date) && AtMost(row.date, period.last)
  }

  predicate Outdated(key: RowKey, row: Row, workspace: WorkspaceId, period: Period, run: RunId) {
    key.workspace == workspace && Within(row, period) && row.run.GetOr("") != run
  }

  function Purged(usage: Usage, workspace: WorkspaceId, period: Period, run: RunId): Usage {
    map key | key in usage && !Outdated(key, usage[key], workspace, period, run) :: usage[key]
  }

  function ReplacePeriod(
      usage: Usage, names: Names, workspace: WorkspaceId, period: Period, snapshots: seq<Snapshot>,
      run: RunId): (Usage, bool)
  {
    var (upserted, ok) := UpsertAll(usage, names, workspace, snapshots, Some(run));
    if !ok then (upserted, false) else (Purged(upserted, workspace, period, run), true)
  }

  // ---- The table between calls ------------------------------------------------------------------

  predicate IsPlain(s: Snapshot) {
    AllPlain(Fields(s))
  }

  ghost predicate WrittenFor(key: RowKey, row: Row, s: Snapshot) {
    && IsPlain(s) && key.Keyed? && key.sourceKey == SourceKey(s)
    && row.date == s.date && row.product == s.product && row.sku == s.sku && row.unit.GetOr("") == s.unitType.GetOr("")
  }

  /** Keyed rows carry the date, product, sku and unit their key was made of. */
  ghost predicate Honest(usage: Usage) {
    forall key | key in usage && key.Keyed? :: exists s :: WrittenFor(key, usage[key], s)
  }

  lemma SameKeySameFields(key: RowKey, row: Row, s: Snapshot, t: Snapshot)
    requires WrittenFor(key, row, s) && IsPlain(t) && key.sourceKey == SourceKey(t)
    ensures WrittenFor(key, row, t)
  {
    SourceKeyDecides(s, t);
  }

  /** The row an upsert writes belongs to its snapshot, whether it was there before or not. */
  lemma RowForIsHonest(usage: Usage, names: Names, workspace: WorkspaceId, s: Snapshot, run: Option<RunId>)
    requires Honest(usage) && IsPlain(s)
    ensures var row := RowFor(usage, names, workspace, s, run);
            WrittenFor(KeyOf(workspace, s), row, s) && SlotOf(row) == SlotFor(names, s)
  {
    var key := KeyOf(workspace, s);
    if key in usage {
      var t :| WrittenFor(key, usage[key], t);
      SameKeySameFields(key, usage[key], t, s);
    }
  }

  lemma UpsertKeepsHonest(usage: Usage, names: Names, workspace: WorkspaceId, s: Snapshot, run: Option<RunId>)
    requires Honest(usage) && IsPlain(s)
    ensures Honest(Upsert(usage, names, workspace, s, run).0)
  {
    RowForIsHonest(usage, names, workspace, s, run);
    hide WrittenFor, Blocked, RowFor;
  }

  // ---- Many upserts -------------------------------------------------------------------------------

  /** The last snapshot with the given key wins. */
  function LastFor(workspace: WorkspaceId, snapshots: seq<Snapshot>, key: RowKey): Option<Snapshot> {
    if snapshots == [] then None
    else
      var last := snapshots[|snapshots| - 1];
      if KeyOf(workspace, last) == key then Some(last) else LastFor(workspace, snapshots[..|snapshots| - 1], key)
  }

  /** A row that carries everything its snapshot says, under the given run. */
  ghost predicate Carries(key: RowKey, row: Row, names: Names, s: Snapshot, run: Option<RunId>) {
    && WrittenFor(key, row, s) && row.repo == Resolve(names, s) && row.user == s.user && row.model == s.model
    && row.unitType == s.unitType && row.granularity == s.granularity && row.details == s.details && row.run == run
  }

  ghost predicate EndsAs(
      usage: Usage, names: Names, workspace: WorkspaceId, snapshots: seq<Snapshot>, run: Option<RunId>,
      usage': Usage, key: RowKey)
  {
    match LastFor(workspace, snapshots, key)
    case Some(s) => key in usage' && Carries(key, usage'[key], names, s, run)
    case None => (key in usage' <==> key in usage) && (key in usage ==> usage'[key] == usage[key])
  }

  /** The table after a batch: the last snapshot of each key, and every other row as it was. */
  ghost predicate IsLastWins(
      usage: Usage, names: Names, workspace: WorkspaceId, snapshots: seq<Snapshot>, run: Option<RunId>,
      usage': Usage)
  {
    forall key :: EndsAs(usage, names, workspace, snapshots, run, usage', key)
  }

  /** The statement for the i-th snapshot meets an older row, or another snapshot's row, in its slot. */
  ghost predicate MeetsOlder(
      usage: Usage, names: Names, workspace: WorkspaceId, snapshots: seq<Snapshot>, i: nat, key: RowKey)
    requires i < |snapshots|
  {
    && key != KeyOf(workspace, snapshots[i]) && LastFor(workspace, snapshots[..i], key).None?
    && Occupies(usage, key, workspace, SlotFor(names, snapshots[i]))
  }

  ghost predicate MeetsEarlier(names: Names, workspace: WorkspaceId, snapshots: seq<Snapshot>, i: nat, j: nat)
    requires j < i < |snapshots|
  {
    && KeyOf(workspace, snapshots[j]) != KeyOf(workspace, snapshots[i])
    && Resolve(names, snapshots[i]).Some? && SlotFor(names, snapshots[j]) == SlotFor(names, snapshots[i])
  }

  ghost predicate Clear(usage: Usage, names: Names, workspace: WorkspaceId, snapshots: seq<Snapshot>, i: nat)
    requires i < |snapshots|
  {
    && (forall key :: !MeetsOlder(usage, names, workspace, snapshots, i, key))
    && (forall j: nat | j < i :: !MeetsEarlier(names, workspace, snapshots, i, j))
  }

  ghost predicate AllClear(usage: Usage, names: Names, workspace: WorkspaceId, snapshots: seq<Snapshot>) {
    forall i: nat | i < |snapshots| :: Clear(usage, names, workspace, snapshots, i)
  }

  ghost predicate AllArePlain(snapshots: seq<Snapshot>) {
    forall s | s in snapshots :: IsPlain(s)
  }

  lemma LastForSnoc(workspace: WorkspaceId, front: seq<Snapshot>, s: Snapshot, key: RowKey)
    ensures LastFor(workspace, front + [s], key)
         == if KeyOf(workspace, s) == key then Some(s) else LastFor(workspace, front, key)
  {
    assert (front + [s])[..|front|] == front;
  }

  lemma {:induction false} LastForFinds(workspace: WorkspaceId, snapshots: seq<Snapshot>, key: RowKey)
    ensures LastFor(workspace, snapshots, key).None? ==> forall s | s in snapshots :: KeyOf(workspace, s) != key
    ensures LastFor(workspace, snapshots, key).Some? ==>
              LastFor(workspace, snapshots, key).value in snapshots
                  && KeyOf(workspace, LastFor(workspace, snapshots, key).value) == key
    decreases |snapshots|
  {
    if snapshots != [] {
      var front := snapshots[..|snapshots| - 1];
      assert snapshots == front + [snapshots[|snapshots| - 1]];
      LastForFinds(workspace, front, key);
    }
  }

  lemma LastWinsSnoc(
      usage: Usage, names: Names, workspace: WorkspaceId, front: seq<Snapshot>, s: Snapshot,
      run: Option<RunId>, before: Usage)
    requires Honest(before) && IsPlain(s) && IsLastWins(usage, names, workspace, front, run, before)
    ensures IsLastWins(usage, names, workspace, front + [s], run,
             before[KeyOf(workspace, s) := RowFor(before, names, workspace, s, run)])
  {
    var own, row := KeyOf(workspace, s), RowFor(before, names, workspace, s, run);
    RowForIsHonest(before, names, workspace, s, run);
    assert Carries(own, row, names, s, run) by {
      hide WrittenFor, Resolve;
    }
    hide Carries, LastFor, RowFor, Honest, IsPlain;
    var after := before[own := row];
    forall key ensures EndsAs(usage, names, workspace, front + [s], run, after, key) {
      LastForSnoc(workspace, front, s, key);
      assert EndsAs(usage, names, workspace, front, run, before, key);
    }
  }

  /** A row in the way of the next statement is an older row or the row of an earlier snapshot. */
  lemma BlockedSnoc(
      usage: Usage, names: Names, workspace: WorkspaceId, snapshots: seq<Snapshot>, i: nat,
      run: Option<RunId>, before: Usage)
    requires i < |snapshots| && AllArePlain(snapshots)
    requires IsLastWins(usage, names, workspace, snapshots[..i], run, before)
    ensures Blocked(before, KeyOf(workspace, snapshots[i]), SlotFor(names, snapshots[i])) <==>
            !Clear(usage, names, workspace, snapshots, i)
  {
    hide LastFor, IsPlain, SourceKey;
    var own, slot := KeyOf(workspace, snapshots[i]), SlotFor(names, snapshots[i]);
    forall key | key in before && key != own && Occupies(before, key, workspace, slot)
      ensures !Clear(usage, names, workspace, snapshots, i)
    {
      var last := LastFor(workspace, snapshots[..i], key);
      assert EndsAs(usage, names, workspace, snapshots[..i], run, before, key);
      LastForFinds(workspace, snapshots[..i], key);
      if last.None? {
        assert MeetsOlder(usage, names, workspace, snapshots, i, key);
      } else {
        var j :| 0 <= j < i && snapshots[j] == last.value;
        assert Carries(key, before[key], names, snapshots[j], run);
        assert MeetsEarlier(names, workspace, snapshots, i, j);
      }
    }
    forall key | MeetsOlder(usage, names, workspace, snapshots, i, key) ensures Blocked(before, own, slot) {
      assert EndsAs(usage, names, workspace, snapshots[..i], run, before, key);
      assert Occupies(before, key, own.workspace, slot);
    }
    forall j: nat | j < i && MeetsEarlier(names, workspace, snapshots, i, j) ensures Blocked(before, own, slot) {
      EarlierIsThere(usage, names, workspace, snapshots, i, j, run, before);
    }
  }

  lemma EarlierIsThere(
      usage: Usage, names: Names, workspace: WorkspaceId, snapshots: seq<Snapshot>, i: nat, j: nat,
      run: Option<RunId>, before: Usage)
    requires j < i < |snapshots| && AllArePlain(snapshots)
    requires IsLastWins(usage, names, workspace, snapshots[..i], run, before)
             && MeetsEarlier(names, workspace, snapshots, i, j)
    ensures Blocked(before, KeyOf(workspace, snapshots[i]), SlotFor(names, snapshots[i]))
  {
    hide Blocked, AllPlain, SourceKey, LastFor;
    var key := KeyOf(workspace, snapshots[j]);
    assert snapshots[..i][j] == snapshots[j];
    LastForFinds(workspace, snapshots[..i], key);
    var last := LastFor(workspace, snapshots[..i], key);
    assert EndsAs(usage, names, workspace, snapshots[..i], run, before, key);
    assert Carries(key, before[key], names, last.value, run);
    assert IsPlain(last.value) && IsPlain(snapshots[j]);
    SourceKeyDecides(last.value, snapshots[j]);
    OccupiedIsBlocked(before, KeyOf(workspace, snapshots[i]), key, SlotFor(names, snapshots[i]));
  }

  lemma OccupiedIsBlocked(usage: Usage, own: RowKey, key: RowKey, slot: Slot)
    requires key != own && Occupies(usage, key, own.workspace, slot)
    ensures Blocked(usage, own, slot)
  {
  }

  /**
   The upserts of a batch go through if and only if no snapshot meets, in its slot, a row the batch has
   not rewritten by then or another snapshot; and then the last snapshot of each key wins.
   */
  lemma {:induction false} UpsertAllIsLastWins(
      usage: Usage, names: Names, workspace: WorkspaceId, snapshots: seq<Snapshot>, run: Option<RunId>)
    requires Honest(usage) && AllArePlain(snapshots)
    ensures var (after, ok) := UpsertAll(usage, names, workspace, snapshots, run);
            && Honest(after) && (ok <==> AllClear(usage, names, workspace, snapshots))
            && (ok ==> IsLastWins(usage, names, workspace, snapshots, run, after))
    decreases |snapshots|
  {
    if snapshots != [] {
      var n := |snapshots| - 1;
      var front, s := snapshots[..n], snapshots[n];
      assert snapshots == front + [s];
      UpsertAllIsLastWins(usage, names, workspace, front, run);
      var (before, ok) := UpsertAll(usage, names, workspace, front, run);
      UpsertKeepsHonest(before, names, workspace, s, run);
      ClearFront(usage, names, workspace, snapshots);
      if ok {
        RowForIsHonest(before, names, workspace, s, run);
        LastWinsSnoc(usage, names, workspace, front, s, run, before);
        BlockedSnoc(usage, names, workspace, snapshots, n, run, before);
      }
      hide Honest, IsLastWins, AllClear, Clear, Blocked, RowFor, IsPlain, KeyOf;
    }
  }

  lemma ClearFront(usage: Usage, names: Names, workspace: WorkspaceId, snapshots: seq<Snapshot>)
    requires snapshots != []
    ensures var n := |snapshots| - 1;
            AllClear(usage, names, workspace, snapshots) <==>
              AllClear(usage, names, workspace, snapshots[..n]) && Clear(usage, names, workspace, snapshots, n)
  {
    var n := |snapshots| - 1;
    forall i: nat | i < n
      ensures Clear(usage, names, workspace, snapshots[..n], i) == Clear(usage, names, workspace, snapshots, i)
    {
      assert snapshots[..n][..i] == snapshots[..i];
      hide KeyOf, LastFor, Occupies, SlotFor, Resolve;
      forall key
        ensures MeetsOlder(usage, names, workspace, snapshots[..n], i, key)
             == MeetsOlder(usage, names, workspace, snapshots, i, key)
      {
      }
      forall j: nat | j < i
        ensures MeetsEarlier(names, workspace, snapshots[..n], i, j)
             == MeetsEarlier(names, workspace, snapshots, i, j)
      {
      }
    }
    hide Clear;
  }

  // ---- Replacing a period ----------------------------------------------------------------------------

  ghost predicate Survives(usage: Usage, workspace: WorkspaceId, period: Period, run: RunId, key: RowKey) {
    key in usage && !Outdated(key, usage[key], workspace, period, run)
  }

  /** A snapshot's row is there and carries the last snapshot; any other row stays unless it is outdated. */
  ghost predicate ReplacedAt(
      usage: Usage, names: Names, workspace: WorkspaceId, period: Period, snapshots: seq<Snapshot>,
      run: RunId, usage': Usage, key: RowKey)
  {
    match LastFor(workspace, snapshots, key)
    case Some(s) => key in usage' && Carries(key, usage'[key], names, s, Some(run))
    case None =>
      && (key in usage' <==> Survives(usage, workspace, period, run, key))
      && (key in usage' ==> usage'[key] == usage[key])
  }

  /** Replacement: when it goes through, and the whole table it leaves. */
  lemma ReplacePeriodConverges(
      usage: Usage, names: Names, workspace: WorkspaceId, period: Period, snapshots: seq<Snapshot>,
      run: RunId)
    requires Honest(usage) && AllArePlain(snapshots)
    ensures var (after, ok) := ReplacePeriod(usage, names, workspace, period, snapshots, run);
            && Honest(after) && (ok <==> AllClear(usage, names, workspace, snapshots))
            && (ok ==> forall key :: ReplacedAt(usage, names, workspace, period, snapshots, run, after, key))
  {
    UpsertAllIsLastWins(usage, names, workspace, snapshots, Some(run));
    var (upserted, ok) := UpsertAll(usage, names, workspace, snapshots, Some(run));
    hide UpsertAll, LastFor, Within, WrittenFor, AllClear;
    if ok {
      var after := Purged(upserted, workspace, period, run);
      forall key ensures ReplacedAt(usage, names, workspace, period, snapshots, run, after, key) {
        assert EndsAs(usage, names, workspace, snapshots, Some(run), upserted, key);
      }
    }
  }

  /** No row of the period was written under the run before. */
  ghost predicate FirstUse(usage: Usage, workspace: WorkspaceId, period: Period, run: RunId) {
    forall key | key in usage && key.workspace == workspace && Within(usage[key], period) ::
      usage[key].run.GetOr("") != run
  }

  ghost predicate AllWithin(snapshots: seq<Snapshot>, period: Period) {
    forall s | s in snapshots :: AtMost(period.first, s.date) && AtMost(s.date, period.last)
  }

  ghost predicate InPeriod(usage: Usage, workspace: WorkspaceId, period: Period, key: RowKey) {
    key in usage && key.workspace == workspace && Within(usage[key], period)
  }

  /**
   Under a fresh run id, with snapshots dated inside the period, the period ends up holding exactly the
   last snapshot of each source key, and nothing outside it changes.
   */
  lemma FreshReplacementIsExact(
      usage: Usage, names: Names, workspace: WorkspaceId, period: Period, snapshots: seq<Snapshot>,
      run: RunId, key: RowKey)
    requires Honest(usage) && AllArePlain(snapshots) && AllWithin(snapshots, period)
             && FirstUse(usage, workspace, period, run)
    requires AllClear(usage, names, workspace, snapshots)
    ensures var (after, ok) := ReplacePeriod(usage, names, workspace, period, snapshots, run);
            var last := LastFor(workspace, snapshots, key);
            && ok && (InPeriod(after, workspace, period, key) <==> last.Some?)
            && (last.Some? ==> Carries(key, after[key], names, last.value, Some(run)))
            && (last.None? && !InPeriod(usage, workspace, period, key) ==>
                  (key in after <==> key in usage) && (key in usage ==> after[key] == usage[key]))
  {
    ReplacePeriodConverges(usage, names, workspace, period, snapshots, run);
    LastForFinds(workspace, snapshots, key);
    hide ReplacePeriod, LastFor, AllClear, Honest, AtMost, IsPlain;
    var after := ReplacePeriod(usage, names, workspace, period, snapshots, run).0;
    assert ReplacedAt(usage, names, workspace, period, snapshots, run, after, key);
  }

  /** A run id that was used in the period before leaves its unreported rows behind. */
  lemma ReusedRunLeavesRows(
      usage: Usage, names: Names, workspace: WorkspaceId, period: Period, snapshots: seq<Snapshot>,
      run: RunId, key: RowKey)
    requires Honest(usage) && AllArePlain(snapshots) && AllClear(usage, names, workspace, snapshots)
    requires InPeriod(usage, workspace, period, key) && LastFor(workspace, snapshots, key).None?
    ensures key in ReplacePeriod(usage, names, workspace, period, snapshots, run).0 <==> usage[key].run.GetOr("") == run
  {
    ReplacePeriodConverges(usage, names, workspace, period, snapshots, run);
    hide ReplacePeriod, LastFor, AllClear, Honest, AtMost, IsPlain;
    var after := ReplacePeriod(usage, names, workspace, period, snapshots, run).0;
    assert ReplacedAt(usage, names, workspace, period, snapshots, run, after, key);
  }

  /** Two models of one product on one day for one repository: the older constraint stops the batch. */
  lemma OlderConstraintBites(names: Names, workspace: WorkspaceId, s: Snapshot, run: Option<RunId>)
    requires IsPlain(s) && s.repository.GetOr("") in names
    ensures var t, u := s.(model := Some("a")), s.(model := Some("b"));
            !UpsertAll(map[], names, workspace, [t, u], run).1
  {
    var t, u := s.(model := Some("a")), s.(model := Some("b"));
    var snapshots := [t, u];
    ModelIsPlain(s, "a");
    ModelIsPlain(s, "b");
    SourceKeyDecides(t, u);
    hide SourceKey, IsPlain, AllPlain;
    UpsertAllIsLastWins(map[], names, workspace, snapshots, run);
    assert MeetsEarlier(names, workspace, snapshots, 1, 0);
    assert !Clear(map[], names, workspace, snapshots, 1);
  }

  lemma ModelIsPlain(s: Snapshot, model: string)
    requires IsPlain(s) && Plain(model)
    ensures IsPlain(s.(model := Some(model)))
  {
    var f := Fields(s);
    assert f[0] in f && f[1] in f && f[2] in f && f[3] in f && f[4] in f && f[6] in f && f[7] in f;
  }

  // ---- The store ---------------------------------------------------------------------------------------

  class UsageDb {
    var usage: Usage

    constructor ()
      ensures usage == map[] && Honest(usage)
    {
      usage := map[];
    }

    /** The insert and the update of the conflicting row are both held to the older constraint. */
    method UpsertUsage(names: Names, workspace: WorkspaceId, s: Snapshot, run: Option<RunId>) returns (ok: bool)
      modifies this
      ensures usage == Upsert(old(usage), names, workspace, s, run).0
               && ok == Upsert(old(usage), names, workspace, s, run).1
    {
      hide SourceKey;
      var key := KeyOf(workspace, s);
      var row := NewRow(names, s, run);
      if key in usage {
        row := usage[key].(repo := row.repo, user := row.user, model := row.model, unitType := row.unitType,
                           granularity := row.granularity, details := row.details, run := row.run);
      }
      var rivals := set o | o in usage && o != key && o.workspace == workspace && row.repo.Some?
          && SlotOf(usage[o]) == SlotOf(row);
      assert rivals != {} <==> Blocked(usage, key, SlotOf(row)) by {
        if rivals != {} {
          var o :| o in rivals;
          assert Occupies(usage, o, workspace, SlotOf(row));
        }
        if Blocked(usage, key, SlotOf(row)) {
          var o :| o in usage && o != key && Occupies(usage, o, workspace, SlotOf(row));
          assert o in rivals;
        }
      }
      if rivals != {} {
        return false;
      }
      usage := usage[key := row];
      ok := true;
    }

    method UpsertWorkspaceUsage(names: Names, workspace: WorkspaceId, snapshots: seq<Snapshot>, run: Option<RunId>)
      returns (ok: bool)
      modifies this
      ensures usage == UpsertAll(old(usage), names, workspace, snapshots, run).0
      ensures ok == UpsertAll(old(usage), names, workspace, snapshots, run).1
    {
      hide Upsert;
      var i := 0;
      ok := true;
      assert snapshots[..|snapshots|] == snapshots;
      while i < |snapshots|
        invariant 0 <= i <= |snapshots|
        invariant (usage, true) == UpsertAll(old(usage), names, workspace, snapshots[..i], run)
        invariant ok
      {
        assert snapshots[..i + 1][..i] == snapshots[..i];
        ok := UpsertUsage(names, workspace, snapshots[i], run);
        i := i + 1;
        if !ok {
          FailureStays(old(usage), names, workspace, snapshots, run, i);
          return;
        }
      }
    }

    method ReplaceWorkspaceUsagePeriod(
        names: Names, workspace: WorkspaceId, period: Period, snapshots: seq<Snapshot>, run: RunId)
      returns (ok: bool)
      modifies this
      ensures usage == ReplacePeriod(old(usage), names, workspace, period, snapshots, run).0
      ensures ok == ReplacePeriod(old(usage), names, workspace, period, snapshots, run).1
    {
      hide UpsertAll;
      ok := UpsertWorkspaceUsage(names, workspace, snapshots, Some(run));
      if ok {
        usage := map key | key in usage
            && !(key.workspace == workspace && Within(usage[key], period) && usage[key].run.GetOr("") != run)
                 :: usage[key];
      }
    }
  }

  /** What failed stays failed: the rest of the batch is not looked at. */
  lemma {:induction false} FailureStays(
      usage: Usage, names: Names, workspace: WorkspaceId, snapshots: seq<Snapshot>, run: Option<RunId>,
      n: nat)
    requires n <= |snapshots| && !UpsertAll(usage, names, workspace, snapshots[..n], run).1
    ensures UpsertAll(usage, names, workspace, snapshots, run)
             == UpsertAll(usage, names, workspace, snapshots[..n], run)
    decreases |snapshots|
  {
    if n == |snapshots| {
      assert snapshots[..n] == snapshots;
    } else {
      var front := snapshots[..|snapshots| - 1];
      assert front[..n] == snapshots[..n];
      FailureStays(usage, names, workspace, front, run, n);
    }
  }
}
