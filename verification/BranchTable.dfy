/** The branch rows of one repository and everything that writes them. */
module BranchTable {
  import opened Wrappers
  import opened BranchStatus

  datatype Write =
    | Upsert(branch: Branch)
    | Push(name: string)
    | Delete(name: string)
    | LinkRequest(name: string, number: nat, open: bool)

  // ---- Statements -----------------------------------------------------------------------------

  predicate Has(rows: seq<Branch>, name: string) {
    exists i | 0 <= i < |rows| :: rows[i].name == name
  }

  /** UPDATE ... WHERE name = ? */
  function Update(rows: seq<Branch>, name: string, change: Branch -> Branch): seq<Branch> {
    seq(|rows|, i requires 0 <= i < |rows| => if rows[i].name == name then change(rows[i]) else rows[i])
  }

  function Invalidated(b: Branch): Branch {
    b.(comparison := Unknown, active := true)
  }

  function Pushed(name: string): Branch {
    Branch(name, false, None, None, Unknown, None, false, true)
  }

  function Deleted(b: Branch): Branch {
    b.(active := false)
  }

  function Linked(b: Branch, number: nat, open: bool): Branch {
    if open then b.(openRequest := Some(number))
    else if b.openRequest == Some(number) then b.(openRequest := None) else b
  }

  function Apply(rows: seq<Branch>, w: Write): seq<Branch> {
    match w
    case Upsert(b) =>
      var row := b.(active := true);
      if Has(rows, b.name) then Update(rows, b.name, (_: Branch) => row) else rows + [row]
    case Push(name) =>
      if Has(rows, name) then Update(rows, name, Invalidated) else rows + [Pushed(name)]
    case Delete(name) => Update(rows, name, Deleted)
    case LinkRequest(name, number, open) => Update(rows, name, (b: Branch) => Linked(b, number, open))
  }

  // ---- What the writers keep -----------------------------------------------------------------------

  /** UNIQUE (repository_id, name) */
  ghost predicate DistinctNames(rows: seq<Branch>) {
    forall i, j | 0 <= i < j < |rows| :: rows[i].name != rows[j].name
  }

  /** A default branch is never ahead of or diverged from itself. */
  predicate QuietDefault(b: Branch) {
    b.isDefault ==> b.comparison != Ahead && b.comparison != Diverged
  }

  ghost predicate Quiet(rows: seq<Branch>) {
    forall b | b in rows :: QuietDefault(b)
  }

  ghost predicate FromCollector(w: Write) {
    w.Upsert? ==> QuietDefault(w.branch)
  }

  lemma UpdateKeepsNames(rows: seq<Branch>, name: string, change: Branch -> Branch)
    requires DistinctNames(rows) && forall b: Branch | b.name == name :: change(b).name == name
    ensures DistinctNames(Update(rows, name, change))
  {
  }

  lemma UpdateKeepsQuiet(rows: seq<Branch>, name: string, change: Branch -> Branch)
    requires Quiet(rows) && forall b: Branch | b.name == name && QuietDefault(b) :: QuietDefault(change(b))
    ensures Quiet(Update(rows, name, change))
  {
    forall i | 0 <= i < |rows| ensures QuietDefault(Update(rows, name, change)[i]) {
      assert rows[i] in rows;
    }
  }

  lemma ApplyKeepsNames(rows: seq<Branch>, w: Write)
    requires DistinctNames(rows)
    ensures DistinctNames(Apply(rows, w))
  {
    hide DistinctNames, Update;
    match w
    case Upsert(b) =>
      if Has(rows, b.name) {
        var row := b.(active := true);
        UpdateKeepsNames(rows, b.name, (_: Branch) => row);
      } else {
        AppendKeepsNames(rows, b.(active := true));
      }
    case Push(name) =>
      if Has(rows, name) {
        UpdateKeepsNames(rows, name, Invalidated);
      } else {
        AppendKeepsNames(rows, Pushed(name));
      }
    case Delete(name) => UpdateKeepsNames(rows, name, Deleted);
    case LinkRequest(name, number, open) => UpdateKeepsNames(rows, name, (b: Branch) => Linked(b, number, open));
  }

  lemma AppendKeepsNames(rows: seq<Branch>, b: Branch)
    requires DistinctNames(rows) && !Has(rows, b.name)
    ensures DistinctNames(rows + [b])
  {
  }

  lemma ApplyKeepsQuiet(rows: seq<Branch>, w: Write)
    requires Quiet(rows) && FromCollector(w)
    ensures Quiet(Apply(rows, w))
  {
    hide Quiet, Update, Has;
    match w
    case Upsert(b) =>
      if Has(rows, b.name) {
        var row := b.(active := true);
        UpdateKeepsQuiet(rows, b.name, (_: Branch) => row);
      } else {
        AppendKeepsQuiet(rows, b.(active := true));
      }
    case Push(name) =>
      if Has(rows, name) {
        UpdateKeepsQuiet(rows, name, Invalidated);
      } else {
        AppendKeepsQuiet(rows, Pushed(name));
      }
    case Delete(name) => UpdateKeepsQuiet(rows, name, Deleted);
    case LinkRequest(name, number, open) => UpdateKeepsQuiet(rows, name, (b: Branch) => Linked(b, number, open));
  }

  lemma AppendKeepsQuiet(rows: seq<Branch>, b: Branch)
    requires Quiet(rows) && QuietDefault(b)
    ensures Quiet(rows + [b])
  {
  }

  /** Closing a request undoes its own link, and no other request's. */
  lemma ClosingUndoesItsOwnLink(rows: seq<Branch>, name: string, number: nat, closed: nat, i: nat)
    requires i < |rows|
    ensures var linked := Apply(rows, LinkRequest(name, number, true));
            var after := Apply(linked, LinkRequest(name, closed, false));
            && |after| == |rows|
            && after[i] == (if rows[i].name != name then rows[i]
                            else rows[i].(openRequest := if closed == number then None else Some(number)))
  {
  }

  /** An active branch of which nothing else is known. */
  predicate IsBare(b: Branch, name: string) {
    && b.name == name && b.active && !b.isDefault && !b.excluded
    && b.comparison == Unknown && b.aheadBy.None? && b.behindBy.None? && b.openRequest.None?
  }

  /** After a push nothing is known of a branch until it is compared again, whatever was known before. */
  lemma PushForgetsTheComparison(rows: seq<Branch>, name: string)
    requires DistinctNames(rows)
    ensures var after := Apply(rows, Push(name));
            && Has(after, name) && DistinctNames(after)
            && (forall i | 0 <= i < |rows| && rows[i].name == name ::
                  after[i] == rows[i].(comparison := Unknown, active := true))
            && (!Has(rows, name) ==> |after| == |rows| + 1 && IsBare(after[|rows|], name))
            && (forall i | 0 <= i < |rows| && rows[i].name != name :: after[i] == rows[i])
  {
    var after := Apply(rows, Push(name));
    if Has(rows, name) {
      assert after == Update(rows, name, Invalidated) && |after| == |rows|;
      forall k | 0 <= k < |rows| ensures after[k] == if rows[k].name == name then Invalidated(rows[k]) else rows[k] {
      }
      var i :| 0 <= i < |rows| && rows[i].name == name;
      assert after[i].name == name;
    } else {
      assert after[|rows|].name == name;
    }
  }

  function After(writes: seq<Write>): seq<Branch> {
    if writes == [] then [] else Apply(After(writes[..|writes| - 1]), writes[|writes| - 1])
  }

  lemma {:induction false} RunsStayQuiet(writes: seq<Write>)
    requires forall w | w in writes :: FromCollector(w)
    ensures DistinctNames(After(writes)) && Quiet(After(writes))
    decreases |writes|
  {
    if writes != [] {
      hide Apply, DistinctNames, Quiet, FromCollector;
      var front, last := writes[..|writes| - 1], writes[|writes| - 1];
      assert last in writes;
      RunsStayQuiet(front);
      ApplyKeepsNames(After(front), last);
      ApplyKeepsQuiet(After(front), last);
    }
  }

  /** Whatever the writers do with collected snapshots, the counted status is the list-based one. */
  lemma CountsAgreeInEveryRun(writes: seq<Write>)
    requires forall w | w in writes :: FromCollector(w)
    ensures DeriveDefaultBranchStatus(CountBranches(After(writes)))
             == EvaluateDefaultBranchStatus(ActiveRows(After(writes)))
  {
    hide After, DeriveDefaultBranchStatus, CountBranches, EvaluateDefaultBranchStatus, ActiveRows;
    RunsStayQuiet(writes);
    CountsAgree(After(writes));
    assert forall b | b in After(writes) :: QuietDefault(b) && (b.isDefault ==> Weight(b) == 0);
  }

  /** One default branch recorded as ahead is enough to make them differ. */
  lemma AheadDefaultDisagrees(b: Branch, d: Branch)
    requires Considered(b) && b.comparison == Identical
    requires d.isDefault && !d.excluded && d.comparison == Ahead && d.name != b.name
    ensures var rows := After([Upsert(b), Upsert(d)]);
            DeriveDefaultBranchStatus(CountBranches(rows)) != EvaluateDefaultBranchStatus(ActiveRows(rows))
  {
    var writes := [Upsert(b), Upsert(d)];
    assert writes[..1] == [Upsert(b)] && writes[..1][..0] == [];
    assert After(writes[..1]) == [b.(active := true)];
    var row, other := b.(active := true), d.(active := true);
    assert After(writes) == [row, other];
    BothActive(row, other);
  }

  lemma BothActive(row: Branch, other: Branch)
    requires row.active && other.active && Considered(row) && row.comparison == Identical
    requires other.isDefault && !other.excluded && other.comparison == Ahead
    ensures DeriveDefaultBranchStatus(CountBranches([row, other]))
             != EvaluateDefaultBranchStatus(ActiveRows([row, other]))
  {
    hide DeriveDefaultBranchStatus, CountBranches, EvaluateDefaultBranchStatus, ActiveRows;
    var rows := [row, other];
    assert row in rows && ListedAside(row) && other in rows && Listed(other) && Weight(other) > 0;
    assert !Matched(rows, other);
    CountsAgree(rows);
  }

  // ---- Deleted and replaced branches ------------------------------------------------------------------

  /** The rows of all other branches, as they are. */
  function Without(rows: seq<Branch>, name: string): seq<Branch> {
    Filter(rows, (b: Branch) => b.name != name)
  }

  lemma UpdateRest(rows: seq<Branch>, name: string, change: Branch -> Branch)
    requires rows != []
    ensures Update(rows, name, change)
         == [if rows[0].name == name then change(rows[0]) else rows[0]] + Update(rows[1..], name, change)
  {
  }

  /** A deleted branch is listed no more and counted no more: both statuses are those of the other branches. */
  lemma {:induction false} DeletedBranchStopsCounting(rows: seq<Branch>, name: string)
    ensures var after := Apply(rows, Delete(name));
            && ActiveRows(after) == ActiveRows(Without(rows, name))
            && CountBranches(after) == CountBranches(Without(rows, name))
    decreases |rows|
  {
    if rows != [] {
      UpdateRest(rows, name, Deleted);
      DeletedBranchStopsCounting(rows[1..], name);
      var after := Update(rows, name, Deleted);
      assert after[1..] == Update(rows[1..], name, Deleted);
      var others := (b: Branch) => b.name != name;
      assert Without(rows, name) == (if others(rows[0]) then [rows[0]] else []) + Without(rows[1..], name);
      if rows[0].name != name {
        assert Without(rows, name)[1..] == Without(rows[1..], name);
      } else {
        assert Without(rows, name) == Without(rows[1..], name);
      }
    }
  }

  /** After a second snapshot the branch has the second's columns and is active, whatever was stored. */
  lemma SnapshotReplacesTheRow(rows: seq<Branch>, b: Branch, i: nat)
    requires DistinctNames(rows)
    ensures var after := Apply(rows, Upsert(b));
            && Has(after, b.name) && DistinctNames(after)
            && (i < |after| && after[i].name == b.name ==> after[i] == b.(active := true))
            && (i < |rows| && rows[i].name != b.name ==> i < |after| && after[i] == rows[i])
            && (Has(rows, b.name) ==> |after| == |rows|)
  {
    ApplyKeepsNames(rows, Upsert(b));
    hide DistinctNames;
    if Has(rows, b.name) {
      var k :| 0 <= k < |rows| && rows[k].name == b.name;
      assert Apply(rows, Upsert(b))[k].name == b.name;
    } else {
      assert Apply(rows, Upsert(b))[|rows|].name == b.name;
    }
  }

  // ---- Collected snapshots ----------------------------------------------------------------------------

  /** A listed branch before any comparison, and after the ones that were made. */
  function Inventoried(name: string, defaultBranch: string, excluded: bool): Branch {
    var comparison := if name == defaultBranch then Identical else Unknown;
    Branch(name, name == defaultBranch, None, None, comparison, None, excluded, true)
  }

  function Compared(b: Branch, results: map<string, (int, int)>): Branch {
    if Considered(b) && b.name in results then
      var (ahead, behind) := results[b.name];
      b.(aheadBy := Some(ahead), behindBy := Some(behind), comparison := ClassifyComparison(Some(ahead), Some(behind)))
    else b
  }

  /** Collected snapshots, with the open request linked, and the branches a creation event reports. */
  lemma CollectedSnapshotsAreQuiet(
      name: string, defaultBranch: string, excluded: bool, results: map<string, (int, int)>,
      request: Option<nat>)
    ensures var b := Compared(Inventoried(name, defaultBranch, excluded), results);
            && FromCollector(Upsert(b.(openRequest := request)))
            && (b.comparison == Diverged || b.comparison == Ahead ==>
                  !b.isDefault && !b.excluded && b.aheadBy.Some? && b.aheadBy.value > 0)
            && FromCollector(Upsert(b.(comparison := ClassifyComparison(None, None))))
            && b.name == name && b.isDefault == (name == defaultBranch) && b.excluded == excluded && b.active
            && b.openRequest.None?
            && (if !b.isDefault && !excluded && name in results
                then b.aheadBy == Some(results[name].0) && b.behindBy == Some(results[name].1)
                     && b.comparison == ClassifyComparison(b.aheadBy, b.behindBy)
                else b.aheadBy.None? && b.behindBy.None?
                     && b.comparison == if b.isDefault then Identical else Unknown)
  {
  }

  // ---- The store ------------------------------------------------------------------------------------------

  class BranchDb {
    var rows: seq<Branch>

    ghost predicate Valid()
      reads this
    {
      DistinctNames(rows)
    }

    constructor ()
      ensures Valid() && rows == []
    {
      rows := [];
    }

    method UpsertBranch(b: Branch)
      requires Valid()
      modifies this
      ensures Valid() && rows == Apply(old(rows), Upsert(b))
    {
      hide DistinctNames;
      ApplyKeepsNames(rows, Upsert(b));
      var row := b.(active := true);
      if Has(rows, b.name) {
        rows := Update(rows, b.name, (_: Branch) => row);
      } else {
        rows := rows + [row];
      }
    }

    method ApplyBranchPush(name: string)
      requires Valid()
      modifies this
      ensures Valid() && rows == Apply(old(rows), Push(name))
    {
      hide DistinctNames;
      ApplyKeepsNames(rows, Push(name));
      if Has(rows, name) {
        rows := Update(rows, name, Invalidated);
      } else {
        rows := rows + [Pushed(name)];
      }
    }

    method MarkBranchDeleted(name: string)
      requires Valid()
      modifies this
      ensures Valid() && rows == Apply(old(rows), Delete(name))
    {
      hide DistinctNames;
      ApplyKeepsNames(rows, Delete(name));
      rows := Update(rows, name, Deleted);
    }

    /** The link is set by an open request and cleared only by the request that holds it. */
    method LinkChangeRequest(headRef: string, number: nat, open: bool)
      requires Valid()
      modifies this
      ensures Valid()
      ensures rows == if headRef == "" then old(rows) else Apply(old(rows), LinkRequest(headRef, number, open))
    {
      hide DistinctNames;
      if headRef != "" {
        ApplyKeepsNames(rows, LinkRequest(headRef, number, open));
        if open {
          rows := Update(rows, headRef, (b: Branch) => b.(openRequest := Some(number)));
        } else {
          rows := Update(rows, headRef, (b: Branch) =>
            if b.openRequest == Some(number) then b.(openRequest := None) else b);
        }
        assert rows == Apply(old(rows), LinkRequest(headRef, number, open));
      }
    }
  }
}
