/**
 The state of a repository's default branch, once as the domain computes it from the list of branches and
 once as the estate table derives it from counts, and the condition on the branch table under which the
 two agree.
 */
module BranchStatus {
  import opened Wrappers

  datatype Comparison = Identical | Ahead | Behind | Diverged | Unknown

  datatype Branch = Branch(
    name: string,
    isDefault: bool,
    aheadBy: Option<int>,
    behindBy: Option<int>,
    comparison: Comparison,
    openRequest: Option<nat>,
    excluded: bool,
    active: bool)

  datatype Status = Current | WorkPending | UntrackedWork | StatusDiverged | StatusUnknown

  function ClassifyComparison(aheadBy: Option<int>, behindBy: Option<int>): Comparison {
    if aheadBy.None? || behindBy.None? then Unknown
    else if aheadBy.value > 0 && behindBy.value > 0 then Diverged
    else if aheadBy.value > 0 then Ahead
    else if behindBy.value > 0 then Behind
    else Identical
  }

  // ---- From the list --------------------------------------------------------------------------

  function Filter(branches: seq<Branch>, keep: Branch -> bool): seq<Branch> {
    if branches == [] then []
    else (if keep(branches[0]) then [branches[0]] else []) + Filter(branches[1..], keep)
  }

  predicate Considered(b: Branch) {
    !b.isDefault && !b.excluded
  }

  function EvaluateDefaultBranchStatus(branches: seq<Branch>): Status {
    var considered := Filter(branches, Considered);
    if |considered| == 0 then Current
    else
      var unknown := Filter(considered, (b: Branch) => b.comparison == Unknown);
      var diverged := Filter(considered, (b: Branch) => b.comparison == Diverged);
      var ahead := Filter(considered, (b: Branch) => b.comparison == Ahead);
      if |diverged| > 0 then StatusDiverged
      else
        var aheadWithoutRequest := Filter(ahead, (b: Branch) => b.openRequest.None?);
        var aheadWithRequest := Filter(ahead, (b: Branch) => b.openRequest.Some?);
        if |aheadWithoutRequest| > 0 then UntrackedWork
        else if |aheadWithRequest| > 0 then WorkPending
        else if |unknown| == |considered| then StatusUnknown
        else Current
  }

  // ---- From the counts ---------------------------------------------------------------------------

  datatype Counts = Counts(branchesAhead: nat, diverged: nat, untracked: nat, considered: nat, unknown: nat)

  /** SELECT COUNT(*) ... WHERE */
  function Count(rows: seq<Branch>, where: Branch -> bool): nat {
    if rows == [] then 0 else (if where(rows[0]) then 1 else 0) + Count(rows[1..], where)
  }

  predicate Listed(b: Branch) {
    b.active && !b.excluded
  }

  /** Only the last two counts leave the default branch out. */
  function CountBranches(rows: seq<Branch>): Counts {
    Counts(
      Count(rows, (b: Branch) => Listed(b) && b.comparison in {Ahead, Diverged}),
      Count(rows, (b: Branch) => Listed(b) && b.comparison == Diverged),
      Count(rows, (b: Branch) => Listed(b) && b.comparison == Ahead && b.openRequest.None?),
      Count(rows, (b: Branch) => Listed(b) && !b.isDefault),
      Count(rows, (b: Branch) => Listed(b) && !b.isDefault && b.comparison == Unknown))
  }

  function DeriveDefaultBranchStatus(row: Counts): Status {
    if row.considered == 0 then Current
    else if row.diverged > 0 then StatusDiverged
    else if row.untracked > 0 then UntrackedWork
    else if row.branchesAhead > 0 then WorkPending
    else if row.unknown == row.considered then StatusUnknown
    else Current
  }

  /** SELECT * ... WHERE status = 'active' */
  function ActiveRows(rows: seq<Branch>): seq<Branch> {
    Filter(rows, IsActive)
  }

  predicate IsActive(b: Branch) {
    b.active
  }

  // ---- Filters and counts ---------------------------------------------------------------------------

  lemma {:induction false} FilterHas(branches: seq<Branch>, keep: Branch -> bool)
    ensures forall b :: b in Filter(branches, keep) <==> b in branches && keep(b)
    decreases |branches|
  {
    if branches != [] {
      FilterHas(branches[1..], keep);
      assert branches == [branches[0]] + branches[1..];
    }
  }

  lemma NonEmpty(branches: seq<Branch>, keep: Branch -> bool)
    ensures |Filter(branches, keep)| > 0 <==> exists b | b in branches :: keep(b)
  {
    FilterHas(branches, keep);
    var kept := Filter(branches, keep);
    if |kept| > 0 {
      assert kept[0] in kept;
    }
  }

  lemma {:induction false} FilterAll(branches: seq<Branch>, keep: Branch -> bool)
    ensures |Filter(branches, keep)| <= |branches|
    ensures |Filter(branches, keep)| == |branches| <==> forall b | b in branches :: keep(b)
    decreases |branches|
  {
    if branches != [] {
      FilterAll(branches[1..], keep);
      assert branches == [branches[0]] + branches[1..];
    }
  }

  lemma {:induction false} CountPositive(rows: seq<Branch>, where: Branch -> bool)
    ensures Count(rows, where) > 0 <==> exists b | b in rows :: where(b)
    decreases |rows|
  {
    if rows != [] {
      CountPositive(rows[1..], where);
      assert rows == [rows[0]] + rows[1..];
    }
  }

  lemma {:induction false} CountWithin(rows: seq<Branch>, narrow: Branch -> bool, wide: Branch -> bool)
    requires forall b | narrow(b) :: wide(b)
    ensures Count(rows, narrow) <= Count(rows, wide)
    ensures Count(rows, narrow) == Count(rows, wide) <==> forall b | b in rows && wide(b) :: narrow(b)
    decreases |rows|
  {
    if rows != [] {
      CountWithin(rows[1..], narrow, wide);
      assert rows == [rows[0]] + rows[1..];
    }
  }

  // ---- What each form decides -----------------------------------------------------------------------

  /** How much a branch weighs: 3 diverged, 2 ahead untracked, 1 ahead with an open request, 0 otherwise. */
  function Weight(b: Branch): nat {
    match b.comparison
    case Diverged => 3
    case Ahead => if b.openRequest.None? then 2 else 1
    case _ => 0
  }

  ghost predicate SomeWeigh(rows: seq<Branch>, among: Branch -> bool, w: nat) {
    exists b | b in rows :: among(b) && Weight(b) == w
  }

  ghost predicate AllUnknown(rows: seq<Branch>, among: Branch -> bool) {
    forall b | b in rows && among(b) :: b.comparison == Unknown
  }

  /** The common shape: the heaviest branch decides, then whether anything at all is known. */
  ghost function Decide(rows: seq<Branch>, judged: Branch -> bool, considered: Branch -> bool): Status {
    if !exists b | b in rows :: considered(b) then Current
    else if SomeWeigh(rows, judged, 3) then StatusDiverged
    else if SomeWeigh(rows, judged, 2) then UntrackedWork
    else if SomeWeigh(rows, judged, 1) then WorkPending
    else if AllUnknown(rows, considered) then StatusUnknown
    else Current
  }

  lemma EvaluateDecides(branches: seq<Branch>)
    ensures EvaluateDefaultBranchStatus(branches) == Decide(branches, Considered, Considered)
  {
    var considered := Filter(branches, Considered);
    var unknown := (b: Branch) => b.comparison == Unknown;
    var diverged := (b: Branch) => b.comparison == Diverged;
    var ahead := (b: Branch) => b.comparison == Ahead;
    var without, with := (b: Branch) => b.openRequest.None?, (b: Branch) => b.openRequest.Some?;
    FilterHas(branches, Considered);
    NonEmpty(branches, Considered);
    NonEmpty(considered, diverged);
    FilterHas(considered, ahead);
    NonEmpty(Filter(considered, ahead), without);
    NonEmpty(Filter(considered, ahead), with);
    FilterAll(considered, unknown);
    hide Filter;
    assert |Filter(considered, diverged)| > 0 <==> SomeWeigh(branches, Considered, 3);
    assert |Filter(Filter(considered, ahead), without)| > 0 <==> SomeWeigh(branches, Considered, 2);
    assert |Filter(Filter(considered, ahead), with)| > 0 <==> SomeWeigh(branches, Considered, 1);
    assert |Filter(considered, unknown)| == |considered| <==> AllUnknown(branches, Considered);
  }

  predicate ListedAside(b: Branch) {
    Listed(b) && !b.isDefault
  }

  lemma DeriveDecides(rows: seq<Branch>)
    ensures DeriveDefaultBranchStatus(CountBranches(rows)) == Decide(rows, Listed, ListedAside)
  {
    var ahead := (b: Branch) => Listed(b) && b.comparison in {Ahead, Diverged};
    var diverged := (b: Branch) => Listed(b) && b.comparison == Diverged;
    var untracked := (b: Branch) => Listed(b) && b.comparison == Ahead && b.openRequest.None?;
    var considered := (b: Branch) => Listed(b) && !b.isDefault;
    var unknown := (b: Branch) => Listed(b) && !b.isDefault && b.comparison == Unknown;
    hide Count, Weight;
    assert Count(rows, considered) > 0 <==> exists b | b in rows :: ListedAside(b) by {
      CountPositive(rows, considered);
    }
    assert Count(rows, unknown) == Count(rows, considered) <==> AllUnknown(rows, ListedAside) by {
      CountWithin(rows, unknown, considered);
    }
    CountsWeigh(rows, ahead, diverged, untracked);
  }

  lemma CountsWeigh(rows: seq<Branch>, ahead: Branch -> bool, diverged: Branch -> bool, untracked: Branch -> bool)
    requires forall b :: ahead(b) <==> Listed(b) && b.comparison in {Ahead, Diverged}
    requires forall b :: diverged(b) <==> Listed(b) && b.comparison == Diverged
    requires forall b :: untracked(b) <==> Listed(b) && b.comparison == Ahead && b.openRequest.None?
    ensures Count(rows, diverged) > 0 <==> SomeWeigh(rows, Listed, 3)
    ensures Count(rows, untracked) > 0 <==> SomeWeigh(rows, Listed, 2)
    ensures Count(rows, ahead) > 0 <==>
            SomeWeigh(rows, Listed, 1) || SomeWeigh(rows, Listed, 2) || SomeWeigh(rows, Listed, 3)
  {
    CountPositive(rows, ahead);
    CountPositive(rows, diverged);
    CountPositive(rows, untracked);
    hide Count;
  }

  lemma ActiveDecides(rows: seq<Branch>)
    ensures Decide(ActiveRows(rows), Considered, Considered) == Decide(rows, ListedAside, ListedAside)
  {
    FilterHas(rows, IsActive);
    hide Filter;
    forall w ensures SomeWeigh(ActiveRows(rows), Considered, w) == SomeWeigh(rows, ListedAside, w) {
      if SomeWeigh(rows, ListedAside, w) {
        var b :| b in rows && ListedAside(b) && Weight(b) == w;
        assert b in ActiveRows(rows) && Considered(b);
      }
    }
    if b :| b in rows && ListedAside(b) {
      assert b in ActiveRows(rows) && Considered(b);
    }
    assert AllUnknown(ActiveRows(rows), Considered) <==> AllUnknown(rows, ListedAside);
  }

  /** Some considered branch weighs at least as much. */
  ghost predicate Matched(rows: seq<Branch>, d: Branch) {
    exists b | b in rows :: ListedAside(b) && Weight(b) >= Weight(d)
  }

  ghost predicate NothingConsidered(rows: seq<Branch>) {
    forall b | b in rows :: !ListedAside(b)
  }

  lemma JudgedOrAside(rows: seq<Branch>, w: nat)
    ensures SomeWeigh(rows, Listed, w) <==>
            SomeWeigh(rows, ListedAside, w) || exists d | d in rows :: Listed(d) && d.isDefault && Weight(d) == w
  {
    if SomeWeigh(rows, Listed, w) {
      var b :| b in rows && Listed(b) && Weight(b) == w;
      assert !b.isDefault ==> ListedAside(b);
    }
  }

  lemma MatchedBy(rows: seq<Branch>, d: Branch)
    ensures Weight(d) <= 3
    ensures Weight(d) > 0 ==>
              (Matched(rows, d) <==> exists w | Weight(d) <= w <= 3 :: SomeWeigh(rows, ListedAside, w))
  {
    if Matched(rows, d) {
      var b :| b in rows && ListedAside(b) && Weight(b) >= Weight(d);
      assert Weight(b) <= 3 && SomeWeigh(rows, ListedAside, Weight(b));
    }
  }

  /** The two decisions agree if and only if every default branch that weighs anything is matched. */
  lemma DecisionsAgree(rows: seq<Branch>)
    requires !NothingConsidered(rows)
    ensures Decide(rows, Listed, ListedAside) == Decide(rows, ListedAside, ListedAside) <==>
            forall d | d in rows && Listed(d) && d.isDefault && Weight(d) > 0 :: Matched(rows, d)
  {
    JudgedOrAside(rows, 1);
    JudgedOrAside(rows, 2);
    JudgedOrAside(rows, 3);
    forall d | d in rows && Listed(d) && d.isDefault && Weight(d) > 0
      ensures Weight(d) in {1, 2, 3}
      ensures Matched(rows, d) <==> (Weight(d) <= 1 && SomeWeigh(rows, ListedAside, 1))
                                    || (Weight(d) <= 2 && SomeWeigh(rows, ListedAside, 2))
                                    || SomeWeigh(rows, ListedAside, 3)
    {
      MatchedBy(rows, d);
    }
    hide SomeWeigh, Matched, AllUnknown, Weight;
  }

  /**
   The counted status is the list-based one if and only if no branch is considered at all, or every
   default branch that is listed and weighs something is matched by a considered branch.
   */
  lemma CountsAgree(rows: seq<Branch>)
    ensures DeriveDefaultBranchStatus(CountBranches(rows)) == EvaluateDefaultBranchStatus(ActiveRows(rows)) <==>
            || NothingConsidered(rows)
            || forall d | d in rows && Listed(d) && d.isDefault && Weight(d) > 0 :: Matched(rows, d)
  {
    EvaluateDecides(ActiveRows(rows));
    DeriveDecides(rows);
    ActiveDecides(rows);
    hide EvaluateDefaultBranchStatus, DeriveDefaultBranchStatus, ActiveRows, CountBranches, Matched, SomeWeigh;
    if !NothingConsidered(rows) {
      DecisionsAgree(rows);
    }
  }

  // ---- From the commit counts ------------------------------------------------------------------------

  /** A branch that takes part, compared by how far it is ahead of and behind the default branch. */
  predicate Compares(b: Branch, ahead: int, behind: int) {
    !b.isDefault && !b.excluded && b.aheadBy == Some(ahead) && b.behindBy == Some(behind)
  }

  ghost predicate BothWays(branches: seq<Branch>) {
    exists b, m, n | b in branches :: Compares(b, m, n) && m > 0 && n > 0
  }

  ghost predicate AheadOnly(branches: seq<Branch>, requested: bool) {
    exists b, m, n | b in branches :: Compares(b, m, n) && m > 0 && n <= 0 && b.openRequest.Some? == requested
  }

  ghost predicate NeverCompared(branches: seq<Branch>) {
    forall b | b in branches && !b.isDefault && !b.excluded :: b.aheadBy.None? || b.behindBy.None?
  }

  lemma WeightFromCounts(b: Branch)
    requires b.comparison == ClassifyComparison(b.aheadBy, b.behindBy)
    ensures Considered(b) ==>
              && (Weight(b) == 3 <==> exists m, n :: Compares(b, m, n) && m > 0 && n > 0)
              && (Weight(b) == 2 <==> exists m, n :: Compares(b, m, n) && m > 0 && n <= 0 && b.openRequest.None?)
              && (Weight(b) == 1 <==> exists m, n :: Compares(b, m, n) && m > 0 && n <= 0 && b.openRequest.Some?)
              && (b.comparison == Unknown <==> b.aheadBy.None? || b.behindBy.None?)
  {
    if b.aheadBy.Some? && b.behindBy.Some? && Considered(b) {
      assert Compares(b, b.aheadBy.value, b.behindBy.value);
    }
  }

  /** What the status says about the commit counts of branches that are classified by them. */
  lemma StatusFromCounts(branches: seq<Branch>)
    requires forall b | b in branches && Considered(b) :: b.comparison == ClassifyComparison(b.aheadBy, b.behindBy)
    ensures EvaluateDefaultBranchStatus(branches)
         == if forall b | b in branches :: b.isDefault || b.excluded then Current
            else if BothWays(branches) then StatusDiverged
            else if AheadOnly(branches, false) then UntrackedWork
            else if AheadOnly(branches, true) then WorkPending
            else if NeverCompared(branches) then StatusUnknown
            else Current
  {
    EvaluateDecides(branches);
    forall b | b in branches && Considered(b)
      ensures Weight(b) == 3 <==> exists m, n :: Compares(b, m, n) && m > 0 && n > 0
      ensures Weight(b) == 2 <==> exists m, n :: Compares(b, m, n) && m > 0 && n <= 0 && b.openRequest.None?
      ensures Weight(b) == 1 <==> exists m, n :: Compares(b, m, n) && m > 0 && n <= 0 && b.openRequest.Some?
      ensures b.comparison == Unknown <==> b.aheadBy.None? || b.behindBy.None?
    {
      WeightFromCounts(b);
    }
    hide EvaluateDefaultBranchStatus, Weight, ClassifyComparison;
    assert SomeWeigh(branches, Considered, 3) <==> BothWays(branches);
    assert SomeWeigh(branches, Considered, 2) <==> AheadOnly(branches, false);
    assert SomeWeigh(branches, Considered, 1) <==> AheadOnly(branches, true);
    assert AllUnknown(branches, Considered) <==> NeverCompared(branches);
  }
}
