/**
 What a billing period is on the calendar. Dates are texts compared character by character; for texts of the
 form yyyy-mm-dd that is the order of days, so a replacement deletes exactly the unreported rows of its days.
 */
module UsagePeriods {
  import opened Wrappers
  import opened SourceKeys
  import opened UsageLedger

  datatype Date = Date(year: nat, month: nat, day: nat)

  predicate IsDate(d: Date) {
    d.year < 10000 && 1 <= d.month <= 12 && 1 <= d.day <= 31
  }

  /** The first day is no later than the second. */
  predicate NoLater(d: Date, e: Date) {
    d.year < e.year || (d.year == e.year && (d.month < e.month || (d.month == e.month && d.day <= e.day)))
  }

  function Digit(n: nat): char
    requires n < 10
  {
    '0' + n as char
  }

  function TwoDigits(n: nat): (r: string)
    requires n < 100
    ensures |r| == 2
  {
    [Digit(n / 10), Digit(n % 10)]
  }

  function Year(n: nat): (r: string)
    requires n < 10000
    ensures |r| == 4
  {
    TwoDigits(n / 100) + TwoDigits(n % 100)
  }

  /** yyyy-mm-dd */
  function Iso(d: Date): string
    requires IsDate(d)
  {
    Year(d.year) + ("-" + (TwoDigits(d.month) + ("-" + TwoDigits(d.day))))
  }

  // ---- The order of texts is the order of days -------------------------------------------------------

  /** Texts with heads of one length are compared by their heads first. */
  lemma {:induction false} AtMostByParts(a: string, b: string, x: string, y: string)
    requires |a| == |b|
    ensures AtMost(a + x, b + y) <==> if a == b then AtMost(x, y) else AtMost(a, b)
    ensures a + x == b + y <==> a == b && x == y
    decreases |a|
  {
    assert a + x == b + y ==> a == (a + x)[..|a|] == b && x == (a + x)[|a|..] == y;
    if a == [] {
      assert a + x == x && b + y == y;
    } else {
      assert (a + x)[1..] == a[1..] + x && (b + y)[1..] == b[1..] + y;
      assert a == [a[0]] + a[1..] && b == [b[0]] + b[1..];
      AtMostByParts(a[1..], b[1..], x, y);
    }
  }

  lemma TwoDigitsInOrder(m: nat, n: nat)
    requires m < 100 && n < 100
    ensures AtMost(TwoDigits(m), TwoDigits(n)) <==> m <= n
    ensures TwoDigits(m) == TwoDigits(n) <==> m == n
  {
    var a, b := TwoDigits(m), TwoDigits(n);
    assert a[1..] == [Digit(m % 10)] && b[1..] == [Digit(n % 10)];
    assert AtMost(a[1..], b[1..]) <==> m % 10 <= n % 10;
    assert TwoDigits(m) == TwoDigits(n) ==> a[0] == b[0] && a[1] == b[1];
  }

  lemma YearsInOrder(m: nat, n: nat)
    requires m < 10000 && n < 10000
    ensures AtMost(Year(m), Year(n)) <==> m <= n
    ensures Year(m) == Year(n) <==> m == n
  {
    hide AtMost, TwoDigits;
    TwoDigitsInOrder(m / 100, n / 100);
    TwoDigitsInOrder(m % 100, n % 100);
    AtMostByParts(TwoDigits(m / 100), TwoDigits(n / 100), TwoDigits(m % 100), TwoDigits(n % 100));
  }

  /** Comparing the texts of two dates is comparing the days. */
  lemma TextOrderIsDateOrder(d: Date, e: Date)
    requires IsDate(d) && IsDate(e)
    ensures AtMost(Iso(d), Iso(e)) <==> NoLater(d, e)
  {
    hide AtMost, TwoDigits, Year;
    YearsInOrder(d.year, e.year);
    TwoDigitsInOrder(d.month, e.month);
    TwoDigitsInOrder(d.day, e.day);
    var (md, me) := (TwoDigits(d.month), TwoDigits(e.month));
    var (dd, de) := (TwoDigits(d.day), TwoDigits(e.day));
    AtMostByParts(Year(d.year), Year(e.year), "-" + (md + ("-" + dd)), "-" + (me + ("-" + de)));
    AtMostByParts("-", "-", md + ("-" + dd), me + ("-" + de));
    AtMostByParts(md, me, "-" + dd, "-" + de);
    AtMostByParts("-", "-", dd, de);
  }

  // ---- Replacing the days of a period ------------------------------------------------------------------

  predicate Between(first: Date, d: Date, last: Date) {
    NoLater(first, d) && NoLater(d, last)
  }

  lemma WithinIsBetween(row: Row, first: Date, d: Date, last: Date)
    requires IsDate(first) && IsDate(d) && IsDate(last) && row.date == Iso(d)
    ensures Within(row, Period(Iso(first), Iso(last))) <==> Between(first, d, last)
  {
    hide AtMost, NoLater, Iso;
    TextOrderIsDateOrder(first, d);
    TextOrderIsDateOrder(d, last);
  }

  /**
   A row no snapshot reports is deleted if and only if it belongs to the workspace, its day is one of the
   period's, and another run wrote it; otherwise it stays as it was.
   */
  lemma UnreportedDaysAreDeleted(
      usage: Usage, names: Names, workspace: WorkspaceId, first: Date, last: Date, snapshots: seq<Snapshot>,
      run: RunId, key: RowKey, d: Date)
    requires Honest(usage) && AllArePlain(snapshots) && AllClear(usage, names, workspace, snapshots)
    requires IsDate(first) && IsDate(d) && IsDate(last) && key in usage && usage[key].date == Iso(d)
    requires LastFor(workspace, snapshots, key).None?
    ensures var after := ReplacePeriod(usage, names, workspace, Period(Iso(first), Iso(last)), snapshots, run).0;
            && (key !in after
                <==> key.workspace == workspace && Between(first, d, last) && usage[key].run.GetOr("") != run)
            && (key in after ==> after[key] == usage[key])
  {
    var period := Period(Iso(first), Iso(last));
    ReplacePeriodConverges(usage, names, workspace, period, snapshots, run);
    WithinIsBetween(usage[key], first, d, last);
    hide ReplacePeriod, LastFor, AllClear, Honest, Within, IsPlain, Iso, Between;
    var after := ReplacePeriod(usage, names, workspace, period, snapshots, run).0;
    assert ReplacedAt(usage, names, workspace, period, snapshots, run, after, key);
  }

  ghost predicate AllBetween(snapshots: seq<Snapshot>, first: Date, last: Date) {
    forall s | s in snapshots :: exists d :: IsDate(d) && s.date == Iso(d) && Between(first, d, last)
  }

  /** The workspace has a row dated on a day of the period. */
  ghost predicate OnADay(usage: Usage, workspace: WorkspaceId, key: RowKey, first: Date, last: Date) {
    && key in usage && key.workspace == workspace
    && exists d :: IsDate(d) && usage[key].date == Iso(d) && Between(first, d, last)
  }

  /** Every row is dated by a day. */
  ghost predicate AllDated(usage: Usage) {
    forall key | key in usage :: exists d :: IsDate(d) && usage[key].date == Iso(d)
  }

  /**
   Under a fresh run id, with snapshots dated on days of the period, the workspace has on the days of the
   period exactly the last snapshot of each source key, and every other row stays.
   */
  lemma FreshDaysAreExact(
      usage: Usage, names: Names, workspace: WorkspaceId, first: Date, last: Date, snapshots: seq<Snapshot>,
      run: RunId, key: RowKey)
    requires Honest(usage) && AllArePlain(snapshots) && AllClear(usage, names, workspace, snapshots)
    requires IsDate(first) && IsDate(last) && AllBetween(snapshots, first, last) && AllDated(usage)
    requires forall k | OnADay(usage, workspace, k, first, last) :: usage[k].run.GetOr("") != run
    ensures var (after, ok) := ReplacePeriod(usage, names, workspace, Period(Iso(first), Iso(last)), snapshots, run);
            var reported := LastFor(workspace, snapshots, key);
            && ok && (OnADay(after, workspace, key, first, last) <==> reported.Some?)
            && (reported.Some? ==> Carries(key, after[key], names, reported.value, Some(run)))
            && (reported.None? && !OnADay(usage, workspace, key, first, last) ==>
                  (key in after <==> key in usage) && (key in usage ==> after[key] == usage[key]))
  {
    var period := Period(Iso(first), Iso(last));
    ReplacePeriodConverges(usage, names, workspace, period, snapshots, run);
    LastForFinds(workspace, snapshots, key);
    hide ReplacePeriod, LastFor, AllClear, Honest, IsPlain, Iso, Between;
    var after := ReplacePeriod(usage, names, workspace, period, snapshots, run).0;
    assert ReplacedAt(usage, names, workspace, period, snapshots, run, after, key);
    var reported := LastFor(workspace, snapshots, key);
    if reported.Some? {
      var d :| IsDate(d) && reported.value.date == Iso(d) && Between(first, d, last);
      assert IsDate(d) && after[key].date == Iso(d) && Between(first, d, last);
    } else if key in usage {
      var d :| IsDate(d) && usage[key].date == Iso(d);
      UnreportedDaysAreDeleted(usage, names, workspace, first, last, snapshots, run, key, d);
      SameDay(first, last, usage[key].date, d);
    }
  }

  lemma SameDay(first: Date, last: Date, date: string, d: Date)
    requires IsDate(first) && IsDate(last) && IsDate(d) && date == Iso(d)
    ensures (exists e :: IsDate(e) && date == Iso(e) && Between(first, e, last)) <==> Between(first, d, last)
  {
    forall e | IsDate(e) && date == Iso(e) ensures e == d {
      TextOrderIsDateOrder(d, e);
      TextOrderIsDateOrder(e, d);
      AtMostItself(date);
      hide Iso, AtMost;
    }
  }

  lemma {:induction false} AtMostItself(a: string)
    ensures AtMost(a, a)
  {
    if a != [] {
      AtMostItself(a[1..]);
    }
  }

  const JANUARY := Period("2026-01-01", "2026-01-31")

  /** January begins on its first day and ends on its last, and the middle of it lies within. */
  lemma DaysOfJanuary(row: Row)
    ensures Within(row.(date := "2026-01-15"), JANUARY)
    ensures Within(row.(date := "2026-01-01"), JANUARY) && Within(row.(date := "2026-01-31"), JANUARY)
    ensures !Within(row.(date := "2025-12-31"), JANUARY) && !Within(row.(date := "2026-02-01"), JANUARY)
  {
    var d1, d31 := Date(2026, 1, 1), Date(2026, 1, 31);
    assert Iso(d1) == "2026-01-01" && Iso(d31) == "2026-01-31" && Iso(Date(2026, 1, 15)) == "2026-01-15";
    assert Iso(Date(2025, 12, 31)) == "2025-12-31" && Iso(Date(2026, 2, 1)) == "2026-02-01";
    hide Iso, Within;
    WithinIsBetween(row.(date := "2026-01-15"), d1, Date(2026, 1, 15), d31);
    WithinIsBetween(row.(date := "2026-01-01"), d1, d1, d31);
    WithinIsBetween(row.(date := "2026-01-31"), d1, d31, d31);
    WithinIsBetween(row.(date := "2025-12-31"), d1, Date(2025, 12, 31), d31);
    WithinIsBetween(row.(date := "2026-02-01"), d1, Date(2026, 2, 1), d31);
  }
}
