/** The key that identifies one usage row of the provider: eight fields joined by a separator. */
module SourceKeys {
  import opened Text
  import opened Wrappers

  const SEPARATOR: char := '\U{1F}'

  datatype Details = Details(
    quantity: Option<real>, grossAmount: Option<real>, netAmount: Option<real>, currency: Option<string>,
    observedAt: string)

  datatype Snapshot = Snapshot(
    date: string,
    product: string,
    sku: string,
    repository: Option<string>,
    user: Option<string>,
    model: Option<string>,
    unitType: Option<string>,
    granularity: string,
    details: Details)

  function Fields(s: Snapshot): seq<string> {
    [s.date, s.product, s.sku, s.repository.GetOr(""), s.user.GetOr(""), s.model.GetOr(""),
     s.unitType.GetOr(""), s.granularity]
  }

  function SourceKey(s: Snapshot): string {
    Join(Fields(s), SEPARATOR)
  }

  predicate Plain(text: string) {
    SEPARATOR !in text
  }

  predicate AllPlain(parts: seq<string>) {
    forall part | part in parts :: Plain(part)
  }

  // ---- Keys of plain fields -------------------------------------------------------------------

  lemma SplitAtSeparator(a: string, b: string, restA: string, restB: string)
    requires Plain(a) && Plain(b) && a + [SEPARATOR] + restA == b + [SEPARATOR] + restB
    ensures a == b && restA == restB
  {
    var whole := a + [SEPARATOR] + restA;
    assert whole[|a|] == SEPARATOR && whole[|b|] == SEPARATOR;
    if |a| < |b| {
      assert false;
    } else if |b| < |a| {
      assert false;
    } else {
      assert a == whole[..|a|] == b;
      assert restA == whole[|a| + 1..] == restB;
    }
  }

  lemma {:induction false} JoinIsInjective(a: seq<string>, b: seq<string>)
    requires |a| == |b| && AllPlain(a) && AllPlain(b) && Join(a, SEPARATOR) == Join(b, SEPARATOR)
    ensures a == b
    decreases |a|
  {
    if |a| > 1 {
      SplitAtSeparator(a[0], b[0], Join(a[1..], SEPARATOR), Join(b[1..], SEPARATOR));
      JoinIsInjective(a[1..], b[1..]);
      assert a == [a[0]] + a[1..] && b == [b[0]] + b[1..];
    } else if |a| == 1 {
      assert a == [a[0]] && b == [b[0]];
    }
  }

  function Separators(text: string): nat {
    if text == "" then 0 else (if text[0] == SEPARATOR then 1 else 0) + Separators(text[1..])
  }

  lemma {:induction false} SeparatorsAdd(a: string, b: string)
    ensures Separators(a + b) == Separators(a) + Separators(b)
    decreases |a|
  {
    if a == "" {
      assert a + b == b;
    } else {
      SeparatorsAdd(a[1..], b);
      assert (a + b)[1..] == a[1..] + b;
    }
  }

  lemma {:induction false} PlainHasNone(text: string)
    ensures Plain(text) <==> Separators(text) == 0
    decreases |text|
  {
    if text != "" {
      PlainHasNone(text[1..]);
      assert text == [text[0]] + text[1..];
    }
  }

  /** A key has one separator less than fields, exactly when no field brings its own. */
  lemma {:induction false} JoinCounts(parts: seq<string>)
    requires parts != []
    ensures Separators(Join(parts, SEPARATOR)) >= |parts| - 1
    ensures Separators(Join(parts, SEPARATOR)) == |parts| - 1 <==> AllPlain(parts)
    decreases |parts|
  {
    PlainHasNone(parts[0]);
    if |parts| == 1 {
      assert parts == [parts[0]];
    } else {
      JoinCounts(parts[1..]);
      JoinOne(parts, SEPARATOR);
      SeparatorsAdd(parts[0], [SEPARATOR] + Join(parts[1..], SEPARATOR));
      SeparatorsAdd([SEPARATOR], Join(parts[1..], SEPARATOR));
      assert parts == [parts[0]] + parts[1..];
      assert Separators([SEPARATOR]) == 1;
    }
  }

  lemma SameKeySameFields(s: Snapshot, t: Snapshot)
    requires AllPlain(Fields(s)) && SourceKey(s) == SourceKey(t)
    ensures Fields(s) == Fields(t)
  {
    JoinCounts(Fields(s));
    JoinCounts(Fields(t));
    JoinIsInjective(Fields(s), Fields(t));
  }

  /** The key of plain fields is shared exactly when all eight fields agree, an absent field counting as empty. */
  lemma SourceKeyDecides(s: Snapshot, t: Snapshot)
    requires AllPlain(Fields(s))
    ensures SourceKey(s) == SourceKey(t) <==>
            && s.date == t.date && s.product == t.product && s.sku == t.sku && s.granularity == t.granularity
            && s.repository.GetOr("") == t.repository.GetOr("") && s.user.GetOr("") == t.user.GetOr("")
            && s.model.GetOr("") == t.model.GetOr("") && s.unitType.GetOr("") == t.unitType.GetOr("")
  {
    if SourceKey(s) == SourceKey(t) {
      SameKeySameFields(s, t);
      var f, g := Fields(s), Fields(t);
      assert f[0] == g[0] && f[1] == g[1] && f[2] == g[2] && f[3] == g[3];
      assert f[4] == g[4] && f[5] == g[5] && f[6] == g[6] && f[7] == g[7];
    }
  }

  /** The text of a key, which later versions have to find again. */
  lemma TextOfTheKey(s: Snapshot)
    ensures SourceKey(s)
         == s.date + "\U{1F}" + (s.product + "\U{1F}" + (s.sku + "\U{1F}" + (s.repository.GetOr("") + "\U{1F}"
            + (s.user.GetOr("") + "\U{1F}" + (s.model.GetOr("") + "\U{1F}" + (s.unitType.GetOr("") + "\U{1F}"
            + s.granularity))))))
  {
    var f := Fields(s);
    assert f[1..][1..] == f[2..] && f[2..][1..] == f[3..] && f[3..][1..] == f[4..];
    assert f[4..][1..] == f[5..] && f[5..][1..] == f[6..] && f[6..][1..] == f[7..];
    assert Join(f[7..], SEPARATOR) == s.granularity;
    assert Join(f[6..], SEPARATOR) == f[6] + [SEPARATOR] + Join(f[7..], SEPARATOR);
    assert Join(f[5..], SEPARATOR) == f[5] + [SEPARATOR] + Join(f[6..], SEPARATOR);
    assert Join(f[4..], SEPARATOR) == f[4] + [SEPARATOR] + Join(f[5..], SEPARATOR);
    assert Join(f[3..], SEPARATOR) == f[3] + [SEPARATOR] + Join(f[4..], SEPARATOR);
    assert Join(f[2..], SEPARATOR) == f[2] + [SEPARATOR] + Join(f[3..], SEPARATOR);
    assert Join(f[1..], SEPARATOR) == f[1] + [SEPARATOR] + Join(f[2..], SEPARATOR);
    assert [SEPARATOR] == "\U{1F}";
  }

  // ---- Keys of other fields ----------------------------------------------------------------------

  /** A separator may move from the end of one part to the front of the next. */
  lemma {:induction false} JoinShifts(parts: seq<string>, i: nat, x: string, y: string)
    requires i + 1 < |parts| && parts[i] == x + [SEPARATOR] + y
    ensures Join(parts[i := x][i + 1 := y + [SEPARATOR] + parts[i + 1]], SEPARATOR) == Join(parts, SEPARATOR)
    decreases i
  {
    var shifted := parts[i := x][i + 1 := y + [SEPARATOR] + parts[i + 1]];
    JoinOne(parts, SEPARATOR);
    JoinOne(shifted, SEPARATOR);
    if i > 0 {
      JoinShifts(parts[1..], i - 1, x, y);
      assert shifted[1..] == parts[1..][i - 1 := x][i := y + [SEPARATOR] + parts[1..][i]];
    } else {
      FrontShifts(parts, x, y);
    }
  }

  lemma FrontShifts(parts: seq<string>, x: string, y: string)
    requires |parts| > 1 && parts[0] == x + [SEPARATOR] + y
    ensures Join(parts[0 := x][1 := y + [SEPARATOR] + parts[1]], SEPARATOR) == Join(parts, SEPARATOR)
  {
    var shifted := parts[0 := x][1 := y + [SEPARATOR] + parts[1]];
    JoinOne(parts, SEPARATOR);
    JoinOne(shifted, SEPARATOR);
    assert shifted[2..] == parts[2..];
    if |parts| > 2 {
      JoinOne(parts[1..], SEPARATOR);
      JoinOne(shifted[1..], SEPARATOR);
      assert parts[1..][1..] == parts[2..] && shifted[1..][1..] == shifted[2..];
    }
  }

  function FromFields(f: seq<string>): (s: Snapshot)
    requires |f| == 8
    ensures Fields(s) == f
  {
    Snapshot(f[0], f[1], f[2], Some(f[3]), Some(f[4]), Some(f[5]), Some(f[6]), f[7],
        Details(None, None, None, None, ""))
  }

  /** A field that contains a separator leaves room for another snapshot with the same key. */
  lemma SeparatorMakesRoom(s: Snapshot) returns (t: Snapshot)
    requires !AllPlain(Fields(s))
    ensures SourceKey(t) == SourceKey(s) && Fields(t) != Fields(s)
  {
    var f := Fields(s);
    var i :| 0 <= i < 8 && !Plain(f[i]);
    var k :| 0 <= k < |f[i]| && f[i][k] == SEPARATOR;
    var x, y := f[i][..k], f[i][k + 1..];
    assert f[i] == x + [SEPARATOR] + y;
    if i < 7 {
      JoinShifts(f, i, x, y);
      t := FromFields(f[i := x][i + 1 := y + [SEPARATOR] + f[i + 1]]);
      assert Fields(t)[i] == x;
    } else {
      var g := f[6 := f[6] + [SEPARATOR] + x][7 := y];
      JoinShifts(g, 6, f[6], x);
      assert g[6 := f[6]][7 := x + [SEPARATOR] + y] == f;
      t := FromFields(g);
      assert Fields(t)[7] == y;
    }
  }

  /** The key of a snapshot identifies its fields among all snapshots if and only if they contain no separator. */
  lemma KeyIdentifiesPlainFields(s: Snapshot)
    ensures (forall t | SourceKey(t) == SourceKey(s) :: Fields(t) == Fields(s)) <==> AllPlain(Fields(s))
  {
    if AllPlain(Fields(s)) {
      forall t | SourceKey(t) == SourceKey(s) ensures Fields(t) == Fields(s) {
        SameKeySameFields(s, t);
      }
    } else {
      var t := SeparatorMakesRoom(s);
      assert SourceKey(t) == SourceKey(s);
    }
  }
}
