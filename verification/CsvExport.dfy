/**
 The CSV exports. Printing quotes what needs quoting; reading follows the quoting rules of section 2 of
 RFC 4180 with a line feed between records. Usage and budget exports also guard against formulas.
 */
module CsvExport {
  import opened Text
  import opened Wrappers

  type Row = seq<string>
  type Table = seq<Row>

  // ---- Printing -------------------------------------------------------------------------------

  function Cell(value: Option<string>): string {
    value.GetOr("")
  }

  predicate IsFormula(text: string) {
    text != "" && text[0] in {'=', '+', '-', '@'}
  }

  function Guard(text: string): string {
    if IsFormula(text) then "'" + text else text
  }

  predicate NeedsQuotes(text: string) {
    '"' in text || ',' in text || '\n' in text
  }

  function Doubled(text: string): string {
    if text == "" then ""
    else (if text[0] == '"' then "\"\"" else [text[0]]) + Doubled(text[1..])
  }

  function Escape(text: string): string {
    if NeedsQuotes(text) then "\"" + Doubled(text) + "\"" else text
  }

  function Line(row: Row): string {
    Join(seq(|row|, i requires 0 <= i < |row| => Escape(row[i])), ',')
  }

  function Print(table: Table): string {
    Join(seq(|table|, i requires 0 <= i < |table| => Line(table[i])), '\n')
  }

  function Guarded(row: seq<Option<string>>): Row {
    seq(|row|, i requires 0 <= i < |row| => Guard(Cell(row[i])))
  }

  function GuardedTable(columns: seq<Option<string>>, rows: seq<seq<Option<string>>>): Table {
    [Guarded(columns)] + seq(|rows|, i requires 0 <= i < |rows| => Guarded(rows[i]))
  }

  /** The text of a usage or budget export. */
  function ExportRows(columns: seq<Option<string>>, rows: seq<seq<Option<string>>>): string {
    Print(GuardedTable(columns, rows))
  }

  // ---- Reading ----------------------------------------------------------------------------------

  datatype Read<T> = Read(value: T, rest: string)

  function ReadPlain(s: string): (r: Option<Read<string>>)
    ensures r.Some? ==> |r.value.rest| <= |s|
  {
    if s == "" || s[0] == ',' || s[0] == '\n' then Some(Read("", s))
    else if s[0] == '"' then None
    else
      match ReadPlain(s[1..])
      case None => None
      case Some(tail) => Some(Read([s[0]] + tail.value, tail.rest))
  }

  /** What follows the opening quote. */
  function ReadQuoted(s: string): (r: Option<Read<string>>)
    ensures r.Some? ==> |r.value.rest| <= |s|
  {
    if s == "" then None
    else if s[0] == '"' && (|s| == 1 || s[1] != '"') then Some(Read("", s[1..]))
    else
      var width := if s[0] == '"' then 2 else 1;
      match ReadQuoted(s[width..])
      case None => None
      case Some(tail) => Some(Read([s[0]] + tail.value, tail.rest))
  }

  function ReadField(s: string): (r: Option<Read<string>>)
    ensures r.Some? ==> |r.value.rest| <= |s|
  {
    if s != "" && s[0] == '"' then ReadQuoted(s[1..]) else ReadPlain(s)
  }

  function ReadRecord(s: string): (r: Option<Read<Row>>)
    ensures r.Some? ==> |r.value.rest| <= |s| && r.value.value != []
    ensures r.Some? && r.value.rest != "" ==> r.value.rest[0] == '\n'
    decreases |s|
  {
    match ReadField(s)
    case None => None
    case Some(field) =>
      if field.rest == "" || field.rest[0] == '\n' then Some(Read([field.value], field.rest))
      else if field.rest[0] == ',' then
        match ReadRecord(field.rest[1..])
        case None => None
        case Some(tail) => Some(Read([field.value] + tail.value, tail.rest))
      else None
  }

  function ReadTable(s: string): (r: Option<Table>)
    ensures r.Some? ==> r.value != [] && forall row | row in r.value :: row != []
    decreases |s|
  {
    match ReadRecord(s)
    case None => None
    case Some(record) =>
      if record.rest == "" then Some([record.value])
      else
        match ReadTable(record.rest[1..])
        case None => None
        case Some(tail) => Some([record.value] + tail)
  }

  // ---- Reading back what was printed ----------------------------------------------------------------

  predicate EndsField(rest: string) {
    rest == "" || rest[0] == ',' || rest[0] == '\n'
  }

  lemma {:induction false} PlainReadsBack(text: string, rest: string)
    requires !NeedsQuotes(text) && EndsField(rest)
    ensures ReadPlain(text + rest) == Some(Read(text, rest))
    decreases |text|
  {
    if text == "" {
      assert text + rest == rest;
    } else {
      assert (text + rest)[1..] == text[1..] + rest;
      PlainReadsBack(text[1..], rest);
      assert text == [text[0]] + text[1..];
    }
  }

  lemma {:induction false} QuotedReadsBack(text: string, rest: string)
    requires EndsField(rest)
    ensures ReadQuoted(Doubled(text) + "\"" + rest) == Some(Read(text, rest))
    decreases |text|
  {
    var s := Doubled(text) + "\"" + rest;
    if text == "" {
      assert s == "\"" + rest;
      assert s[1..] == rest;
    } else {
      QuotedReadsBack(text[1..], rest);
      var tail := Doubled(text[1..]) + "\"" + rest;
      assert text == [text[0]] + text[1..];
      if text[0] == '"' {
        assert s == "\"\"" + tail;
        assert s[2..] == tail;
      } else {
        assert s == [text[0]] + tail;
        assert s[1..] == tail;
      }
      hide Doubled;
    }
  }

  lemma FieldReadsBack(text: string, rest: string)
    requires EndsField(rest)
    ensures ReadField(Escape(text) + rest) == Some(Read(text, rest))
  {
    hide ReadPlain, ReadQuoted, Doubled;
    if NeedsQuotes(text) {
      QuotedReadsBack(text, rest);
      assert (Escape(text) + rest)[1..] == Doubled(text) + "\"" + rest;
    } else {
      PlainReadsBack(text, rest);
      assert text != "" ==> text[0] in text;
    }
  }

  lemma LineSteps(row: Row)
    ensures |row| == 1 ==> Line(row) == Escape(row[0])
    ensures |row| > 1 ==> Line(row) == Escape(row[0]) + "," + Line(row[1..])
  {
    var parts := seq(|row|, i requires 0 <= i < |row| => Escape(row[i]));
    if |row| > 1 {
      var tail := row[1..];
      assert parts[1..] == seq(|tail|, i requires 0 <= i < |tail| => Escape(tail[i]));
    }
  }

  lemma {:induction false} RecordReadsBack(row: Row, rest: string)
    requires row != [] && (rest == "" || rest[0] == '\n')
    ensures ReadRecord(Line(row) + rest) == Some(Read(row, rest))
    decreases |row|
  {
    LineSteps(row);
    hide Line, Escape, ReadField;
    if |row| == 1 {
      FieldReadsBack(row[0], rest);
      assert row == [row[0]];
    } else {
      var tail := "," + (Line(row[1..]) + rest);
      assert Line(row) + rest == Escape(row[0]) + tail;
      FieldReadsBack(row[0], tail);
      RecordReadsBack(row[1..], rest);
      assert tail[1..] == Line(row[1..]) + rest;
      assert row == [row[0]] + row[1..];
    }
  }

  lemma PrintSteps(table: Table)
    ensures |table| == 1 ==> Print(table) == Line(table[0])
    ensures |table| > 1 ==> Print(table) == Line(table[0]) + "\n" + Print(table[1..])
  {
    hide Line;
    var lines := seq(|table|, i requires 0 <= i < |table| => Line(table[i]));
    if |table| > 1 {
      var tail := table[1..];
      assert lines[1..] == seq(|tail|, i requires 0 <= i < |tail| => Line(tail[i]));
    }
  }

  predicate AllFilled(table: Table) {
    forall row | row in table :: row != []
  }

  lemma {:induction false} TableReadsBack(table: Table)
    requires table != [] && AllFilled(table)
    ensures ReadTable(Print(table)) == Some(table)
    decreases |table|
  {
    PrintSteps(table);
    hide Line, Print;
    assert table[0] in table;
    if |table| == 1 {
      RecordReadsBack(table[0], "");
      assert Line(table[0]) + "" == Line(table[0]);
      assert table == [table[0]];
    } else {
      var tail := "\n" + Print(table[1..]);
      assert Print(table) == Line(table[0]) + tail;
      RecordReadsBack(table[0], tail);
      forall row | row in table[1..] ensures row != [] {
        assert row in table;
      }
      TableReadsBack(table[1..]);
      assert tail[1..] == Print(table[1..]);
      assert table == [table[0]] + table[1..];
    }
  }

  /** A printed table reads back as itself if and only if it has rows and every row has cells. */
  lemma PrintedTableReadsBack(table: Table)
    ensures ReadTable(Print(table)) == Some(table) <==> table != [] && AllFilled(table)
  {
    if table != [] && AllFilled(table) {
      TableReadsBack(table);
    }
  }

  /** The export reads back as its guarded cells if and only if no row is empty. */
  lemma ExportReadsBack(columns: seq<Option<string>>, rows: seq<seq<Option<string>>>)
    ensures ReadTable(ExportRows(columns, rows)) == Some(GuardedTable(columns, rows)) <==>
            columns != [] && forall row | row in rows :: row != []
  {
    hide Print, ReadTable, Guard;
    var table := GuardedTable(columns, rows);
    PrintedTableReadsBack(table);
    assert table[0] == Guarded(columns);
    assert forall i | 0 <= i < |rows| :: table[i + 1] == Guarded(rows[i]);
    if columns != [] && forall row | row in rows :: row != [] {
      forall row | row in table ensures row != [] {
        var i :| 0 <= i < |table| && table[i] == row;
        if i > 0 {
          assert rows[i - 1] in rows;
        }
      }
    } else if columns == [] {
      assert table[0] == [] && table[0] in table;
    } else {
      var row :| row in rows && row == [];
      var i :| 0 <= i < |rows| && rows[i] == row;
      assert table[i + 1] == [] && table[i + 1] in table;
    }
  }

  /** Equal exports have equal guarded cells. */
  lemma ExportDeterminesTheCells(
    columnsA: seq<Option<string>>, rowsA: seq<seq<Option<string>>>,
    columnsB: seq<Option<string>>, rowsB: seq<seq<Option<string>>>)
    requires columnsA != [] && columnsB != [] && (forall row | row in rowsA + rowsB :: row != [])
    requires ExportRows(columnsA, rowsA) == ExportRows(columnsB, rowsB)
    ensures GuardedTable(columnsA, rowsA) == GuardedTable(columnsB, rowsB)
  {
    hide ExportRows, GuardedTable;
    assert forall row | row in rowsA :: row in rowsA + rowsB;
    assert forall row | row in rowsB :: row in rowsA + rowsB;
    ExportReadsBack(columnsA, rowsA);
    ExportReadsBack(columnsB, rowsB);
  }

  /** Two cells share their guarded form only when one is the other with the guard already in front. */
  lemma GuardIsAlmostInjective(a: string, b: string)
    ensures Guard(a) == Guard(b) <==> a == b || (IsFormula(a) && b == "'" + a) || (IsFormula(b) && a == "'" + b)
  {
    if Guard(a) == Guard(b) && IsFormula(a) && IsFormula(b) {
      assert Guard(a)[1..] == a && Guard(b)[1..] == b;
    }
  }

  /** A cell is printed as it is unless it contains a quote, a comma or a line feed; then it is put in quotes. */
  lemma QuotesOnlyWhereNeeded(text: string)
    ensures (forall i | 0 <= i < |text| :: text[i] != '"' && text[i] != ',' && text[i] != '\n') ==> Escape(text) == text
    ensures (exists i | 0 <= i < |text| :: text[i] == '"' || text[i] == ',' || text[i] == '\n') ==>
              |Escape(text)| >= 2 && Escape(text)[0] == '"' && Escape(text)[|Escape(text)| - 1] == '"'
  {
    hide Doubled;
  }

  /** The characters with which a spreadsheet takes a cell for a formula. */
  predicate StartsFormula(text: string) {
    text != "" && (text[0] == '=' || text[0] == '+' || text[0] == '-' || text[0] == '@')
  }

  /** No cell read back starts like a formula: such cells come back with a quote in front, all others as they are. */
  lemma NoCellIsAFormula(columns: seq<Option<string>>, rows: seq<seq<Option<string>>>, i: nat, j: nat)
    requires columns != [] && forall row | row in rows :: row != []
    requires var table := ReadTable(ExportRows(columns, rows)); table.Some? && i < |table.value| && j < |table.value[i]|
    ensures var cell := ReadTable(ExportRows(columns, rows)).value[i][j];
            var cells := if i == 0 then columns else if i <= |rows| then rows[i - 1] else [];
            && j < |cells| && !StartsFormula(cell)
            && cell == if StartsFormula(cells[j].GetOr("")) then "'" + cells[j].GetOr("") else cells[j].GetOr("")
  {
    hide ExportRows, ReadTable;
    ExportReadsBack(columns, rows);
    var cells := if i == 0 then columns else rows[i - 1];
    assert GuardedTable(columns, rows)[i] == Guarded(cells);
    assert Guarded(cells)[j] == Guard(Cell(cells[j]));
  }
}
