/** The quoted table of the budget export (the format of section 2 of RFC 4180) and its hand-written scanner. */
module Csv {

  /** What String.prototype.trim takes for white space. */
  predicate IsSpace(c: char) {
    || '\U{9}' <= c <= '\U{D}' || c == ' ' || c == '\U{A0}' || c == '\U{1680}' || '\U{2000}' <= c <= '\U{200A}'
    || c == '\U{2028}' || c == '\U{2029}' || c == '\U{202F}' || c == '\U{205F}' || c == '\U{3000}' || c == '\U{FEFF}'
  }

  predicate Blank(s: string) {
    forall i :: 0 <= i < |s| ==> IsSpace(s[i])
  }

  type Row = seq<string>

  // ----- Printing -----

  /** Quotes are doubled. */
  function Doubled(cell: string): string {
    if cell == [] then [] else (if cell[0] == '"' then ['"', '"'] else [cell[0]]) + Doubled(cell[1..])
  }

  function FormatCell(cell: string): string {
    ['"'] + Doubled(cell) + ['"']
  }

  function FormatCsvRow(row: Row): string {
    if row == [] then []
    else if |row| == 1 then FormatCell(row[0])
    else FormatCell(row[0]) + [','] + FormatCsvRow(row[1..])
  }

  function Print(rows: seq<Row>): string {
    if rows == [] then []
    else if |rows| == 1 then FormatCsvRow(rows[0])
    else FormatCsvRow(rows[0]) + ['\r', '\n'] + Print(rows[1..])
  }

  // ----- Scanning -----

  datatype Table = Rows(rows: seq<Row>) | UnclosedQuote

  /** What the scanner makes of the rest of a text, given what it has so far. */
  function Scan(s: string, rows: seq<Row>, row: Row, cell: string, inQuotes: bool): Table {
    if s == [] then
      if inQuotes then UnclosedQuote
      else Rows(if cell != [] || row != [] then rows + [row + [cell]] else rows)
    else
      var c := s[0];
      if c == '"' && inQuotes && |s| > 1 && s[1] == '"' then Scan(s[2..], rows, row, cell + ['"'], inQuotes)
      else if c == '"' then Scan(s[1..], rows, row, cell, !inQuotes)
      else if c == ',' && !inQuotes then Scan(s[1..], rows, row + [cell], [], false)
      else if (c == '\n' || c == '\r') && !inQuotes then
        Scan(if c == '\r' && |s| > 1 && s[1] == '\n' then s[2..] else s[1..], rows + [row + [cell]], [], [], false)
      else Scan(s[1..], rows, row, cell + [c], inQuotes)
  }

  predicate AllBlank(row: Row) {
    forall i :: 0 <= i < |row| ==> Blank(row[i])
  }

  /** The rows with something in them. */
  function Kept(rows: seq<Row>): seq<Row> {
    if rows == [] then []
    else Kept(rows[..|rows| - 1]) + if AllBlank(rows[|rows| - 1]) then [] else [rows[|rows| - 1]]
  }

  function KeptTable(t: Table): Table {
    if t.Rows? then Rows(Kept(t.rows)) else t
  }

  method ParseCsv(csv: string) returns (table: Table)
    ensures table == KeptTable(Scan(csv, [], [], [], false))
  {
    var rows: seq<Row>, row: Row, cell: string, inQuotes, index := [], [], [], false, 0;
    while index < |csv|
      invariant 0 <= index <= |csv|
      invariant Scan(csv[index..], rows, row, cell, inQuotes) == Scan(csv, [], [], [], false)
    {
      var c := csv[index];
      var rest := csv[index..];
      assert rest[1..] == csv[index + 1..];
      if |rest| > 1 {
        assert rest[2..] == csv[index + 2..];
      }
      if c == '"' && inQuotes && index + 1 < |csv| && csv[index + 1] == '"' {
        cell := cell + ['"'];
        index := index + 1;
      } else if c == '"' {
        inQuotes := !inQuotes;
      } else if c == ',' && !inQuotes {
        row, cell := row + [cell], [];
      } else if (c == '\n' || c == '\r') && !inQuotes {
        if c == '\r' && index + 1 < |csv| && csv[index + 1] == '\n' {
          index := index + 1;
        }
        rows, row, cell := rows + [row + [cell]], [], [];
      } else {
        cell := cell + [c];
      }
      index := index + 1;
    }
    if inQuotes {
      return UnclosedQuote;
    }
    if cell != [] || row != [] {
      rows := rows + [row + [cell]];
    }
    table := Rows(Kept(rows));
  }

  // ----- Round trip -----

  lemma ReadsQuotedChar(c: char, rest: string, rows: seq<Row>, row: Row, cell: string)
    ensures c != '"' ==> Scan([c] + rest, rows, row, cell, true) == Scan(rest, rows, row, cell + [c], true)
    ensures Scan(['"', '"'] + rest, rows, row, cell, true) == Scan(rest, rows, row, cell + ['"'], true)
    ensures rest == [] || rest[0] != '"' ==> Scan(['"'] + rest, rows, row, cell, true) == Scan(rest, rows, row, cell, false)
  {
    assert ([c] + rest)[1..] == rest && (['"'] + rest)[1..] == rest && (['"', '"'] + rest)[2..] == rest;
  }

  /** Inside quotes a doubled cell is read back up to its closing quote. */
  lemma {:induction false} ReadsQuoted(body: string, tail: string, rows: seq<Row>, row: Row, cell: string)
    requires tail == [] || tail[0] != '"'
    ensures Scan(Doubled(body) + ['"'] + tail, rows, row, cell, true) == Scan(tail, rows, row, cell + body, false)
  {
    hide Scan;
    var text := Doubled(body) + ['"'] + tail;
    if body == [] {
      ReadsQuotedChar('"', tail, rows, row, cell);
      assert text == ['"'] + tail;
      assert cell + body == cell;
    } else {
      var rest := Doubled(body[1..]) + ['"'] + tail;
      ReadsQuotedChar(body[0], rest, rows, row, cell);
      ReadsQuoted(body[1..], tail, rows, row, cell + [body[0]]);
      assert cell + [body[0]] + body[1..] == cell + body;
      assert text == (if body[0] == '"' then ['"', '"'] else [body[0]]) + rest;
    }
  }

  lemma ReadsCell(body: string, tail: string, rows: seq<Row>, row: Row)
    requires tail == [] || tail[0] != '"'
    ensures Scan(FormatCell(body) + tail, rows, row, [], false) == Scan(tail, rows, row, body, false)
  {
    var text := FormatCell(body) + tail;
    assert text == ['"'] + (Doubled(body) + ['"'] + tail);
    assert text[1..] == Doubled(body) + ['"'] + tail;
    ReadsQuoted(body, tail, rows, row, []);
    assert [] + body == body;
  }

  lemma ReadsComma(tail: string, rows: seq<Row>, row: Row, cell: string)
    ensures Scan([','] + tail, rows, row, cell, false) == Scan(tail, rows, row + [cell], [], false)
  {
    assert ([','] + tail)[1..] == tail;
  }

  lemma ReadsBreak(tail: string, rows: seq<Row>, row: Row, cell: string)
    ensures Scan(['\r', '\n'] + tail, rows, row, cell, false) == Scan(tail, rows + [row + [cell]], [], [], false)
  {
    assert (['\r', '\n'] + tail)[2..] == tail;
  }

  lemma ReadsEnd(rows: seq<Row>, row: Row, cell: string)
    ensures Scan([], rows, row, cell, false) == Rows(if cell != [] || row != [] then rows + [row + [cell]] else rows)
  {
  }

  lemma {:induction false} ReadsRow(cells: Row, tail: string, rows: seq<Row>, row: Row)
    requires cells != [] && (tail == [] || tail[0] != '"')
    ensures Scan(FormatCsvRow(cells) + tail, rows, row, [], false)
         == Scan(tail, rows, row + cells[..|cells| - 1], cells[|cells| - 1], false)
  {
    hide Scan, FormatCell;
    if |cells| == 1 {
      ReadsCell(cells[0], tail, rows, row);
      assert row + cells[..0] == row;
    } else {
      var rest := FormatCsvRow(cells[1..]) + tail;
      assert FormatCsvRow(cells) + tail == FormatCell(cells[0]) + ([','] + rest);
      ReadsCell(cells[0], [','] + rest, rows, row);
      ReadsComma(rest, rows, row, cells[0]);
      ReadsRow(cells[1..], tail, rows, row + [cells[0]]);
      assert row + [cells[0]] + cells[1..][..|cells| - 2] == row + cells[..|cells| - 1];
    }
  }

  /** An empty row prints as nothing and comes back, before a line break, as one empty cell. */
  function AsRead(row: Row): Row {
    if row == [] then [""] else row
  }

  lemma ReadsLine(r: Row, rest: string, rows: seq<Row>)
    ensures Scan(FormatCsvRow(r) + (['\r', '\n'] + rest), rows, [], [], false) == Scan(rest, rows + [AsRead(r)], [], [], false)
  {
    hide Scan, FormatCell;
    var tail := ['\r', '\n'] + rest;
    if r == [] {
      assert FormatCsvRow(r) + tail == tail;
      ReadsBreak(rest, rows, [], []);
      assert [] + [[]] == [""];
    } else {
      ReadsRow(r, tail, rows, []);
      ReadsBreak(rest, rows, [] + r[..|r| - 1], r[|r| - 1]);
      assert [] + r[..|r| - 1] + [r[|r| - 1]] == r;
    }
  }

  /** The last line has no line break; an empty last row, or one of a single empty cell, is not read at all. */
  lemma ReadsLastLine(r: Row, rows: seq<Row>)
    ensures Scan(FormatCsvRow(r), rows, [], [], false) == Rows(if r == [] || r == [""] then rows else rows + [r])
  {
    hide Scan, FormatCell;
    if r == [] {
      ReadsEnd(rows, [], []);
    } else {
      ReadsRow(r, [], rows, []);
      assert FormatCsvRow(r) + [] == FormatCsvRow(r);
      ReadsEnd(rows, [] + r[..|r| - 1], r[|r| - 1]);
      assert [] + r[..|r| - 1] + [r[|r| - 1]] == r;
    }
  }

  lemma {:induction false} KeptJoins(a: seq<Row>, b: seq<Row>)
    ensures Kept(a + b) == Kept(a) + Kept(b)
  {
    hide AllBlank;
    if b == [] {
      assert a + b == a;
    } else {
      KeptJoins(a, b[..|b| - 1]);
      assert (a + b)[..|a + b| - 1] == a + b[..|b| - 1];
    }
  }

  lemma KeptOne(row: Row)
    ensures Kept([row]) == if AllBlank(row) then [] else [row]
  {
    assert [row][..0] == [];
  }

  lemma BlankRows()
    ensures AllBlank([]) && AllBlank([""])
  {
  }

  lemma {:induction false} ReadsRows(table: seq<Row>, rows: seq<Row>)
    ensures KeptTable(Scan(Print(table), rows, [], [], false)) == Rows(Kept(rows) + Kept(table))
  {
    hide AllBlank, Scan, FormatCsvRow, Kept;
    BlankRows();
    if table == [] {
      ReadsEnd(rows, [], []);
      KeptJoins(rows, table);
      assert rows + table == rows;
    } else if |table| == 1 {
      ReadsLastLine(table[0], rows);
      KeptOne(table[0]);
      KeptJoins(rows, table);
      assert table == [table[0]];
    } else {
      var r, rest := table[0], Print(table[1..]);
      assert Print(table) == FormatCsvRow(r) + (['\r', '\n'] + rest);
      ReadsLine(r, rest, rows);
      ReadsRows(table[1..], rows + [AsRead(r)]);
      KeptJoins(rows, [AsRead(r)]);
      KeptOne(AsRead(r));
      KeptOne(r);
      KeptJoins([r], table[1..]);
      assert table == [r] + table[1..];
      assert Kept(rows) + Kept([r]) + Kept(table[1..]) == Kept(rows) + (Kept([r]) + Kept(table[1..]));
    }
  }

  /** Printing any rows and scanning the text gives back exactly the rows that are not all blank, whatever quotes,
      commas and line breaks the cells hold. */
  lemma {:induction false} ParsePrinted(table: seq<Row>)
    ensures KeptTable(Scan(Print(table), [], [], [], false)) == Rows(Kept(table))
  {
    hide Scan, AllBlank;
    ReadsRows(table, []);
    assert Kept([]) + Kept(table) == Kept(table);
  }

  lemma {:induction false} KeptExactly(table: seq<Row>, row: Row)
    ensures row in Kept(table) <==> row in table && !AllBlank(row)
  {
    hide AllBlank;
    if table != [] {
      KeptExactly(table[..|table| - 1], row);
      assert table == table[..|table| - 1] + [table[|table| - 1]];
    }
  }

  function Quotes(s: string): nat {
    if s == [] then 0 else (if s[0] == '"' then 1 else 0) + Quotes(s[1..])
  }

  /** A text is refused exactly when it has an odd number of quotes. */
  lemma {:induction false} RefusedIffOddQuotes(s: string, rows: seq<Row>, row: Row, cell: string, inQuotes: bool)
    ensures Scan(s, rows, row, cell, inQuotes).UnclosedQuote? <==> (Quotes(s) + if inQuotes then 1 else 0) % 2 == 1
    decreases |s|
  {
    if s != [] {
      var c := s[0];
      if c == '"' && inQuotes && |s| > 1 && s[1] == '"' {
        assert s[1..][1..] == s[2..];
        RefusedIffOddQuotes(s[2..], rows, row, cell + ['"'], inQuotes);
      } else if c == '"' {
        RefusedIffOddQuotes(s[1..], rows, row, cell, !inQuotes);
      } else if c == ',' && !inQuotes {
        RefusedIffOddQuotes(s[1..], rows, row + [cell], [], false);
      } else if (c == '\n' || c == '\r') && !inQuotes {
        if c == '\r' && |s| > 1 && s[1] == '\n' {
          assert s[1..][1..] == s[2..];
          RefusedIffOddQuotes(s[2..], rows + [row + [cell]], [], [], false);
        } else {
          RefusedIffOddQuotes(s[1..], rows + [row + [cell]], [], [], false);
        }
      } else {
        RefusedIffOddQuotes(s[1..], rows, row, cell + [c], inQuotes);
      }
    }
  }
}
