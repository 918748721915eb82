/** The backup text: sections of tab-separated rows with escaped cells, and its hand-written reader. */
module Backup {
  import opened Csv

  type Cells = seq<string>

  datatype Section = Section(name: string, rows: seq<Cells>)

  // ----- Cells -----

  /** `value.replace(/c/g, sub)`. */
  function Replace(s: string, c: char, sub: string): string {
    if s == [] then [] else (if s[0] == c then sub else [s[0]]) + Replace(s[1..], c, sub)
  }

  function EscapeCell(value: string): string {
    Replace(Replace(Replace(Replace(value, '\\', "\\\\"), '\t', "\\t"), '\n', "\\n"), '\r', "\\r")
  }

  function EscapeChar(c: char): string {
    if c == '\\' then "\\\\" else if c == '\t' then "\\t" else if c == '\n' then "\\n" else if c == '\r' then "\\r" else [c]
  }

  function EscapeEach(s: string): string {
    if s == [] then [] else EscapeChar(s[0]) + EscapeEach(s[1..])
  }

  lemma {:induction false} ReplaceJoins(a: string, b: string, c: char, sub: string)
    ensures Replace(a + b, c, sub) == Replace(a, c, sub) + Replace(b, c, sub)
  {
    if a == [] {
      assert a + b == b;
    } else {
      ReplaceJoins(a[1..], b, c, sub);
      assert (a + b)[1..] == a[1..] + b;
    }
  }

  lemma ReplaceShort(c: char, d: char, sub: string)
    ensures Replace([c], d, sub) == if c == d then sub else [c]
  {
    assert [c][1..] == [];
  }

  /** The four replacements one after the other do what one pass over the characters does: none of them touches what
      an earlier one has put in. */
  lemma {:induction false} EscapeIsPerChar(s: string)
    ensures EscapeCell(s) == EscapeEach(s)
  {
    hide Replace;
    if s == [] {
      EscapeNothing();
    } else {
      EscapeIsPerChar(s[1..]);
      EscapeJoins([s[0]], s[1..]);
      EscapeOne(s[0]);
      assert s == [s[0]] + s[1..];
    }
  }

  lemma EscapeNothing()
    ensures EscapeCell([]) == []
  {
  }

  lemma EscapeJoins(a: string, b: string)
    ensures EscapeCell(a + b) == EscapeCell(a) + EscapeCell(b)
  {
    hide Replace;
    ReplaceJoins(a, b, '\\', "\\\\");
    var a1, b1 := Replace(a, '\\', "\\\\"), Replace(b, '\\', "\\\\");
    ReplaceJoins(a1, b1, '\t', "\\t");
    var a2, b2 := Replace(a1, '\t', "\\t"), Replace(b1, '\t', "\\t");
    ReplaceJoins(a2, b2, '\n', "\\n");
    ReplaceJoins(Replace(a2, '\n', "\\n"), Replace(b2, '\n', "\\n"), '\r', "\\r");
  }

  lemma ReplacePair(c: char, e: char, d: char, sub: string)
    requires c != d && e != d
    ensures Replace([c, e], d, sub) == [c, e]
  {
    assert [c, e] == [c] + [e];
    ReplaceJoins([c], [e], d, sub);
    ReplaceShort(c, d, sub);
    ReplaceShort(e, d, sub);
  }

  lemma EscapeOne(c: char)
    ensures EscapeCell([c]) == EscapeChar(c)
  {
    hide Replace;
    ReplaceShort(c, '\\', "\\\\");
    ReplaceShort(c, '\t', "\\t");
    ReplaceShort(c, '\n', "\\n");
    ReplaceShort(c, '\r', "\\r");
    ReplacePair('\\', '\\', '\t', "\\t");
    ReplacePair('\\', '\\', '\n', "\\n");
    ReplacePair('\\', '\\', '\r', "\\r");
    ReplacePair('\\', 't', '\n', "\\n");
    ReplacePair('\\', 't', '\r', "\\r");
    ReplacePair('\\', 'n', '\r', "\\r");
  }

  function WriteRow(cells: Cells): string {
    if cells == [] then []
    else if |cells| == 1 then EscapeCell(cells[0])
    else EscapeCell(cells[0]) + ['\t'] + WriteRow(cells[1..])
  }

  function UnescapeChar(c: char): char {
    if c == 't' then '\t' else if c == 'n' then '\n' else if c == 'r' then '\r' else c
  }

  /** What the reader makes of the rest of a line, given what it has so far. */
  function ReadRest(line: string, cells: Cells, cell: string, escaped: bool): Cells {
    if line == [] then cells + [cell]
    else
      var c := line[0];
      if escaped then ReadRest(line[1..], cells, cell + [UnescapeChar(c)], false)
      else if c == '\\' then ReadRest(line[1..], cells, cell, true)
      else if c == '\t' then ReadRest(line[1..], cells + [cell], [], false)
      else ReadRest(line[1..], cells, cell + [c], false)
  }

  method ReadRow(line: string) returns (cells: Cells)
    ensures cells == ReadRest(line, [], [], false)
  {
    cells := [];
    var cell: string, escaped, i := [], false, 0;
    while i < |line|
      invariant 0 <= i <= |line|
      invariant ReadRest(line[i..], cells, cell, escaped) == ReadRest(line, [], [], false)
    {
      var c := line[i];
      assert line[i..][1..] == line[i + 1..];
      i := i + 1;
      if escaped {
        cell, escaped := cell + [UnescapeChar(c)], false;
        continue;
      }
      if c == '\\' {
        escaped := true;
        continue;
      }
      if c == '\t' {
        cells, cell := cells + [cell], [];
        continue;
      }
      cell := cell + [c];
    }
    cells := cells + [cell];
  }

  lemma ReadsEscapedChar(c: char, rest: string, cells: Cells, cell: string)
    ensures ReadRest(EscapeChar(c) + rest, cells, cell, false) == ReadRest(rest, cells, cell + [c], false)
  {
    var text := EscapeChar(c) + rest;
    if |EscapeChar(c)| == 2 {
      assert text[1..][1..] == rest;
    } else {
      assert text[1..] == rest;
    }
  }

  /** An escaped cell is read back whole. */
  lemma {:induction false} ReadsCellBack(body: string, tail: string, cells: Cells, cell: string)
    ensures ReadRest(EscapeCell(body) + tail, cells, cell, false) == ReadRest(tail, cells, cell + body, false)
  {
    hide ReadRest, EscapeCell, EscapeChar;
    EscapeIsPerChar(body);
    if body == [] {
      assert EscapeEach(body) + tail == tail && cell + body == cell;
    } else {
      var rest := EscapeEach(body[1..]) + tail;
      EscapeIsPerChar(body[1..]);
      assert EscapeEach(body) + tail == EscapeChar(body[0]) + rest;
      ReadsEscapedChar(body[0], rest, cells, cell);
      ReadsCellBack(body[1..], tail, cells, cell + [body[0]]);
      assert cell + [body[0]] + body[1..] == cell + body;
    }
  }

  lemma ReadsTab(tail: string, cells: Cells, cell: string)
    ensures ReadRest(['\t'] + tail, cells, cell, false) == ReadRest(tail, cells + [cell], [], false)
  {
    assert (['\t'] + tail)[1..] == tail;
  }

  /** A written row of one or more cells is read back, whatever tabs, backslashes and line breaks they hold. */
  lemma {:induction false} ReadsRowBack(row: Cells, cells: Cells)
    requires row != []
    ensures ReadRest(WriteRow(row), cells, [], false) == cells + row
  {
    hide ReadRest, EscapeCell;
    if |row| == 1 {
      ReadsCellBack(row[0], [], cells, []);
      assert EscapeCell(row[0]) + [] == EscapeCell(row[0]) && [] + row[0] == row[0];
      ReadsLineEnd(cells, row[0]);
      assert cells + [row[0]] == cells + row;
    } else {
      var tail := ['\t'] + WriteRow(row[1..]);
      assert WriteRow(row) == EscapeCell(row[0]) + tail;
      ReadsCellBack(row[0], tail, cells, []);
      assert [] + row[0] == row[0];
      ReadsTab(WriteRow(row[1..]), cells, row[0]);
      ReadsRowBack(row[1..], cells + [row[0]]);
      assert cells + [row[0]] + row[1..] == cells + row;
    }
  }

  lemma ReadsLineEnd(cells: Cells, cell: string)
    ensures ReadRest([], cells, cell, false) == cells + [cell]
  {
  }

  // ----- Sections -----

  predicate NameChar(c: char) {
    'a' <= c <= 'z' || 'A' <= c <= 'Z' || '0' <= c <= '9' || c == '-'
  }

  predicate ValidName(s: string) {
    s != [] && forall i :: 0 <= i < |s| ==> NameChar(s[i])
  }

  /** /^\[([a-zA-Z0-9-]+)\]$/ */
  predicate IsHeader(line: string) {
    |line| >= 3 && line[0] == '[' && line[|line| - 1] == ']' && ValidName(line[1..|line| - 1])
  }

  predicate Has(sections: seq<Section>, name: string) {
    exists i :: 0 <= i < |sections| && sections[i].name == name
  }

  datatype Read = Sections(sections: seq<Section>) | DuplicateSection

  /** The lines of a text, read on from the sections so far; rows go to the last one, and before any they are skipped. */
  function ReadLines(lines: seq<string>, sections: seq<Section>): Read {
    if lines == [] then Sections(sections)
    else
      var line, rest := lines[0], lines[1..];
      if Blank(line) then ReadLines(rest, sections)
      else if IsHeader(line) then
        if Has(sections, line[1..|line| - 1]) then DuplicateSection
        else ReadLines(rest, sections + [Section(line[1..|line| - 1], [])])
      else if sections == [] then ReadLines(rest, sections)
      else ReadLines(rest, AddRow(sections, ReadRest(line, [], [], false)))
  }

  function AddRow(sections: seq<Section>, row: Cells): seq<Section>
    requires sections != []
  {
    var last := sections[|sections| - 1];
    sections[|sections| - 1 := last.(rows := last.rows + [row])]
  }

  method ReadSections(lines: seq<string>) returns (read: Read)
    ensures read == ReadLines(lines, [])
  {
    hide Blank, IsHeader, ReadRest, Has, AddRow;
    var sections: seq<Section>, i := [], 0;
    while i < |lines|
      invariant 0 <= i <= |lines|
      invariant ReadLines(lines[i..], sections) == ReadLines(lines, [])
    {
      var line := lines[i];
      assert lines[i..][1..] == lines[i + 1..];
      i := i + 1;
      if Blank(line) {
        continue;
      }
      if IsHeader(line) {
        HeaderIsLong(line);
        var name := line[1..|line| - 1];
        if Has(sections, name) {
          return DuplicateSection;
        }
        sections := sections + [Section(name, [])];
        continue;
      }
      if sections == [] {
        continue;
      }
      var row := ReadRow(line);
      sections := AddRow(sections, row);
    }
    read := Sections(sections);
  }

  lemma HeaderIsLong(line: string)
    requires IsHeader(line)
    ensures |line| >= 3
  {
  }

  // ----- Lines -----

  function JoinLines(lines: seq<string>): string {
    if lines == [] then [] else if |lines| == 1 then lines[0] else lines[0] + ['\n'] + JoinLines(lines[1..])
  }

  /** `split(/\r?\n/)`: what the rest of a text splits into, given the line so far. */
  function SplitRest(s: string, line: string): (lines: seq<string>)
    ensures lines != []
  {
    if s == [] then [line]
    else if s[0] == '\n' then [line] + SplitRest(s[1..], [])
    else if s[0] == '\r' && |s| > 1 && s[1] == '\n' then [line] + SplitRest(s[2..], [])
    else SplitRest(s[1..], line + [s[0]])
  }

  predicate OneLine(s: string) {
    forall i :: 0 <= i < |s| ==> s[i] != '\n' && s[i] != '\r'
  }

  lemma {:induction false} SplitsLine(body: string, tail: string, line: string)
    requires OneLine(body)
    ensures SplitRest(body + tail, line) == SplitRest(tail, line + body)
  {
    if body == [] {
      assert body + tail == tail && line + body == line;
    } else {
      assert (body + tail)[0] == body[0] && (body + tail)[1..] == body[1..] + tail;
      SplitsLine(body[1..], tail, line + [body[0]]);
      assert line + [body[0]] + body[1..] == line + body;
    }
  }

  /** Joined lines split into the same lines. */
  lemma {:induction false} SplitsJoined(lines: seq<string>)
    requires lines != [] && forall i :: 0 <= i < |lines| ==> OneLine(lines[i])
    ensures SplitRest(JoinLines(lines), []) == lines
  {
    hide OneLine;
    if |lines| == 1 {
      SplitsLine(lines[0], [], []);
      assert lines[0] + [] == lines[0] && [] + lines[0] == lines[0];
    } else {
      var rest := JoinLines(lines[1..]);
      assert JoinLines(lines) == lines[0] + (['\n'] + rest);
      SplitsLine(lines[0], ['\n'] + rest, []);
      assert (['\n'] + rest)[1..] == rest && [] + lines[0] == lines[0];
      SplitsJoined(lines[1..]);
    }
  }

  // ----- Printing -----

  function RowLines(rows: seq<Cells>): (lines: seq<string>)
    ensures |lines| == |rows| && forall i :: 0 <= i < |rows| ==> lines[i] == WriteRow(rows[i])
  {
    seq(|rows|, i requires 0 <= i < |rows| => WriteRow(rows[i]))
  }

  function HeaderLine(name: string): string {
    ['['] + name + [']']
  }

  function SectionLines(sections: seq<Section>): seq<string> {
    if sections == [] then []
    else [HeaderLine(sections[0].name)] + RowLines(sections[0].rows) + SectionLines(sections[1..])
  }

  function Print(magic: string, sections: seq<Section>): string {
    JoinLines([magic] + SectionLines(sections))
  }

  /** A row whose line the reader takes for a row. */
  predicate ReadsAsRow(row: Cells) {
    row != [] && !Blank(WriteRow(row)) && !IsHeader(WriteRow(row))
  }

  // ----- Round trip -----

  lemma {:induction false} EscapedIsOneLine(s: string)
    ensures OneLine(EscapeCell(s))
  {
    hide EscapeCell;
    EscapeIsPerChar(s);
    if s != [] {
      EscapedIsOneLine(s[1..]);
      EscapeIsPerChar(s[1..]);
    }
  }

  lemma {:induction false} RowIsOneLine(row: Cells)
    ensures OneLine(WriteRow(row))
  {
    hide EscapeCell;
    if row != [] {
      EscapedIsOneLine(row[0]);
      RowIsOneLine(row[1..]);
    }
  }

  /** Escaping leaves something to see of a cell that is not blank. */
  lemma {:induction false} EscapedNotBlank(s: string)
    requires !Blank(s)
    ensures !Blank(EscapeCell(s))
  {
    hide EscapeCell, IsSpace;
    EscapeIsPerChar(s);
    EscapeIsPerChar(s[1..]);
    VisibleChar(s[0]);
    var head, rest := EscapeChar(s[0]), EscapeEach(s[1..]);
    if IsSpace(s[0]) {
      EscapedNotBlank(s[1..]);
      var i :| 0 <= i < |rest| && !IsSpace(rest[i]);
      assert (head + rest)[|head| + i] == rest[i];
    } else {
      assert (head + rest)[0] == head[0];
    }
  }

  lemma VisibleChar(c: char)
    ensures !IsSpace(c) ==> EscapeChar(c) != [] && !IsSpace(EscapeChar(c)[0])
  {
  }

  /** A row of two or more cells with something in its first is always taken for a row. */
  lemma TwoCellsReadAsRow(row: Cells)
    requires |row| >= 2 && !Blank(row[0])
    ensures ReadsAsRow(row)
  {
    hide EscapeCell, IsSpace;
    EscapedNotBlank(row[0]);
    var head, line := EscapeCell(row[0]), WriteRow(row);
    assert line == head + (['\t'] + WriteRow(row[1..]));
    var i :| 0 <= i < |head| && !IsSpace(head[i]);
    assert line[i] == head[i];
    TabIsNoHeader(line, |head|);
  }

  lemma TabIsNoHeader(line: string, k: nat)
    requires k < |line| && line[k] == '\t'
    ensures !IsHeader(line)
  {
    if 0 < k < |line| - 1 {
      assert line[1..|line| - 1][k - 1] == '\t';
    }
  }

  function WithRows(sections: seq<Section>, rows: seq<Cells>): seq<Section>
    requires sections != []
  {
    var last := sections[|sections| - 1];
    sections[|sections| - 1 := last.(rows := last.rows + rows)]
  }

  lemma ReadsRowLine(row: Cells, rest: seq<string>, sections: seq<Section>)
    requires ReadsAsRow(row) && sections != []
    ensures ReadLines([WriteRow(row)] + rest, sections) == ReadLines(rest, AddRow(sections, row))
  {
    hide Blank, IsHeader, ReadRest, WriteRow, AddRow;
    assert ([WriteRow(row)] + rest)[1..] == rest;
    ReadsRowBack(row, []);
    assert [] + row == row;
  }

  lemma {:induction false} ReadsRowLines(rows: seq<Cells>, rest: seq<string>, sections: seq<Section>)
    requires sections != [] && forall i :: 0 <= i < |rows| ==> ReadsAsRow(rows[i])
    ensures ReadLines(RowLines(rows) + rest, sections) == ReadLines(rest, WithRows(sections, rows))
  {
    hide ReadLines, ReadsAsRow, WriteRow;
    if rows == [] {
      assert RowLines(rows) + rest == rest;
      var last := sections[|sections| - 1];
      assert last.rows + rows == last.rows && last.(rows := last.rows) == last;
      assert WithRows(sections, rows) == sections;
    } else {
      assert RowLines(rows) + rest == [WriteRow(rows[0])] + (RowLines(rows[1..]) + rest);
      ReadsRowLine(rows[0], RowLines(rows[1..]) + rest, sections);
      var longer := AddRow(sections, rows[0]);
      ReadsRowLines(rows[1..], rest, longer);
      var last := sections[|sections| - 1];
      assert last.rows + [rows[0]] + rows[1..] == last.rows + rows;
      assert WithRows(longer, rows[1..]) == WithRows(sections, rows);
    }
  }

  lemma ReadsHeaderLine(name: string, rest: seq<string>, sections: seq<Section>)
    requires ValidName(name) && !Has(sections, name)
    ensures ReadLines([HeaderLine(name)] + rest, sections) == ReadLines(rest, sections + [Section(name, [])])
  {
    hide Has;
    var line := HeaderLine(name);
    assert line[1..|line| - 1] == name;
    assert ([line] + rest)[1..] == rest;
    assert !IsSpace(line[0]);
  }

  predicate NamesDiffer(sections: seq<Section>) {
    forall i, j :: 0 <= i < j < |sections| ==> sections[i].name != sections[j].name
  }

  predicate Printable(sections: seq<Section>) {
    forall i :: 0 <= i < |sections| ==> ValidName(sections[i].name) && forall j :: 0 <= j < |sections[i].rows| ==> ReadsAsRow(sections[i].rows[j])
  }

  lemma {:induction false} ReadsSectionLines(sections: seq<Section>, before: seq<Section>)
    requires Printable(sections) && NamesDiffer(before + sections)
    ensures ReadLines(SectionLines(sections), before) == Sections(before + sections)
  {
    hide ReadLines, ReadsAsRow, ValidName;
    if sections == [] {
      NoLines(before);
      assert before + sections == before;
    } else {
      var s, rest := sections[0], SectionLines(sections[1..]);
      var begun := before + [Section(s.name, [])];
      assert !Has(before, s.name) by {
        assert (before + sections)[|before|] == s;
        assert forall i :: 0 <= i < |before| ==> (before + sections)[i] == before[i];
      }
      assert SectionLines(sections) == [HeaderLine(s.name)] + (RowLines(s.rows) + rest);
      ReadsHeaderLine(s.name, RowLines(s.rows) + rest, before);
      ReadsRowLines(s.rows, rest, begun);
      assert [] + s.rows == s.rows;
      assert WithRows(begun, s.rows) == before + [s];
      assert before + [s] + sections[1..] == before + sections;
      ReadsSectionLines(sections[1..], before + [s]);
    }
  }

  lemma NoLines(sections: seq<Section>)
    ensures ReadLines([], sections) == Sections(sections)
  {
  }

  /** Printing distinctly named sections and reading the text's lines after the first gives the same sections and
      rows: no row is taken for a header, split or lost, whatever its cells hold. */
  lemma BackupReadsBack(magic: string, sections: seq<Section>)
    requires OneLine(magic) && Printable(sections) && NamesDiffer(sections)
    ensures var lines := SplitRest(Print(magic, sections), []);
      lines[0] == magic && ReadLines(lines[1..], []) == Sections(sections)
  {
    hide OneLine, ReadLines, ReadsAsRow, ValidName;
    var lines := [magic] + SectionLines(sections);
    LinesAreSingle(sections);
    SplitsJoined(lines);
    assert lines[1..] == SectionLines(sections);
    assert [] + sections == sections;
    ReadsSectionLines(sections, []);
  }

  lemma {:induction false} LinesAreSingle(sections: seq<Section>)
    requires Printable(sections)
    ensures forall i :: 0 <= i < |SectionLines(sections)| ==> OneLine(SectionLines(sections)[i])
  {
    hide ReadsAsRow, OneLine, WriteRow;
    if sections != [] {
      HeaderIsOneLine(sections[0].name);
      LinesAreSingle(sections[1..]);
      forall j | 0 <= j < |sections[0].rows|
        ensures OneLine(RowLines(sections[0].rows)[j])
      {
        RowIsOneLine(sections[0].rows[j]);
      }
    }
  }

  lemma HeaderIsOneLine(name: string)
    requires ValidName(name)
    ensures OneLine(HeaderLine(name))
  {
  }

  /** One row under one header comes back exactly when it has a cell and its line is neither blank nor a header. */
  lemma RowReadsBackExactlyWhen(name: string, row: Cells)
    requires ValidName(name)
    ensures ReadLines([HeaderLine(name), WriteRow(row)], []) == Sections([Section(name, [row])]) <==> ReadsAsRow(row)
  {
    hide ReadLines, ReadRest, WriteRow, Blank, IsHeader, ValidName;
    var line, start := WriteRow(row), [Section(name, [])];
    assert [HeaderLine(name), line] == [HeaderLine(name)] + [line];
    assert !Has([], name);
    ReadsHeaderLine(name, [line], []);
    assert [] + [Section(name, [])] == start;
    if ReadsAsRow(row) {
      ReadsRowLine(row, [], start);
      assert [line] + [] == [line];
      NoLines(AddRow(start, row));
      assert [] + [row] == [row];
    } else {
      EmptyRowIsBlank();
      OtherLine(line, name);
    }
  }

  lemma EmptyRowIsBlank()
    ensures Blank(WriteRow([]))
  {
  }

  /** A blank or header line adds no row. */
  lemma OtherLine(line: string, name: string)
    requires Blank(line) || IsHeader(line)
    ensures forall row :: ReadLines([line], [Section(name, [])]) != Sections([Section(name, [row])])
  {
    hide Blank, IsHeader, ReadRest;
    assert [line][1..] == [];
    if IsHeader(line) {
      HeaderIsLong(line);
    }
  }

  predicate Opens(line: string) {
    !Blank(line) && IsHeader(line)
  }

  function NameOf(line: string): string
    requires IsHeader(line)
  {
    line[1..|line| - 1]
  }

  /** Line `i` is a header whose name a section or an earlier header already has. */
  ghost predicate Repeats(lines: seq<string>, sections: seq<Section>, i: int) {
    && 0 <= i < |lines| && Opens(lines[i])
    && (Has(sections, NameOf(lines[i])) || exists j :: 0 <= j < i && Opens(lines[j]) && NameOf(lines[j]) == NameOf(lines[i]))
  }

  lemma RepeatsLater(lines: seq<string>, sections: seq<Section>, after': seq<Section>, i: int)
    requires lines != [] && 0 <= i
    requires forall name :: Has(after', name) <==> Has(sections, name) || (Opens(lines[0]) && NameOf(lines[0]) == name)
    ensures Repeats(lines[1..], after', i) <==> Repeats(lines, sections, i + 1)
  {
    hide Blank, IsHeader, Has;
    var rest := lines[1..];
    if i < |rest| && Opens(rest[i]) {
      var name := NameOf(rest[i]);
      if j :| 0 <= j < i && Opens(rest[j]) && NameOf(rest[j]) == name {
        assert lines[j + 1] == rest[j];
      }
      if j :| 0 <= j < i + 1 && Opens(lines[j]) && NameOf(lines[j]) == name {
        assert j > 0 ==> lines[j] == rest[j - 1];
      }
    }
  }

  lemma AddRowKeepsNames(sections: seq<Section>, row: Cells)
    requires sections != []
    ensures forall name :: Has(AddRow(sections, row), name) <==> Has(sections, name)
  {
    var longer := AddRow(sections, row);
    forall name
      ensures Has(longer, name) <==> Has(sections, name)
    {
      if i :| 0 <= i < |sections| && sections[i].name == name {
        assert longer[i].name == name;
      }
      if i :| 0 <= i < |longer| && longer[i].name == name {
        assert sections[i].name == name;
      }
    }
  }

  lemma AddSectionAddsName(sections: seq<Section>, name: string)
    ensures forall n :: Has(sections + [Section(name, [])], n) <==> Has(sections, n) || n == name
  {
    var longer := sections + [Section(name, [])];
    assert longer[|sections|].name == name;
    forall n | Has(sections, n)
      ensures Has(longer, n)
    {
      var i :| 0 <= i < |sections| && sections[i].name == n;
      assert longer[i].name == n;
    }
  }

  /** A text is refused exactly when a header repeats a name. */
  lemma {:induction false} RefusedIffRepeated(lines: seq<string>, sections: seq<Section>)
    ensures ReadLines(lines, sections).DuplicateSection? <==> exists i :: Repeats(lines, sections, i)
    decreases |lines|
  {
    hide Blank, IsHeader, Has, ReadRest, AddRow, Repeats;
    if lines == [] {
      NoLineRepeats(sections);
    } else {
      var line, rest := lines[0], lines[1..];
      FirstRepeats(lines, sections);
      if Opens(line) && Has(sections, NameOf(line)) {
        assert Repeats(lines, sections, 0);
      } else {
        var next := if Opens(line) then sections + [Section(NameOf(line), [])]
                    else if Blank(line) || sections == [] then sections
                    else AddRow(sections, ReadRest(line, [], [], false));
        if Opens(line) {
          AddSectionAddsName(sections, NameOf(line));
        } else if !Blank(line) && sections != [] {
          AddRowKeepsNames(sections, ReadRest(line, [], [], false));
        }
        RefusedIffRepeated(rest, next);
        ShiftedRepeats(lines, sections, next);
      }
    }
  }

  lemma ShiftedRepeats(lines: seq<string>, sections: seq<Section>, next: seq<Section>)
    requires lines != [] && !Repeats(lines, sections, 0)
    requires forall name :: Has(next, name) <==> Has(sections, name) || (Opens(lines[0]) && NameOf(lines[0]) == name)
    ensures (exists i :: Repeats(lines, sections, i)) <==> exists i :: Repeats(lines[1..], next, i)
  {
    hide Repeats, Has;
    if i :| Repeats(lines, sections, i) {
      RepeatsInRange(lines, sections, i);
      RepeatsLater(lines, sections, next, i - 1);
    }
    if i :| Repeats(lines[1..], next, i) {
      RepeatsInRange(lines[1..], next, i);
      RepeatsLater(lines, sections, next, i);
    }
  }

  lemma RepeatsInRange(lines: seq<string>, sections: seq<Section>, i: int)
    requires Repeats(lines, sections, i)
    ensures 0 <= i < |lines|
  {
  }

  lemma NoLineRepeats(sections: seq<Section>)
    ensures !exists i :: Repeats([], sections, i)
  {
  }

  lemma FirstRepeats(lines: seq<string>, sections: seq<Section>)
    requires lines != []
    ensures Repeats(lines, sections, 0) <==> Opens(lines[0]) && Has(sections, NameOf(lines[0]))
  {
    hide Blank, IsHeader, Has;
  }
}
