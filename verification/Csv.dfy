/** The hand-written CSV reader (android/src/local/thesaint/app/SaintData.java, `parseCsv`). */
module Csv {

  // The reader between two characters: rows done, cells of the row begun, the cell begun, and whether inside quotes.
  datatype State = State(rows: seq<seq<string>>, row: seq<string>, field: string, quoted: bool)

  const START := State([], [], "", false)

  function EndCell(s: State): State {
    s.(row := s.row + [s.field], field := "")
  }

  function EndRow(s: State): State {
    var t := EndCell(s);
    t.(rows := t.rows + [t.row], row := [])
  }

  /** What one step reads: two characters for a doubled quote inside quotes, else one. */
  function Width(s: State, text: string): nat
    requires text != ""
  {
    if s.quoted && |text| > 1 && text[0] == '"' && text[1] == '"' then 2 else 1
  }

  function Step(s: State, text: string): State
    requires text != ""
  {
    var c := text[0];
    if s.quoted then
      if c != '"' then s.(field := s.field + [c])
      else if Width(s, text) == 2 then s.(field := s.field + ['"'])
      else s.(quoted := false)
    else if c == '"' then s.(quoted := true)
    else if c == ',' then EndCell(s)
    else if c == '\r' then s
    else if c == '\n' then EndRow(s)
    else s.(field := s.field + [c])
  }

  function Feed(s: State, text: string): State
    decreases |text|
  {
    if text == "" then s else Feed(Step(s, text), text[Width(s, text)..])
  }

  /** A row that the text does not end is kept unless it is empty so far. */
  function Finish(s: State): seq<seq<string>> {
    if s.field != "" || s.row != [] then s.rows + [s.row + [s.field]] else s.rows
  }

  method ParseCsv(text: string) returns (rows: seq<seq<string>>)
    ensures rows == Finish(Feed(START, text))
  {
    rows := [];
    var row: seq<string> := [];
    var field := "";
    var inQuotes := false;
    var i, n := 0, |text|;
    assert text[0..] == text;
    while i < n
      invariant 0 <= i <= n
      invariant Feed(State(rows, row, field, inQuotes), text[i..]) == Feed(START, text)
    {
      ghost var rest := text[i..];
      ghost var s := State(rows, row, field, inQuotes);
      assert rest[1..] == text[i + 1..] && (|rest| > 1 ==> rest[2..] == text[i + 2..] && rest[1] == text[i + 1]);
      var c := text[i];
      if inQuotes {
        if c == '"' {
          if i + 1 < n && text[i + 1] == '"' {
            field := field + ['"'];
            i := i + 2;
            continue;
          }
          inQuotes := false;
          i := i + 1;
          continue;
        }
        field := field + [c];
        i := i + 1;
        continue;
      }
      if c == '"' {
        inQuotes := true;
      } else if c == ',' {
        row := row + [field];
        field := "";
      } else if c == '\n' {
        row := row + [field];
        field := "";
        rows := rows + [row];
        row := [];
      } else if c != '\r' {
        field := field + [c];
      }
      i := i + 1;
    }
    assert text[n..] == "";
    if field != "" || row != [] {
      row := row + [field];
      rows := rows + [row];
    }
  }

  // ---- writing with the quoting rules of section 2 of RFC 4180, and beyond ----

  // A stretch of a cell written plain or between quotes. A cell may mix them.
  datatype Piece = Plain(text: string) | Quoted(text: string)

  type Cell = seq<Piece>

  // Between quotes everything can be written; outside them a carriage return is dropped.
  predicate WritablePiece(p: Piece) {
    p.Plain? ==> forall ch :: ch in p.text ==> ch != '"' && ch != ',' && ch != '\n'
  }

  // Quotes that are closed must not be opened again at once: that would read as a doubled quote.
  predicate Writable(c: Cell) {
    && (forall i :: 0 <= i < |c| ==> WritablePiece(c[i]))
    && (forall i :: 0 < i < |c| && c[i - 1].Quoted? ==> c[i].Plain? && c[i].text != "")
  }

  function WithoutReturns(text: string): string {
    if text == "" then ""
    else (if text[0] == '\r' then "" else [text[0]]) + WithoutReturns(text[1..])
  }

  function PieceText(p: Piece): string {
    if p.Plain? then WithoutReturns(p.text) else p.text
  }

  /** What a cell says, however it is written. */
  function TextOf(c: Cell): string {
    if c == [] then "" else PieceText(c[0]) + TextOf(c[1..])
  }

  // Each writer puts its text in front of what is already there.
  function Escaped(text: string, rest: string): string {
    if text == "" then rest
    else if text[0] == '"' then ['"', '"'] + Escaped(text[1..], rest)
    else [text[0]] + Escaped(text[1..], rest)
  }

  function WrittenPiece(p: Piece, rest: string): string {
    if p.Plain? then p.text + rest else ['"'] + Escaped(p.text, ['"'] + rest)
  }

  function WrittenCell(c: Cell, rest: string): string {
    if c == [] then rest else WrittenPiece(c[0], WrittenCell(c[1..], rest))
  }

  function WrittenCells(cells: seq<Cell>, rest: string): string
    requires cells != []
  {
    if |cells| == 1 then WrittenCell(cells[0], rest) else WrittenCell(cells[0], [','] + WrittenCells(cells[1..], rest))
  }

  datatype Ending = LF | CRLF

  function Written(e: Ending, rest: string): string {
    if e.LF? then ['\n'] + rest else ['\r', '\n'] + rest
  }

  datatype Line = Line(cells: seq<Cell>, ending: Ending)

  predicate WritableRow(cells: seq<Cell>) {
    cells != [] && forall i :: 0 <= i < |cells| ==> Writable(cells[i])
  }

  ghost predicate WritableTable(lines: seq<Line>) {
    forall i :: 0 <= i < |lines| ==> WritableRow(lines[i].cells)
  }

  function WrittenTable(lines: seq<Line>, rest: string): string
    requires WritableTable(lines)
  {
    if lines == [] then rest
    else WrittenCells(lines[0].cells, Written(lines[0].ending, WrittenTable(lines[1..], rest)))
  }

  function Values(cells: seq<Cell>): seq<string> {
    seq(|cells|, i requires 0 <= i < |cells| => TextOf(cells[i]))
  }

  function Table(lines: seq<Line>): seq<seq<string>> {
    seq(|lines|, i requires 0 <= i < |lines| => Values(lines[i].cells))
  }

  // ---- reading back what was written ----

  // What may follow a cell: the end of the text, a comma or a line end, so never a quote.
  predicate Separated(rest: string) {
    rest == "" || rest[0] == ',' || rest[0] == '\r' || rest[0] == '\n'
  }

  function AfterPlain(s: State, ch: char): State {
    if ch == '\r' then s else s.(field := s.field + [ch])
  }

  lemma ReadPlainChar(s: State, ch: char, rest: string)
    requires !s.quoted && ch != '"' && ch != ',' && ch != '\n'
    ensures Feed(s, [ch] + rest) == Feed(AfterPlain(s, ch), rest)
  {
    assert ([ch] + rest)[1..] == rest;
  }

  lemma PlainGrows(s: State, text: string)
    requires text != ""
    ensures AfterPlain(s, text[0]).field + WithoutReturns(text[1..]) == s.field + WithoutReturns(text)
  {
    Regrouped(s.field, if text[0] == '\r' then "" else [text[0]], WithoutReturns(text[1..]));
    assert s.field + "" == s.field;
  }

  lemma Regrouped(a: string, b: string, c: string)
    ensures (a + b) + c == a + (b + c)
  {
  }

  lemma {:induction false} ReadPlain(s: State, text: string, rest: string)
    requires !s.quoted && WritablePiece(Plain(text))
    ensures Feed(s, text + rest) == Feed(s.(field := s.field + WithoutReturns(text)), rest)
    decreases |text|
  {
    if text == "" {
      assert text + rest == rest && s.field + WithoutReturns(text) == s.field;
    } else {
      assert text[0] in text;
      assert text + rest == [text[0]] + (text[1..] + rest);
      assert forall ch :: ch in text[1..] ==> ch in text;
      ReadPlainChar(s, text[0], text[1..] + rest);
      ReadPlain(AfterPlain(s, text[0]), text[1..], rest);
      PlainGrows(s, text);
    }
  }

  lemma {:induction false} ReadEscaped(s: State, text: string, rest: string)
    requires s.quoted && (rest != "" ==> rest[0] != '"')
    ensures Feed(s, Escaped(text, ['"'] + rest)) == Feed(s.(field := s.field + text, quoted := false), rest)
    decreases |text|
  {
    var whole := Escaped(text, ['"'] + rest);
    if text == "" {
      assert whole[1..] == rest && s.field + text == s.field;
    } else {
      var next := s.(field := s.field + [text[0]]);
      assert next.field + text[1..] == s.field + text;
      assert whole[if text[0] == '"' then 2 else 1..] == Escaped(text[1..], ['"'] + rest);
      ReadEscaped(next, text[1..], rest);
    }
  }

  lemma ReadPiece(s: State, p: Piece, rest: string)
    requires !s.quoted && WritablePiece(p) && (p.Quoted? && rest != "" ==> rest[0] != '"')
    ensures Feed(s, WrittenPiece(p, rest)) == Feed(s.(field := s.field + PieceText(p)), rest)
  {
    if p.Plain? {
      ReadPlain(s, p.text, rest);
    } else {
      assert WrittenPiece(p, rest)[1..] == Escaped(p.text, ['"'] + rest);
      ReadEscaped(s.(quoted := true), p.text, rest);
    }
  }

  lemma {:induction false} ReadCell(s: State, c: Cell, rest: string)
    requires !s.quoted && Writable(c) && Separated(rest)
    ensures Feed(s, WrittenCell(c, rest)) == Feed(s.(field := s.field + TextOf(c)), rest)
    decreases |c|
  {
    if c == [] {
      assert s.field + TextOf(c) == s.field;
    } else {
      var more := WrittenCell(c[1..], rest);
      var next := s.(field := s.field + PieceText(c[0]));
      if c[0].Quoted? { NoQuoteNext(c, rest); }
      ReadPiece(s, c[0], more);
      RestIsWritable(c);
      ReadCell(next, c[1..], rest);
      TextGrows(s.field, c);
    }
  }

  lemma RestIsWritable(c: Cell)
    requires c != [] && Writable(c)
    ensures Writable(c[1..])
  {
    var d := c[1..];
    forall i | 0 < i < |d| && d[i - 1].Quoted? ensures d[i].Plain? && d[i].text != "" {
      assert c[i].Quoted? && d[i] == c[i + 1];
    }
  }

  lemma TextGrows(field: string, c: Cell)
    requires c != []
    ensures (field + PieceText(c[0])) + TextOf(c[1..]) == field + TextOf(c)
  {
    Regrouped(field, PieceText(c[0]), TextOf(c[1..]));
  }

  lemma NoQuoteNext(c: Cell, rest: string)
    requires c != [] && c[0].Quoted? && Writable(c) && Separated(rest)
    ensures WrittenCell(c[1..], rest) != "" ==> WrittenCell(c[1..], rest)[0] != '"'
  {
    if |c| > 1 {
      assert c[1].text[0] in c[1].text;
      assert WrittenCell(c[1..], rest)[0] == c[1].text[0];
    }
  }

  lemma ReadComma(s: State, rest: string)
    requires !s.quoted
    ensures Feed(s, [','] + rest) == Feed(EndCell(s), rest)
  {
  }

  // One cell that another follows.
  lemma ReadCellAndComma(s: State, c: Cell, rest: string)
    requires !s.quoted && s.field == "" && Writable(c)
    ensures Feed(s, WrittenCell(c, [','] + rest)) == Feed(s.(row := s.row + [TextOf(c)]), rest)
  {
    ReadCell(s, c, [','] + rest);
    assert s.field + TextOf(c) == TextOf(c);
    ReadComma(s.(field := TextOf(c)), rest);
    assert EndCell(s.(field := TextOf(c))) == s.(row := s.row + [TextOf(c)]);
  }

  lemma {:induction false} ReadCells(s: State, cells: seq<Cell>, rest: string)
    requires !s.quoted && s.field == "" && WritableRow(cells) && Separated(rest)
    ensures Feed(s, WrittenCells(cells, rest))
            == Feed(s.(row := s.row + Values(cells[..|cells| - 1]), field := TextOf(cells[|cells| - 1])), rest)
    decreases |cells|
  {
    if |cells| == 1 {
      ReadCell(s, cells[0], rest);
      assert s.row + Values(cells[..0]) == s.row && s.field + TextOf(cells[0]) == TextOf(cells[0]);
    } else {
      ReadCellAndComma(s, cells[0], WrittenCells(cells[1..], rest));
      ReadCells(s.(row := s.row + [TextOf(cells[0])]), cells[1..], rest);
      assert cells[1..][|cells| - 2] == cells[|cells| - 1];
      RowSoFar(s.row, cells);
    }
  }

  lemma RowSoFar(row: seq<string>, cells: seq<Cell>)
    requires |cells| > 1
    ensures (row + [TextOf(cells[0])]) + Values(cells[1..][..|cells| - 2]) == row + Values(cells[..|cells| - 1])
  {
  }

  lemma ReadEnding(s: State, e: Ending, rest: string)
    requires !s.quoted
    ensures Feed(s, Written(e, rest)) == Feed(EndRow(s), rest)
  {
  }

  lemma WholeRow(cells: seq<Cell>)
    requires cells != []
    ensures [] + Values(cells[..|cells| - 1]) + [TextOf(cells[|cells| - 1])] == Values(cells)
  {
  }

  lemma ReadLine(rows: seq<seq<string>>, line: Line, rest: string)
    requires WritableRow(line.cells)
    ensures Feed(State(rows, [], "", false), WrittenCells(line.cells, Written(line.ending, rest)))
            == Feed(State(rows + [Values(line.cells)], [], "", false), rest)
  {
    var s := State(rows, [], "", false);
    var n := |line.cells| - 1;
    ReadCells(s, line.cells, Written(line.ending, rest));
    ReadEnding(s.(row := s.row + Values(line.cells[..n]), field := TextOf(line.cells[n])), line.ending, rest);
    WholeRow(line.cells);
  }

  lemma FirstOfTable(rows: seq<seq<string>>, lines: seq<Line>)
    requires lines != []
    ensures rows + [Values(lines[0].cells)] + Table(lines[1..]) == rows + Table(lines)
  {
  }

  lemma {:induction false} ReadTable(rows: seq<seq<string>>, lines: seq<Line>, rest: string)
    requires WritableTable(lines)
    ensures Feed(State(rows, [], "", false), WrittenTable(lines, rest)) ==
              Feed(State(rows + Table(lines), [], "", false), rest)
    decreases |lines|
  {
    if lines == [] {
      assert rows + Table(lines) == rows;
    } else {
      ReadLine(rows, lines[0], WrittenTable(lines[1..], rest));
      ReadTable(rows + [Values(lines[0].cells)], lines[1..], rest);
      FirstOfTable(rows, lines);
    }
  }

  /** Every table of non-empty rows, each cell written plain, quoted or partly so as the writer likes and each row ended
      by LF or CRLF, is read back unchanged, whatever commas, quotes and line ends its quoted parts hold; outside
      quotes carriage returns are dropped. */
  lemma RoundTrip(lines: seq<Line>)
    requires WritableTable(lines)
    ensures Finish(Feed(START, WrittenTable(lines, ""))) == Table(lines)
  {
    ReadFirstTable(lines, "");
  }

  lemma ReadFirstTable(lines: seq<Line>, rest: string)
    requires WritableTable(lines)
    ensures Feed(START, WrittenTable(lines, rest)) == Feed(State(Table(lines), [], "", false), rest)
  {
    ReadTable([], lines, rest);
    assert [] + Table(lines) == Table(lines);
  }

  lemma ReadLastCells(rows: seq<seq<string>>, last: seq<Cell>)
    requires WritableRow(last)
    ensures Feed(State(rows, [], "", false), WrittenCells(last, "")) ==
            State(rows, Values(last[..|last| - 1]), TextOf(last[|last| - 1]), false)
  {
    ReadCells(State(rows, [], "", false), last, "");
    assert [] + Values(last[..|last| - 1]) == Values(last[..|last| - 1]);
  }

  /** A last row without a line end is read back too, except for one: a row of a single empty cell is lost. */
  lemma UnendedRowSurvivesExactlyWhen(lines: seq<Line>, last: seq<Cell>)
    requires WritableTable(lines) && WritableRow(last)
    ensures var read := Finish(Feed(START, WrittenTable(lines, WrittenCells(last, ""))));
            && (read == Table(lines) + [Values(last)] <==> Values(last) != [""])
            && (Values(last) == [""] ==> read == Table(lines))
  {
    ReadFirstTable(lines, WrittenCells(last, ""));
    ReadLastCells(Table(lines), last);
    FinishRow(Table(lines), last);
    assert |Table(lines) + [Values(last)]| == |Table(lines)| + 1;
  }

  lemma FinishRow(rows: seq<seq<string>>, last: seq<Cell>)
    requires last != []
    ensures var n := |last| - 1;
            var kept := Finish(State(rows, Values(last[..n]), TextOf(last[n]), false));
            kept == if Values(last) == [""] then rows else rows + [Values(last)]
  {
    var n := |last| - 1;
    assert Values(last[..n]) + [TextOf(last[n])] == Values(last);
    assert Values(last)[n] == TextOf(last[n]);
    if n == 0 { assert Values(last) == [TextOf(last[0])]; }
  }
}
