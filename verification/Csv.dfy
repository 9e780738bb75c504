/**
  The CSV export of the lights analysis, and a reader of RFC 4180 section 2 (rules 5 to 7, with a
  line feed as the line break) that undoes it.
 */
module Csv {
  import opened Common
  import opened Text

  type Row = seq<string>

  // ---------------------------------------------------------------- the printer

  /** `cell.replace(/"/g, '""')`. */
  function Doubled(cell: string): string {
    if cell == [] then []
    else (if cell[0] == '"' then "\"\"" else [cell[0]]) + Doubled(cell[1..])
  }

  function Quoted(cell: string): string {
    "\"" + Doubled(cell) + "\""
  }

  function QuotedAll(cells: Row): (r: Row)
    ensures |r| == |cells|
    ensures forall i :: 0 <= i < |cells| ==> r[i] == Quoted(cells[i])
  {
    if cells == [] then [] else [Quoted(cells[0])] + QuotedAll(cells[1..])
  }

  function PrintRow(cells: Row): string
    requires cells != []
  {
    Join(QuotedAll(cells), ',')
  }

  function PrintRows(rows: seq<Row>): (r: seq<string>)
    requires forall i :: 0 <= i < |rows| ==> rows[i] != []
    ensures |r| == |rows|
  {
    if rows == [] then [] else [PrintRow(rows[0])] + PrintRows(rows[1..])
  }

  /** The whole file: headers as they are, cells quoted, no line break at the end. */
  function Print(headers: Row, rows: seq<Row>): string
    requires headers != [] && forall i :: 0 <= i < |rows| ==> rows[i] != []
  {
    Join([Join(headers, ',')] + PrintRows(rows), '\n')
  }

  const HEADERS: Row := [
    "Filename", "Date/Time", "Camera", "Filter", "Exposure", "Stars", "FWHM (px)", "Eccentricity", "SNR",
    "Frame SNR", "PSF Signal (ADU)", "SNR Weight", "Verdict"]

  // ---------------------------------------------------------------- the reader

  /** Where the reader is: at the start of a field, inside a bare one, inside a quoted one, or just past a quote inside one. */
  datatype Mode = Start | Bare | Inside | AfterQuote

  /** `None` when a quote stands where RFC 4180 allows none. */
  function Read(text: string, mode: Mode, field: string, row: Row, rows: seq<Row>): Option<seq<Row>>
    decreases |text|
  {
    if text == [] then
      if mode == Inside then None else Some(rows + [row + [field]])
    else
      var c, rest := text[0], text[1..];
      match mode
      case Inside =>
        if c == '"' then Read(rest, AfterQuote, field, row, rows) else Read(rest, Inside, field + [c], row, rows)
      case AfterQuote =>
        if c == '"' then Read(rest, Inside, field + [c], row, rows)
        else if c == ',' then Read(rest, Start, [], row + [field], rows)
        else if c == '\n' then Read(rest, Start, [], [], rows + [row + [field]])
        else None
      case _ =>
        if c == ',' then Read(rest, Start, [], row + [field], rows)
        else if c == '\n' then Read(rest, Start, [], [], rows + [row + [field]])
        else if c == '"' then (if mode == Start then Read(rest, Inside, [], row, rows) else None)
        else Read(rest, Bare, field + [c], row, rows)
  }

  /** The records of a file whose last record has no line break after it. */
  function Parse(text: string): Option<seq<Row>> {
    Read(text, Start, [], [], [])
  }

  // ---------------------------------------------------------------- reading what was printed

  /** A text that follows a field: nothing, or a comma or line feed and more. */
  predicate AfterField(tail: string) {
    tail == [] || tail[0] == ',' || tail[0] == '\n'
  }

  /** A field that may stand unquoted. */
  predicate Plain(field: string) {
    ',' !in field && '"' !in field && '\n' !in field
  }

  /** Past a complete field the reader looks only at the field's text. */
  function Finish(tail: string, field: string, row: Row, rows: seq<Row>): Option<seq<Row>>
    requires AfterField(tail)
  {
    if tail == [] then Some(rows + [row + [field]])
    else if tail[0] == ',' then Read(tail[1..], Start, [], row + [field], rows)
    else Read(tail[1..], Start, [], [], rows + [row + [field]])
  }

  lemma {:induction false} ReadInside(cell: string, tail: string, field: string, row: Row, rows: seq<Row>)
    requires AfterField(tail)
    ensures Read(Doubled(cell) + "\"" + tail, Inside, field, row, rows) == Finish(tail, field + cell, row, rows)
    decreases |cell|
  {
    var text := Doubled(cell) + "\"" + tail;
    if cell == [] {
      assert text[1..] == tail && field + cell == field;
    } else {
      var more := Doubled(cell[1..]) + "\"" + tail;
      ReadInside(cell[1..], tail, field + [cell[0]], row, rows);
      assert field + [cell[0]] + cell[1..] == field + cell;
      if cell[0] == '"' {
        assert text[1..] == "\"" + more && text[1..][1..] == more;
      } else {
        assert text[1..] == more;
      }
    }
  }

  lemma ReadQuoted(cell: string, tail: string, row: Row, rows: seq<Row>)
    requires AfterField(tail)
    ensures Read(Quoted(cell) + tail, Start, [], row, rows) == Finish(tail, cell, row, rows)
  {
    ReadInside(cell, tail, [], row, rows);
    assert (Quoted(cell) + tail)[1..] == Doubled(cell) + "\"" + tail;
    assert [] + cell == cell;
  }

  lemma {:induction false} ReadPlain(text: string, tail: string, mode: Mode, field: string, row: Row, rows: seq<Row>)
    requires AfterField(tail) && Plain(text) && (mode == Start || mode == Bare)
    ensures Read(text + tail, mode, field, row, rows) == Finish(tail, field + text, row, rows)
    decreases |text|
  {
    if text == [] {
      assert text + tail == tail && field + text == field;
    } else {
      ReadPlain(text[1..], tail, Bare, field + [text[0]], row, rows);
      assert (text + tail)[1..] == text[1..] + tail;
      assert field + [text[0]] + text[1..] == field + text;
    }
  }

  /** How a field is written. */
  function Written(field: string, quoted: bool): string {
    if quoted then Quoted(field) else field
  }

  function WrittenAll(fields: Row, quoted: bool): Row {
    if quoted then QuotedAll(fields) else fields
  }

  /** What follows a whole record. */
  predicate AfterRow(tail: string) {
    tail == [] || tail[0] == '\n'
  }

  function FinishRow(tail: string, row: Row, rows: seq<Row>): Option<seq<Row>>
    requires AfterRow(tail)
  {
    if tail == [] then Some(rows + [row]) else Read(tail[1..], Start, [], [], rows + [row])
  }

  lemma ReadField(field: string, quoted: bool, tail: string, row: Row, rows: seq<Row>)
    requires AfterField(tail) && (quoted || Plain(field))
    ensures Read(Written(field, quoted) + tail, Start, [], row, rows) == Finish(tail, field, row, rows)
  {
    if quoted {
      ReadQuoted(field, tail, row, rows);
    } else {
      ReadPlain(field, tail, Start, [], row, rows);
      assert [] + field == field;
    }
  }

  /** The first field of a record, and what follows it. */
  lemma RowSplits(fields: Row, quoted: bool, tail: string)
    requires fields != []
    ensures var w := WrittenAll(fields, quoted);
      var first := Written(fields[0], quoted);
      if |fields| == 1 then Join(w, ',') + tail == first + tail
      else var rest := Join(WrittenAll(fields[1..], quoted), ',') + tail;
        Join(w, ',') + tail == first + ("," + rest) && ("," + rest)[1..] == rest
  {
    var w := WrittenAll(fields, quoted);
    if |fields| > 1 {
      assert w[1..] == WrittenAll(fields[1..], quoted);
    }
  }

  /** Reading the last field of a record. */
  lemma ReadLastField(field: string, quoted: bool, tail: string, row: Row, rows: seq<Row>)
    requires AfterRow(tail) && (quoted || Plain(field))
    ensures Read(Written(field, quoted) + tail, Start, [], row, rows) == FinishRow(tail, row + [field], rows)
  {
    ReadField(field, quoted, tail, row, rows);
  }

  /** Reading past a field that is not the last. */
  lemma ReadPastField(field: string, quoted: bool, rest: string, row: Row, rows: seq<Row>)
    requires quoted || Plain(field)
    ensures Read(Written(field, quoted) + ("," + rest), Start, [], row, rows) == Read(rest, Start, [], row + [field], rows)
  {
    ReadField(field, quoted, "," + rest, row, rows);
    assert ("," + rest)[1..] == rest;
  }

  lemma {:induction false} ReadRow(fields: Row, quoted: bool, tail: string, row: Row, rows: seq<Row>)
    requires fields != [] && AfterRow(tail)
    requires quoted || forall i :: 0 <= i < |fields| ==> Plain(fields[i])
    ensures Read(Join(WrittenAll(fields, quoted), ',') + tail, Start, [], row, rows) == FinishRow(tail, row + fields, rows)
    decreases |fields|
  {
    var first, others := fields[0], fields[1..];
    RowSplits(fields, quoted, tail);
    if |fields| == 1 {
      ReadLastField(first, quoted, tail, row, rows);
      assert [first] == fields;
    } else {
      ReadPastField(first, quoted, Join(WrittenAll(others, quoted), ',') + tail, row, rows);
      ReadRow(others, quoted, tail, row + [first], rows);
      assert row + [first] + others == row + fields;
    }
  }

  lemma {:induction false} ReadRows(rows: seq<Row>, before: seq<Row>)
    requires rows != [] && forall i :: 0 <= i < |rows| ==> rows[i] != []
    ensures Read(Join(PrintRows(rows), '\n'), Start, [], [], before) == Some(before + rows)
    decreases |rows|
  {
    var lines := PrintRows(rows);
    var tail := if |rows| == 1 then [] else "\n" + Join(lines[1..], '\n');
    assert Join(lines, '\n') == PrintRow(rows[0]) + tail;
    ReadRow(rows[0], true, tail, [], before);
    assert [] + rows[0] == rows[0];
    if |rows| == 1 {
      assert before + [rows[0]] == before + rows;
    } else {
      ReadRows(rows[1..], before + [rows[0]]);
      assert lines[1..] == PrintRows(rows[1..]);
      assert tail[1..] == Join(lines[1..], '\n');
      assert before + [rows[0]] + rows[1..] == before + rows;
    }
  }

  /** A reader gets back the headers and exactly the cells of every row, whatever their texts. */
  lemma ReaderUndoesPrinter(headers: Row, rows: seq<Row>)
    requires headers != [] && forall i :: 0 <= i < |headers| ==> Plain(headers[i])
    requires forall i :: 0 <= i < |rows| ==> rows[i] != []
    ensures Parse(Print(headers, rows)) == Some([headers] + rows)
  {
    var lines := [Join(headers, ',')] + PrintRows(rows);
    var tail := if rows == [] then [] else "\n" + Join(PrintRows(rows), '\n');
    assert lines[1..] == PrintRows(rows);
    assert Print(headers, rows) == Join(headers, ',') + tail;
    ReadRow(headers, false, tail, [], []);
    assert [] + headers == headers && [] + [headers] == [headers];
    if rows == [] {
      assert [headers] + rows == [headers];
    } else {
      ReadRows(rows, [headers]);
      assert tail[1..] == Join(PrintRows(rows), '\n');
    }
  }

  lemma HeadersArePlain()
    ensures |HEADERS| == 13 && forall i :: 0 <= i < |HEADERS| ==> Plain(HEADERS[i])
  {
    FirstHeadersArePlain();
    LastHeadersArePlain();
  }

  lemma FirstHeadersArePlain()
    ensures forall i :: 0 <= i < 6 ==> Plain(HEADERS[i])
  {
  }

  lemma LastHeadersArePlain()
    ensures forall i :: 6 <= i < 13 ==> Plain(HEADERS[i])
  {
  }

  /** The thirteen headers of the export need no quotes, so every export reads back. */
  lemma ExportReadsBack(rows: seq<Row>)
    requires forall i :: 0 <= i < |rows| ==> |rows[i]| == |HEADERS|
    ensures Parse(Print(HEADERS, rows)) == Some([HEADERS] + rows)
  {
    HeadersArePlain();
    ReaderUndoesPrinter(HEADERS, rows);
  }

  /** Different tables never print the same file. */
  lemma PrintIsInjective(rows: seq<Row>, others: seq<Row>)
    requires forall i :: 0 <= i < |rows| ==> |rows[i]| == |HEADERS|
    requires forall i :: 0 <= i < |others| ==> |others[i]| == |HEADERS|
    requires Print(HEADERS, rows) == Print(HEADERS, others)
    ensures rows == others
  {
    ExportReadsBack(rows);
    ExportReadsBack(others);
    assert rows == ([HEADERS] + rows)[1..] == ([HEADERS] + others)[1..] == others;
  }
}
