/**
 * The slice of the xlsx library the exporters use: an array of rows becomes a sheet
 * (`aoa_to_sheet`), sheets are appended to a workbook one by one (`book_append_sheet`),
 * and the workbook is saved under a file name (`writeFile`). A saved file is modelled
 * as its name and its sheets.
 */
module Spreadsheet {
  import opened Wrappers
  import opened Seqs
  import opened Text

  /** A cell holds a string or a number, as the exporters' row arrays do. */
  datatype Cell = Str(text: string) | Number(value: int)

  type Row = seq<Cell>

  datatype Sheet = Sheet(name: string, rows: seq<Row>)

  datatype SavedFile = SavedFile(filename: string, sheets: seq<Sheet>)

  /** Every row has the width of the first (header) row. */
  predicate Rectangular(rows: seq<Row>) {
    forall i :: 0 <= i < |rows| ==> |rows[i]| == |rows[0]|
  }

  /** `[header, ...records.map(rowOf)]`: a header row and one row per record, in order. */
  function Table<T>(header: Row, records: seq<T>, rowOf: T -> Row): (r: seq<Row>)
    ensures |r| == 1 + |records| && r[0] == header
    ensures forall i :: 0 <= i < |records| ==> r[i + 1] == rowOf(records[i])
  {
    [header] + Map(records, rowOf)
  }

  /** When every record row is as wide as the header, so is the whole table. */
  lemma TableIsRectangular<T>(header: Row, records: seq<T>, rowOf: T -> Row)
    requires forall x :: |rowOf(x)| == |header|
    ensures Rectangular(Table(header, records, rowOf))
  {
    var r := Table(header, records, rowOf);
    forall i | 0 <= i < |r| ensures |r[i]| == |r[0]| {
      if i > 0 { assert r[i] == rowOf(records[i - 1]); }
    }
  }

  /** No two columns of a header row share a heading. */
  predicate Headings(header: Row) {
    forall j, k :: 0 <= j < k < |header| ==> header[j] != header[k]
  }

  /** The cell of `row` in the first column of `header` headed `heading`, if there is one. */
  function CellUnder(header: Row, row: Row, heading: string): (r: Option<Cell>)
    ensures r.Some? ==> exists i :: 0 <= i < |header| && (i < |row|) && header[i] == Str(heading) && row[i] == r.value
  {
    if header == [] || row == [] then None
    else if header[0] == Str(heading) then Some(row[0])
    else
      var r := CellUnder(header[1..], row[1..], heading);
      if r.Some? then
        var i :| 0 <= i < |header[1..]| && (i < |row[1..]|) && header[1..][i] == Str(heading) && row[1..][i] == r.value;
        assert header[i + 1] == Str(heading) && row[i + 1] == r.value;
        r
      else r
  }

  /** Under distinct headings, the cell headed by column `i`'s heading is the `i`-th cell. */
  lemma {:induction false} CellUnderAt(header: Row, row: Row, heading: string, i: nat)
    requires i < |header| && i < |row| && header[i] == Str(heading) && Headings(header)
    ensures CellUnder(header, row, heading) == Some(row[i])
  {
    if i > 0 {
      assert header[0] != header[i];
      assert header[1..][i - 1] == header[i];
      CellUnderAt(header[1..], row[1..], heading, i - 1);
    }
  }

  /** The names of a workbook's sheets, in order. */
  function Names(sheets: seq<Sheet>): (r: seq<string>)
    ensures |r| == |sheets| && forall i :: 0 <= i < |sheets| ==> r[i] == sheets[i].name
  {
    if sheets == [] then [] else [sheets[0].name] + Names(sheets[1..])
  }

  lemma {:induction false} NamesAppend(a: seq<Sheet>, b: seq<Sheet>)
    ensures Names(a + b) == Names(a) + Names(b)
  {
    if a != [] {
      assert (a + b)[1..] == a[1..] + b;
      NamesAppend(a[1..], b);
    }
  }

  /**
   * `<prefix>${new Date().toISOString().replace(/[:.]/g, "-")}.xlsx`: the prefix, the
   * timestamp with every colon and point turned into a dash, and the extension.
   */
  function StampedFileName(prefix: string, isoNow: string): (r: string)
    ensures |r| == |prefix| + |isoNow| + 5
    ensures r[..|prefix|] == prefix && r[|prefix| + |isoNow|..] == ".xlsx"
    ensures ':' !in r[|prefix|..|prefix| + |isoNow|] && '.' !in r[|prefix|..|prefix| + |isoNow|]
    ensures forall i :: 0 <= i < |isoNow| && isoNow[i] != ':' && isoNow[i] != '.' ==> r[|prefix| + i] == isoNow[i]
    ensures forall i :: 0 <= i < |isoNow| && (isoNow[i] == ':' || isoNow[i] == '.') ==> r[|prefix| + i] == '-'
  {
    var stamp := ReplaceColonsAndDots(isoNow);
    assert (prefix + stamp + ".xlsx")[|prefix|..|prefix| + |isoNow|] == stamp;
    prefix + stamp + ".xlsx"
  }

  /**
   * `format(new Date(d), 'yyyy-MM-dd')`: the formatted date, or `None` where the date is
   * invalid and the call throws.
   */
  type DateFormatter = string -> Option<string>

  /** Every record's date can be formatted, so building the rows does not throw. */
  predicate AllFormattable<T>(records: seq<T>, date: T -> string, format: DateFormatter) {
    forall i :: 0 <= i < |records| ==> format(date(records[i])).Some?
  }

  /** A workbook being assembled: `book_new()` and `book_append_sheet(wb, sheet, name)`. */
  class Workbook {
    var sheets: seq<Sheet>

    constructor ()
      ensures sheets == []
    {
      sheets := [];
    }

    method AppendSheet(rows: seq<Row>, name: string)
      modifies this
      ensures sheets == old(sheets) + [Sheet(name, rows)]
    {
      sheets := sheets + [Sheet(name, rows)];
    }
  }
}
