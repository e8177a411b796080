// Sheet rows to CSV-style rows (src/lib/excel-parser.ts). The reading of
// the file and the sheet-to-array conversion belong to the spreadsheet
// library: a workbook here is its sheet names and, per sheet, the array of
// raw rows that conversion produced from the chosen header row on.

module ExcelParser {
  import opened Common
  import CsvParser

  /** A raw row: an array of cells, or anything else the library returned. */
  datatype RawRow = Cells(cells: seq<JsValue>) | NotArray

  datatype Workbook = Workbook(sheetNames: seq<string>, sheets: map<string, seq<RawRow>>)

  /** `String(h || '').trim()`: a header cell. */
  function HeaderText(h: JsValue): (r: string)
    ensures NoEdgeSpace(r)
    ensures !Truthy(h) ==> r == ""
  {
    Trim(TextOrEmpty(h))
  }

  /** `String(value ?? '').trim()`: a data cell; a missing cell reads as ''. */
  function CellText(cells: seq<JsValue>, c: nat): (r: string)
    ensures NoEdgeSpace(r)
    ensures c >= |cells| || cells[c].Undefined? || cells[c].Null? ==> r == ""
  {
    if c < |cells| && !cells[c].Undefined? && !cells[c].Null? then Trim(JsString(cells[c])) else ""
  }

  function HeaderTexts(cells: seq<JsValue>): (r: seq<string>)
    ensures |r| == |cells|
    ensures forall c :: 0 <= c < |cells| ==> r[c] == HeaderText(cells[c])
  {
    seq(|cells|, c requires 0 <= c < |cells| => HeaderText(cells[c]))
  }

  /** The cell texts under each header position. */
  function CellTexts(cells: seq<JsValue>, n: nat): (r: seq<string>)
    ensures |r| == n
    ensures forall c :: 0 <= c < n ==> r[c] == CellText(cells, c)
  {
    seq(n, c requires 0 <= c < n => CellText(cells, c))
  }

  /** The row object of one raw row: each header mapped to the text of its column. */
  function RowFor(headers: seq<string>, cells: seq<JsValue>): Record<string>
  {
    CsvParser.RowOf(headers, CellTexts(cells, |headers|))
  }

  /** `Object.values(row).some(v => v !== '')`. */
  predicate HasData(row: Record<string>)
  {
    exists k :: 0 <= k < |row| && row[k].1 != ""
  }

  /** The rows kept from the raw data rows: arrays only, with some non-empty value, in order. */
  function SheetRows(headers: seq<string>, raw: seq<RawRow>): seq<Record<string>>
  {
    if raw == [] then []
    else
      var rest := SheetRows(headers, raw[..|raw| - 1]);
      match raw[|raw| - 1]
      case NotArray => rest
      case Cells(cells) => if HasData(RowFor(headers, cells)) then rest + [RowFor(headers, cells)] else rest
  }

  function SheetPrefix(sheetName: string): string
  {
    "Failed to parse Excel sheet \"" + sheetName + "\": "
  }

  /** What parseExcelSheet returns or throws. */
  function SheetResult(wb: Workbook, sheetName: string): Result<seq<Record<string>>>
  {
    if sheetName !in wb.sheets then
      Err(SheetPrefix(sheetName) + "Sheet \"" + sheetName + "\" not found in Excel file")
    else
      var raw := wb.sheets[sheetName];
      if raw == [] then Ok([])
      else match raw[0]
        case NotArray => Err(SheetPrefix(sheetName) + "Invalid Excel format: first row must contain headers")
        case Cells(h) => Ok(SheetRows(HeaderTexts(h), raw[1..]))
  }

  /** parseExcelSheet: the header row, then the loop over the data rows. */
  method ParseExcelSheet(wb: Workbook, sheetName: string) returns (r: Result<seq<Record<string>>>)
    ensures r == SheetResult(wb, sheetName)
  {
    if sheetName !in wb.sheets {
      return Err(SheetPrefix(sheetName) + "Sheet \"" + sheetName + "\" not found in Excel file");
    }
    var raw := wb.sheets[sheetName];
    if |raw| == 0 {
      return Ok([]);
    }
    if raw[0].NotArray? {
      return Err(SheetPrefix(sheetName) + "Invalid Excel format: first row must contain headers");
    }
    var rows := DataRows(HeaderTexts(raw[0].cells), raw[1..]);
    r := Ok(rows);
  }

  /** The loop over the data rows: arrays only, kept when some value is non-empty. */
  method DataRows(headers: seq<string>, raw: seq<RawRow>) returns (rows: seq<Record<string>>)
    ensures rows == SheetRows(headers, raw)
  {
    rows := [];
    var i := 0;
    while i < |raw|
      invariant 0 <= i <= |raw|
      invariant rows == SheetRows(headers, raw[..i])
    {
      assert raw[..i + 1][..i] == raw[..i];
      if raw[i].Cells? {
        var row := BuildRow(headers, raw[i].cells);
        if HasData(row) {
          rows := rows + [row];
        }
      }
      i := i + 1;
    }
    assert raw[..i] == raw;
  }

  /** The `headers.forEach` that fills one row object. */
  method BuildRow(headers: seq<string>, cells: seq<JsValue>) returns (row: Record<string>)
    ensures row == RowFor(headers, cells)
  {
    var texts := CellTexts(cells, |headers|);
    row := [];
    var c := 0;
    while c < |headers|
      invariant 0 <= c <= |headers|
      invariant row == CsvParser.RowOf(headers[..c], texts)
    {
      assert headers[..c + 1][..c] == headers[..c];
      row := Put(row, headers[c], CellText(cells, c));
      c := c + 1;
    }
    assert headers[..c] == headers;
  }

  const FilePrefix := "Failed to parse Excel file: "

  /** parseExcel: checks the sheet index, then parses that sheet; every failure is rewrapped. */
  function ParseExcel(wb: Workbook, sheetIndex: nat): (r: Result<seq<Record<string>>>)
    ensures |wb.sheetNames| == 0 ==> r == Err(FilePrefix + "Excel file contains no sheets")
    ensures 0 < |wb.sheetNames| <= sheetIndex ==>
              r == Err(FilePrefix + "Sheet index " + IntToString(sheetIndex) + " out of range (file has "
                       + IntToString(|wb.sheetNames|) + " sheets)")
    ensures sheetIndex < |wb.sheetNames| && SheetResult(wb, wb.sheetNames[sheetIndex]).Ok? ==>
              r == SheetResult(wb, wb.sheetNames[sheetIndex])
    ensures sheetIndex < |wb.sheetNames| && SheetResult(wb, wb.sheetNames[sheetIndex]).Err? ==>
              r == Err(FilePrefix + SheetResult(wb, wb.sheetNames[sheetIndex]).msg)
  {
    var msg := FilePrefix;
    if |wb.sheetNames| == 0 then Err(msg + "Excel file contains no sheets")
    else if sheetIndex >= |wb.sheetNames| then
      Err(msg + "Sheet index " + IntToString(sheetIndex) + " out of range (file has "
          + IntToString(|wb.sheetNames|) + " sheets)")
    else
      match SheetResult(wb, wb.sheetNames[sheetIndex])
      case Ok(rows) => Ok(rows)
      case Err(e) => Err(msg + e)
  }

  // ---------------------------------------------------------------------
  // Properties
  // ---------------------------------------------------------------------

  /** Every failure of parseExcelSheet carries the sheet's prefix. */
  lemma SheetErrorsPrefixed(wb: Workbook, sheetName: string)
    ensures SheetResult(wb, sheetName).Err? ==> IsPrefix(SheetPrefix(sheetName), SheetResult(wb, sheetName).msg)
  {
    var p := SheetPrefix(sheetName);
    if sheetName !in wb.sheets {
      var m := p + "Sheet \"" + sheetName + "\" not found in Excel file";
      assert m[..|p|] == p;
    } else if wb.sheets[sheetName] != [] && wb.sheets[sheetName][0].NotArray? {
      var m := p + "Invalid Excel format: first row must contain headers";
      assert m[..|p|] == p;
    }
  }

  /** An empty sheet parses to no rows. */
  lemma EmptySheet(wb: Workbook, sheetName: string)
    requires sheetName in wb.sheets && wb.sheets[sheetName] == []
    ensures SheetResult(wb, sheetName) == Ok([])
  {
  }

  /**
   * Every kept row has the headers, and only the headers, as keys, and
   * holds at least one non-empty value; no more rows are kept than there
   * are raw data rows.
   */
  lemma {:induction false} SheetRowsShape(headers: seq<string>, raw: seq<RawRow>)
    ensures |SheetRows(headers, raw)| <= |raw|
    ensures forall i :: 0 <= i < |SheetRows(headers, raw)| ==>
              HasData(SheetRows(headers, raw)[i]) &&
              (forall k :: k in Keys(SheetRows(headers, raw)[i]) <==> k in headers)
  {
    if raw != [] {
      var init := raw[..|raw| - 1];
      SheetRowsShape(headers, init);
      match raw[|raw| - 1]
      case NotArray =>
      case Cells(cells) =>
        CsvParser.RowKeys(headers, CellTexts(cells, |headers|));
    }
  }

  /** With distinct headers a row's keys are the headers in order, each holding its column's text. */
  lemma RowForDistinct(headers: seq<string>, cells: seq<JsValue>)
    requires CsvParser.Distinct(headers)
    ensures Keys(RowFor(headers, cells)) == headers
    ensures forall c :: 0 <= c < |headers| ==> Get(RowFor(headers, cells), headers[c]) == Some(CellText(cells, c))
  {
    var texts := CellTexts(cells, |headers|);
    CsvParser.RowKeysAreHeaders(headers, texts);
    forall c | 0 <= c < |headers| ensures Get(RowFor(headers, cells), headers[c]) == Some(CellText(cells, c)) {
      CsvParser.RowValues(headers, texts, c);
    }
  }

  /** With distinct headers, a raw row is kept iff some header column holds non-blank text. */
  lemma KeptIffSomeText(headers: seq<string>, cells: seq<JsValue>)
    requires CsvParser.Distinct(headers)
    ensures HasData(RowFor(headers, cells)) <==> exists c :: 0 <= c < |headers| && CellText(cells, c) != ""
  {
    var row := RowFor(headers, cells);
    RowForDistinct(headers, cells);
    assert DistinctKeys(row) by {
      forall i, j | 0 <= i < j < |row| ensures row[i].0 != row[j].0 {
        assert Keys(row)[i] == headers[i] && Keys(row)[j] == headers[j];
      }
    }
    if HasData(row) {
      var k :| 0 <= k < |row| && row[k].1 != "";
      assert Keys(row)[k] == headers[k];
      assert Get(row, headers[k]) == Some(CellText(cells, k));
      GetAt(row, k);
    }
    if exists c :: 0 <= c < |headers| && CellText(cells, c) != "" {
      var c :| 0 <= c < |headers| && CellText(cells, c) != "";
      assert Keys(row)[c] == headers[c];
      GetAt(row, c);
    }
  }
}
