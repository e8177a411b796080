// The parts-catalogue import wizard
// (src/components/parts/parts-import-dialog.tsx): CSV files go straight to
// column mapping, Excel workbooks always stop at sheet selection with a
// preview of the first sheet, and the mapped rows are handed to
// importPartsFromRows. Every `setX` of the component is an update of one
// field of the dialog's state; the file system, the sheet library and the
// preview reader are parameters.

module PartsImportDialog {
  import opened Common
  import opened ImportMapping
  import CsvParser
  import ExcelParser
  import PartsImport

  /** The catalogue fields a column can be mapped to. */
  datatype Field = Manufacturer | PartNumber | Description | SecondaryDescription | Unit | Category

  /** The header patterns of each field. */
  function PatternsOf(f: Field): seq<string>
  {
    match f
    case Manufacturer => ["manufacturer", "mfr", "mfg", "vendor", "mfg name"]
    case PartNumber => ["part number", "partnumber", "part_number", "part #", "pn", "item"]
    case Description => ["description", "desc", "name", "item description"]
    case SecondaryDescription => ["secondary description", "secondary_description", "desc2", "2nd desc", "alt desc"]
    case Unit => ["unit", "uom", "units"]
    case Category => ["category", "cat", "type"]
  }

  /** The `mappings` table of processParsedRows, in its order. */
  const Patterns: seq<(Field, seq<string>)> := [
    (Manufacturer, PatternsOf(Manufacturer)), (PartNumber, PatternsOf(PartNumber)),
    (Description, PatternsOf(Description)), (SecondaryDescription, PatternsOf(SecondaryDescription)),
    (Unit, PatternsOf(Unit)), (Category, PatternsOf(Category))]

  /** Where a field sits in the table. */
  function Slot(f: Field): (k: nat)
    ensures k < |Patterns| && Patterns[k] == (f, PatternsOf(f))
  {
    match f
    case Manufacturer => 0
    case PartNumber => 1
    case Description => 2
    case SecondaryDescription => 3
    case Unit => 4
    case Category => 5
  }

  /** What the dialog keeps of a sheet preview: its header cells (the sample rows are only displayed). */
  datatype SheetPreview = SheetPreview(headers: seq<string>)

  datatype DialogState = DialogState(
    step: Step,
    availableSheets: seq<string>,
    selectedSheet: string,
    headerRow: int,
    csvData: seq<Record<string>>,
    headers: seq<string>,
    mapping: map<Field, int>,
    importing: bool,
    processing: bool,
    workbook: Option<ExcelParser.Workbook>,
    sheetPreview: Option<SheetPreview>,
    previewError: Option<string>)

  /** The state the dialog opens in, and the one resetState restores. */
  const Initial := DialogState(Upload, [], "", 1, [], [], map[], false, false, None, None, None)

  /** A handler's new state and the toasts it showed, in order. */
  datatype Outcome = Outcome(state: DialogState, toasts: seq<Toast>)

  const NoDataOnSheet := "No data found on this sheet"

  /** The mapping as the importer reads it: an absent field is unmapped. */
  function ToPartsMapping(m: map<Field, int>): PartsImport.PartsMapping
  {
    PartsImport.PartsMapping(
      manufacturer := if Manufacturer in m then Some(m[Manufacturer]) else None,
      partNumber := if PartNumber in m then Some(m[PartNumber]) else None,
      description := if Description in m then Some(m[Description]) else None,
      secondaryDescription := if SecondaryDescription in m then Some(m[SecondaryDescription]) else None,
      unit := if Unit in m then Some(m[Unit]) else None,
      category := if Category in m then Some(m[Category]) else None)
  }

  // ---------------------------------------------------------------------
  // processParsedRows
  // ---------------------------------------------------------------------

  /** The auto-mapping of a set of headers. */
  function AutoMapped(headers: seq<string>): map<Field, int>
  {
    AutoMapping(LowerHeaders(headers), Patterns)
  }

  /** processParsedRows: keeps the rows and their headers and replaces the mapping with the auto-mapping. */
  function Parsed(s: DialogState, rows: seq<Record<string>>): (t: DialogState)
    ensures t.csvData == rows && t.headers == CsvParser.GetCsvHeaders(rows)
    ensures t.mapping == AutoMapped(CsvParser.GetCsvHeaders(rows))
    ensures t.(csvData := s.csvData, headers := s.headers, mapping := s.mapping) == s
  {
    var headers := CsvParser.GetCsvHeaders(rows);
    s.(csvData := rows, headers := headers, mapping := AutoMapped(headers))
  }

  /**
   * A field is auto-mapped exactly when some lower-cased header contains one
   * of its patterns, and then to the first such header.
   */
  lemma AutoMappingRule(headers: seq<string>, f: Field)
    ensures f in AutoMapped(headers) <==> FindHeader(LowerHeaders(headers), PatternsOf(f)) != -1
    ensures f in AutoMapped(headers) ==> AutoMapped(headers)[f] == FindHeader(LowerHeaders(headers), PatternsOf(f))
  {
    AutoMappingFirstMatch(LowerHeaders(headers), Patterns);
    var k := Slot(f);
    assert Patterns[k].0 == f;
  }

  /** A first header such as "Mfg Name" serves both the manufacturer ("mfg") and the description ("name"). */
  lemma MfgNameServesTwoFields(headers: seq<string>)
    requires |headers| > 0 && Includes(ToLower(headers[0]), "mfg") && Includes(ToLower(headers[0]), "name")
    ensures Manufacturer in AutoMapped(headers) && AutoMapped(headers)[Manufacturer] == 0
    ensures Description in AutoMapped(headers) && AutoMapped(headers)[Description] == 0
  {
    var lower := LowerHeaders(headers);
    assert PatternsOf(Manufacturer)[2] == "mfg";
    assert Matches(lower[0], PatternsOf(Manufacturer));
    assert PatternsOf(Description)[2] == "name";
    assert Matches(lower[0], PatternsOf(Description));
    AutoMappingRule(headers, Manufacturer);
    AutoMappingRule(headers, Description);
  }

  // ---------------------------------------------------------------------
  // processFileContents
  // ---------------------------------------------------------------------

  /** The preview's error line: set when the preview found no header cells. */
  function PreviewErrorOf(p: SheetPreview): (r: Option<string>)
    ensures r.Some? <==> p.headers == []
  {
    if p.headers == [] then Some(NoDataOnSheet) else None
  }

  /**
   * processFileContents with a (lower-cased) file name. `text` is the bytes
   * decoded as UTF-8, `wb` the workbook read from them (None when the sheet
   * library throws), and `preview` what getExcelSheetPreview returns for the
   * first sheet (None when it throws).
   */
  function LoadFile(s: DialogState, fileName: string, text: string, wb: Option<ExcelParser.Workbook>,
                    preview: Option<SheetPreview>): (o: Outcome)
    ensures !o.state.processing
  {
    if IsExcelName(fileName) then
      if wb.None? then Outcome(s.(processing := false), [ErrorToast("Failed to parse file")])
      else
        var sheets := wb.value.sheetNames;
        var s1 := s.(workbook := wb, availableSheets := sheets);
        if |sheets| == 0 then Outcome(s1.(processing := false), [ErrorToast("Excel file contains no sheets")])
        else
          var s2 := s1.(selectedSheet := sheets[0]);
          if preview.None? then Outcome(s2.(processing := false), [ErrorToast("Failed to parse file")])
          else
            Outcome(s2.(sheetPreview := preview, previewError := PreviewErrorOf(preview.value),
                        step := SheetSelect, processing := false), [])
    else
      var s1 := s.(workbook := None, sheetPreview := None, previewError := None, availableSheets := [], selectedSheet := "");
      var rows := CsvParser.ParseCsv(text);
      if rows == [] then Outcome(s1.(processing := false), [ErrorToast("File is empty or invalid")])
      else Outcome(Parsed(s1, rows).(step := Mapping, processing := false), [])
  }

  /**
   * An Excel workbook with sheets always stops at sheet selection, even with
   * a single sheet, with its first sheet chosen and nothing parsed yet.
   */
  lemma ExcelAlwaysSelectsSheet(s: DialogState, fileName: string, text: string, wb: ExcelParser.Workbook,
                                preview: SheetPreview)
    requires IsExcelName(fileName) && |wb.sheetNames| > 0
    ensures var o := LoadFile(s, fileName, text, Some(wb), Some(preview));
      o.toasts == [] && o.state.step == SheetSelect && o.state.selectedSheet == wb.sheetNames[0] &&
      o.state.workbook == Some(wb) && o.state.csvData == s.csvData &&
      (o.state.previewError == Some(NoDataOnSheet) <==> preview.headers == [])
  {
  }

  /** A CSV file with no rows reports an error and stays on its step; one with rows goes to mapping and forgets any workbook. */
  lemma CsvLoadSteps(s: DialogState, fileName: string, text: string, wb: Option<ExcelParser.Workbook>,
                     preview: Option<SheetPreview>)
    requires !IsExcelName(fileName)
    ensures var o := LoadFile(s, fileName, text, wb, preview);
      o.state.workbook.None? && o.state.availableSheets == [] && o.state.selectedSheet == "" &&
      (CsvParser.ParseCsv(text) == [] ==> o.toasts == [ErrorToast("File is empty or invalid")] && o.state.step == s.step) &&
      (CsvParser.ParseCsv(text) != [] ==>
         o.toasts == [] && o.state.step == Mapping && o.state.csvData == CsvParser.ParseCsv(text) &&
         o.state.mapping == AutoMapped(CsvParser.GetCsvHeaders(CsvParser.ParseCsv(text))))
  {
  }

  // ---------------------------------------------------------------------
  // sheet selection and preview
  // ---------------------------------------------------------------------

  /**
   * handleSheetSelection: without a workbook or a chosen sheet nothing
   * happens but an error toast; otherwise the sheet is parsed from the
   * current header row on (`view` is the kept workbook as the sheet library
   * converts it from that row) and the flag is cleared whatever the result.
   */
  function SheetSelection(s: DialogState, view: ExcelParser.Workbook): (o: Outcome)
    ensures s.workbook.None? || s.selectedSheet == "" ==> o == Outcome(s, [ErrorToast("Please select a sheet")])
    ensures s.workbook.Some? && s.selectedSheet != "" ==> !o.state.processing && |o.toasts| <= 1
  {
    if s.workbook.None? || s.selectedSheet == "" then Outcome(s, [ErrorToast("Please select a sheet")])
    else
      var sheet := s.selectedSheet;
      match ExcelParser.SheetResult(view, sheet)
      case Err(_) => Outcome(s.(processing := false), [ErrorToast("Failed to parse Excel sheet")])
      case Ok(rows) =>
        if rows == [] then Outcome(s.(processing := false), [ErrorToast("Sheet \"" + sheet + "\" is empty")])
        else Outcome(Parsed(s, rows).(step := Mapping, processing := false), [])
  }

  /** A chosen sheet with rows goes to the mapping step; an empty one reports the sheet by name and stays. */
  lemma SheetSelectionSteps(s: DialogState, view: ExcelParser.Workbook)
    requires s.workbook.Some? && s.selectedSheet != ""
    ensures var o := SheetSelection(s, view);
      var r := ExcelParser.SheetResult(view, s.selectedSheet);
      !o.state.processing &&
      (r.Ok? && r.value != [] ==> o.state.step == Mapping && o.state.csvData == r.value && o.toasts == []) &&
      (r.Ok? && r.value == [] ==> o.state.step == s.step && o.toasts == [ErrorToast("Sheet \"" + s.selectedSheet + "\" is empty")]) &&
      (r.Err? ==> o.state.step == s.step && o.toasts == [ErrorToast("Failed to parse Excel sheet")])
  {
  }

  /**
   * The sheet select: the chosen sheet is kept and its preview read again
   * (`preview` is getExcelSheetPreview's result, or the message it threw);
   * without a workbook only the choice is kept.
   */
  function ChooseSheet(s: DialogState, name: string, preview: Result<SheetPreview>): (t: DialogState)
    ensures t.selectedSheet == name && t.step == s.step && t.csvData == s.csvData && t.mapping == s.mapping
    ensures s.workbook.None? ==> t == s.(selectedSheet := name)
    ensures s.workbook.Some? && preview.Ok? ==>
      t.sheetPreview == Some(preview.value) && (t.previewError.Some? <==> preview.value.headers == [])
    ensures s.workbook.Some? && preview.Err? ==> t.sheetPreview.None? && t.previewError == Some(preview.msg)
  {
    var s1 := s.(selectedSheet := name);
    if s1.workbook.None? then s1
    else match preview
      case Ok(p) => s1.(sheetPreview := Some(p), previewError := PreviewErrorOf(p))
      case Err(msg) => s1.(sheetPreview := None, previewError := Some(msg))
  }

  /** handleHeaderRowChange: a typed row number of at least 1 is taken, anything else ignored. */
  function HeaderRowChange(s: DialogState, value: string): (t: DialogState)
    ensures t.headerRow >= 1 || t.headerRow == s.headerRow
    ensures t.(headerRow := s.headerRow) == s
  {
    s.(headerRow := AcceptHeaderRow(s.headerRow, value))
  }

  /** Typing a number sets the header row when it is at least 1 and leaves the dialog as it was otherwise. */
  lemma HeaderRowTypedIn(s: DialogState, n: int)
    ensures HeaderRowChange(s, IntToString(n)) == if n >= 1 then s.(headerRow := n) else s
  {
    HeaderRowTyped(s.headerRow, n);
  }

  /**
   * refreshData: only with a workbook and a chosen sheet; re-parses the sheet
   * from the current header row and, when rows come back, processes them
   * again, which replaces any mapping the user chose by the auto-mapping.
   */
  function RefreshData(s: DialogState, view: ExcelParser.Workbook): (o: Outcome)
    ensures s.workbook.None? || s.selectedSheet == "" ==> o == Outcome(s, [])
    ensures o.state.step == s.step
    ensures s.workbook.Some? && s.selectedSheet != "" ==> !o.state.processing
  {
    if s.workbook.None? || s.selectedSheet == "" then Outcome(s, [])
    else
      match ExcelParser.SheetResult(view, s.selectedSheet)
      case Err(_) => Outcome(s.(processing := false), [ErrorToast("Failed to reparse file")])
      case Ok(rows) =>
        if |rows| > 0 then
          Outcome(Parsed(s, rows).(processing := false),
                  [SuccessToast("Reloaded with header row " + IntToString(s.headerRow))])
        else Outcome(s.(processing := false), [])
  }

  /** Reloading a sheet with rows re-auto-maps it and announces the header row. */
  lemma RefreshRemaps(s: DialogState, view: ExcelParser.Workbook)
    requires s.workbook.Some? && s.selectedSheet != ""
    requires ExcelParser.SheetResult(view, s.selectedSheet).Ok? && ExcelParser.SheetResult(view, s.selectedSheet).value != []
    ensures RefreshData(s, view).state.csvData == ExcelParser.SheetResult(view, s.selectedSheet).value
    ensures RefreshData(s, view).state.mapping ==
              AutoMapped(CsvParser.GetCsvHeaders(ExcelParser.SheetResult(view, s.selectedSheet).value))
    ensures RefreshData(s, view).toasts == [SuccessToast("Reloaded with header row " + IntToString(s.headerRow))]
  {
  }

  // ---------------------------------------------------------------------
  // mapping and preview
  // ---------------------------------------------------------------------

  /** The column select: a column index, or "unmapped" to clear the field. */
  function ChooseColumn(s: DialogState, f: Field, choice: Option<int>): (t: DialogState)
    ensures choice.None? ==> f !in t.mapping
    ensures choice.Some? ==> f in t.mapping && t.mapping[f] == choice.value
    ensures forall g :: g != f ==> (g in t.mapping <==> g in s.mapping)
    ensures forall g :: g != f && g in s.mapping ==> t.mapping[g] == s.mapping[g]
    ensures t.(mapping := s.mapping) == s
  {
    s.(mapping := if choice.None? then s.mapping - {f} else s.mapping[f := choice.value])
  }

  /** Both required columns are mapped. */
  predicate RequiredMapped(s: DialogState)
  {
    PartNumber in s.mapping && Manufacturer in s.mapping
  }

  /** The Preview button: disabled until the part number and the manufacturer are mapped. */
  function ShowPreview(s: DialogState): (t: DialogState)
    ensures t.step == Preview <==> RequiredMapped(s) || s.step == Preview
    ensures t.(step := s.step) == s
  {
    if RequiredMapped(s) then s.(step := Preview) else s
  }

  /** getPreviewValue for one field of a row. */
  function PreviewCell(s: DialogState, row: Record<string>, f: Field): (r: string)
    ensures f !in s.mapping ==> r == ""
  {
    PreviewValue(s.headers, row, if f in s.mapping then Some(s.mapping[f]) else None)
  }

  /** resetState, and handleClose when the dialog closes. */
  function Close(s: DialogState, open: bool): (t: DialogState)
    ensures !open ==> t == Initial
    ensures open ==> t == s
  {
    if open then s else Initial
  }

  /** resetState puts every field back: upload step, header row 1, no rows, no mapping, no workbook or preview. */
  lemma ResetRestoresEverything(s: DialogState)
    ensures var t := Close(s, false);
      t.step == Upload && t.availableSheets == [] && t.selectedSheet == "" && t.headerRow == 1 &&
      t.csvData == [] && t.headers == [] && t.mapping == map[] && !t.importing && !t.processing &&
      t.workbook.None? && t.sheetPreview.None? && t.previewError.None?
  {
  }

  // ---------------------------------------------------------------------
  // handleImport
  // ---------------------------------------------------------------------

  /** The dialog after handleImport, its toasts, the catalogue afterwards (None when the import threw), and whether it closed. */
  datatype Imported = Imported(state: DialogState, toasts: seq<Toast>, catalogue: Option<PartsImport.Catalogue>, closed: bool)

  /** The toast after an import that returned: its error count, or its counters. */
  function ResultToast(r: PartsImport.ImportResult): (t: Toast)
    ensures |r.errors| > 0 <==> t.ErrorToast?
  {
    if |r.errors| > 0 then ErrorToast("Import completed with " + IntToString(|r.errors|) + " errors")
    else SuccessToast("Imported " + IntToString(r.created) + " parts, updated " + IntToString(r.updated) + " parts")
  }

  /**
   * handleImport: both required columns must be mapped; the rows go to
   * importPartsFromRows on catalogue `db` (`threw` when it throws), and when
   * it returns the dialog reports the result, closes and resets.
   */
  function HandleImport(s: DialogState, db: PartsImport.Catalogue, threw: bool): (r: Imported)
    ensures PartNumber !in s.mapping ==> r == Imported(s, [ErrorToast("Part Number column is required")], Some(db), false)
    ensures PartNumber in s.mapping && Manufacturer !in s.mapping ==>
      r == Imported(s, [ErrorToast("Manufacturer column is required")], Some(db), false)
    ensures RequiredMapped(s) && threw ==>
      r == Imported(s.(importing := false), [ErrorToast("Import failed")], None, false)
    ensures RequiredMapped(s) && !threw ==>
      (r.state == Initial && r.closed &&
       r.catalogue == Some(PartsImport.ImportSpec(db, s.csvData, ToPartsMapping(s.mapping), s.headers).0))
  {
    if PartNumber !in s.mapping then Imported(s, [ErrorToast("Part Number column is required")], Some(db), false)
    else if Manufacturer !in s.mapping then Imported(s, [ErrorToast("Manufacturer column is required")], Some(db), false)
    else if threw then Imported(s.(importing := false), [ErrorToast("Import failed")], None, false)
    else
      var (db', result) := PartsImport.ImportSpec(db, s.csvData, ToPartsMapping(s.mapping), s.headers);
      Imported(Initial, [ResultToast(result)], Some(db'), true)
  }

  /**
   * An import that returns reports exactly one toast, and its created,
   * updated and skipped counters add up to the number of rows imported.
   */
  lemma ImportReportsEveryRow(s: DialogState, db: PartsImport.Catalogue)
    requires RequiredMapped(s)
    ensures var res := PartsImport.ImportSpec(db, s.csvData, ToPartsMapping(s.mapping), s.headers).1;
      HandleImport(s, db, false).toasts == [ResultToast(res)] &&
      res.created + res.updated + res.skipped == |s.csvData| &&
      (res.errors == [] <==> HandleImport(s, db, false).toasts[0].SuccessToast?)
  {
    PartsImport.ImportCounts(db, s.csvData, ToPartsMapping(s.mapping), s.headers);
  }

  // ---------------------------------------------------------------------
  // the component: each handler updates the dialog's state field by field
  // ---------------------------------------------------------------------

  class Dialog {
    var state: DialogState

    constructor()
      ensures state == Initial
    {
      state := Initial;
    }

    /** processParsedRows: the forEach over the patterns table fills the new mapping. */
    method ProcessParsedRows(rows: seq<Record<string>>)
      modifies this
      ensures state == Parsed(old(state), rows)
    {
      var headers := CsvParser.GetCsvHeaders(rows);
      state := state.(csvData := rows);
      state := state.(headers := headers);
      var autoMapping := AutoMap(LowerHeaders(headers), Patterns);
      state := state.(mapping := autoMapping);
    }

    method ProcessFileContents(fileName: string, text: string, wb: Option<ExcelParser.Workbook>,
                               preview: Option<SheetPreview>) returns (toasts: seq<Toast>)
      modifies this
      ensures Outcome(state, toasts) == LoadFile(old(state), fileName, text, wb, preview)
    {
      if IsExcelName(fileName) {
        if wb.None? {
          state := state.(processing := false);
          return [ErrorToast("Failed to parse file")];
        }
        state := state.(workbook := wb);
        var sheets := wb.value.sheetNames;
        state := state.(availableSheets := sheets);
        if |sheets| == 0 {
          state := state.(processing := false);
          return [ErrorToast("Excel file contains no sheets")];
        }
        state := state.(selectedSheet := sheets[0]);
        if preview.None? {
          state := state.(processing := false);
          return [ErrorToast("Failed to parse file")];
        }
        state := state.(sheetPreview := preview);
        state := state.(previewError := None);
        if preview.value.headers == [] {
          state := state.(previewError := Some(NoDataOnSheet));
        }
        state := state.(step := SheetSelect);
        state := state.(processing := false);
        return [];
      }
      state := state.(workbook := None);
      state := state.(sheetPreview := None);
      state := state.(previewError := None);
      state := state.(availableSheets := []);
      state := state.(selectedSheet := "");
      var rows := CsvParser.ParseCsv(text);
      if |rows| == 0 {
        state := state.(processing := false);
        return [ErrorToast("File is empty or invalid")];
      }
      ProcessParsedRows(rows);
      state := state.(step := Mapping);
      state := state.(processing := false);
      toasts := [];
    }

    method HandleSheetSelection(view: ExcelParser.Workbook) returns (toasts: seq<Toast>)
      modifies this
      ensures Outcome(state, toasts) == SheetSelection(old(state), view)
    {
      if state.workbook.None? || state.selectedSheet == "" {
        return [ErrorToast("Please select a sheet")];
      }
      var sheet := state.selectedSheet;
      var rows := ExcelParser.ParseExcelSheet(view, sheet);
      toasts := [];
      if rows.Err? {
        toasts := [ErrorToast("Failed to parse Excel sheet")];
      } else if |rows.value| == 0 {
        toasts := [ErrorToast("Sheet \"" + sheet + "\" is empty")];
      } else {
        ProcessParsedRows(rows.value);
        state := state.(step := Mapping);
      }
      state := state.(processing := false);
    }

    /** The sheet select's onValueChange: setSelectedSheet, then updateSheetPreview. */
    method SelectSheet(name: string, preview: Result<SheetPreview>)
      modifies this
      ensures state == ChooseSheet(old(state), name, preview)
    {
      state := state.(selectedSheet := name);
      if state.workbook.None? {
        return;
      }
      if preview.Ok? {
        state := state.(sheetPreview := Some(preview.value));
        state := state.(previewError := if preview.value.headers == [] then Some(NoDataOnSheet) else None);
      } else {
        state := state.(sheetPreview := None);
        state := state.(previewError := Some(preview.msg));
      }
    }

    method HandleHeaderRowChange(value: string)
      modifies this
      ensures state == HeaderRowChange(old(state), value)
    {
      var row := ParseInt(value);
      if row.None? || row.value < 1 {
        return;
      }
      state := state.(headerRow := row.value);
    }

    method Refresh(view: ExcelParser.Workbook) returns (toasts: seq<Toast>)
      modifies this
      ensures Outcome(state, toasts) == RefreshData(old(state), view)
    {
      if state.workbook.None? || state.selectedSheet == "" {
        return [];
      }
      var rows := ExcelParser.ParseExcelSheet(view, state.selectedSheet);
      toasts := [];
      if rows.Err? {
        toasts := [ErrorToast("Failed to reparse file")];
      } else if |rows.value| > 0 {
        ProcessParsedRows(rows.value);
        toasts := [SuccessToast("Reloaded with header row " + IntToString(state.headerRow))];
      }
      state := state.(processing := false);
    }

    method SetMapping(f: Field, choice: Option<int>)
      modifies this
      ensures state == ChooseColumn(old(state), f, choice)
    {
      if choice.None? {
        state := state.(mapping := state.mapping - {f});
      } else {
        state := state.(mapping := state.mapping[f := choice.value]);
      }
    }

    method GoToPreview()
      modifies this
      ensures state == ShowPreview(old(state))
    {
      if PartNumber in state.mapping && Manufacturer in state.mapping {
        state := state.(step := Preview);
      }
    }

    method Import(db: PartsImport.Catalogue, threw: bool)
      returns (toasts: seq<Toast>, catalogue: Option<PartsImport.Catalogue>, closed: bool)
      modifies this
      ensures Imported(state, toasts, catalogue, closed) == HandleImport(old(state), db, threw)
    {
      if PartNumber !in state.mapping {
        return [ErrorToast("Part Number column is required")], Some(db), false;
      }
      if Manufacturer !in state.mapping {
        return [ErrorToast("Manufacturer column is required")], Some(db), false;
      }
      state := state.(importing := true);
      if threw {
        toasts, catalogue, closed := [ErrorToast("Import failed")], None, false;
      } else {
        var (db', result) := PartsImport.ImportSpec(db, state.csvData, ToPartsMapping(state.mapping), state.headers);
        toasts, catalogue, closed := [ResultToast(result)], Some(db'), true;
        ResetState();
      }
      state := state.(importing := false);
    }

    method ResetState()
      modifies this
      ensures state == Initial
    {
      state := state.(step := Upload);
      state := state.(availableSheets := []);
      state := state.(selectedSheet := "");
      state := state.(headerRow := 1);
      state := state.(csvData := []);
      state := state.(headers := []);
      state := state.(mapping := map[]);
      state := state.(importing := false);
      state := state.(processing := false);
      state := state.(workbook := None);
      state := state.(sheetPreview := None);
      state := state.(previewError := None);
    }

    method HandleClose(open: bool)
      modifies this
      ensures state == Close(old(state), open)
    {
      if !open {
        ResetState();
      }
    }
  }
}
