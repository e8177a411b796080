// The BOM import wizard (src/components/bom/import-dialog.tsx): a file is
// read as CSV or as an Excel workbook, its columns are auto-mapped to BOM
// fields by header patterns, the user adjusts the mapping, and the rows are
// handed to the BOM store's bulk import. Every `setX` of the component is an
// update of one field of the dialog's state; the file system, the sheet
// library and the store's database work are parameters.

module ImportDialog {
  import opened Common
  import opened ImportMapping
  import CsvParser
  import ExcelParser
  import BomTypes
  import ImportUtils
  import BomStore

  /** The BOM fields a column can be mapped to. */
  datatype Field =
    | PartNumber | Description | SecondaryDescription | Quantity | Manufacturer
    | Unit | UnitPrice | ReferenceDesignator | Supplier | Category

  /** The header patterns of each field. */
  function PatternsOf(f: Field): seq<string>
  {
    match f
    case PartNumber => ["part number", "partnumber", "part_number", "part #", "pn", "item"]
    case Description => ["description", "desc", "name", "item description"]
    case SecondaryDescription => ["secondary description", "details", "specs", "technical"]
    case Quantity => ["quantity", "qty", "count", "amount"]
    case Manufacturer => ["manufacturer", "mfg", "mfr", "vendor"]
    case Unit => ["unit", "uom", "units"]
    case UnitPrice => ["price", "unit price", "cost", "unit_price"]
    case ReferenceDesignator => ["ref des", "refdes", "reference", "designator"]
    case Supplier => ["supplier", "vendor", "distributor"]
    case Category => ["category", "cat", "type"]
  }

  /** The `mappings` table of processParsedRows, in its order. */
  const Patterns: seq<(Field, seq<string>)> := [
    (PartNumber, PatternsOf(PartNumber)), (Description, PatternsOf(Description)),
    (SecondaryDescription, PatternsOf(SecondaryDescription)), (Quantity, PatternsOf(Quantity)),
    (Manufacturer, PatternsOf(Manufacturer)), (Unit, PatternsOf(Unit)), (UnitPrice, PatternsOf(UnitPrice)),
    (ReferenceDesignator, PatternsOf(ReferenceDesignator)), (Supplier, PatternsOf(Supplier)),
    (Category, PatternsOf(Category))]

  /** Where a field sits in the table. */
  function Slot(f: Field): (k: nat)
    ensures k < |Patterns| && Patterns[k] == (f, PatternsOf(f))
  {
    match f
    case PartNumber => 0
    case Description => 1
    case SecondaryDescription => 2
    case Quantity => 3
    case Manufacturer => 4
    case Unit => 5
    case UnitPrice => 6
    case ReferenceDesignator => 7
    case Supplier => 8
    case Category => 9
  }

  datatype FileType = Csv | Excel

  datatype DialogState = DialogState(
    step: Step,
    fileType: FileType,
    fileBuffer: Option<Bytes>,
    availableSheets: seq<string>,
    selectedSheet: string,
    headerRow: int,
    csvData: seq<Record<string>>,
    headers: seq<string>,
    mapping: map<Field, int>,
    importing: bool,
    processing: bool)

  /** The state the dialog opens in, and the one resetState restores. */
  const Initial := DialogState(Upload, Csv, None, [], "", 1, [], [], map[], false, false)

  /** A handler's new state and the toasts it showed, in order. */
  datatype Outcome = Outcome(state: DialogState, toasts: seq<Toast>)

  /** The mapping as the importer reads it: an absent field is unmapped. */
  function ToColumnMapping(m: map<Field, int>): BomTypes.ColumnMapping
  {
    BomTypes.ColumnMapping(
      partNumber := if PartNumber in m then Some(m[PartNumber]) else None,
      description := if Description in m then Some(m[Description]) else None,
      secondaryDescription := if SecondaryDescription in m then Some(m[SecondaryDescription]) else None,
      manufacturer := if Manufacturer in m then Some(m[Manufacturer]) else None,
      quantity := if Quantity in m then Some(m[Quantity]) else None,
      unit := if Unit in m then Some(m[Unit]) else None,
      unitPrice := if UnitPrice in m then Some(m[UnitPrice]) else None,
      category := if Category in m then Some(m[Category]) else None,
      supplier := if Supplier in m then Some(m[Supplier]) else None,
      referenceDesignator := if ReferenceDesignator in m then Some(m[ReferenceDesignator]) else None)
  }

  // ---------------------------------------------------------------------
  // processParsedRows
  // ---------------------------------------------------------------------

  /** The auto-mapping of a set of headers. */
  function AutoMapped(headers: seq<string>): map<Field, int>
  {
    AutoMapping(LowerHeaders(headers), Patterns)
  }

  /** processParsedRows: keeps the rows and their headers and replaces the mapping with the auto-mapping. */
  function Parsed(s: DialogState, rows: seq<Record<string>>): (t: DialogState)
    ensures t.csvData == rows && t.headers == CsvParser.GetCsvHeaders(rows)
    ensures t.mapping == AutoMapped(CsvParser.GetCsvHeaders(rows))
    ensures t.(csvData := s.csvData, headers := s.headers, mapping := s.mapping) == s
  {
    var headers := CsvParser.GetCsvHeaders(rows);
    s.(csvData := rows, headers := headers, mapping := AutoMapped(headers))
  }

  /**
   * A field is auto-mapped exactly when some lower-cased header contains one
   * of its patterns, and then to the first such header.
   */
  lemma AutoMappingRule(headers: seq<string>, f: Field)
    ensures f in AutoMapped(headers) <==> FindHeader(LowerHeaders(headers), PatternsOf(f)) != -1
    ensures f in AutoMapped(headers) ==> AutoMapped(headers)[f] == FindHeader(LowerHeaders(headers), PatternsOf(f))
  {
    AutoMappingFirstMatch(LowerHeaders(headers), Patterns);
    var k := Slot(f);
    assert Patterns[k].0 == f;
  }

  /** One header may serve several fields: a first header containing "vendor" is both manufacturer and supplier. */
  lemma VendorMapsToBoth(headers: seq<string>)
    requires |headers| > 0 && Includes(ToLower(headers[0]), "vendor")
    ensures Manufacturer in AutoMapped(headers) && AutoMapped(headers)[Manufacturer] == 0
    ensures Supplier in AutoMapped(headers) && AutoMapped(headers)[Supplier] == 0
  {
    var lower := LowerHeaders(headers);
    assert PatternsOf(Manufacturer)[3] == "vendor";
    assert Matches(lower[0], PatternsOf(Manufacturer));
    assert PatternsOf(Supplier)[1] == "vendor";
    assert Matches(lower[0], PatternsOf(Supplier));
    AutoMappingRule(headers, Manufacturer);
    AutoMappingRule(headers, Supplier);
  }

  // ---------------------------------------------------------------------
  // processFileContents
  // ---------------------------------------------------------------------

  /**
   * What processFileContents does with a (lower-cased) file name and its
   * bytes. `text` is the bytes decoded as UTF-8 and `wb` the workbook read
   * from them with the current header row as its first row (None when the
   * sheet library throws). `settle` says whether a successful load clears
   * the processing flag: the component as written does not.
   */
  function ProcessFile(s: DialogState, fileName: string, contents: Bytes, text: string,
                       wb: Option<ExcelParser.Workbook>, settle: bool): (o: Outcome)
  {
    var s1 := s.(fileType := if IsExcelName(fileName) then Excel else Csv, fileBuffer := Some(contents));
    if !IsExcelName(fileName) then Loaded(s1, CsvParser.ParseCsv(text), settle)
    else if wb.None? then Outcome(s1.(processing := false), [ErrorToast("Failed to parse file")])
    else
      var sheets := wb.value.sheetNames;
      var s2 := s1.(availableSheets := sheets);
      if |sheets| == 0 then Outcome(s2.(processing := false), [ErrorToast("Excel file contains no sheets")])
      else if |sheets| == 1 then
        var s3 := s2.(selectedSheet := sheets[0]);
        match ExcelParser.ParseExcel(wb.value, 0)
        case Err(_) => Outcome(s3.(processing := false), [ErrorToast("Failed to parse file")])
        case Ok(rows) => Loaded(s3, rows, settle)
      else Outcome(s2.(step := SheetSelect, processing := false), [])
  }

  /** The common tail: no rows is an error, otherwise the rows are processed and the mapping step shown. */
  function Loaded(s: DialogState, rows: seq<Record<string>>, settle: bool): (o: Outcome)
    ensures rows == [] ==> o == Outcome(s.(processing := false), [ErrorToast("File is empty or invalid")])
    ensures rows != [] ==> o.toasts == [] && o.state.step == Mapping && o.state.csvData == rows &&
                           o.state.processing == (s.processing && !settle)
  {
    if rows == [] then Outcome(s.(processing := false), [ErrorToast("File is empty or invalid")])
    else
      var t := Parsed(s, rows).(step := Mapping);
      Outcome(if settle then t.(processing := false) else t, [])
  }

  /** processFileContents as written: a successful load leaves the processing overlay up. */
  function LoadFileAsWritten(s: DialogState, fileName: string, contents: Bytes, text: string,
                             wb: Option<ExcelParser.Workbook>): (o: Outcome)
  {
    ProcessFile(s, fileName, contents, text, wb, false)
  }

  /** processFileContents with the processing flag cleared on success, as on every other path. */
  function LoadFile(s: DialogState, fileName: string, contents: Bytes, text: string,
                    wb: Option<ExcelParser.Workbook>): (o: Outcome)
  {
    ProcessFile(s, fileName, contents, text, wb, true)
  }

  /**
   * The file picker raises the processing flag before the contents are
   * processed; as written, a CSV file with rows reaches the mapping step with
   * the flag still up, so the overlay covers the step.
   */
  lemma OverlayStaysAfterLoad(s: DialogState, fileName: string, contents: Bytes, text: string,
                              wb: Option<ExcelParser.Workbook>)
    requires s.processing && !IsExcelName(fileName) && CsvParser.ParseCsv(text) != []
    ensures LoadFileAsWritten(s, fileName, contents, text, wb).state.step == Mapping
    ensures LoadFileAsWritten(s, fileName, contents, text, wb).state.processing
  {
  }

  /** Corrected, every path of processFileContents ends with the flag down. */
  lemma LoadEndsProcessing(s: DialogState, fileName: string, contents: Bytes, text: string,
                           wb: Option<ExcelParser.Workbook>)
    ensures !LoadFile(s, fileName, contents, text, wb).state.processing
    ensures LoadFile(s, fileName, contents, text, wb).state.fileBuffer == Some(contents)
  {
  }

  /** A CSV file with no rows reports an error and stays on its step; one with rows goes to mapping, auto-mapped. */
  lemma CsvLoadSteps(s: DialogState, fileName: string, contents: Bytes, text: string,
                     wb: Option<ExcelParser.Workbook>)
    requires !IsExcelName(fileName)
    ensures var o := LoadFile(s, fileName, contents, text, wb);
      o.state.fileType == Csv &&
      (CsvParser.ParseCsv(text) == [] ==>
         o.toasts == [ErrorToast("File is empty or invalid")] && o.state.step == s.step && o.state.csvData == s.csvData) &&
      (CsvParser.ParseCsv(text) != [] ==>
         o.toasts == [] && o.state.step == Mapping && o.state.csvData == CsvParser.ParseCsv(text) &&
         o.state.mapping == AutoMapped(CsvParser.GetCsvHeaders(CsvParser.ParseCsv(text))))
  {
  }

  /**
   * An Excel file: no sheets is an error; one sheet is parsed at once and goes
   * to mapping when it has rows; several sheets go to sheet selection with
   * nothing parsed yet.
   */
  lemma ExcelLoadSteps(s: DialogState, fileName: string, contents: Bytes, text: string, wb: ExcelParser.Workbook)
    requires IsExcelName(fileName)
    ensures var o := LoadFile(s, fileName, contents, text, Some(wb));
      o.state.fileType == Excel && o.state.availableSheets == wb.sheetNames &&
      (|wb.sheetNames| == 0 ==> o.toasts == [ErrorToast("Excel file contains no sheets")] && o.state.step == s.step) &&
      (|wb.sheetNames| == 1 && ExcelParser.SheetResult(wb, wb.sheetNames[0]).Ok? &&
       ExcelParser.SheetResult(wb, wb.sheetNames[0]).value != [] ==>
         o.toasts == [] && o.state.step == Mapping && o.state.selectedSheet == wb.sheetNames[0] &&
         o.state.csvData == ExcelParser.SheetResult(wb, wb.sheetNames[0]).value) &&
      (|wb.sheetNames| > 1 ==> o.toasts == [] && o.state.step == SheetSelect && o.state.csvData == s.csvData)
  {
  }

  // ---------------------------------------------------------------------
  // the other handlers
  // ---------------------------------------------------------------------

  /**
   * handleSheetSelection: without a file or a chosen sheet nothing happens
   * but an error toast; otherwise the chosen sheet is parsed (`wb` as in
   * ProcessFile) and the flag is cleared whatever the result.
   */
  function SheetSelection(s: DialogState, wb: Option<ExcelParser.Workbook>): (o: Outcome)
    ensures s.fileBuffer.None? || s.selectedSheet == "" ==> o == Outcome(s, [ErrorToast("Please select a sheet")])
    ensures s.fileBuffer.Some? && s.selectedSheet != "" ==> !o.state.processing && |o.toasts| <= 1
  {
    if s.fileBuffer.None? || s.selectedSheet == "" then Outcome(s, [ErrorToast("Please select a sheet")])
    else
      var sheet := s.selectedSheet;
      var rows := if wb.None? then Err("") else ExcelParser.SheetResult(wb.value, sheet);
      match rows
      case Err(_) => Outcome(s.(processing := false), [ErrorToast("Failed to parse Excel sheet")])
      case Ok(rs) =>
        if rs == [] then Outcome(s.(processing := false), [ErrorToast("Sheet \"" + sheet + "\" is empty")])
        else Outcome(Parsed(s, rs).(step := Mapping, processing := false), [])
  }

  /** A chosen sheet with rows goes to the mapping step; an empty one reports the sheet by name and stays. */
  lemma SheetSelectionSteps(s: DialogState, wb: ExcelParser.Workbook)
    requires s.fileBuffer.Some? && s.selectedSheet != ""
    ensures var o := SheetSelection(s, Some(wb));
      var r := ExcelParser.SheetResult(wb, s.selectedSheet);
      (r.Ok? && r.value != [] ==> o.state.step == Mapping && o.state.csvData == r.value && o.toasts == []) &&
      (r.Ok? && r.value == [] ==> o.state.step == s.step && o.toasts == [ErrorToast("Sheet \"" + s.selectedSheet + "\" is empty")]) &&
      (r.Err? ==> o.state.step == s.step && o.toasts == [ErrorToast("Failed to parse Excel sheet")])
  {
  }

  /** handleHeaderRowChange: a typed row number of at least 1 is taken, anything else ignored. */
  function HeaderRowChange(s: DialogState, value: string): (t: DialogState)
    ensures t.headerRow >= 1 || t.headerRow == s.headerRow
    ensures t.(headerRow := s.headerRow) == s
  {
    s.(headerRow := AcceptHeaderRow(s.headerRow, value))
  }

  /** Typing a number sets the header row when it is at least 1 and leaves the dialog as it was otherwise. */
  lemma HeaderRowTypedIn(s: DialogState, n: int)
    ensures HeaderRowChange(s, IntToString(n)) == if n >= 1 then s.(headerRow := n) else s
  {
    HeaderRowTyped(s.headerRow, n);
  }

  /**
   * refreshData: re-reads the kept file (CSV ignoring the header row, Excel
   * from the chosen sheet) and, when rows come back, processes them again,
   * which replaces any mapping the user chose by the auto-mapping.
   */
  function RefreshData(s: DialogState, text: string, wb: Option<ExcelParser.Workbook>): (o: Outcome)
    ensures s.fileBuffer.None? ==> o == Outcome(s, [])
    ensures o.state.step == s.step
    ensures s.fileBuffer.Some? ==> !o.state.processing
  {
    if s.fileBuffer.None? then Outcome(s, [])
    else
      var rows: Result<seq<Record<string>>> :=
        if s.fileType == Excel && s.selectedSheet != "" then
          (if wb.None? then Err("") else ExcelParser.SheetResult(wb.value, s.selectedSheet))
        else if s.fileType == Csv then Ok(CsvParser.ParseCsv(text))
        else Ok([]);
      match rows
      case Err(_) => Outcome(s.(processing := false), [ErrorToast("Failed to reparse file")])
      case Ok(rs) =>
        if |rs| > 0 then
          Outcome(Parsed(s, rs).(processing := false),
                  [SuccessToast("Reloaded with header row " + IntToString(s.headerRow))])
        else Outcome(s.(processing := false), [])
  }

  /** Reloading a CSV file with rows re-auto-maps it and announces the header row. */
  lemma RefreshRemaps(s: DialogState, text: string, wb: Option<ExcelParser.Workbook>)
    requires s.fileBuffer.Some? && s.fileType == Csv && CsvParser.ParseCsv(text) != []
    ensures RefreshData(s, text, wb).state.mapping == AutoMapped(CsvParser.GetCsvHeaders(CsvParser.ParseCsv(text)))
    ensures RefreshData(s, text, wb).toasts == [SuccessToast("Reloaded with header row " + IntToString(s.headerRow))]
  {
  }

  /** The column select: a column index, or "unmapped" to clear the field. */
  function ChooseColumn(s: DialogState, f: Field, choice: Option<int>): (t: DialogState)
    ensures choice.None? ==> f !in t.mapping
    ensures choice.Some? ==> f in t.mapping && t.mapping[f] == choice.value
    ensures forall g :: g != f ==> (g in t.mapping <==> g in s.mapping)
    ensures forall g :: g != f && g in s.mapping ==> t.mapping[g] == s.mapping[g]
    ensures t.(mapping := s.mapping) == s
  {
    s.(mapping := if choice.None? then s.mapping - {f} else s.mapping[f := choice.value])
  }

  /** The Preview button: disabled until the part number is mapped. */
  function ShowPreview(s: DialogState): (t: DialogState)
    ensures t.step == Preview <==> PartNumber in s.mapping || s.step == Preview
    ensures t.(step := s.step) == s
  {
    if PartNumber in s.mapping then s.(step := Preview) else s
  }

  /** getPreviewValue for one field of a row. */
  function PreviewCell(s: DialogState, row: Record<string>, f: Field): (r: string)
    ensures f !in s.mapping ==> r == ""
  {
    PreviewValue(s.headers, row, if f in s.mapping then Some(s.mapping[f]) else None)
  }

  /** resetState, and handleClose when the dialog closes. */
  function Close(s: DialogState, open: bool): (t: DialogState)
    ensures !open ==> t == Initial && t.step == Upload && t.headerRow == 1 && t.csvData == [] && t.mapping == map[]
    ensures open ==> t == s
  {
    if open then s else Initial
  }

  // ---------------------------------------------------------------------
  // handleImport
  // ---------------------------------------------------------------------

  /** The dialog after handleImport, its toasts, the items handed to the store, and whether it closed. */
  datatype Imported = Imported(state: DialogState, toasts: seq<Toast>, handed: seq<BomTypes.ItemData>, closed: bool)

  /**
   * handleImport given the project id and location id it reads from the
   * store: both must be set and the part number mapped; the mapped rows are
   * handed to bulkImportItems (`failed` when it or the reload throws), and on
   * success the dialog closes and resets.
   */
  function ImportWith(s: DialogState, projectId: Option<int>, locationId: Option<int>, failed: bool): (r: Imported)
    ensures !BomStore.Chosen(projectId) || !BomStore.Chosen(locationId) ==>
      r == Imported(s, [ErrorToast("No location selected")], [], false)
    ensures BomStore.Chosen(projectId) && BomStore.Chosen(locationId) && PartNumber !in s.mapping ==>
      r == Imported(s, [ErrorToast("Part Number column is required")], [], false)
    ensures BomStore.Chosen(projectId) && BomStore.Chosen(locationId) && PartNumber in s.mapping ==>
      r.handed == ImportUtils.MapImportRowsToBom(s.csvData, ToColumnMapping(s.mapping), projectId.value, locationId.value) &&
      !r.state.importing && r.closed == !failed &&
      (failed ==> r.state == s.(importing := false) && r.toasts == [ErrorToast("Import failed")]) &&
      (!failed ==> r.state == Initial && r.toasts == [SuccessToast("Imported " + IntToString(|s.csvData|) + " items")])
  {
    if !BomStore.Chosen(projectId) || !BomStore.Chosen(locationId) then
      Imported(s, [ErrorToast("No location selected")], [], false)
    else if PartNumber !in s.mapping then
      Imported(s, [ErrorToast("Part Number column is required")], [], false)
    else
      var items := ImportUtils.MapImportRowsToBom(s.csvData, ToColumnMapping(s.mapping), projectId.value, locationId.value);
      if failed then Imported(s.(importing := false), [ErrorToast("Import failed")], items, false)
      else Imported(Initial, [SuccessToast("Imported " + IntToString(|items|) + " items")], items, true)
  }

  /**
   * The project id the component reads as written: it takes `currentProject`
   * from the BOM store, which has no such property, so the value is always
   * undefined.
   */
  function CurrentProjectAsRead(store: BomStore.BomState): (r: Option<int>)
    ensures r.None?
  {
    None
  }

  /** handleImport as written. */
  function HandleImportAsWritten(s: DialogState, store: BomStore.BomState, failed: bool): (r: Imported)
  {
    ImportWith(s, CurrentProjectAsRead(store), store.currentLocationId, failed)
  }

  /** handleImport reading the store's current package, which bulkImportItems and loadItems expect. */
  function HandleImport(s: DialogState, store: BomStore.BomState, failed: bool): (r: Imported)
  {
    ImportWith(s, store.currentScopePackageId, store.currentLocationId, failed)
  }

  /** As written, every import is refused, whatever package and location the store has chosen. */
  lemma ImportAlwaysRefused(s: DialogState, store: BomStore.BomState, failed: bool)
    ensures HandleImportAsWritten(s, store, failed) == Imported(s, [ErrorToast("No location selected")], [], false)
  {
  }

  /**
   * Corrected, a store with a package and location in scope and a mapped
   * part number imports one item per row, placed in that package and
   * location at the row's position.
   */
  lemma ImportPlacesRows(s: DialogState, store: BomStore.BomState, failed: bool, i: nat)
    requires BomStore.Chosen(store.currentScopePackageId) && BomStore.Chosen(store.currentLocationId)
    requires PartNumber in s.mapping && i < |s.csvData|
    ensures var r := HandleImport(s, store, failed);
      |r.handed| == |s.csvData| &&
      r.handed[i].project_id == store.currentScopePackageId.value &&
      r.handed[i].location_id == store.currentLocationId.value &&
      r.handed[i].sort_order == i
  {
    ImportUtils.ImportedItemsPlaced(s.csvData, ToColumnMapping(s.mapping),
                                    store.currentScopePackageId.value, store.currentLocationId.value, i);
  }

  // ---------------------------------------------------------------------
  // the component: each handler updates the dialog's state field by field
  // ---------------------------------------------------------------------

  class Dialog {
    var state: DialogState

    constructor()
      ensures state == Initial
    {
      state := Initial;
    }

    /** processParsedRows: the forEach over the patterns table fills the new mapping. */
    method ProcessParsedRows(rows: seq<Record<string>>)
      modifies this
      ensures state == Parsed(old(state), rows)
    {
      var headers := CsvParser.GetCsvHeaders(rows);
      state := state.(csvData := rows);
      state := state.(headers := headers);
      var autoMapping := AutoMap(LowerHeaders(headers), Patterns);
      state := state.(mapping := autoMapping);
    }

    /** processFileContents, with the processing flag cleared after a successful load. */
    method ProcessFileContents(fileName: string, contents: Bytes, text: string, wb: Option<ExcelParser.Workbook>)
      returns (toasts: seq<Toast>)
      modifies this
      ensures Outcome(state, toasts) == LoadFile(old(state), fileName, contents, text, wb)
    {
      var isExcel := IsExcelName(fileName);
      state := state.(fileType := if isExcel then Excel else Csv);
      state := state.(fileBuffer := Some(contents));
      var rows: seq<Record<string>>;
      if isExcel {
        if wb.None? {
          state := state.(processing := false);
          return [ErrorToast("Failed to parse file")];
        }
        var sheets := wb.value.sheetNames;
        state := state.(availableSheets := sheets);
        if |sheets| == 0 {
          state := state.(processing := false);
          return [ErrorToast("Excel file contains no sheets")];
        }
        if |sheets| == 1 {
          state := state.(selectedSheet := sheets[0]);
          var parsed := ExcelParser.ParseExcel(wb.value, 0);
          if parsed.Err? {
            state := state.(processing := false);
            return [ErrorToast("Failed to parse file")];
          }
          rows := parsed.value;
        } else {
          state := state.(step := SheetSelect);
          state := state.(processing := false);
          return [];
        }
      } else {
        rows := CsvParser.ParseCsv(text);
      }
      if |rows| == 0 {
        state := state.(processing := false);
        return [ErrorToast("File is empty or invalid")];
      }
      ProcessParsedRows(rows);
      state := state.(step := Mapping);
      state := state.(processing := false);
      toasts := [];
    }

    method HandleSheetSelection(wb: Option<ExcelParser.Workbook>) returns (toasts: seq<Toast>)
      modifies this
      ensures Outcome(state, toasts) == SheetSelection(old(state), wb)
    {
      if state.fileBuffer.None? || state.selectedSheet == "" {
        return [ErrorToast("Please select a sheet")];
      }
      var sheet := state.selectedSheet;
      toasts := [];
      if wb.None? {
        toasts := [ErrorToast("Failed to parse Excel sheet")];
      } else {
        var rows := ExcelParser.ParseExcelSheet(wb.value, sheet);
        if rows.Err? {
          toasts := [ErrorToast("Failed to parse Excel sheet")];
        } else if |rows.value| == 0 {
          toasts := [ErrorToast("Sheet \"" + sheet + "\" is empty")];
        } else {
          ProcessParsedRows(rows.value);
          state := state.(step := Mapping);
        }
      }
      state := state.(processing := false);
    }

    method HandleHeaderRowChange(value: string)
      modifies this
      ensures state == HeaderRowChange(old(state), value)
    {
      var row := ParseInt(value);
      if row.None? || row.value < 1 {
        return;
      }
      state := state.(headerRow := row.value);
    }

    method Refresh(text: string, wb: Option<ExcelParser.Workbook>) returns (toasts: seq<Toast>)
      modifies this
      ensures Outcome(state, toasts) == RefreshData(old(state), text, wb)
    {
      if state.fileBuffer.None? {
        return [];
      }
      var rows: seq<Record<string>> := [];
      if state.fileType == Excel && state.selectedSheet != "" {
        var parsed: Result<seq<Record<string>>> := Err("");
        if wb.Some? {
          parsed := ExcelParser.ParseExcelSheet(wb.value, state.selectedSheet);
        }
        if parsed.Err? {
          state := state.(processing := false);
          return [ErrorToast("Failed to reparse file")];
        }
        rows := parsed.value;
      } else if state.fileType == Csv {
        rows := CsvParser.ParseCsv(text);
      }
      toasts := [];
      if |rows| > 0 {
        ProcessParsedRows(rows);
        toasts := [SuccessToast("Reloaded with header row " + IntToString(state.headerRow))];
      }
      state := state.(processing := false);
    }

    method SetMapping(f: Field, choice: Option<int>)
      modifies this
      ensures state == ChooseColumn(old(state), f, choice)
    {
      if choice.None? {
        state := state.(mapping := state.mapping - {f});
      } else {
        state := state.(mapping := state.mapping[f := choice.value]);
      }
    }

    method GoToPreview()
      modifies this
      ensures state == ShowPreview(old(state))
    {
      if PartNumber in state.mapping {
        state := state.(step := Preview);
      }
    }

    /** handleImport, reading the store's current package and location. */
    method Import(store: BomStore.BomState, failed: bool)
      returns (toasts: seq<Toast>, handed: seq<BomTypes.ItemData>, closed: bool)
      modifies this
      ensures Imported(state, toasts, handed, closed) == HandleImport(old(state), store, failed)
    {
      if !BomStore.Chosen(store.currentScopePackageId) || !BomStore.Chosen(store.currentLocationId) {
        return [ErrorToast("No location selected")], [], false;
      }
      if PartNumber !in state.mapping {
        return [ErrorToast("Part Number column is required")], [], false;
      }
      state := state.(importing := true);
      handed := ImportUtils.MapImportRowsToBom(state.csvData, ToColumnMapping(state.mapping),
                                               store.currentScopePackageId.value, store.currentLocationId.value);
      if failed {
        toasts, closed := [ErrorToast("Import failed")], false;
      } else {
        toasts, closed := [SuccessToast("Imported " + IntToString(|handed|) + " items")], true;
        ResetState();
      }
      state := state.(importing := false);
    }

    method ResetState()
      modifies this
      ensures state == Initial
    {
      state := state.(step := Upload);
      state := state.(fileType := Csv);
      state := state.(fileBuffer := None);
      state := state.(availableSheets := []);
      state := state.(selectedSheet := "");
      state := state.(headerRow := 1);
      state := state.(csvData := []);
      state := state.(headers := []);
      state := state.(mapping := map[]);
      state := state.(importing := false);
      state := state.(processing := false);
    }

    method HandleClose(open: bool)
      modifies this
      ensures state == Close(old(state), open)
    {
      if !open {
        ResetState();
      }
    }
  }
}
