# ats-chd-tools core, modelled in Dafny

ats-chd-tools is a desktop engineering tool. Its front end is TypeScript and React; a small Rust back end runs on Tauri.
It manages bills of materials (job projects, packages, locations and items), a parts catalogue and electrical load calculations.
It also builds Glenair connector part numbers and backs up and restores its SQLite database.
This project models the logic underneath the user interface and proves what that logic promises.

One Dafny module per source file, one `.dfy` file per module:

- **Load calculations**.
  - `Matching`: string normalisation, exact part matching with confidence, match states.
  - `Calculations`: line-item resolution and watts, amps, BTU and phase totals, over `real`.
  - `Validation`: the issues a line item raises.
  - `LoadCalcExport`: the HTML report tables and the XLSX rows and sheets.
- **Text formats**.
  - `CsvParser`: the line-oriented CSV reader.
  - `ImportUtils`: quantity and price extraction, and BOM row mapping.
  - `ExportUtils`: XML escaping, the EPLAN XML export, the BOM CSV export, the JSON grouping and the `.zw1` header.
  - `PartsExport`: the parts CSV export.
  - `ExcelParser`: the row post-processing applied to the spreadsheet library's array-of-arrays output.
  - `PartsImport`: the catalogue importer.
  - `ProjectPackage`: the portable project-package schema and its JSON form.
  - `ProjectPackageIo`: package export, and import with collision renaming, id maps and rollback.
- **Tables and stores**.
  - `MockClient`: the in-memory database, with id counters, cascades, search and settings.
  - `RealClient`: the SQL statements the SQLite client builds, including UPDATE field lists, bulk-insert batching under 999 parameters, search parameters and bulk-delete placeholders.
  - `BomStore`: the BOM store's scope, items, optimistic updates and pending-write counter.
  - `LoadCalcProjectStore`: the load-calculation project store's selections, guards and deletions.
  - `LoadCalcImportStore`: the import wizard's mappings, templates and file step.
  - `GlenairStore`: the connector builder.
  - `AppSettings`: typed settings over the key-value table.
- **Utilities**.
  - `GlenairUtils`: AWG parsing and formatting, part-number assembly and size tables.
  - `SeedParts`: voltage-type normalisation and the quote-aware CSV reader of the seed script.
- **Back end**.
  - `DbMaintenance`: backup and restore over an abstract file system.
- **Import dialogs**.
  - `ImportMapping`: the auto-mapping, `parseInt` and preview cell shared by both dialogs.
  - `ImportDialog`: the BOM import wizard.
  - `PartsImportDialog`: the parts import wizard.
- **Shared definitions**.
  - `Common`: Option and Result, records as association lists, string helpers, `round2`, number-to-text.
  - `BomTypes` and `PartTypes`: the record types.

## How the model is built

- **Pure and state-changing code.**
  - Pure code is modelled as functions with named results.
  - Loops in the source become methods with loop invariants, each proved against a specification function.
  - A store whose fields the source replaces step by step becomes a class with a single `state` field. Each method ensures that the new state and its result equal a pure transition function of the old state. The lemmas about those transition functions carry the properties.
- **Outside answers as parameters.** Whatever the code receives from outside is a parameter of the operation that receives it. That covers database answers and faults, the clock, random ids, file contents and the spreadsheet library's output.
- **Numbers.** Numbers are `real` where the source does arithmetic and `int` where it counts. `round2(x)` is `floor(x*100 + 0.5)/100`.
- **Calls and toasts as values.** Calls into the database are recorded as values such as "load items for package p" or "bulk import these rows". Toasts are values too.

## Model

| member | source | states |
|---|---|---|
| Matching.NormalizeString | src/lib/load-calc/matching.ts:7-21 | null, undefined and '' give ''; with whitespace normalisation the result is trimmed with no run of two blanks; with case normalisation it has no upper-case letter; with both flags off it is the input |
| Matching.NormalizeIdempotent | src/lib/load-calc/matching.ts:7-21 | normalising an already normalised string with the same configuration changes nothing |
| Matching.ExtractManufacturerAndPart | src/lib/load-calc/matching.ts:26-38 | the part number is '' exactly when its cell is missing or falsy, and a string cell is kept as is; the manufacturer is undefined exactly when no field is named or its cell is falsy, and is never '' |
| Matching.FirstWhere | src/lib/load-calc/matching.ts:62-88 | the index of the first catalogue part that satisfies the test, or none when no part does |
| Matching.ExactMatchFirstBoth | src/lib/load-calc/matching.ts:59-74 | with a manufacturer given, the first part matching both the normalised part number and the manufacturer wins with confidence 1.0 |
| Matching.ExactMatchFirstNumber | src/lib/load-calc/matching.ts:77-89 | when no part matches both, the first part matching the part number wins, with confidence 0.8 if a manufacturer was given and 1.0 otherwise |
| Matching.NoMatchWhenNothingMatches | src/lib/load-calc/matching.ts:91-92 | when no part matches the part number the answer is no part with confidence 0 |
| Matching.FindExactMatch | src/lib/load-calc/matching.ts:43-97 | the two early-return scans compute the specified match; a part id is present exactly when the confidence is not 0, and the confidence is 0, 0.8 or 1.0 (empty part number and a failing catalogue read give 0) |
| Matching.MatchRow | src/lib/load-calc/matching.ts:102-133 | copies the row index; the state is matched exactly when the part number is present and the confidence reaches the threshold, unmatched otherwise; an empty part number gives the all-empty unmatched result |
| Matching.ProgressReportsShape | src/lib/load-calc/matching.ts:148-159 | one progress report per batch of 50, the k-th reporting (min((k+1)·50, n), n) |
| Matching.MapRows | src/lib/load-calc/matching.ts:149-152 | the batch holds one result per row of the slice, each computed with its absolute row index |
| Matching.MapRowsSlice | src/lib/load-calc/matching.ts:149-155 | matching a batch equals slicing the match of the whole input |
| Matching.MatchEach | src/lib/load-calc/matching.ts:138-163 | one result per row, the i-th being the match of row i with row index i |
| Matching.MatchAllRows | src/lib/load-calc/matching.ts:138-163 | the batch loop returns exactly the per-row matches in row order and the progress sequence reported after each batch |
| Matching.UpdateWithManualEntry | src/lib/load-calc/matching.ts:168-179 | state manual, confidence 0.5, no part id and the given entry; row index and matched fields unchanged |
| Matching.Skip | src/lib/load-calc/matching.ts:184-190 | state skipped and confidence 0; every other field unchanged |
| Calculations.ResolveLineItem | src/lib/load-calc/calculations.ts:32-56 | each override that is set wins; an unset one falls back to the catalogue specification for the part and voltage type (non-numbers read as 0), or 0 without a linked part or specification |
| Calculations.ResolveUnlinkedIsZero | src/lib/load-calc/calculations.ts:36-53 | an item with no part and no overrides resolves to 0 W, 0 A and 0 BTU |
| Calculations.CalculateHeat | src/lib/load-calc/calculations.ts:63-77 | the loop returns the cent-rounded sum of qty × utilisation × BTU, using the item's own BTU when positive and watts × 3.412 otherwise; an empty table gives 0 |
| Calculations.CalculateTotalWatts | src/lib/load-calc/calculations.ts:82-88 | the loop returns the cent-rounded sum of qty × utilisation × watts; an empty table gives 0 |
| Calculations.CalculateTotalAmperes | src/lib/load-calc/calculations.ts:93-99 | the loop returns the cent-rounded sum of qty × utilisation × amperes; an empty table gives 0 |
| Calculations.CalculatePhaseLoading | src/lib/load-calc/calculations.ts:105-117 | each phase's load is the cent-rounded sum over the items assigned to that phase alone |
| Calculations.PhasesPartitionWatts | src/lib/load-calc/calculations.ts:105-112 | the three phase sums plus the unassigned items' watts add up to the table's watt sum: every item counts towards exactly one of them |
| Calculations.NeutralContributesNothing | src/lib/load-calc/calculations.ts:107-111 | items on N, UNK or no phase add nothing to L1, L2 or L3 |
| Calculations.SumsNonNegative | src/lib/load-calc/calculations.ts:63-117 | non-negative quantities, utilisations and ratings give non-negative watt, ampere, BTU and phase sums |
| Calculations.Round2NonNegative | src/lib/load-calc/calculations.ts:76 | rounding to cents keeps non-negative totals non-negative |
| Calculations.Max3 | src/lib/load-calc/calculations.ts:126 | `Math.max` of the three loads: at least each of them, and one of them |
| Calculations.Min3 | src/lib/load-calc/calculations.ts:127 | `Math.min` of the three loads: at most each of them, and one of them |
| Calculations.CalculateBalance | src/lib/load-calc/calculations.ts:124-130 | null exactly when the largest phase load is 0; otherwise (max − min) / max × 100 rounded to two places |
| Calculations.BalanceInRange | src/lib/load-calc/calculations.ts:124-130 | for non-negative loads the imbalance is a percentage between 0 and 100 |
| Calculations.FractionAtMostOne | src/lib/load-calc/calculations.ts:129 | (max − min) / max lies in [0, 1] when 0 ≤ max − min ≤ max |
| Calculations.BalancedPhases | src/lib/load-calc/calculations.ts:124-130 | three equal positive loads are perfectly balanced (0 %) |
| Calculations.IsThreePhase | src/lib/load-calc/calculations.ts:135-137 | true exactly when the voltage type contains "3PH" |
| Calculations.CalculateTableResults | src/lib/load-calc/calculations.ts:142-165 | resolves every item and returns TableResultOf: the rounded watt, ampere, BTU and phase totals of the resolved items, a balance only for three-phase types, and the item count |
| Validation.IssueFor | src/lib/load-calc/validation.ts:27-65 | the issue names the item's id and the field checked; quantity and utilisation issues are errors, phase and wattage issues warnings |
| Validation.HasErrors | src/lib/load-calc/validation.ts:75-77 | true exactly when some issue has severity error |
| Validation.HasErrorsAppend | src/lib/load-calc/validation.ts:75-77 | a concatenation has errors exactly when one of its parts has |
| Validation.ItemIssues | src/lib/load-calc/validation.ts:25-66 | at most four issues per item, all naming that item |
| Validation.ItemIssuesRaise | src/lib/load-calc/validation.ts:25-66 | an item raises a qty issue iff qty ≤ 0, a utilisation issue iff it lies outside [0, 1], a phase issue iff the table is three-phase and the phase is unset, a wattage issue iff it has no part and no positive wattage override |
| Validation.ItemIssuesErrors | src/lib/load-calc/validation.ts:26-53 | an item's issues hold an error exactly when its quantity or utilisation is bad: a missing phase or wattage only warns |
| Validation.CheckItem | src/lib/load-calc/validation.ts:25-66 | the four checks push the specified issues in source order |
| Validation.ValidateLineItems | src/lib/load-calc/validation.ts:17-70 | the loop returns the issues of every item in item order; no items give no issues |
| Validation.IssuesNameItems | src/lib/load-calc/validation.ts:24-67 | every issue carries the id of one of the validated items |
| Validation.ErrorsIffBadItem | src/lib/load-calc/validation.ts:17-77 | the issue list has errors exactly when some item has a bad quantity or utilisation |
| LoadCalcExport.Mapped | src/lib/load-calc/export.ts:55-65 | `data.map(f)`: one row per report entry, in order (also lines 203-208) |
| LoadCalcExport.ColumnOfMapped | src/lib/load-calc/export.ts:52-53 | a column of the mapped rows sums to the reduce over the entries (also lines 212-213) |
| LoadCalcExport.HeatStatus | src/lib/load-calc/export.ts:62 | 'HIGH' exactly above 1000 W, otherwise 'OK' (also line 207) |
| LoadCalcExport.LoadingStatus | src/lib/load-calc/export.ts:103 | 'Calculated' exactly for a calculated table, otherwise 'Pending' (also line 225) |
| LoadCalcExport.HeatHtml | src/lib/load-calc/export.ts:51-89 | the heat table has four header cells |
| LoadCalcExport.LoadingHtml | src/lib/load-calc/export.ts:91-131 | the loading table has five header cells |
| LoadCalcExport.ImbalanceCell | src/lib/load-calc/export.ts:142 | 'N/A' exactly when there is no imbalance figure, otherwise that figure (also line 244) |
| LoadCalcExport.BalanceHtml | src/lib/load-calc/export.ts:133-160 | the balance table has five header cells |
| LoadCalcExport.ReportHtml | src/lib/load-calc/export.ts:162-171 | each tab renders its own report, with its own first header and at least one row per entry |
| LoadCalcExport.HeatHtmlShape | src/lib/load-calc/export.ts:51-89 | one row per location plus a totals row only when there are two or more; the status cell is 'HIGH' exactly above 1000 W |
| LoadCalcExport.HeatHtmlTotals | src/lib/load-calc/export.ts:52-53 | the totals row's tables and watts are the sums of the rows above (also lines 67-75) |
| LoadCalcExport.LoadingHtmlShape | src/lib/load-calc/export.ts:91-131 | one row per table plus a totals row only when there are two or more; the status reads 'Calculated' exactly for calculated tables |
| LoadCalcExport.LoadingHtmlTotals | src/lib/load-calc/export.ts:92-93 | the totals row's watts and amps are the sums of the rows above (also lines 108-116) |
| LoadCalcExport.BalanceHtmlShape | src/lib/load-calc/export.ts:133-160 | one row per table, with no totals row, reading 'N/A' exactly without an imbalance figure |
| LoadCalcExport.WithTotals | src/lib/load-calc/export.ts:209-235 | the entries' rows, followed by the totals row only when there are two or more entries |
| LoadCalcExport.Workbook | src/lib/load-calc/export.ts:200-246 | three sheets named Heat, Loading and Balance, in that order |
| LoadCalcExport.XlsxFileName | src/lib/load-calc/export.ts:249 | the file name is the project name followed by '_Load_Calculations.xlsx' |
| LoadCalcExport.ExportReportsToXlsx | src/lib/load-calc/export.ts:196-252 | builds the specified workbook and file name |
| LoadCalcExport.HeatSheetTotals | src/lib/load-calc/export.ts:209-216 | the Heat sheet's totals row sums the tables and watts above it |
| LoadCalcExport.LoadingSheetTotals | src/lib/load-calc/export.ts:227-235 | the Loading sheet's totals row sums the watts and amps above it |
| LoadCalcExport.WorkbookShape | src/lib/load-calc/export.ts:203-246 | each sheet has one record per entry, in order, plus a totals row on Heat and Loading only for two or more entries |
| LoadCalcExport.HtmlAgreesWithSheet | src/lib/load-calc/export.ts:62 | the clipboard table and the workbook give the same status and the same 'N/A' for every entry (also lines 103, 142, 207, 225, 244) |
| CsvParser.Step | src/lib/csv-parser.ts:36-51 | one iteration of the character loop consumes one character, or two for a doubled quote inside quotes |
| CsvParser.ParseLine | src/lib/csv-parser.ts:30-56 | a line always yields at least one field, and every field is trimmed |
| CsvParser.ParseCsvLine | src/lib/csv-parser.ts:30-56 | the character loop returns the fields of the specified scan |
| CsvParser.ScanChar | src/lib/csv-parser.ts:49-51 | an ordinary character, or a comma inside quotes, is appended to the current field |
| CsvParser.ScanQuotePair | src/lib/csv-parser.ts:39-42 | inside quotes a doubled quote adds one literal quote |
| CsvParser.ScanQuoteToggle | src/lib/csv-parser.ts:43-45 | any other quote toggles the in-quotes flag and adds nothing |
| CsvParser.ScanComma | src/lib/csv-parser.ts:46-48 | a comma outside quotes closes the current field and starts an empty one |
| CsvParser.NoQuotesIsSplit | src/lib/csv-parser.ts:30-56 | on a line without quotes the fields are the trimmed comma-separated pieces, one more than the number of commas |
| CsvParser.ScanQuotedBody | src/lib/csv-parser.ts:38-45 | a quoted field with inner quotes doubled reads back as the original value |
| CsvParser.ParseEncodedLine | src/lib/csv-parser.ts:30-56 | joining RFC 4180 encodings of fields with commas parses back to those fields (trimmed) |
| CsvParser.QuotedCommaKept | src/lib/csv-parser.ts:38-49 | a comma inside a quoted section does not split the field |
| CsvParser.SplitLines | src/lib/csv-parser.ts:8 | splitting on LF or CRLF gives at least one line |
| CsvParser.NonBlank | src/lib/csv-parser.ts:16 | keeps exactly the lines that are not blank after trimming |
| CsvParser.RowKeys | src/lib/csv-parser.ts:19-22 | a row's keys are exactly the header names |
| CsvParser.RowValues | src/lib/csv-parser.ts:20-22 | the last column with a given header name sets that key's value: the field at that position, or '' when the line has fewer fields |
| CsvParser.RowKeysAreHeaders | src/lib/csv-parser.ts:19-22 | with distinct headers, the row's keys are the headers in order |
| CsvParser.ParseCsv | src/lib/csv-parser.ts:7-25 | one row per non-blank line after the first, each built from the parsed header line and that line's fields |
| CsvParser.ParsedRowKeys | src/lib/csv-parser.ts:7-25 | every parsed row has exactly the header keys |
| CsvParser.GetCsvHeaders | src/lib/csv-parser.ts:63-66 | no rows give no headers; otherwise the keys of the first row |
| CsvParser.HeadersOfParsed | src/lib/csv-parser.ts:7-25 | for parsed text with distinct headers and a data row, the headers read back are the header line's fields (also lines 63-66) |
| ImportUtils.DigitRun | src/lib/import-utils.ts:15 | the length of the maximal run of digits starting at a position |
| ImportUtils.FirstStart | src/lib/import-utils.ts:15 | the leftmost position where the number pattern can start (a digit, or a point followed by a digit), or none |
| ImportUtils.LexemeEnd | src/lib/import-utils.ts:15 | the end of the match the pattern as written takes at a start position, its first alternative taking at most three leading digits |
| ImportUtils.LexemeEndIntended | src/lib/import-utils.ts:15 | the end of the match once the whole leading digit run is read before the thousands groups |
| ImportUtils.RemoveCommas | src/lib/import-utils.ts:17 | the result holds no comma and leaves comma-free text unchanged (also line 42) |
| ImportUtils.ParseFloat | src/lib/import-utils.ts:18 | `parseFloat` of the comma-free match: a non-negative value, NaN exactly when the text does not start like a number (also line 43) |
| ImportUtils.FirstNumber | src/lib/import-utils.ts:15-17 | the value of the pattern's first match as written: non-negative, and none for text without digits |
| ImportUtils.ParseQuantityAsWritten | src/lib/import-utils.ts:8-23 | as written: never negative, and 1 for empty, blank or digit-free text |
| ImportUtils.ParseQuantity | src/lib/import-utils.ts:8-23 | the corrected reading of the Findings table, whole digit runs read in full: never negative (the pattern has no sign), and 1 for empty, blank or digit-free text |
| ImportUtils.ParseCurrencyAsWritten | src/lib/import-utils.ts:30-48 | as written: the first match's value, never negative, and null for empty, blank or digit-free text |
| ImportUtils.ParseCurrency | src/lib/import-utils.ts:30-48 | the corrected reading of the Findings table, whole digit runs read in full: never negative, and null for empty, blank or digit-free text |
| ImportUtils.QuantityIsCurrency | src/lib/import-utils.ts:8-48 | the quantity is the currency reading when there is one, and 1 when the currency reading is null |
| ImportUtils.ParseQuantityOfDigits | src/lib/import-utils.ts:8-48 | a plain digit string reads as its value, while the pattern as written keeps only its first three digits |
| ImportUtils.ParseQuantityOfNumeral | src/lib/import-utils.ts:8-48 | every decimal numeral reads back as its value, as quantity and as price |
| ImportUtils.QuantityFourDigitsAsWritten | src/lib/import-utils.ts:15 | "1234" reads as 123 as written and as 1234 once corrected |
| ImportUtils.QuantityWithUnit | src/lib/import-utils.ts:5-19 | "10 EA" reads as 10 |
| ImportUtils.QuantityWithSeparator | src/lib/import-utils.ts:14-19 | "1,200" reads as 1200 |
| ImportUtils.CellAt | src/lib/import-utils.ts:65-69 | an unmapped column or one outside the first row's headers reads as '' |
| ImportUtils.ItemOfRow | src/lib/import-utils.ts:75-91 | the item carries the given project and location ids, sort order = row index, is_spare 0, no part id and no secondary description; quantity and price use the corrected parsers |
| ImportUtils.MapImportRowsToBom | src/lib/import-utils.ts:54-93 | no rows give no items; otherwise one item per row, the i-th built from row i with the first row's headers, by the corrected parsers |
| ImportUtils.ImportedItemsPlaced | src/lib/import-utils.ts:76-90 | item i has sort order i and the project and location ids passed in |
| ImportUtils.UnmappedDefaults | src/lib/import-utils.ts:79-88 | with nothing mapped: part number 'UNKNOWN', unit 'EA', description '', quantity 1, no price, and null manufacturer, supplier, category and reference designator |
| ExportUtils.ReplaceCharAppend | src/lib/export-utils.ts:8-13 | a global replacement distributes over concatenation |
| ExportUtils.EscapeXml | src/lib/export-utils.ts:6-14 | null and undefined give '' |
| ExportUtils.EscapeXmlIsPerChar | src/lib/export-utils.ts:8-13 | the five chained replacements, ampersand first, equal replacing each character by its entity |
| ExportUtils.EscapeXmlSafe | src/lib/export-utils.ts:6-14 | the output has no raw < > " or ' and decoding the five entities gives the input back |
| ExportUtils.DecodeEscaped | src/lib/export-utils.ts:8-13 | decoding the per-character escape returns the original text |
| ExportUtils.ItemsAt | src/lib/export-utils.ts:30 | the items filtered to one location keep only items with that location id (also lines 126-127) |
| ExportUtils.LocationName | src/lib/export-utils.ts:33 | the export name when it is non-empty, else the name |
| ExportUtils.SpareText | src/lib/export-utils.ts:47 | 'true' exactly when is_spare is truthy |
| ExportUtils.PartValues | src/lib/export-utils.ts:36-48 | a Part element carries eleven values, the last being 'true' exactly when the item is a spare |
| ExportUtils.LocationXml | src/lib/export-utils.ts:29-52 | a location contributes nothing exactly when it has no items |
| ExportUtils.GenerateEplanXml | src/lib/export-utils.ts:19-58 | the forEach loops appending to `xml` build the specified document: header, one element per non-empty location in order, and footer |
| ExportUtils.AppendLocations | src/lib/export-utils.ts:29-52 | the outer loop appends the locations' elements in location order |
| ExportUtils.LocationPiece | src/lib/export-utils.ts:30-51 | one location's element: its opening tag, its items' parts, the closing tag |
| ExportUtils.AppendParts | src/lib/export-utils.ts:35-49 | the inner loop appends one Part per item in item order |
| ExportUtils.EachItemOnce | src/lib/export-utils.ts:29-52 | with distinct location ids, the items placed under locations are a permutation of the items whose location is listed: each appears exactly once |
| ExportUtils.PlacedCount | src/lib/export-utils.ts:29-52 | every item occurs as often among the placed items as in the input |
| ExportUtils.EscapeCsv | src/lib/export-utils.ts:78-86 | null or undefined give ''; a value is encoded as one RFC 4180 field; a value without comma, quote or newline is unchanged |
| ExportUtils.CsvValues | src/lib/export-utils.ts:88-99 | one value per header column, eleven in all |
| ExportUtils.EscapeAll | src/lib/export-utils.ts:88-100 | every value of a row is escaped in place |
| ExportUtils.CsvRows | src/lib/export-utils.ts:88-100 | one line per item, in item order |
| ExportUtils.CsvRowReadsBack | src/lib/export-utils.ts:78-100 | parsing an item's line with the CSV reader gives back its eleven values |
| ExportUtils.CsvHeaderReadsBack | src/lib/export-utils.ts:64-76 | the header line parses back to the eleven headers (also line 102) |
| ExportUtils.ItemToJson | src/lib/export-utils.ts:128-140 | isSpare is true exactly when is_spare is 1; part number and quantity are copied |
| ExportUtils.LocationToJson | src/lib/export-utils.ts:123-141 | a location's name and export name are copied and its items are those with its id, in order |
| ExportUtils.GenerateJson | src/lib/export-utils.ts:108-145 | export version '1.0', the given date, the project number copied, and one entry per location in order |
| ExportUtils.Zw1RoundTrip | src/lib/export-utils.ts:151-172 | the header embeds the project number in the `Project=` line, reads back from it, and the text around it is fixed |
| PartsExport.OrEmpty | src/lib/parts-export.ts:20-25 | a null or undefined field is written as '', any other value as itself |
| PartsExport.PartFields | src/lib/parts-export.ts:19-26 | six fields per part in header order: manufacturer, part number, description, secondary description, unit, category |
| PartsExport.EscapeField | src/lib/parts-export.ts:36-42 | a field with a comma, quote or line feed is quoted with inner quotes doubled, any other passes unchanged; either way it is one RFC 4180 field encoding the value |
| PartsExport.EscapeFields | src/lib/parts-export.ts:33-42 | every field of a row is escaped in place |
| PartsExport.AllRows | src/lib/parts-export.ts:10-29 | the header row first, then one row per part in input order |
| PartsExport.Lines | src/lib/parts-export.ts:32-45 | one CSV line per row, in order |
| PartsExport.HeaderLineIsPlain | src/lib/parts-export.ts:10-17 | the first line is the six headers joined by commas and parses back to them |
| PartsExport.PartLineReadsBack | src/lib/parts-export.ts:19-45 | a part's line parses back to its six field values |
| ExcelParser.HeaderText | src/lib/excel-parser.ts:95 | a header cell becomes trimmed text, '' for a falsy cell |
| ExcelParser.CellText | src/lib/excel-parser.ts:106-107 | a data cell becomes trimmed text, '' when missing, null or undefined |
| ExcelParser.HeaderTexts | src/lib/excel-parser.ts:95 | one header text per header cell |
| ExcelParser.CellTexts | src/lib/excel-parser.ts:105-108 | one cell text per header column |
| ExcelParser.ParseExcelSheet | src/lib/excel-parser.ts:64-122 | the method computes the specified sheet result: an unknown sheet fails, an empty sheet gives no rows, a non-array header row fails, and every failure carries the sheet prefix |
| ExcelParser.DataRows | src/lib/excel-parser.ts:98-117 | the loop over the rows after the header builds the specified rows: non-array rows skipped, all-empty rows dropped, order kept |
| ExcelParser.BuildRow | src/lib/excel-parser.ts:104-108 | the forEach fills the specified row object, header by header |
| ExcelParser.ParseExcel | src/lib/excel-parser.ts:20-39 | a workbook without sheets and an index past the sheet count fail with the source's messages; otherwise the indexed sheet's result, its failure rethrown with the file prefix |
| ExcelParser.SheetErrorsPrefixed | src/lib/excel-parser.ts:119-121 | every sheet failure begins `Failed to parse Excel sheet "<name>"` |
| ExcelParser.EmptySheet | src/lib/excel-parser.ts:85-87 | an existing sheet with no raw rows parses to no rows |
| ExcelParser.SheetRowsShape | src/lib/excel-parser.ts:98-117 | at most one output row per raw row; every output row has a non-empty value and exactly the header keys |
| ExcelParser.RowForDistinct | src/lib/excel-parser.ts:104-108 | with distinct headers, a row's keys are the headers in order and each holds its column's cell text |
| ExcelParser.KeptIffSomeText | src/lib/excel-parser.ts:110-114 | a row is kept exactly when one of its cells has non-empty text |
| PartsImport.NormalizeValue | src/lib/parts-import.ts:23-26 | null and undefined give ''; the result has no edge blanks and no run of two blanks, and is '' exactly when the input is blank |
| PartsImport.NormalizeValueIdempotent | src/lib/parts-import.ts:23-26 | normalising twice is normalising once |
| PartsImport.Cell | src/lib/parts-import.ts:66-68 | an unmapped column reads as ''; every cell is normalised (also lines 106-131) |
| PartsImport.AddManufacturer | src/lib/parts-import.ts:83-84 | `manufacturers.create` appends one manufacturer under the next id and changes nothing else |
| PartsImport.AddPart | src/lib/parts-import.ts:183-190 | `parts.create` appends the part under the next id and changes nothing else |
| PartsImport.ApplyUpdates | src/lib/parts-import.ts:149-167 | an update keeps the part's id, number and manufacturer and replaces exactly the fields it carries |
| PartsImport.UpdatePart | src/lib/parts-import.ts:167 | only the updated part changes; the other parts, manufacturers and categories stay |
| PartsImport.FindPart | src/lib/parts-import.ts:145 | the real client's getByKey: the part with exactly the given number and manufacturer id, or none when no part has both |
| PartsImport.Fail | src/lib/parts-import.ts:71-72 | a failed row adds one error with the 1-based row number and one skip, and nothing else (also lines 111-112, 175-179) |
| PartsImport.ManufacturerMap | src/lib/parts-import.ts:50-53 | every preloaded manufacturer is cached under its lower-cased name |
| PartsImport.CategoryId | src/lib/parts-import.ts:133-142 | an empty category cell gives none; a found id is the cached id of the lower-cased name and is never 0 |
| PartsImport.UpdatesFor | src/lib/parts-import.ts:158-163 | description and unit are updated exactly when non-empty; the category exactly when the cell is non-empty and names an existing category |
| PartsImport.NewPart | src/lib/parts-import.ts:183-190 | the unit defaults to 'EA'; the secondary description is null exactly when its cell is empty |
| PartsImport.Resolve | src/lib/parts-import.ts:77-103 | resolving a manufacturer leaves the counters, categories and parts untouched |
| PartsImport.UpsertCounts | src/lib/parts-import.ts:145-193 | an existing or new part raises exactly one counter, and an error comes only with a skip |
| PartsImport.RowStepCounts | src/lib/parts-import.ts:62-201 | each row raises exactly one of created, updated or skipped; an error it adds carries row number i+1 |
| PartsImport.ImportRowsCounts | src/lib/parts-import.ts:61-202 | after the loop created + updated + skipped equals the number of rows, every error names a row in 1..n, and there are no more errors than skips |
| PartsImport.NoPartNumberColumn | src/lib/parts-import.ts:44-47 | without a part-number column the catalogue is unchanged, the only error is at row 0 and every counter is 0 |
| PartsImport.ImportCounts | src/lib/parts-import.ts:36-205 | with a part-number column every row is counted once and every error names a skipped row |
| PartsImport.CategoriesUntouched | src/lib/parts-import.ts:133-143 | the import never creates a category (also lines 172-192) |
| PartsImport.ResolveKeepsCache | src/lib/parts-import.ts:77-103 | resolving keeps every manufacturer cached with distinct lower-cased names and adds at most one manufacturer |
| PartsImport.ManufacturersStayDistinct | src/lib/parts-import.ts:77-103 | over the whole loop an unknown manufacturer is created once and cached, so no two manufacturers share a lower-cased name |
| PartsImport.CatalogueDb.constructor | src/lib/parts-import.ts:50-58 | the in-memory catalogue starts as the given snapshot |
| PartsImport.CatalogueDb.CreateManufacturer | src/lib/parts-import.ts:83-84 | appends a manufacturer and returns its id as lastInsertId |
| PartsImport.CatalogueDb.CreatePart | src/lib/parts-import.ts:183-190 | appends a part and returns its id |
| PartsImport.CatalogueDb.Update | src/lib/parts-import.ts:167 | updates one part in place |
| PartsImport.ImportPartsFromRows | src/lib/parts-import.ts:31-205 | the loop leaves the catalogue and returns the result that the import specification gives for the old catalogue |
| PartsImport.ImportRow | src/lib/parts-import.ts:62-201 | one iteration of the row loop, as specified by the row step |
| PartsImport.ImportPart | src/lib/parts-import.ts:105-193 | the part-number check, then update or create, as specified |
| PartsImport.UpsertPart | src/lib/parts-import.ts:145-193 | update with the non-empty fields, skip when nothing changes, or create when a description is present |
| ProjectPackage.MemberAt | src/types/project-package.ts:10-56 | a member is found under its name when no earlier member has the same name |
| ProjectPackage.ParseEach | src/types/project-package.ts:20-55 | `z.array` succeeds exactly when every element passes, and then holds the parsed elements in order |
| ProjectPackage.ParseFile | src/types/project-package.ts:10-56 | whatever passes the schema has format 'ats-chd-project-package' and version '1' |
| ProjectPackage.EncodeEach | src/types/project-package.ts:20-55 | an array is encoded element by element |
| ProjectPackage.MetadataRoundTrip | src/types/project-package.ts:13-16 | encoded metadata passes the metadata schema and reads back unchanged |
| ProjectPackage.PackageRoundTrip | src/types/project-package.ts:20-28 | an encoded package entry, nullable name, description and metadata included, reads back unchanged |
| ProjectPackage.LocationRoundTrip | src/types/project-package.ts:29-36 | an encoded location entry reads back unchanged |
| ProjectPackage.ItemRoundTrip | src/types/project-package.ts:37-55 | an encoded item entry reads back unchanged, is_spare as a boolean and unit_price nullable |
| ProjectPackage.EachRoundTrip | src/types/project-package.ts:20-55 | when every element round-trips, the whole array does |
| ProjectPackage.FileRoundTrip | src/types/project-package.ts:10-56 | an encoded file passes the schema exactly when its format and version are the two literals, and then reads back unchanged |
| ProjectPackage.MetadataFields | src/types/project-package.ts:13-16 | exported_at is required and source_app_version optional; an explicit null version is refused |
| ProjectPackage.SpareMustBeBoolean | src/types/project-package.ts:51 | an item whose is_spare is a number fails the schema |
| ProjectPackageIo.LocationNameOr | src/lib/project-package-io.ts:54 | an item's location name, or 'Unknown' when it has none or it is empty |
| ProjectPackageIo.SpareOf | src/lib/project-package-io.ts:65 | exported is_spare is true exactly when the stored flag is 1 |
| ProjectPackageIo.SpareFlag | src/lib/project-package-io.ts:266 | the imported flag is 0 or 1 and exports back to the same boolean |
| ProjectPackageIo.FlatMapMember | src/lib/project-package-io.ts:42-69 | an element of a flatMap comes from one of the inputs, and every such element is there |
| ProjectPackageIo.PackageEntries | src/lib/project-package-io.ts:34-40 | one package entry per package, in order |
| ProjectPackageIo.ExportJobProject | src/lib/project-package-io.ts:9-90 | an unknown job project fails with 'Job project not found'; otherwise the file has the literal format and version, the project's number, the given export time, and passes the schema check unchanged |
| ProjectPackageIo.LocationsOfMember | src/lib/project-package-io.ts:42-49 | a package's exported locations are exactly its locations, each tagged with the package name |
| ProjectPackageIo.ItemsOfMember | src/lib/project-package-io.ts:51-69 | a package's exported items are exactly its items, each tagged with the package name |
| ProjectPackageIo.ExportedLocations | src/lib/project-package-io.ts:42-49 | the exported locations are those of the packages, and nothing else |
| ProjectPackageIo.ExportedItems | src/lib/project-package-io.ts:51-69 | the exported items are those of the packages, and nothing else |
| ProjectPackageIo.Called | src/lib/project-package-io.ts:117 | a database call is counted and leaves the tables unchanged until it acts (also lines 157, 204, 275) |
| ProjectPackageIo.RollbackRestores | src/lib/project-package-io.ts:140-146 | deleting the new job project with its cascade restores exactly the tables from before the import |
| ProjectPackageIo.Suffixed | src/lib/project-package-io.ts:127 | attempt 0 is the base name; every later attempt appends a ` (import N)` suffix (also lines 174, 215) |
| ProjectPackageIo.SuffixedInjective | src/lib/project-package-io.ts:127 | different attempts give different names (also lines 174, 215) |
| ProjectPackageIo.CreateJobProjectUnique | src/lib/project-package-io.ts:110-135 | the retry loop creates the job project under the first free name among base, base (import 1) … base (import 100); after that every name is taken and it fails with the source's message; any other error stops it with nothing created |
| ProjectPackageIo.CreatePackageUnique | src/lib/project-package-io.ts:155-182 | the same retry scheme for a package name within the job project |
| ProjectPackageIo.CreateLocationUnique | src/lib/project-package-io.ts:202-223 | the same retry scheme for a location name within its package |
| ProjectPackageIo.CreatePackages | src/lib/project-package-io.ts:150-183 | every package is created under the job project and its id recorded under its original name |
| ProjectPackageIo.CreateLocations | src/lib/project-package-io.ts:185-224 | every location whose package is known is created in that package and recorded under its package's and its own original names; the others are skipped |
| ProjectPackageIo.RowsOf | src/lib/project-package-io.ts:248-252 | a package's group holds only rows for that package |
| ProjectPackageIo.GroupedRows | src/lib/project-package-io.ts:226-270 | a package has a group exactly when some kept item belongs to it, and the group holds those items in file order |
| ProjectPackageIo.GroupItems | src/lib/project-package-io.ts:226-270 | the grouping loop builds the specified groups |
| ProjectPackageIo.InsertItems | src/lib/project-package-io.ts:272-277 | the bulk inserts append the groups in the given package order; a failure stops after a prefix of them |
| ProjectPackageIo.InsertedRows | src/lib/project-package-io.ts:272-277 | inserting the groups in ascending package-id order puts each package's items in file order |
| ProjectPackageIo.ImportContents | src/lib/project-package-io.ts:148-279 | packages, locations and items are created under the new job project only, and on success the database holds exactly the planned contents |
| ProjectPackageIo.Rollback | src/lib/project-package-io.ts:140-146 | the rollback restores the tables from before the import, or leaves the job project when its deletion fails (the failure is swallowed) |
| ProjectPackageIo.ImportJobProjectFromFile | src/lib/project-package-io.ts:97-285 | malformed JSON or a schema failure stops before any write; any other failure is explained by a database fault and rolls back; success creates a job project named after the file's number holding exactly the file's contents |
| ProjectPackageIo.PlannedMember | src/lib/project-package-io.ts:229-270 | an item row is planned exactly when it is the row of some file item whose package and location resolve |
| ProjectPackageIo.ItemKept | src/lib/project-package-io.ts:229-246 | an item is kept exactly when its package is in the file and its location is listed under that package; all others are skipped |
| ProjectPackageIo.ImportThenExport | src/lib/project-package-io.ts:51-69 | under a bulkCreate that appends the rows as given (the mock client's), an imported item with a location name and a whole sort order exports back to the same entry (also lines 252-269) |
| ProjectPackageIo.ExportThenImport | src/lib/project-package-io.ts:51-69 | an exported item imports back with the same fields, part id null and is_spare normalised to 0/1 (also lines 252-269) |
| MockClient.Empty | src/lib/db/mock-client.ts:33-44 | the empty store (seed rows left out) satisfies the store invariant: every table's ids lie below its counter |
| MockClient.Stamped | src/lib/db/mock-client.ts:374 | a created record keeps its fields and gains created_at and updated_at (also lines 548, 711, 719) |
| MockClient.OrNull | src/lib/db/mock-client.ts:505-508 | an optional value is stored as null exactly when it is missing (also lines 652-653) |
| MockClient.TextOrNull | src/lib/db/mock-client.ts:247-254 | the stored code is null exactly when the code is missing or empty |
| MockClient.IdOrNull | src/lib/db/mock-client.ts:283-290 | the stored id is null exactly when it is missing or 0 (also line 770) |
| MockClient.Inserted | src/lib/db/mock-client.ts:246-247 | the row is stored under the current counter with its id set, the counter goes up by one, and no other row changes (also lines 373-374, 431-437) |
| MockClient.InsertFresh | src/lib/db/mock-client.ts:246-247 | the counter is never a used id, so a create never overwrites a row and keeps ids below the counter |
| MockClient.InsertIncreasing | src/lib/db/mock-client.ts:246 | successive creates return strictly increasing ids (also lines 373, 431) |
| MockClient.InsertedAllRows | src/lib/db/mock-client.ts:546-550 | a bulk create stores record i under id counter+i, touches no earlier row, and moves the counter past them (also lines 678-682, 717-720) |
| MockClient.CreatedIds | src/lib/db/mock-client.ts:549 | the bulk-create results report id counter+i for record i (also line 681) |
| MockClient.Merged | src/lib/db/mock-client.ts:253-258 | a missing id changes nothing and affects 0 rows; otherwise only that row is merged with the patch and 1 row is affected (also lines 380-385, 443-448) |
| MockClient.Removed | src/lib/db/mock-client.ts:260-265 | the id is absent afterwards; 1 row is affected exactly when it was present; other rows stay (also lines 387-392) |
| MockClient.WithoutOwned | src/lib/db/mock-client.ts:455-459 | the cascade loop keeps exactly the rows not owned by the deleted parent, unchanged (also lines 529-538) |
| MockClient.BulkDeleted | src/lib/db/mock-client.ts:739-747 | the ids listed are gone and every other row stays |
| MockClient.BulkDeleteCount | src/lib/db/mock-client.ts:741-746 | the count returned is the number of rows actually removed |
| MockClient.RepeatCountsOnce | src/lib/db/mock-client.ts:742-744 | listing an id twice removes and counts it once |
| MockClient.PlusOne | src/lib/db/mock-client.ts:753 | `sort_order + 1` on a number adds one; on null it gives 1 |
| MockClient.Create | src/lib/db/mock-client.ts:244-250 | the record goes under the table's counter, the result reports 1 row and that id, and no other table changes (also lines 371-377, 429-440, 498-514) |
| MockClient.Update | src/lib/db/mock-client.ts:251-259 | a missing id returns rowsAffected 0 and changes nothing; otherwise that one record is merged and every other record and table is unchanged (also lines 378-386, 441-449, 515-523) |
| MockClient.Delete | src/lib/db/mock-client.ts:260-265 | rowsAffected is 1 exactly when the key existed; it is absent afterwards and nothing else changes (also lines 387-392, 669-674, 733-738) |
| MockClient.Dropped | src/lib/db/mock-client.ts:455-459 | removes from one table the rows owned by a parent id, nothing else (also lines 529-538, 621-625) |
| MockClient.DeleteJobProject | src/lib/db/mock-client.ts:450-463 | rowsAffected is 1 exactly when the job project existed; a missing id changes nothing |
| MockClient.DeletePackage | src/lib/db/mock-client.ts:524-542 | rowsAffected is 1 exactly when the package existed; a missing id changes nothing |
| MockClient.DeleteLegacyProject | src/lib/db/mock-client.ts:616-629 | rowsAffected is 1 exactly when the package existed; a missing id changes nothing |
| MockClient.JobProjectCascade | src/lib/db/mock-client.ts:450-463 | deleting a job project removes it and exactly its packages, and leaves locations and items alone |
| MockClient.PackageCascade | src/lib/db/mock-client.ts:524-542 | deleting a package removes it, its locations and its items, and leaves job projects alone |
| MockClient.LegacyCascadeKeepsItems | src/lib/db/mock-client.ts:616-629 | the legacy delete removes the package's locations only: items stay |
| MockClient.Duplicate | src/lib/db/mock-client.ts:748-756 | fails exactly for a missing id; otherwise a copy under the next id with sort_order + 1 and fresh timestamps |
| MockClient.Order | src/lib/db/mock-client.ts:334-344 | Map iteration order: every key once, ascending (keys are inserted in increasing order) |
| MockClient.FirstNamed | src/lib/db/mock-client.ts:242 | the first record whose lower-cased name equals the lower-cased term, or none when no record matches (also line 274) |
| MockClient.GetByName | src/lib/db/mock-client.ts:239-243 | getByName ignores case: a found record has the name, and none means no record has it (also lines 271-275) |
| MockClient.FirstWithKey | src/lib/db/mock-client.ts:334-336 | the first part with that lower-cased number and manufacturer id, or none |
| MockClient.GetByKey | src/lib/db/mock-client.ts:331-337 | a found part matches number (ignoring case) and manufacturer; none means no part does |
| MockClient.SearchTerm | src/lib/db/mock-client.ts:340 | the lower-cased term with its first '*' removed: one character and one star fewer when it has a star |
| MockClient.StarKept | src/lib/db/mock-client.ts:340 | lower-casing keeps stars where they are |
| MockClient.Kept | src/lib/db/mock-client.ts:344-358 | keeps exactly the parts that match the term (or the term is empty) and the manufacturer filter (or it is empty) |
| MockClient.SliceEnd | src/lib/db/mock-client.ts:369 | `slice(0, limit)` keeps min(limit, length) elements for a non-negative limit |
| MockClient.Search | src/lib/db/mock-client.ts:338-370 | every result is a part that matches the term and the filter; the count is the number of matches capped at the limit |
| MockClient.SearchRows | src/lib/db/mock-client.ts:359-369 | one joined row per result id |
| MockClient.SearchEverything | src/lib/db/mock-client.ts:341-342 | an empty term without a filter returns min(limit, number of parts) parts (also line 369) |
| MockClient.StarlessTerm | src/lib/db/mock-client.ts:340 | a term without a star is only lower-cased |
| MockClient.SearchUnderLimit | src/lib/db/mock-client.ts:338-370 | when the limit exceeds the number of parts nothing is cut off |
| MockClient.SearchByNumber | src/lib/db/mock-client.ts:338-370 | with at most 50 parts and no filter, a part whose number contains a star-free term (ignoring case) is among the results of the default limit 50 |
| MockClient.SettingValue | src/lib/db/mock-client.ts:402 | get returns the stored value, or null for an absent key |
| MockClient.SettingRoundTrip | src/lib/db/mock-client.ts:402-408 | get after set returns the value set, and other keys are unaffected |
| MockClient.KeepUnowned | src/lib/db/mock-client.ts:455-459 | the cascade loop keeps exactly the rows not owned by the parent (also lines 529-538) |
| MockClient.InsertEach | src/lib/db/mock-client.ts:546-550 | the bulk-create loop inserts the records in order and returns one result per record (also lines 678-682) |
| MockClient.MockDb.constructor | src/lib/db/mock-client.ts:33-44 | the store starts empty and valid |
| MockClient.MockDb.Insert | src/lib/db/mock-client.ts:246-247 | post-increments the table's counter and stores the row under the old value |
| MockClient.MockDb.CreateManufacturer | src/lib/db/mock-client.ts:244-250 | creates a manufacturer whose missing or empty code is stored as null |
| MockClient.MockDb.CreateCategory | src/lib/db/mock-client.ts:280-286 | creates a category whose missing or 0 parent id is stored as null |
| MockClient.MockDb.CreateRecord | src/lib/db/mock-client.ts:371-377 | parts.create and bomItems.create store the record with timestamps (also lines 708-714) |
| MockClient.MockDb.CreateJobProject | src/lib/db/mock-client.ts:429-440 | creates a job project with the number and timestamps |
| MockClient.MockDb.CreatePackage | src/lib/db/mock-client.ts:498-514 | creates a package with nullable name, description and metadata |
| MockClient.MockDb.CreateLegacyProject | src/lib/db/mock-client.ts:582-606 | creates a job project, then a package under it, and returns the package's id |
| MockClient.MockDb.CreateLocation | src/lib/db/mock-client.ts:645-659 | creates a location with nullable export name and sort order |
| MockClient.MockDb.CreateExport | src/lib/db/mock-client.ts:766-775 | creates an export record whose missing or 0 location id is stored as null |
| MockClient.MockDb.Patch | src/lib/db/mock-client.ts:253-258 | merges a patch into one record when it exists |
| MockClient.MockDb.UpdateManufacturer | src/lib/db/mock-client.ts:251-259 | the manufacturer update as specified |
| MockClient.MockDb.UpdateCategory | src/lib/db/mock-client.ts:287-295 | the category update as specified |
| MockClient.MockDb.UpdateLocation | src/lib/db/mock-client.ts:660-668 | replaces name and export name and stamps updated_at |
| MockClient.MockDb.UpdateRecord | src/lib/db/mock-client.ts:378-386 | merges the updates and stamps updated_at when the record exists (also lines 441-449, 515-523, 607-615, 724-732) |
| MockClient.MockDb.Remove | src/lib/db/mock-client.ts:260-265 | the plain delete as specified (also lines 296-301, 387-392, 669-674, 733-738, 776-781) |
| MockClient.MockDb.DropOwned | src/lib/db/mock-client.ts:455-459 | the cascade loop as specified (also lines 529-538) |
| MockClient.MockDb.DeleteJobProjectCascade | src/lib/db/mock-client.ts:450-463 | deletes the job project and, when it existed, its packages |
| MockClient.MockDb.DeletePackageCascade | src/lib/db/mock-client.ts:524-542 | deletes the package and, when it existed, its locations and items |
| MockClient.MockDb.DeleteLegacyProjectCascade | src/lib/db/mock-client.ts:616-629 | deletes the package and, when it existed, its locations only |
| MockClient.MockDb.DeleteAllParts | src/lib/db/mock-client.ts:393-398 | clears the parts table, keeps its counter and reports 1 row |
| MockClient.MockDb.DeleteExportsByProject | src/lib/db/mock-client.ts:782-787 | deletes nothing and reports 1 row |
| MockClient.MockDb.BulkDeleteItems | src/lib/db/mock-client.ts:739-747 | removes the listed items and reports how many were present |
| MockClient.MockDb.DuplicateItem | src/lib/db/mock-client.ts:748-756 | throws for a missing id and changes nothing; otherwise the specified duplicate |
| MockClient.MockDb.BulkCreate | src/lib/db/mock-client.ts:543-553 | inserts every record in order and returns its id per record (also lines 675-685) |
| MockClient.MockDb.BulkCreateItems | src/lib/db/mock-client.ts:715-723 | inserts every item in order and returns one `{1, 0}` result per item |
| MockClient.MockDb.SetSetting | src/lib/db/mock-client.ts:403-408 | stores the value, so get returns it |
| MockClient.MockDb.DeleteSetting | src/lib/db/mock-client.ts:409-414 | removes the key, reporting 1 exactly when it was present |
| RealClient.Marks | src/lib/db/real-client.ts:201 | counts the placeholders of a statement; never more than its pieces (also lines 398, 519, 600, 657) |
| RealClient.MarksAppend | src/lib/db/real-client.ts:193-208 | placeholders of concatenated SQL add up |
| RealClient.ListedCopies | src/lib/db/real-client.ts:398 | n copies of a row tuple joined by a separator hold n times the tuple's placeholders (also lines 519, 600) |
| RealClient.MarkList | src/lib/db/real-client.ts:201 | `ids.map(() => '?').join(sep)` holds exactly one placeholder per id (also line 657) |
| RealClient.Nums | src/lib/db/real-client.ts:203 | ids are bound as numbers, one per id, in order (also line 658) |
| RealClient.GivenColumns | src/lib/db/real-client.ts:219-229 | the SET clause names exactly the columns whose update is defined, each at most once (also lines 366-374, 626-643) |
| RealClient.SetFieldsGiven | src/lib/db/real-client.ts:219-229 | field i of the SET clause assigns the i-th defined column and value i is that column's value (also lines 366-374, 626-643) |
| RealClient.SetListMarks | src/lib/db/real-client.ts:234-236 | a SET list of single-placeholder assignments holds one placeholder per assignment |
| RealClient.UpdateCall | src/lib/db/real-client.ts:219-236 | no defined field answers rowsAffected 0 without sending SQL; otherwise one value per defined field and the id last (also lines 287-301, 366-382, 449-466, 626-651) |
| RealClient.UpdateBalanced | src/lib/db/real-client.ts:219-236 | a sent update binds exactly as many values as it has placeholders, and the values before the id are the defined fields' values (also lines 366-382, 626-651) |
| RealClient.ListedWithStamp | src/lib/db/real-client.ts:233-235 | appending `updated_at = CURRENT_TIMESTAMP` adds no placeholder |
| RealClient.BuildUpdate | src/lib/db/real-client.ts:219-236 | the push loop over the column list builds exactly the specified update call (also lines 366-382, 626-651) |
| RealClient.BatchRows | src/lib/db/real-client.ts:390-392 | floor(999 / columns) is positive and a full batch binds at most 999 values (also lines 511-513, 592-594) |
| RealClient.BatchSizes | src/lib/db/real-client.ts:392 | the batch sizes are 166, 249 and 62 rows (also lines 513, 594) |
| RealClient.ChunksCover | src/lib/db/real-client.ts:396-397 | the batches, in order, concatenate back to the input: consecutive and non-overlapping (also lines 517-518, 598-599) |
| RealClient.ChunkSizes | src/lib/db/real-client.ts:396-397 | every batch is non-empty and at most the batch size, and all but the last are full (also lines 517-518, 598-599) |
| RealClient.RowMarks | src/lib/db/real-client.ts:398 | a row tuple holds one placeholder per column (also lines 519, 600) |
| RealClient.InsertStatement | src/lib/db/real-client.ts:398-406 | a multi-row INSERT holds rows times columns placeholders (also lines 519-527, 600-616) |
| RealClient.FlattenLength | src/lib/db/real-client.ts:399-402 | the values of n-column rows number rows times n (also lines 520-523, 601-608) |
| RealClient.InsertBalanced | src/lib/db/real-client.ts:396-406 | an INSERT binds as many values as it has placeholders, and a batch within the size binds at most 999 (also lines 517-527, 598-616) |
| RealClient.SingleInsert | src/lib/db/real-client.ts:661-682 | a one-row INSERT binds exactly that row's values |
| RealClient.Inserts | src/lib/db/real-client.ts:395-408 | one INSERT statement per batch, in batch order (also lines 516-529, 597-620) |
| RealClient.Affected | src/lib/db/real-client.ts:407 | one result per batch reporting the batch length and no insert id (also lines 528, 619) |
| RealClient.AffectedTotal | src/lib/db/real-client.ts:407 | the rowsAffected values sum to the number of rows in the batches (also lines 528, 619) |
| RealClient.ChunksAffected | src/lib/db/real-client.ts:388 | the rowsAffected of a bulk create sum to the input length (also lines 407, 509, 528, 580, 619) |
| RealClient.BatchValues | src/lib/db/real-client.ts:399-402 | the values loop binds the batch's rows in order, one after another (also lines 520-523) |
| RealClient.BulkInsert | src/lib/db/real-client.ts:387-411 | empty input sends nothing and returns []; otherwise one INSERT and one result per batch of floor(999/columns) rows (also lines 508-532) |
| RealClient.BulkCreatePackages | src/lib/db/real-client.ts:387-411 | packages go in batches of 166 rows with one result each |
| RealClient.BulkCreateLocations | src/lib/db/real-client.ts:508-532 | locations go in batches of 249 rows with one result each |
| RealClient.StartOrder | src/lib/db/real-client.ts:584-588 | the first sort order is the highest existing one plus 1, or 1 when the project has no items |
| RealClient.Ordered | src/lib/db/real-client.ts:603-608 | every item keeps its first 15 values and item k gets sort order start + k |
| RealClient.MaxOrderQuery | src/lib/db/real-client.ts:584-587 | the highest-sort-order query binds one value, the first item's project id |
| RealClient.OrderedValues | src/lib/db/real-client.ts:601-609 | the inner loop binds batch item j with sort order start + j |
| RealClient.ItemBatch | src/lib/db/real-client.ts:599-616 | one item batch is the INSERT of its rows with consecutive sort orders |
| RealClient.ItemBatches | src/lib/db/real-client.ts:597-621 | the batch loop, advancing the start by each batch's length, numbers all items consecutively across batches |
| RealClient.BulkCreateItems | src/lib/db/real-client.ts:579-624 | empty input sends nothing; otherwise the max-order query, then one INSERT and one result per batch of 62 renumbered items |
| RealClient.ItemsNumberedOnward | src/lib/db/real-client.ts:582-620 | the rows inserted are the items in order, with their own values and sort orders max + 1, max + 2, … ignoring the incoming ones |
| RealClient.SearchStatement | src/lib/db/real-client.ts:174-209 | the term's two values are bound only for a non-blank term, then one per manufacturer id, and the limit last |
| RealClient.SearchBalanced | src/lib/db/real-client.ts:174-209 | the search binds as many values as it has placeholders, and the manufacturer ids sit after the term values |
| RealClient.BulkDeleteStatement | src/lib/db/real-client.ts:656-659 | the delete has exactly one placeholder per id and binds the ids |
| RealClient.DuplicateCall | src/lib/db/real-client.ts:661-684 | a missing item throws; otherwise the copy binds the item's values with sort_order + 1 |
| BomStore.MessageOf | src/stores/bom-store.ts:120-124 | an Error's own message is shown; any other thrown value gives the action's fallback text (also lines 190-194, 388-390) |
| BomStore.Nothing | src/stores/bom-store.ts:475 | a guarded action that returns early changes nothing, sends nothing and throws nothing (also lines 496, 523, 542, 561, 580, 583, 613) |
| BomStore.LoadJobProjects | src/stores/bom-store.ts:115-127 | on success the job projects are replaced and the error cleared; on failure they stay and the fallback error is set; loading ends either way |
| BomStore.LoadPackages | src/stores/bom-store.ts:211-223 | on success the packages are replaced and the job project becomes current; on failure both stay; the scope is untouched |
| BomStore.LoadItems | src/stores/bom-store.ts:459-471 | on success the items are replaced and the error cleared; on failure they stay with the fallback error; scope, location, selection and pending count are untouched |
| BomStore.LoadLocations | src/stores/bom-store.ts:372-393 | with locations and no chosen location the first one is selected and its items loaded; otherwise the items are cleared and the location stays |
| BomStore.ClearScope | src/stores/bom-store.ts:348-357 | scope, locations, items and location are cleared and every other field is unchanged |
| BomStore.ClearJobProject | src/stores/bom-store.ts:177-187 | the job project, its packages and the whole scope are cleared |
| BomStore.ScopeSelected | src/stores/bom-store.ts:358-360 | true exactly when a scope package is set |
| BomStore.Flushed | src/stores/bom-store.ts:93-113 | writes that settle leave the state alone; a time-out sets the abort error |
| BomStore.SwitchScope | src/stores/bom-store.ts:308-346 | with the package and its job project found the scope switches, selection and search are reset and pending writes are kept; otherwise only the error changes |
| BomStore.SetScopeAsWritten | src/stores/bom-store.ts:302-346 | setScope as written: no package id clears the scope; otherwise the switch follows the flush whatever its outcome |
| BomStore.TimedOutSwitchStillHappens | src/stores/bom-store.ts:93-113 | as written, a flush that times out still switches the scope and the abort error is overwritten (also lines 308-335) |
| BomStore.SetScope | src/stores/bom-store.ts:302-346 | no package id clears the scope; a flush time-out stops the switch with the abort error and no calls; a settled flush switches as written |
| BomStore.TimedOutKeepsScope | src/stores/bom-store.ts:93-113 | with the time-out honoured, the scope, items and locations stay and the abort error is shown (also lines 302-311) |
| BomStore.SwitchResets | src/stores/bom-store.ts:323-335 | a switch to a package without locations selects it, clears selection, search, location, items and locations (also lines 372-393) |
| BomStore.DeleteJobProject | src/stores/bom-store.ts:169-196 | a failed delete sets the fallback error and rethrows; otherwise the delete and a reload are sent and loading ends |
| BomStore.JobProjectDeletionClears | src/stores/bom-store.ts:175-187 | deleting the current job project clears it, its packages and the scope; deleting another keeps them |
| BomStore.DeletePackage | src/stores/bom-store.ts:270-299 | a failed delete sets the fallback error and rethrows; otherwise the delete, and the reload of the current job project's packages when one is chosen, are sent |
| BomStore.PackageDeletionClears | src/stores/bom-store.ts:282-290 | deleting the current scope package clears the scope; deleting another keeps scope, locations, items and location |
| BomStore.SetCurrentLocationId | src/stores/bom-store.ts:448-457 | the location is set; no location, or a location without a scope package, clears the items and sends nothing; a location within a scope loads that location's items, and loadItems clears the error and raises loading before its first await (also lines 459-460) |
| BomStore.Scoped | src/stores/bom-store.ts:479 | an item gets the scope's package and location ids and keeps every other field (also lines 618-622) |
| BomStore.Settle | src/stores/bom-store.ts:489 | `Math.max(0, pendingWrites - 1)` never goes below 0 and otherwise counts down by one (also line 516) |
| BomStore.WriteThenReload | src/stores/bom-store.ts:520-575 | a failed write sets the fallback error and rethrows; otherwise the write and the item reload are sent |
| BomStore.BeginCreateItem | src/stores/bom-store.ts:472-477 | outside a scope and location nothing happens; otherwise one write is pending and the scoped create is sent |
| BomStore.FinishCreateItem | src/stores/bom-store.ts:478-491 | the pending count settles whatever happens, and a failure is rethrown |
| BomStore.Merged | src/stores/bom-store.ts:500-502 | every item with the id gets the updates merged in; all others stay |
| BomStore.BeginUpdateItem | src/stores/bom-store.ts:493-505 | outside a scope nothing happens; otherwise the items are updated at once, one write is pending and the update is sent |
| BomStore.FinishUpdateItem | src/stores/bom-store.ts:507-518 | the pending count settles whatever happens; a success changes nothing else; a failure reloads, sets the error and rethrows |
| BomStore.OptimisticUpdate | src/stores/bom-store.ts:498-505 | the optimistic update changes only the matching items: their updated fields take the new values and every other field stays |
| BomStore.DeleteItem | src/stores/bom-store.ts:520-537 | outside a scope nothing happens; otherwise the delete is sent first and a failure is rethrown |
| BomStore.BulkDeleteItems | src/stores/bom-store.ts:539-556 | outside a scope nothing happens; otherwise the bulk delete is sent first; success clears the selection and failure keeps it |
| BomStore.DuplicateItem | src/stores/bom-store.ts:558-575 | outside a scope nothing happens; otherwise the duplicate is sent first and a failure is rethrown |
| BomStore.BulkImportItems | src/stores/bom-store.ts:610-632 | outside a scope nothing happens; otherwise one bulk create of every item, scoped, in order |
| BomStore.GuardedActions | src/stores/bom-store.ts:472-475 | without a scope package and a location every item action is a no-op (also lines 493-496, 520-523, 539-542, 558-561, 610-613) |
| BomStore.FindIndex | src/stores/bom-store.ts:579 | `findIndex`: the first item with the id, or -1 when none has it |
| BomStore.MoveItem | src/stores/bom-store.ts:577-608 | a missing id or a target outside the list does nothing; otherwise the two sort-order updates are sent, swapped; errors are caught |
| BomStore.Applied | src/stores/bom-store.ts:595-596 | applying an update keeps the list's length |
| BomStore.MoveSwapsSortOrder | src/stores/bom-store.ts:586-597 | after the two writes the item and its neighbour have swapped sort orders, every other field and item unchanged |
| BomStore.MoveWrites | src/stores/bom-store.ts:586-597 | the two writes amount to assigning each of the pair the other's sort order |
| BomStore.MergeOne | src/stores/bom-store.ts:500-502 | with unique ids the optimistic merge updates exactly one position |
| BomStore.Pending | src/stores/bom-store.ts:24 | the pending-write counter never goes negative (also lines 87, 477, 489, 503, 516) |
| BomStore.PendingCountsInFlight | src/stores/bom-store.ts:477-489 | for well-nested starts and finishes the counter equals the writes in flight (also lines 503, 516) |
| BomStore.PendingFollowsEvents | src/stores/bom-store.ts:477-489 | starting a create or update adds one pending write and finishing settles one (also lines 503, 516) |
| BomStore.Store.constructor | src/stores/bom-store.ts:75-89 | the store starts with the initial state |
| BomStore.Store.ClearScopeAction | src/stores/bom-store.ts:348-357 | the clearScope action as specified |
| BomStore.Store.EnsureScopeSelected | src/stores/bom-store.ts:358-360 | reports whether a scope is selected |
| BomStore.Store.SetCurrentLocation | src/stores/bom-store.ts:448-457 | the location setter as specified |
| BomStore.Store.Scope | src/stores/bom-store.ts:302-346 | setScope as specified, honouring the flush time-out |
| BomStore.Store.RemoveJobProject | src/stores/bom-store.ts:169-196 | deleteJobProject as specified |
| BomStore.Store.RemovePackage | src/stores/bom-store.ts:270-299 | deletePackage as specified |
| BomStore.Store.StartCreateItem | src/stores/bom-store.ts:472-477 | the create's guard and pending increment; a ticket exactly when in scope |
| BomStore.Store.EndCreateItem | src/stores/bom-store.ts:478-491 | the create's completion as specified |
| BomStore.Store.StartUpdateItem | src/stores/bom-store.ts:493-505 | the optimistic update as specified; a ticket exactly when in scope |
| BomStore.Store.EndUpdateItem | src/stores/bom-store.ts:507-518 | the update's completion as specified |
| BomStore.Store.Move | src/stores/bom-store.ts:577-608 | moveItem as specified |
| BomStore.Store.RemoveItems | src/stores/bom-store.ts:539-556 | bulkDeleteItems as specified |
| LoadCalcProjectStore.FetchProjects | src/stores/load-calc-project-store.ts:136-147 | success replaces the project list; failure keeps the state and shows the error toast |
| LoadCalcProjectStore.FetchLocations | src/stores/load-calc-project-store.ts:219-230 | success replaces the locations; failure keeps the state and shows the error toast |
| LoadCalcProjectStore.FetchVoltageTables | src/stores/load-calc-project-store.ts:289-300 | success replaces the voltage tables; failure keeps the state and shows the error toast |
| LoadCalcProjectStore.FetchLineItems | src/stores/load-calc-project-store.ts:360-371 | success replaces the line items; failure keeps the state and shows the error toast |
| LoadCalcProjectStore.ResolveBomPackageInfo | src/stores/load-calc-project-store.ts:463-483 | an unlinked project clears the package info without a read; a found package gives its name and its job project's number, or 'Unknown'; a failed read leaves the info; nothing else changes |
| LoadCalcProjectStore.SelectProjectResets | src/stores/load-calc-project-store.ts:149-168 | selecting a project sets it and clears location, table, line items and reports; none clears locations, tables and info; a linked one fetches its locations, tables and package info; an unlinked one only its tables |
| LoadCalcProjectStore.SelectionClears | src/stores/load-calc-project-store.ts:232-234 | choosing a location clears the table and line items; choosing a table clears the result and issues and fetches its line items, or clears them for none (also lines 302-307) |
| LoadCalcProjectStore.ProjectDeletionDeselects | src/stores/load-calc-project-store.ts:204-216 | deleting the current project deselects it as selectProject(null) does; deleting another only reloads the list; a failed delete changes nothing |
| LoadCalcProjectStore.LocationDeletionDeselects | src/stores/load-calc-project-store.ts:271-286 | deleting the current location deselects it, deleting another keeps it; a failed delete changes nothing |
| LoadCalcProjectStore.TableDeletionDeselects | src/stores/load-calc-project-store.ts:342-357 | deleting the current voltage table deselects it, deleting another keeps it; a failed delete changes nothing |
| LoadCalcProjectStore.Normalized | src/stores/load-calc-project-store.ts:330-332 | `Boolean(is_locked)`: the lock becomes a boolean true exactly when the stored value is truthy, and nothing else changes |
| LoadCalcProjectStore.LockStoredAsBoolean | src/stores/load-calc-project-store.ts:320-340 | toggling the current table's lock stores the re-read table with its lock as a boolean; another table leaves the current one alone |
| LoadCalcProjectStore.ErrorCount | src/stores/load-calc-project-store.ts:432 | the number of error-severity issues: positive exactly when there are errors |
| LoadCalcProjectStore.CalculateGuards | src/stores/load-calc-project-store.ts:415-420 | without a table, a project or line items the calculation answers false with the toast and changes nothing |
| LoadCalcProjectStore.ValidationErrorsBlock | src/stores/load-calc-project-store.ts:424-434 | errors occur exactly when a line item is blocking; then nothing is written, the issues are kept, no result is set and the toast counts the errors |
| LoadCalcProjectStore.CalculationStored | src/stores/load-calc-project-store.ts:436-450 | a valid table stores the result, writes the totals to the cache, and answers true exactly when that write succeeds |
| LoadCalcProjectStore.ClearCalculation | src/stores/load-calc-project-store.ts:458-460 | the result and issues are cleared and nothing else changes |
| LoadCalcProjectStore.LineItemWritesReload | src/stores/load-calc-project-store.ts:373-412 | a line-item write is sent first; on success within a table the table's items are reloaded; on failure the state stays and the error toast shows |
| LoadCalcProjectStore.LocationGuards | src/stores/load-calc-project-store.ts:236-251 | without a BOM link, location creation and sync only show their toasts; with one they write and refetch the package's locations (also lines 521-529) |
| LoadCalcProjectStore.LinkUnlink | src/stores/load-calc-project-store.ts:485-519 | unlinking clears locations, location and package info and keeps the updated project; linking fetches the package's locations; both do nothing without a current project |
| LoadCalcProjectStore.GenerateReports | src/stores/load-calc-project-store.ts:532-550 | no project does nothing; otherwise the report read is sent; only a successful read changes the report data; a failure shows the error toast |
| LoadCalcProjectStore.RefreshReports | src/stores/load-calc-project-store.ts:552-555 | the reports are regenerated, then the 'Reports refreshed' toast shows |
| LoadCalcProjectStore.Store.constructor | src/stores/load-calc-project-store.ts:111-133 | the store starts in the initial state |
| LoadCalcProjectStore.Store.LoadProjects | src/stores/load-calc-project-store.ts:136-147 | fetchProjects as specified |
| LoadCalcProjectStore.Store.LoadLocations | src/stores/load-calc-project-store.ts:219-230 | fetchLocations as specified |
| LoadCalcProjectStore.Store.LoadVoltageTables | src/stores/load-calc-project-store.ts:289-300 | fetchVoltageTables as specified |
| LoadCalcProjectStore.Store.LoadLineItems | src/stores/load-calc-project-store.ts:360-371 | fetchLineItems as specified |
| LoadCalcProjectStore.Store.ResolvePackageInfo | src/stores/load-calc-project-store.ts:463-483 | resolveBomPackageInfo as specified |
| LoadCalcProjectStore.Store.ChooseProject | src/stores/load-calc-project-store.ts:149-168 | selectProject as specified |
| LoadCalcProjectStore.Store.ChooseLocation | src/stores/load-calc-project-store.ts:232-234 | selectLocation as specified |
| LoadCalcProjectStore.Store.ChooseVoltageTable | src/stores/load-calc-project-store.ts:302-307 | selectVoltageTable as specified |
| LoadCalcProjectStore.Store.RemoveProject | src/stores/load-calc-project-store.ts:204-216 | deleteProject as specified |
| LoadCalcProjectStore.Store.RemoveLocation | src/stores/load-calc-project-store.ts:271-286 | deleteLocation as specified |
| LoadCalcProjectStore.Store.RemoveVoltageTable | src/stores/load-calc-project-store.ts:342-357 | deleteVoltageTable as specified |
| LoadCalcProjectStore.Store.SetTableLock | src/stores/load-calc-project-store.ts:320-340 | toggleTableLock as specified |
| LoadCalcProjectStore.Store.Calculate | src/stores/load-calc-project-store.ts:415-456 | validateAndCalculate as specified; the totals are computed exactly when the part specs were read and the table is calculable without errors, and the result stored and cached is calculateTableResults' (TableResultOf) over the old line items and the current table's voltage type |
| LoadCalcProjectStore.Store.ClearCalculationAction | src/stores/load-calc-project-store.ts:458-460 | clearCalculation as specified |
| LoadCalcProjectStore.Store.Link | src/stores/load-calc-project-store.ts:485-502 | linkToPackage as specified |
| LoadCalcProjectStore.Store.Reload | src/stores/load-calc-project-store.ts:493-496 | the reloads after linking and the success toast, as specified |
| LoadCalcProjectStore.Store.Unlink | src/stores/load-calc-project-store.ts:504-519 | unlinkFromPackage as specified |
| LoadCalcProjectStore.Store.AddLocation | src/stores/load-calc-project-store.ts:236-251 | createLocation as specified |
| LoadCalcProjectStore.Store.Sync | src/stores/load-calc-project-store.ts:521-529 | syncLocations as specified |
| LoadCalcImportStore.Initial | src/stores/load-calc-import-store.ts:39-47 | the store starts at the upload step with no mappings and the templates read from storage |
| LoadCalcImportStore.MappingSet | src/stores/load-calc-import-store.ts:102-110 | a null column removes the field's mapping, any other sets it; every other field keeps its mapping |
| LoadCalcImportStore.SetThenClear | src/stores/load-calc-import-store.ts:102-110 | setting then clearing a field leaves the mappings without that field |
| LoadCalcImportStore.SetTwice | src/stores/load-calc-import-store.ts:102-110 | setting a field twice is the same as setting it once to the second column |
| LoadCalcImportStore.Find | src/stores/load-calc-import-store.ts:133 | `find` gives a template with the id, or nothing exactly when none has it |
| LoadCalcImportStore.FindFirst | src/stores/load-calc-import-store.ts:133 | the template found is the first with the id |
| LoadCalcImportStore.WithoutId | src/stores/load-calc-import-store.ts:141 | `filter` keeps exactly the templates with another id |
| LoadCalcImportStore.WithoutAbsentId | src/stores/load-calc-import-store.ts:141 | filtering out an id no template has changes nothing |
| LoadCalcImportStore.Saved | src/stores/load-calc-import-store.ts:112-122 | saving appends one template holding the current mappings, and changes nothing else |
| LoadCalcImportStore.Loaded | src/stores/load-calc-import-store.ts:132-138 | loading an unknown id changes nothing; a known one replaces the mappings by the first such template's |
| LoadCalcImportStore.Deleted | src/stores/load-calc-import-store.ts:140-142 | deleting keeps exactly the templates with another id and changes nothing else |
| LoadCalcImportStore.SaveThenLoad | src/stores/load-calc-import-store.ts:112-138 | loading a freshly saved template restores the mappings it was saved with, whatever was edited since |
| LoadCalcImportStore.FindAfter | src/stores/load-calc-import-store.ts:121-133 | a template appended under a new id is the one found by that id |
| LoadCalcImportStore.SaveThenDelete | src/stores/load-calc-import-store.ts:112-142 | deleting a freshly saved template restores the state before the save |
| LoadCalcImportStore.CleanHeaders | src/stores/load-calc-import-store.ts:70 | the headers kept are trimmed and non-empty |
| LoadCalcImportStore.CleanHeadersMembers | src/stores/load-calc-import-store.ts:70 | a header is kept exactly when it is the non-empty trim of some raw header |
| LoadCalcImportStore.CleanHeaderFrom | src/stores/load-calc-import-store.ts:70 | every kept header comes from a raw header |
| LoadCalcImportStore.CleanHeaderKept | src/stores/load-calc-import-store.ts:70 | every raw header that is not blank is kept, trimmed |
| LoadCalcImportStore.FileSet | src/stores/load-calc-import-store.ts:52-91 | an unreadable or empty file clears the file and ends loading; a readable one sets headers and rows, moves to mapping and resets the mappings |
| LoadCalcImportStore.ResetState | src/stores/load-calc-import-store.ts:93-100 | reset returns to the initial state, keeping the templates |
| LoadCalcImportStore.LoadedHeadersClean | src/stores/load-calc-import-store.ts:66-83 | after a successful load the step is mapping, the mappings are empty and every header is trimmed and non-empty |
| LoadCalcImportStore.FailedReadKeeps | src/stores/load-calc-import-store.ts:86-90 | a failed read keeps step, mappings and templates and clears the file |
| LoadCalcImportStore.EmptySheetRefused | src/stores/load-calc-import-store.ts:66-68 | a sheet with no rows is handled as a failed read |
| LoadCalcImportStore.ResetForgets | src/stores/load-calc-import-store.ts:93-100 | reset depends only on the templates and is idempotent |
| LoadCalcImportStore.Store.constructor | src/stores/load-calc-import-store.ts:39-47 | the store starts in the initial state |
| LoadCalcImportStore.Store.SetStep | src/stores/load-calc-import-store.ts:50 | sets the step and nothing else |
| LoadCalcImportStore.Store.SetFile | src/stores/load-calc-import-store.ts:52-91 | setFile as specified |
| LoadCalcImportStore.Store.Reset | src/stores/load-calc-import-store.ts:93-100 | reset as specified |
| LoadCalcImportStore.Store.SetMapping | src/stores/load-calc-import-store.ts:102-110 | setMapping as specified; nothing but the mappings changes |
| LoadCalcImportStore.Store.SaveTemplate | src/stores/load-calc-import-store.ts:112-130 | saveTemplate as specified |
| LoadCalcImportStore.Store.LoadTemplate | src/stores/load-calc-import-store.ts:132-138 | loadTemplate as specified |
| LoadCalcImportStore.Store.DeleteTemplate | src/stores/load-calc-import-store.ts:140-149 | deleteTemplate as specified |
| GlenairUtils.JsParseInt | src/lib/glenair/utils.ts:20-21 | `parseInt(s, 10)` gives a number only when the text has a digit |
| GlenairUtils.JsParseIntDigits | src/lib/glenair/utils.ts:20-21 | on a string of digits `parseInt` gives their decimal value |
| GlenairUtils.SlashGauge | src/lib/glenair/utils.ts:18-23 | the 'N/0' branch only applies to text with a '/', and it gives zero or a negative gauge |
| GlenairUtils.ParseAwgValue | src/lib/glenair/utils.ts:14-27 | null gives null and a number passes through unchanged |
| GlenairUtils.FormatAwg | src/lib/glenair/utils.ts:30-36 | -1 to -4 format as '1/0' to '4/0'; every other value as its decimal text |
| GlenairUtils.SlashGaugeRoundTrip | src/lib/glenair/utils.ts:18-34 | parsing '1/0' … '4/0' gives back -1 … -4 |
| GlenairUtils.PlainText | src/lib/glenair/utils.ts:24-26 | trimmed text without a '/' reads as 0 for '0' and otherwise as the exponent-free parseFloat of ImportUtils reads it |
| GlenairUtils.NaturalGaugeRoundTrip | src/lib/glenair/utils.ts:24-35 | a non-negative gauge's text parses back to the gauge |
| GlenairUtils.NegativeGaugeRoundTrip | src/lib/glenair/utils.ts:25-35 | a negative gauge's text parses back to the gauge |
| GlenairUtils.AwgRoundTrip | src/lib/glenair/utils.ts:14-36 | parseAwgValue(formatWireValue(v, 'AWG')) == v for every integer gauge |
| GlenairUtils.SizeRowParses | src/lib/glenair/utils.ts:3-12 | a table row's AWG text names a key of AWG_TO_MM2, and its mm² text reads as that key's value |
| GlenairUtils.Row | src/lib/glenair/utils.ts:3-12 | the i-th AWG and mm² entries form one checked row |
| GlenairUtils.WireSizeTables | src/lib/glenair/utils.ts:3-12 | both size lists have 18 entries, and the i-th mm² entry is the AWG_TO_MM2 value of the i-th AWG size |
| GlenairUtils.BuildPartNumber | src/lib/glenair/utils.ts:40-48 | the part number starts with '80' and is four characters longer than its fields together |
| GlenairUtils.PartNumberFields | src/lib/glenair/utils.ts:40-48 | for fields without '-', splitting the part number on '-' gives back '80' + shell, the arrangement and contact type + keying |
| GlenairStore.WithoutPart | src/stores/glenair-store.ts:92 | the filter keeps exactly the contacts with another part number |
| GlenairStore.Toggled | src/stores/glenair-store.ts:87-95 | toggling flips whether the part number is selected and leaves every contact with another part number as it was |
| GlenairStore.ToggleTwiceAbsent | src/stores/glenair-store.ts:87-95 | toggling an unselected contact twice restores the selection exactly |
| GlenairStore.ToggleTwicePresent | src/stores/glenair-store.ts:87-95 | toggling a selected contact twice moves it, alone, to the end |
| GlenairStore.WithoutPartUnique | src/stores/glenair-store.ts:92 | removing a part number keeps part numbers distinct |
| GlenairStore.ToggleKeepsUnique | src/stores/glenair-store.ts:87-95 | toggling keeps the selected part numbers distinct |
| GlenairStore.RemoveStars | src/stores/glenair-store.ts:118 | `replace(/[*]/g, '')` leaves no '*', adds no character and changes a star-free text not at all |
| GlenairStore.ContactSuffixPlain | src/stores/glenair-store.ts:117-118 | the suffix holds neither '-' nor '*' |
| GlenairStore.ContactSuffixDashed | src/stores/glenair-store.ts:117-118 | a dashed part number's suffix is its last segment without stars |
| GlenairStore.ContactSuffixUndashed | src/stores/glenair-store.ts:118 | a part number without '-' gives the suffix 'A' |
| GlenairStore.Built | src/stores/glenair-store.ts:103-134 | without shell style, arrangement and a contact nothing changes; otherwise step 6 and a result for the first contact with the wire size and system |
| GlenairStore.BuiltPartNumber | src/stores/glenair-store.ts:112-120 | the part number splits into '80' + shell, the arrangement, and 'P' or 'S' followed by the contact's suffix |
| GlenairStore.ContactSizes | src/stores/glenair-store.ts:62 | the available sizes are the compatible rows' contact sizes, in order |
| GlenairStore.WireSelected | src/stores/glenair-store.ts:57-69 | the wire choice is stored; success lists the compatible sizes and moves to step 2; failure keeps the step and stores the error |
| GlenairStore.ContactSizeChosen | src/stores/glenair-store.ts:71-85 | the size is stored; both reads succeeding give the contacts, the arrangements and step 3; a failure keeps the step and stores its error |
| GlenairStore.InitialSettled | src/stores/glenair-store.ts:37-52 | the initial state is settled: a valid step, nothing loading, distinct contacts |
| GlenairStore.BuiltSettled | src/stores/glenair-store.ts:103-134 | buildPart keeps the builder settled, and its result starts with '80' |
| GlenairStore.NextKeepsSettled | src/stores/glenair-store.ts:57-134 | every action keeps the step between 1 and 6, the contacts distinct and step 6 holding a Series 80 result |
| GlenairStore.ResetForgets | src/stores/glenair-store.ts:101 | reset gives the initial state whatever came before |
| GlenairStore.Store.constructor | src/stores/glenair-store.ts:54-55 | the store starts in the initial state |
| GlenairStore.Store.SetWireSelection | src/stores/glenair-store.ts:57-69 | setWireSelection as specified |
| GlenairStore.Store.SetContactSize | src/stores/glenair-store.ts:71-85 | setContactSize as specified, asking for the arrangements with the current conductor count |
| GlenairStore.Store.ToggleContact | src/stores/glenair-store.ts:87-95 | toggleContact as specified |
| GlenairStore.Store.SetArrangement | src/stores/glenair-store.ts:97 | sets the arrangement and step 4 |
| GlenairStore.Store.SetShellStyle | src/stores/glenair-store.ts:99 | sets the shell style and step 5 |
| GlenairStore.Store.ResetAll | src/stores/glenair-store.ts:101 | restores the initial state exactly |
| GlenairStore.Store.BuildPart | src/stores/glenair-store.ts:103-134 | buildPart as specified |
| AppSettings.SettingsTable.constructor | src/lib/db/real-client.ts:243-256 | the settings table starts empty |
| AppSettings.SettingsTable.Get | src/lib/db/real-client.ts:244-246 | a key's stored text, or null exactly when the key is absent |
| AppSettings.SettingsTable.Set | src/lib/db/real-client.ts:248-253 | inserts or overwrites the key's text and touches no other key |
| AppSettings.ParseBool | src/lib/settings/app-settings.ts:73-83 | a missing or empty value gives the default; a result other than the default comes only from one of the six words, ignoring case |
| AppSettings.BoolText | src/lib/settings/app-settings.ts:88-90 | true is written as a true word and false as a false word |
| AppSettings.ParseTheme | src/lib/settings/app-settings.ts:47-57 | 'light' and 'dark' are returned as stored; anything else, or nothing, gives 'system' |
| AppSettings.ParseString | src/lib/settings/app-settings.ts:99-102 | `value ?? default`: any stored text, the empty one included, wins over the default |
| AppSettings.GetBool | src/lib/settings/app-settings.ts:73-83 | an absent key gives the default |
| AppSettings.SetBool | src/lib/settings/app-settings.ts:88-90 | stores 'true' or 'false', and getBool then reads the value back whatever its default |
| AppSettings.GetString | src/lib/settings/app-settings.ts:99-102 | the stored text, or the default for an absent key |
| AppSettings.SetString | src/lib/settings/app-settings.ts:107-109 | stores the text, and getString then reads it back whatever its default |
| AppSettings.GetUiTheme | src/lib/settings/app-settings.ts:47-57 | an absent theme reads as 'system' |
| AppSettings.SetUiTheme | src/lib/settings/app-settings.ts:62-64 | stores the theme's name, and getUiTheme then reads it back |
| AppSettings.SetAlwaysAskBackup | src/lib/settings/app-settings.ts:118-127 | stores the flag under 'prompts.alwaysAsk.backup', and the getter reads it back |
| AppSettings.SetLastBackupPath | src/lib/settings/app-settings.ts:132-141 | stores the path under 'paths.last.backup', and the getter reads it back |
| AppSettings.SetAlwaysAskRestore | src/lib/settings/app-settings.ts:146-155 | stores the flag under 'prompts.alwaysAsk.restore', and the getter reads it back |
| AppSettings.SetLastRestorePath | src/lib/settings/app-settings.ts:160-169 | stores the path under 'paths.last.restore', and the getter reads it back |
| AppSettings.BoolWordsIgnoreCase | src/lib/settings/app-settings.ts:78-80 | 'true', '1', 'yes' in any case read as true and 'false', '0', 'no' as false |
| AppSettings.BoolRoundTrip | src/lib/settings/app-settings.ts:79-89 | a boolean written by setBool reads back as itself |
| AppSettings.ThemeIsValid | src/lib/settings/app-settings.ts:47-57 | the theme read is always one of the three, and a stored valid theme is read as itself |
| AppSettings.ThemeRoundTrip | src/lib/settings/app-settings.ts:47-64 | a theme written by setUiTheme reads back as itself |
| AppSettings.EmptyStringKept | src/lib/settings/app-settings.ts:75 | an empty string is kept by getString but gives the default in getBool (also line 101) |
| AppSettings.Defaults | src/lib/settings/app-settings.ts:32-38 | with nothing stored both prompts are on, both paths are empty and the theme is 'system' (also lines 118-162) |
| SeedParts.NormalizeVoltageType | src-tauri/scripts/seed_load_calc_parts.cjs:20-30 | a missing or empty input gives 'LEGACY'; anything else is classified after trimming and upper-casing |
| SeedParts.Classify | src-tauri/scripts/seed_load_calc_parts.cjs:23-29 | 'DC' exactly for 'DC'; '600VAC_3PH' only for text with '600'; 'LEGACY' only for text with neither '120' nor '600' |
| SeedParts.PhaseTestRedundant | src-tauri/scripts/seed_load_calc_parts.cjs:24-25 | text with '120' always has a '1' and text with '230' always has a '3', so those two phase tests never decide anything |
| SeedParts.NameCanonical | src-tauri/scripts/seed_load_calc_parts.cjs:21-22 | every voltage type's name is already trimmed and upper-case |
| SeedParts.Classify120 | src-tauri/scripts/seed_load_calc_parts.cjs:24 | '120VAC_1PH' is classified as itself |
| SeedParts.Classify230 | src-tauri/scripts/seed_load_calc_parts.cjs:25 | '230VAC_3PH' is classified as itself |
| SeedParts.Classify480Three | src-tauri/scripts/seed_load_calc_parts.cjs:26 | '480VAC_3PH' is classified as itself |
| SeedParts.Classify480Single | src-tauri/scripts/seed_load_calc_parts.cjs:26-27 | '480VAC_1PH' is classified as itself: the '480' and '3' rule does not catch it |
| SeedParts.Classify600 | src-tauri/scripts/seed_load_calc_parts.cjs:28 | '600VAC_3PH' is classified as itself |
| SeedParts.ClassifyLegacy | src-tauri/scripts/seed_load_calc_parts.cjs:29 | 'LEGACY' is classified as itself |
| SeedParts.ClassifyName | src-tauri/scripts/seed_load_calc_parts.cjs:20-30 | every voltage type's name is classified as that type |
| SeedParts.NormalizeIdempotent | src-tauri/scripts/seed_load_calc_parts.cjs:20-30 | normalising a normalised voltage type's name gives it back |
| SeedParts.Normalize24Vac | src-tauri/scripts/seed_load_calc_parts.cjs:20-30 | '24VAC' matches no rule and gives 'LEGACY' |
| SeedParts.NormalizeDcLoose | src-tauri/scripts/seed_load_calc_parts.cjs:21-23 | ' dc ' gives 'DC' after trimming and upper-casing |
| SeedParts.Step | src-tauri/scripts/seed_load_calc_parts.cjs:38-52 | one scanner step consumes at least one character, and two only for a doubled quote inside quotes |
| SeedParts.ParseCsvText | src-tauri/scripts/seed_load_calc_parts.cjs:32-57 | the character loop computes exactly the specified rows |
| SeedParts.QuotedRun | src-tauri/scripts/seed_load_calc_parts.cjs:40-44 | inside quotes every character but '"' is kept, commas and newlines included |
| SeedParts.DoubledQuote | src-tauri/scripts/seed_load_calc_parts.cjs:41-42 | '""' inside quotes gives one quote and stays in quotes |
| SeedParts.QuotedField | src-tauri/scripts/seed_load_calc_parts.cjs:40-47 | a quoted field adds its contents to the field, quotes dropped |
| SeedParts.OpenQuote | src-tauri/scripts/seed_load_calc_parts.cjs:47 | a quote outside quotes opens a quoted run |
| SeedParts.CloseQuote | src-tauri/scripts/seed_load_calc_parts.cjs:42 | a single quote inside quotes closes the quoted run |
| SeedParts.QuotedFieldAlone | src-tauri/scripts/seed_load_calc_parts.cjs:32-57 | a text that is one quoted field gives one row holding that field |
| SeedParts.DropCR | src-tauri/scripts/seed_load_calc_parts.cjs:49 | carriage returns are dropped, and no comma is added |
| SeedParts.RunConcat | src-tauri/scripts/seed_load_calc_parts.cjs:38-53 | scanning quote-free text ends outside quotes, and scanning the rest continues from there |
| SeedParts.RunLine | src-tauri/scripts/seed_load_calc_parts.cjs:46-51 | a quote-free line adds no row and splits into the comma-separated fields, carriage returns dropped |
| SeedParts.FinishPending | src-tauri/scripts/seed_load_calc_parts.cjs:54-55 | the last row is emitted only when it has a field or pending text |
| SeedParts.LineThenNewline | src-tauri/scripts/seed_load_calc_parts.cjs:50 | a newline outside quotes ends the row with the line's fields |
| SeedParts.LastLine | src-tauri/scripts/seed_load_calc_parts.cjs:54-55 | a final line without newline is emitted unless it is empty |
| SeedParts.RowsFrom | src-tauri/scripts/seed_load_calc_parts.cjs:32-57 | for quote-free text the scanner's rows are the lines split on commas, carriage returns dropped and empty last line skipped |
| SeedParts.UnquotedIsSplit | src-tauri/scripts/seed_load_calc_parts.cjs:32-57 | for quote-free text parseCSV agrees with the independent lines-then-commas reading |
| SeedParts.TrailingNewline | src-tauri/scripts/seed_load_calc_parts.cjs:50-55 | a trailing newline adds no empty row |
| SeedParts.NoTrim | src-tauri/scripts/seed_load_calc_parts.cjs:32-57 | a plain field comes back as is, spaces included: parseCSV does not trim (also line 80) |
| DbMaintenance.JoinPath | src-tauri/src/commands/db_maintenance.rs:15 | `dir.join(name)` ends with the name (also lines 92, 121, 132-133) |
| DbMaintenance.Parent | src-tauri/src/commands/db_maintenance.rs:26 | a path's parent, when it has one, is shorter than the path |
| DbMaintenance.WithExtension | src-tauri/src/commands/db_maintenance.rs:104-105 | `with_extension` keeps the directory part; a path without a file name is unchanged; otherwise the result ends with '.' and the extension |
| DbMaintenance.Sidecars | src-tauri/src/commands/db_maintenance.rs:103-112 | the four live-database companions checked before a restore |
| DbMaintenance.Fixed | src-tauri/src/commands/db_maintenance.rs:120 | a zero-padded field of exactly the given width, all digits |
| DbMaintenance.FixedRoundTrip | src-tauri/src/commands/db_maintenance.rs:120 | a zero-padded field reads back as the number it was written from |
| DbMaintenance.Stamp | src-tauri/src/commands/db_maintenance.rs:120 | `%Y%m%d-%H%M%S` is fifteen characters: digits with a '-' at position 8 |
| DbMaintenance.StampReadsBack | src-tauri/src/commands/db_maintenance.rs:120 | the stamp's year, month and second fields read back as the clock's |
| DbMaintenance.BackupNameDistinct | src-tauri/src/commands/db_maintenance.rs:121-133 | the set-aside name never clashes with the database, -wal or -shm names |
| DbMaintenance.Removed | src-tauri/src/commands/db_maintenance.rs:50 | `remove_file` succeeds exactly for an existing file without fault, removing only it; a failure changes nothing and carries the error text (also lines 66-67, 136, 139) |
| DbMaintenance.Copied | src-tauri/src/commands/db_maintenance.rs:61 | `fs::copy` succeeds exactly when the source exists, the target is not a directory and nothing fails; it writes the source's bytes to the target only (also line 128) |
| DbMaintenance.Move | src-tauri/src/commands/db_maintenance.rs:57 | a move puts the bytes under the new name, removes the old name and leaves every other file alone (also line 123) |
| DbMaintenance.Renamed | src-tauri/src/commands/db_maintenance.rs:57 | `fs::rename` succeeds exactly for an existing source, a non-directory target and no fault; a failure changes nothing (also line 123) |
| DbMaintenance.DirsCreated | src-tauri/src/commands/db_maintenance.rs:28-29 | `create_dir_all`: the empty parent of a bare file name is accepted with nothing created; any other directory is added unless a file is in the way ("File exists") or a fault strikes, and a failure carries its text and changes nothing |
| DbMaintenance.Vacuumed | src-tauri/src/commands/db_maintenance.rs:44-52 | VACUUM INTO writes the snapshot to a target that is absent or empty and not a directory; otherwise nothing changes |
| DbMaintenance.TempPath | src-tauri/src/commands/db_maintenance.rs:41 | the temp path `<to>.tmp` is never the destination |
| DbMaintenance.BackupPrepared | src-tauri/src/commands/db_maintenance.rs:9-31 | the full messages: "Failed to get app data dir: " with the lookup's error, "Source database not found at: " with the database path, "Failed to create target directory: " with the error; on success the target's parent exists unless it is the empty parent of a bare name, which changes nothing; no file changes and no directory is removed |
| DbMaintenance.BackupNeedsPrimary | src-tauri/src/commands/db_maintenance.rs:17-23 | without the primary database the backup fails with "Source database not found at: " and the database path, and changes nothing |
| DbMaintenance.BackupMakesParent | src-tauri/src/commands/db_maintenance.rs:25-31 | a missing destination directory is created; the empty parent of a bare file name passes with nothing created |
| DbMaintenance.BackupBareName | src-tauri/src/commands/db_maintenance.rs:25-31 | a target given as a bare file name has the parent "", and the checks pass with nothing created whatever the faults |
| DbMaintenance.BackupKeepsDirs | src-tauri/src/commands/db_maintenance.rs:25-75 | the backup removes no directory |
| DbMaintenance.ExportedKeepsDirs | src-tauri/src/commands/db_maintenance.rs:40-75 | the export and its finish leave the directories as they were |
| DbMaintenance.BackupSuccess | src-tauri/src/commands/db_maintenance.rs:9-76 | a successful backup leaves the database's bytes at the destination and no temp file |
| DbMaintenance.FinalizedFrame | src-tauri/src/commands/db_maintenance.rs:56-75 | finishing the backup touches only the destination and the temp file |
| DbMaintenance.ExportedFrame | src-tauri/src/commands/db_maintenance.rs:40-75 | exporting and finishing touch only the destination and the temp file |
| DbMaintenance.BackupFrame | src-tauri/src/commands/db_maintenance.rs:9-76 | the backup touches no file other than the destination and its temp file |
| DbMaintenance.FinalizedFailureKeepsTarget | src-tauri/src/commands/db_maintenance.rs:62-74 | a failed finish leaves the destination as it was |
| DbMaintenance.ExportedFailureKeepsTarget | src-tauri/src/commands/db_maintenance.rs:44-75 | a failed export or finish leaves the destination as it was |
| DbMaintenance.BackupFailureKeepsTarget | src-tauri/src/commands/db_maintenance.rs:9-76 | a failed backup, whose cleanup works, leaves the destination as it was |
| DbMaintenance.BackupCopiedButTempKept | src-tauri/src/commands/db_maintenance.rs:59-67 | when the cross-device copy succeeds but the temp file cannot be removed, the backup reports failure though the destination holds the snapshot |
| DbMaintenance.BackupCleansTemp | src-tauri/src/commands/db_maintenance.rs:40-75 | once the export starts, the temp file is gone at the end whenever removal works |
| DbMaintenance.FinalizedCleansTemp | src-tauri/src/commands/db_maintenance.rs:56-75 | finishing removes the temp file on every path whenever removal works |
| DbMaintenance.Cleared | src-tauri/src/commands/db_maintenance.rs:135-140 | a best-effort removal removes the file unless it fails, and touches nothing else |
| DbMaintenance.RestoreNeedsSource | src-tauri/src/commands/db_maintenance.rs:94-101 | a missing source fails the restore with "Source file not found: " and the path, and changes nothing |
| DbMaintenance.RestoreRefusesLiveSource | src-tauri/src/commands/db_maintenance.rs:103-116 | any of the four companions existing refuses the restore with the two-sentence live-WAL message and changes nothing |
| DbMaintenance.JoinDistinct | src-tauri/src/commands/db_maintenance.rs:121-133 | different names of one length give different paths in one directory |
| DbMaintenance.JoinLonger | src-tauri/src/commands/db_maintenance.rs:121-133 | names of different lengths give different paths in one directory |
| DbMaintenance.ReplacedSuccess | src-tauri/src/commands/db_maintenance.rs:118-142 | a successful replacement leaves the source's bytes at the primary path, the source intact, the old primary set aside and the -wal and -shm files gone unless their removal failed |
| DbMaintenance.RestoreSuccess | src-tauri/src/commands/db_maintenance.rs:85-143 | a successful restore leaves the source's bytes at the primary path, the source intact, the old primary set aside under the timestamped name and the -wal and -shm files gone unless their removal failed |
| DbMaintenance.RestoreCopyFailure | src-tauri/src/commands/db_maintenance.rs:118-129 | when the copy fails after the set-aside, the restore fails with no primary database left, the old one kept under the backup name |
| DbMaintenance.RestoreFromItself | src-tauri/src/commands/db_maintenance.rs:118-129 | restoring from the primary database's own path sets it aside first, so the copy finds no source and no primary remains |
| DbMaintenance.FileSystem.constructor | src-tauri/src/commands/db_maintenance.rs:9-143 | the file system starts in the given state |
| DbMaintenance.FileSystem.RemoveFile | src-tauri/src/commands/db_maintenance.rs:50 | remove_file as specified (also lines 66, 72) |
| DbMaintenance.FileSystem.Copy | src-tauri/src/commands/db_maintenance.rs:61 | fs::copy as specified (also line 128) |
| DbMaintenance.FileSystem.Rename | src-tauri/src/commands/db_maintenance.rs:57 | fs::rename as specified (also line 123) |
| DbMaintenance.FileSystem.CreateDirAll | src-tauri/src/commands/db_maintenance.rs:28 | create_dir_all as specified |
| DbMaintenance.FileSystem.ClearSidecar | src-tauri/src/commands/db_maintenance.rs:135-140 | the ignored-failure removal as specified |
| DbMaintenance.FileSystem.VacuumInto | src-tauri/src/commands/db_maintenance.rs:44-52 | VACUUM INTO as specified |
| DbMaintenance.BackupDatabase | src-tauri/src/commands/db_maintenance.rs:9-76 | backup_database step by step computes the specified outcome |
| DbMaintenance.ExportBackup | src-tauri/src/commands/db_maintenance.rs:40-75 | the export and finish steps compute the specified outcome |
| DbMaintenance.FinalizeBackup | src-tauri/src/commands/db_maintenance.rs:56-75 | the rename and its fallbacks compute the specified outcome |
| DbMaintenance.RestoreDatabase | src-tauri/src/commands/db_maintenance.rs:85-143 | restore_database step by step computes the specified outcome |
| DbMaintenance.ReplaceDatabase | src-tauri/src/commands/db_maintenance.rs:118-142 | the set-aside, copy and cleanup compute the specified outcome |
| ImportMapping.AnyIncluded | src/components/bom/import-dialog.tsx:79 | `patterns.some(p => h.includes(p))` holds exactly when some pattern occurs in the header |
| ImportMapping.FindHeader | src/components/bom/import-dialog.tsx:79 | `findIndex` gives the first matching header, -1 exactly when none matches (also src/components/parts/parts-import-dialog.tsx:76) |
| ImportMapping.LowerHeaders | src/components/bom/import-dialog.tsx:63 | the lower-cased headers, one per header, in order (also src/components/parts/parts-import-dialog.tsx:64) |
| ImportMapping.AutoMap | src/components/bom/import-dialog.tsx:62-83 | the forEach over the field table computes the auto-mapping (also src/components/parts/parts-import-dialog.tsx:63-80) |
| ImportMapping.AutoMappingFirstMatch | src/components/bom/import-dialog.tsx:78-81 | a field is mapped exactly when some header matches its patterns, to the first such header; only table fields are mapped (also src/components/parts/parts-import-dialog.tsx:75-78) |
| ImportMapping.LeadingDigits | src/components/bom/import-dialog.tsx:227 | the run of digits that parseInt reads: a prefix of the text, all digits, followed by a non-digit or the end (also src/components/parts/parts-import-dialog.tsx:224) |
| ImportMapping.ParseIntBare | src/components/bom/import-dialog.tsx:227 | a digit run followed by a non-digit reads as its decimal value (also src/components/parts/parts-import-dialog.tsx:224) |
| ImportMapping.ParseIntNegative | src/components/bom/import-dialog.tsx:227 | a leading '-' negates the number read (also src/components/parts/parts-import-dialog.tsx:224) |
| ImportMapping.ParseIntReadsDecimal | src/components/bom/import-dialog.tsx:227 | parseInt reads back any integer written in decimal, whatever non-digit text follows (also line 422; src/components/parts/parts-import-dialog.tsx:224, 471) |
| ImportMapping.ParseIntNaN | src/components/bom/import-dialog.tsx:227-228 | text with no digit at all is NaN (also src/components/parts/parts-import-dialog.tsx:224-225) |
| ImportMapping.AcceptHeaderRow | src/components/bom/import-dialog.tsx:226-230 | the header row becomes the parsed number when it is at least 1 and otherwise stays; a valid row stays valid (also src/components/parts/parts-import-dialog.tsx:223-227) |
| ImportMapping.HeaderRowTyped | src/components/bom/import-dialog.tsx:226-230 | typing a number accepts it when it is at least 1 and keeps the old row otherwise (also src/components/parts/parts-import-dialog.tsx:223-227) |
| ImportMapping.PreviewValue | src/components/bom/import-dialog.tsx:312-316 | no column, a column past the headers, an empty header or a missing cell each preview as the empty string (also src/components/parts/parts-import-dialog.tsx:314-318) |
| ImportMapping.PreviewOfRow | src/components/bom/import-dialog.tsx:312-316 | a mapped column with a header previews the row's cell under that header (also src/components/parts/parts-import-dialog.tsx:314-318) |
| ImportMapping.PreviewOfParsedCsv | src/components/bom/import-dialog.tsx:312-316 | after a CSV load, column i of row k previews the i-th field of the k-th data line (also src/components/parts/parts-import-dialog.tsx:314-318) |
| ImportDialog.Slot | src/components/bom/import-dialog.tsx:67-76 | every BOM field has its entry, with its own patterns, in the auto-mapping table |
| ImportDialog.Parsed | src/components/bom/import-dialog.tsx:57-84 | loading rows stores them, their headers and their auto-mapping, and changes nothing else |
| ImportDialog.AutoMappingRule | src/components/bom/import-dialog.tsx:78-81 | a BOM field is mapped exactly when a lower-cased header contains one of its patterns, to the first such header |
| ImportDialog.VendorMapsToBoth | src/components/bom/import-dialog.tsx:72-81 | a first header containing "vendor" maps both the manufacturer and the supplier column to it |
| ImportDialog.Loaded | src/components/bom/import-dialog.tsx:181-188 | zero rows give "File is empty or invalid" and end processing; otherwise the rows are loaded and the dialog moves to mapping, the as-written step leaving processing on |
| ImportDialog.OverlayStaysAfterLoad | src/components/bom/import-dialog.tsx:187-188 | as written, a CSV that parses to rows reaches the mapping step with processing still on, so the overlay stays (also line 333) |
| ImportDialog.LoadEndsProcessing | src/components/bom/import-dialog.tsx:142-194 | the corrected load always ends processing and keeps the file's bytes |
| ImportDialog.CsvLoadSteps | src/components/bom/import-dialog.tsx:175-188 | a CSV file with no rows shows "File is empty or invalid" and stays put; one with rows moves to mapping with its rows and auto-mapping |
| ImportDialog.ExcelLoadSteps | src/components/bom/import-dialog.tsx:145-188 | a workbook with no sheets shows "Excel file contains no sheets"; one non-empty sheet loads straight to mapping; several sheets go to sheet selection |
| ImportDialog.SheetSelection | src/components/bom/import-dialog.tsx:196-224 | without a file or a chosen sheet: "Please select a sheet" and no change; otherwise processing ends with at most one toast |
| ImportDialog.SheetSelectionSteps | src/components/bom/import-dialog.tsx:203-221 | a parsed non-empty sheet moves to mapping, an empty one shows that the sheet is empty, a parse failure shows "Failed to parse Excel sheet" |
| ImportDialog.HeaderRowChange | src/components/bom/import-dialog.tsx:226-230 | the header row stays or becomes a number of at least 1; nothing else changes |
| ImportDialog.HeaderRowTypedIn | src/components/bom/import-dialog.tsx:226-230 | typing a number n sets the header row to n when n is at least 1 and otherwise changes nothing |
| ImportDialog.RefreshData | src/components/bom/import-dialog.tsx:232-260 | without a file nothing happens; the step never changes; with a file processing ends |
| ImportDialog.RefreshRemaps | src/components/bom/import-dialog.tsx:232-260 | a CSV reload re-runs the auto-mapping on the new rows and reports the header row |
| ImportDialog.ChooseColumn | src/components/bom/import-dialog.tsx:420-423 | choosing a column maps the field to it, "unmapped" removes it; every other field keeps its mapping |
| ImportDialog.ShowPreview | src/components/bom/import-dialog.tsx:444 | the preview step is reached exactly when the part number is mapped; nothing else changes |
| ImportDialog.PreviewCell | src/components/bom/import-dialog.tsx:312-316 | an unmapped field previews as the empty string (also lines 470-480) |
| ImportDialog.Close | src/components/bom/import-dialog.tsx:43-55 | closing resets every field to its initial value; staying open changes nothing (also lines 294-297) |
| ImportDialog.ImportWith | src/components/bom/import-dialog.tsx:262-292 | no chosen location: "No location selected"; no part-number column: "Part Number column is required"; otherwise the mapped rows are handed over, success closes and resets with "Imported n items", failure shows "Import failed" and stays open |
| ImportDialog.CurrentProjectAsRead | src/components/bom/import-dialog.tsx:41 | the store has no currentProject field, so the read is always empty (also line 263) |
| ImportDialog.ImportAlwaysRefused | src/components/bom/import-dialog.tsx:41 | as written, every import is refused with "No location selected" (also lines 262-266) |
| ImportDialog.ImportPlacesRows | src/components/bom/import-dialog.tsx:262-283 | the corrected import hands over one item per row, each in the current scope and location, sort order its row index |
| ImportDialog.Dialog.constructor | src/components/bom/import-dialog.tsx:30-41 | the dialog starts in its initial state |
| ImportDialog.Dialog.ProcessParsedRows | src/components/bom/import-dialog.tsx:57-84 | processParsedRows as specified |
| ImportDialog.Dialog.ProcessFileContents | src/components/bom/import-dialog.tsx:142-194 | the corrected load of the Findings table (LoadFile): processFileContents, except that a successful load also clears processing, which lines 187-188 leave on |
| ImportDialog.Dialog.HandleSheetSelection | src/components/bom/import-dialog.tsx:196-224 | handleSheetSelection as specified |
| ImportDialog.Dialog.HandleHeaderRowChange | src/components/bom/import-dialog.tsx:226-230 | handleHeaderRowChange as specified |
| ImportDialog.Dialog.Refresh | src/components/bom/import-dialog.tsx:232-260 | refreshData as specified |
| ImportDialog.Dialog.SetMapping | src/components/bom/import-dialog.tsx:420-423 | the column select as specified |
| ImportDialog.Dialog.GoToPreview | src/components/bom/import-dialog.tsx:444 | the Preview button as specified |
| ImportDialog.Dialog.Import | src/components/bom/import-dialog.tsx:262-292 | the corrected handleImport of the Findings table (HandleImport): the guard reads the store's current scope package where line 263 reads a nonexistent currentProject |
| ImportDialog.Dialog.ResetState | src/components/bom/import-dialog.tsx:43-55 | resetState restores the initial state |
| ImportDialog.Dialog.HandleClose | src/components/bom/import-dialog.tsx:294-297 | handleClose as specified |
| PartsImportDialog.Slot | src/components/parts/parts-import-dialog.tsx:66-73 | every catalogue field has its entry, with its own patterns, in the auto-mapping table |
| PartsImportDialog.Parsed | src/components/parts/parts-import-dialog.tsx:58-81 | loading rows stores them, their headers and their auto-mapping, and changes nothing else |
| PartsImportDialog.AutoMappingRule | src/components/parts/parts-import-dialog.tsx:75-78 | a catalogue field is mapped exactly when a lower-cased header contains one of its patterns, to the first such header |
| PartsImportDialog.MfgNameServesTwoFields | src/components/parts/parts-import-dialog.tsx:67-78 | a first header "mfg name" maps both the manufacturer and the description column to it |
| PartsImportDialog.PreviewErrorOf | src/components/parts/parts-import-dialog.tsx:161-163 | "No data found on this sheet" is set exactly when the preview has no headers (also line 234) |
| PartsImportDialog.LoadFile | src/components/parts/parts-import-dialog.tsx:138-193 | loading a file always ends processing |
| PartsImportDialog.ExcelAlwaysSelectsSheet | src/components/parts/parts-import-dialog.tsx:142-167 | a workbook with sheets always goes to sheet selection with the first sheet chosen and its preview shown, flagged when it has no headers |
| PartsImportDialog.CsvLoadSteps | src/components/parts/parts-import-dialog.tsx:168-187 | a CSV file clears the workbook and sheet state; no rows gives "File is empty or invalid", rows move to mapping with their auto-mapping |
| PartsImportDialog.SheetSelection | src/components/parts/parts-import-dialog.tsx:195-221 | without a workbook or a chosen sheet: "Please select a sheet" and no change; otherwise processing ends with at most one toast |
| PartsImportDialog.SheetSelectionSteps | src/components/parts/parts-import-dialog.tsx:200-220 | a parsed non-empty sheet moves to mapping, an empty one shows that the sheet is empty, a parse failure shows "Failed to parse Excel sheet" |
| PartsImportDialog.ChooseSheet | src/components/parts/parts-import-dialog.tsx:229-239 | picking a sheet records it and refreshes its preview, or records the preview's error; rows, step and mapping are untouched (also lines 366-369) |
| PartsImportDialog.HeaderRowChange | src/components/parts/parts-import-dialog.tsx:223-227 | the header row stays or becomes a number of at least 1; nothing else changes |
| PartsImportDialog.HeaderRowTypedIn | src/components/parts/parts-import-dialog.tsx:223-227 | typing a number n sets the header row to n when n is at least 1 and otherwise changes nothing |
| PartsImportDialog.RefreshData | src/components/parts/parts-import-dialog.tsx:241-261 | without a workbook or a sheet nothing happens; the step never changes; otherwise processing ends |
| PartsImportDialog.RefreshRemaps | src/components/parts/parts-import-dialog.tsx:247-253 | a reload that yields rows stores them, re-runs the auto-mapping and reports the header row |
| PartsImportDialog.ChooseColumn | src/components/parts/parts-import-dialog.tsx:469-472 | choosing a column maps the field to it, "unmapped" removes it; every other field keeps its mapping |
| PartsImportDialog.ShowPreview | src/components/parts/parts-import-dialog.tsx:493 | the preview step is reached exactly when both the part number and the manufacturer are mapped; nothing else changes |
| PartsImportDialog.PreviewCell | src/components/parts/parts-import-dialog.tsx:314-318 | an unmapped field previews as the empty string (also lines 517-522) |
| PartsImportDialog.Close | src/components/parts/parts-import-dialog.tsx:43-56 | closing restores the initial state; staying open changes nothing (also lines 300-303) |
| PartsImportDialog.ResetRestoresEverything | src/components/parts/parts-import-dialog.tsx:43-56 | after a reset every piece of dialog state has its initial value |
| PartsImportDialog.ResultToast | src/components/parts/parts-import-dialog.tsx:279-284 | the result toast is an error exactly when the import reported errors |
| PartsImportDialog.HandleImport | src/components/parts/parts-import-dialog.tsx:263-298 | no part-number column: "Part Number column is required"; no manufacturer column: "Manufacturer column is required"; a throw shows "Import failed" and keeps the dialog open; otherwise the rows are imported into the catalogue and the dialog closes and resets |
| PartsImportDialog.ImportReportsEveryRow | src/components/parts/parts-import-dialog.tsx:276-291 | a finished import shows one toast; every row is counted as created, updated or skipped; the toast is a success exactly when there were no errors |
| PartsImportDialog.Dialog.constructor | src/components/parts/parts-import-dialog.tsx:30-41 | the dialog starts in its initial state |
| PartsImportDialog.Dialog.ProcessParsedRows | src/components/parts/parts-import-dialog.tsx:58-81 | processParsedRows as specified |
| PartsImportDialog.Dialog.ProcessFileContents | src/components/parts/parts-import-dialog.tsx:138-193 | processFileContents as specified |
| PartsImportDialog.Dialog.HandleSheetSelection | src/components/parts/parts-import-dialog.tsx:195-221 | handleSheetSelection as specified |
| PartsImportDialog.Dialog.SelectSheet | src/components/parts/parts-import-dialog.tsx:229-239 | the sheet select and updateSheetPreview as specified (also lines 366-369) |
| PartsImportDialog.Dialog.HandleHeaderRowChange | src/components/parts/parts-import-dialog.tsx:223-227 | handleHeaderRowChange as specified |
| PartsImportDialog.Dialog.Refresh | src/components/parts/parts-import-dialog.tsx:241-261 | refreshData as specified |
| PartsImportDialog.Dialog.SetMapping | src/components/parts/parts-import-dialog.tsx:469-472 | the column select as specified |
| PartsImportDialog.Dialog.GoToPreview | src/components/parts/parts-import-dialog.tsx:493 | the Preview button as specified |
| PartsImportDialog.Dialog.Import | src/components/parts/parts-import-dialog.tsx:263-298 | handleImport as specified |
| PartsImportDialog.Dialog.ResetState | src/components/parts/parts-import-dialog.tsx:43-56 | resetState restores the initial state |
| PartsImportDialog.Dialog.HandleClose | src/components/parts/parts-import-dialog.tsx:300-303 | handleClose as specified |

## Left out

**Rendering and environment**
- React rendering, layout, theming and routing are not modelled. Only the state logic of the two import dialogs is in scope.
- Native and browser I/O is not modelled: Tauri open/save/readFile/writeFile, Blob downloads, the clipboard, exportPartsToCSV and exportPartsToXLSX. File contents arrive as parameters.
- Spreadsheet and PDF libraries are outside the model.
  - The xlsx library is a parameter: its array-of-arrays output and a workbook's sheet names.
  - getExcelSheetPreview is a parameter.
  - jsPDF, jspdf-autotable and html2canvas are not modelled, and neither are PDF or PNG export.
- zod is modelled as the validity predicate of the schema, not as the library.
- Concurrency and timing are not modelled.
  - The polling of flushPendingWrites is one parameter, whether the writes settled in time.
  - Promise.all interleavings, setTimeout, mockDelay and debounce timers are not modelled.
- Floating point and locale are not modelled: IEEE rounding, toLocaleString, toFixed, fmt and the mm² branch of formatWireValue. Calculations use exact `real` arithmetic. Report cells keep numbers rather than formatted text.
- Whitespace and case are ASCII only. `trim` strips the ASCII blanks but not U+00A0, U+FEFF, U+2028 or the other Unicode spaces JavaScript strips. `toLowerCase` and `toUpperCase` map only A-Z and a-z. So " ACME\u00A0" keeps its no-break space in the model, and non-ASCII letters are compared as written. This reaches Matching.NormalizeString, the trim in CsvParser.ParseLine and ExcelParser, PartsImport.NormalizeValue, the mock client's lower-casing, LoadCalcImportStore.CleanHeaders and SeedParts.NormalizeVoltageType.
- Object key order is insertion order. JavaScript lists integer-like keys ("0", "1", "2024") first, in ascending numeric order, before the other keys. For the header line "Name,2024,1" the program's Object.keys gives ["1","2024","Name"] and the model gives ["Name","2024","1"].
- CsvParser.RowKeysAreHeaders: the keys are stated in header order, which is JavaScript's order only when no header is an integer-like key.
- CsvParser.HeadersOfParsed: the same key-order gap as RowKeysAreHeaders.
- CsvParser.GetCsvHeaders: the same key-order gap as RowKeysAreHeaders.
- ImportUtils.CellAt: column indices resolve against the first row's keys in insertion order. With integer-like headers the program resolves them against the reordered keys and can read a different column.
- localStorage is not modelled: the mock client's saveToStorage and loadFromStorage, and template persistence in the load-calculation import store.
- Ids, time and logging come from outside.
  - crypto.randomUUID, new Date(), Date.now and chrono::Utc::now are parameters.
  - console logging is dropped.
- The isTauri switch between the two database clients is not modelled. Each client is modelled on its own.
- Loading and isLoading flags are not modelled where nothing depends on them.

**Database clients**
- The mock client starts from the empty store; its seed data is not modelled.
- Map iteration order is taken as ascending ids. The sorting by updated_at and sort_order in getAll and getByProject is not modelled.
- getById and the other plain reads of the mock client are not modelled.
- The real client's query wrappers, connection handling and SQLite's own behaviour (FTS MATCH, LIKE, constraints) are foreign calls. Only the statements and parameters the client builds are modelled. Its one-line getById, create and delete queries are not modelled.
- The relevance ordering of the real client's FTS search is not modelled. Only its parameters are.

**BOM store**
- These operations are not modelled: createJobProjectWithInitialPackage, renameJobProject, loadAllPackages, createPackage, renamePackage, loadLastScope, createLocation, updateLocation, deleteLocation, setSearchTerm, setSelectedItemIds and setError. They are plain database calls followed by a reload, with none of the guards or state rules listed for this store.

**Load-calculation project store**
- These operations are not modelled: createProject, updateProject, updateLocation and createVoltageTable. They are plain database calls followed by a reload.
- The part-spec reads inside the calculation and the SQL report aggregation are parameters.

**Parts import**
- The catch path of importPartsFromRows for a database failure is not modelled.
- Manufacturer-creation collision handling is not modelled: the re-read after a failed create, parts-import.ts:79-103. A created manufacturer always succeeds in the model.

**Project packages**
- Rollback assumes the delete cascade from job project to packages, locations and items. The database schema is not part of this model.
- JSON objects with duplicate keys: the model reads the first occurrence, while JSON.parse keeps the last.
- bulkCreate is modelled as appending the rows as given.
- ProjectPackageIo.ImportThenExport: the sort_order half of the round trip holds for a bulkCreate that keeps the incoming sort_order, as the mock client's does. The real client's bomItems.bulkCreate renumbers the items from MAX(sort_order)+1 (RealClient.ItemsNumberedOnward), and under it the exported sort orders are the new numbers.
- ProjectPackageIo.ImportThenExport: the round trip is stated for items with a non-empty location name and a whole-number sort order only. Other items are not claimed to round-trip.

**Utilities, seed script and back end**
- The seed script's database upsert loop is I/O and is not modelled. Only normalizeVoltageType and parseCSV are modelled.
- SQLite and the sqlx pool are outside the model. VACUUM INTO is an opaque snapshot of the primary file, with SQLite's refusal of an existing non-empty target. The app_local_data_dir lookup is a parameter: a directory, or an error with its text.
- The backup and restore error messages are modelled in full, the path or the `: {e}` detail included. Where the model sees the cause of an I/O or SQLite error (a missing file, a directory in the way, an existing file, a non-empty VACUUM target), `{e}` is the standard Linux or SQLite text, held in the constants NotFoundText, IsDirectoryText, FileExistsText, NotAFileText, OutputExistsText and CantOpenText. Other platforms word these differently. For a failure the model cannot see, `{e}` is the text the fault parameter carries.
- GlenairUtils.ParseAwgValue: free text goes through JsParseFloat, which reads a sign and an unsigned decimal but no exponent and no "Infinity". JavaScript's parseFloat reads "1e1" as 10 and "Infinity" as Infinity; the model gives 1 and null.
- GlenairUtils.PlainText: the same exponent and Infinity gap as ParseAwgValue.

**Import dialogs**
- parseInt's hexadecimal and other radix forms are not modelled. Only decimal text with optional leading whitespace and sign is read.
- ImportUtils.ItemOfRow: quantity and unit price are read with the corrected ParseQuantity and ParseCurrency of the Findings table. A bare run of four or more digits, such as "1234", gives 1234 where the program gives 123 (and a price "1999" gives 1999 where the program gives 199).
- ImportUtils.MapImportRowsToBom: every item inherits ItemOfRow's corrected quantity and price.
- ImportDialog.ImportWith: the items handed over are MapImportRowsToBom's, so they carry the corrected quantity and price.
- ImportDialog.ImportPlacesRows: the same corrected quantity and price as ImportWith.
- The sheet library's conversion from a chosen header row is a parameter: the workbook as converted at the current header row.
- The Back buttons and other purely visual step changes are not modelled.

## Findings

| source | as written | input that shows it | evidently intended | confidence | as-written member | corrected member |
|---|---|---|---|---|---|---|
| src/lib/import-utils.ts:15 | the pattern here and at line 39 tries `\d{1,3}(,\d{3})*` first, so a run of four or more digits without commas matches only its first three digits | "1234" gives the quantity 123; prices go through the same pattern | the whole digit run is read, "1234" gives 1234 | not executed | ImportUtils.QuantityFourDigitsAsWritten | ImportUtils.ParseQuantityOfNumeral |
| src/stores/bom-store.ts:93-113 | flushPendingWrites ends the same way whether the writes settled or it timed out, and setScope (lines 302-311) goes on with the switch either way | a write still pending after 5 seconds: the scope switches anyway and the abort message does not remain | a time-out aborts the switch and keeps the current scope | not executed | BomStore.TimedOutSwitchStillHappens | BomStore.TimedOutKeepsScope |
| src/components/bom/import-dialog.tsx:187-188 | a successful CSV or single-sheet load moves to the mapping step without clearing `processing`, so the processing overlay (line 333) stays over the mapping step | any CSV file with one header line and one data line | the load ends with `processing` false, as every other path and the parts dialog do | not executed | ImportDialog.OverlayStaysAfterLoad | ImportDialog.LoadEndsProcessing |
| src/components/bom/import-dialog.tsx:263 | the dialog reads `currentProject` (line 41) from the BOM store, which has no such field (src/stores/bom-store.ts:12-73), so the guard always fails | any import with a package and a location chosen ends with "No location selected" | the guard and the item mapping use the current scope package id | not executed | ImportDialog.ImportAlwaysRefused | ImportDialog.ImportPlacesRows |
