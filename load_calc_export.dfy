// Report export for the load calculator (src/lib/load-calc/export.ts): the
// heat, loading and balance reports as HTML tables (for the clipboard and
// images) and as the three sheets of an XLSX workbook.

module LoadCalcExport {
  import opened Common

  /** `HeatReportRow`: one enclosure location. */
  datatype HeatRow = HeatRow(locationId: Option<int>, locationName: string, totalWatts: real, tableCount: int)

  /** `LoadingReportRow`: one voltage table. */
  datatype LoadingRow = LoadingRow(voltageTableId: int, voltageType: string, locationName: string,
                                   totalWatts: real, totalAmperes: real, isCalculated: bool)

  /** `BalanceReportRow`: one three-phase voltage table. */
  datatype BalanceRow = BalanceRow(voltageTableId: int, voltageType: string, locationName: string,
                                   l1: real, l2: real, l3: real, balancePct: Option<real>, isCalculated: bool)

  /** `ReportData`. */
  datatype ReportData = ReportData(heat: seq<HeatRow>, loading: seq<LoadingRow>, balance: seq<BalanceRow>)

  /** `ReportTab`. */
  datatype ReportTab = HeatTab | LoadingTab | BalanceTab

  /**
   * A table cell: text, or a number shown with a unit suffix (" W", " A",
   * "%", or nothing). How a number is printed is not part of this model.
   */
  datatype Cell = Text(s: string) | Amount(v: real, unit: string)

  /** A table: its column headings and its rows, a totals row last when there is one. */
  datatype Table = Table(head: seq<string>, rows: seq<seq<Cell>>)

  /** A worksheet as `json_to_sheet` lays out rows that all have the same keys: the keys, then the values. */
  datatype Sheet = Sheet(name: string, head: seq<string>, rows: seq<seq<Cell>>)

  // ---------------------------------------------------------------------
  // sums and statuses
  // ---------------------------------------------------------------------

  /** `xs.reduce((s, x) => s + g(x), 0)`, folding from the left. */
  function Sum<T>(xs: seq<T>, g: T -> real): real
  {
    if xs == [] then 0.0 else Sum(xs[..|xs| - 1], g) + g(xs[|xs| - 1])
  }

  /** The number in column `k` of a row, or 0 when that cell is text or missing. */
  function CellValue(row: seq<Cell>, k: nat): real
  {
    if k < |row| && row[k].Amount? then row[k].v else 0.0
  }

  /** The sum of column `k` over some rows. */
  function ColumnSum(rows: seq<seq<Cell>>, k: nat): real
  {
    if rows == [] then 0.0 else ColumnSum(rows[..|rows| - 1], k) + CellValue(rows[|rows| - 1], k)
  }

  /** `xs.map(f)`. */
  function Mapped<T>(xs: seq<T>, f: T -> seq<Cell>): (r: seq<seq<Cell>>)
    ensures |r| == |xs| && forall i :: 0 <= i < |xs| ==> r[i] == f(xs[i])
  {
    seq(|xs|, i requires 0 <= i < |xs| => f(xs[i]))
  }

  /**
   * Summing a column of mapped rows is summing the field the column shows,
   * so a totals row built from the data agrees with the rows printed above it.
   */
  lemma {:induction false} ColumnOfMapped<T>(xs: seq<T>, f: T -> seq<Cell>, g: T -> real, k: nat)
    requires forall x :: CellValue(f(x), k) == g(x)
    ensures ColumnSum(Mapped(xs, f), k) == Sum(xs, g)
  {
    if xs != [] {
      var n := |xs| - 1;
      var m := Mapped(xs, f);
      assert m[..n] == Mapped(xs[..n], f);
      ColumnOfMapped(xs[..n], f, g, k);
      assert m[n] == f(xs[n]);
    }
  }

  /** The status of a location: more than 1000 W is high. */
  function HeatStatus(watts: real): (r: string)
    ensures r == "HIGH" <==> watts > 1000.0
    ensures r == "OK" <==> watts <= 1000.0
  {
    if watts > 1000.0 then "HIGH" else "OK"
  }

  function LoadingStatus(isCalculated: bool): (r: string)
    ensures r == "Calculated" <==> isCalculated
    ensures r == "Pending" <==> !isCalculated
  {
    if isCalculated then "Calculated" else "Pending"
  }

  function HeatWatts(r: HeatRow): real { r.totalWatts }
  function HeatTables(r: HeatRow): real { r.tableCount as real }
  function LoadWatts(r: LoadingRow): real { r.totalWatts }
  function LoadAmps(r: LoadingRow): real { r.totalAmperes }

  // ---------------------------------------------------------------------
  // HTML tables
  // ---------------------------------------------------------------------

  function HeatHtmlRow(r: HeatRow): seq<Cell>
  {
    [Text(r.locationName), Amount(r.tableCount as real, ""), Amount(r.totalWatts, " W"), Text(HeatStatus(r.totalWatts))]
  }

  /** generateHeatHtml. */
  function HeatHtml(data: seq<HeatRow>): (t: Table)
    ensures |t.head| == 4
  {
    var rows := Mapped(data, HeatHtmlRow);
    var totals := if |data| > 1 then [[Text("Total Project Heat"), Amount(Sum(data, HeatTables), ""),
                                      Amount(Sum(data, HeatWatts), " W"), Text("")]] else [];
    Table(["Enclosure Location", "Tables", "Total Heat (Watts)", "Status"], rows + totals)
  }

  function LoadingHtmlRow(r: LoadingRow): seq<Cell>
  {
    [Text(r.locationName), Text(r.voltageType), Amount(r.totalWatts, " W"), Amount(r.totalAmperes, " A"),
     Text(LoadingStatus(r.isCalculated))]
  }

  /**
   * generateLoadingHtml. Its totals row has four cells, the label spanning
   * the first two columns, so the watts and amps totals are its cells 1 and 2.
   */
  function LoadingHtml(data: seq<LoadingRow>): (t: Table)
    ensures |t.head| == 5
  {
    var rows := Mapped(data, LoadingHtmlRow);
    var totals := if |data| > 1 then [[Text("Project Totals"), Amount(Sum(data, LoadWatts), " W"),
                                      Amount(Sum(data, LoadAmps), " A"), Text("")]] else [];
    Table(["Enclosure", "Voltage Type", "Total Watts", "Total Amps", "Status"], rows + totals)
  }

  /** The imbalance cell: the percentage, or N/A when there is none. */
  function ImbalanceCell(pct: Option<real>, unit: string): (c: Cell)
    ensures c == Text("N/A") <==> pct.None?
    ensures pct.Some? ==> c.Amount? && c.v == pct.value
  {
    match pct
    case Some(p) => Amount(p, unit)
    case None => Text("N/A")
  }

  function BalanceHtmlRow(r: BalanceRow): seq<Cell>
  {
    [Text(r.locationName + "<br/><small>" + r.voltageType + "</small>"),
     Amount(r.l1, " W"), Amount(r.l2, " W"), Amount(r.l3, " W"), ImbalanceCell(r.balancePct, "%")]
  }

  /** generateBalanceHtml: no totals row. */
  function BalanceHtml(data: seq<BalanceRow>): (t: Table)
    ensures |t.head| == 5
  {
    Table(["Enclosure / Table", "L1 (W)", "L2 (W)", "L3 (W)", "Imbalance"], Mapped(data, BalanceHtmlRow))
  }

  /** getReportHtml: the table of the tab shown. */
  function ReportHtml(tab: ReportTab, data: ReportData): (t: Table)
    ensures tab == HeatTab ==> |t.rows| >= |data.heat| && t.head != [] && t.head[0] == "Enclosure Location"
    ensures tab == LoadingTab ==> |t.rows| >= |data.loading| && t.head != [] && t.head[0] == "Enclosure"
    ensures tab == BalanceTab ==> |t.rows| == |data.balance| && t.head != [] && t.head[0] == "Enclosure / Table"
  {
    match tab
    case HeatTab => HeatHtml(data.heat)
    case LoadingTab => LoadingHtml(data.loading)
    case BalanceTab => BalanceHtml(data.balance)
  }

  // ---------------------------------------------------------------------
  // properties of the HTML tables
  // ---------------------------------------------------------------------

  /** One row per location in input order, then a totals row exactly when there are two or more. */
  lemma HeatHtmlShape(data: seq<HeatRow>)
    ensures var t := HeatHtml(data);
      |t.rows| == |data| + (if |data| > 1 then 1 else 0) &&
      (forall i :: 0 <= i < |data| ==> t.rows[i] == HeatHtmlRow(data[i])) &&
      (forall i :: 0 <= i < |data| ==> (t.rows[i][3] == Text("HIGH") <==> data[i].totalWatts > 1000.0))
  {
  }

  /** The heat totals row holds the sums of the Tables and Watts columns above it. */
  lemma HeatHtmlTotals(data: seq<HeatRow>)
    requires |data| > 1
    ensures var t := HeatHtml(data); var n := |data|;
      t.rows[n][0] == Text("Total Project Heat") &&
      CellValue(t.rows[n], 1) == ColumnSum(t.rows[..n], 1) &&
      CellValue(t.rows[n], 2) == ColumnSum(t.rows[..n], 2)
  {
    var t := HeatHtml(data);
    assert t.rows[..|data|] == Mapped(data, HeatHtmlRow);
    ColumnOfMapped(data, HeatHtmlRow, HeatTables, 1);
    ColumnOfMapped(data, HeatHtmlRow, HeatWatts, 2);
  }

  lemma LoadingHtmlShape(data: seq<LoadingRow>)
    ensures var t := LoadingHtml(data);
      |t.rows| == |data| + (if |data| > 1 then 1 else 0) &&
      (forall i :: 0 <= i < |data| ==> t.rows[i] == LoadingHtmlRow(data[i])) &&
      (forall i :: 0 <= i < |data| ==> (t.rows[i][4] == Text("Calculated") <==> data[i].isCalculated))
  {
  }

  /** The loading totals row holds the sums of the Watts and Amps columns above it. */
  lemma LoadingHtmlTotals(data: seq<LoadingRow>)
    requires |data| > 1
    ensures var t := LoadingHtml(data); var n := |data|;
      t.rows[n][0] == Text("Project Totals") &&
      CellValue(t.rows[n], 1) == ColumnSum(t.rows[..n], 2) &&
      CellValue(t.rows[n], 2) == ColumnSum(t.rows[..n], 3)
  {
    var t := LoadingHtml(data);
    assert t.rows[..|data|] == Mapped(data, LoadingHtmlRow);
    ColumnOfMapped(data, LoadingHtmlRow, LoadWatts, 2);
    ColumnOfMapped(data, LoadingHtmlRow, LoadAmps, 3);
  }

  /** One row per table, never a totals row; the imbalance reads N/A exactly when it is null. */
  lemma BalanceHtmlShape(data: seq<BalanceRow>)
    ensures var t := BalanceHtml(data);
      |t.rows| == |data| &&
      forall i :: 0 <= i < |data| ==> (t.rows[i][4] == Text("N/A") <==> data[i].balancePct.None?)
  {
  }

  // ---------------------------------------------------------------------
  // the XLSX workbook
  // ---------------------------------------------------------------------

  const HeatKeys: seq<string> := ["Enclosure Location", "Tables", "Total Heat (W)", "Status"]
  const LoadingKeys: seq<string> := ["Enclosure", "Voltage Type", "Total Watts", "Total Amps", "Status"]
  const BalanceKeys: seq<string> := ["Enclosure / Table", "L1 (W)", "L2 (W)", "L3 (W)", "Imbalance %"]

  function HeatRecord(r: HeatRow): seq<Cell>
  {
    [Text(r.locationName), Amount(r.tableCount as real, ""), Amount(r.totalWatts, ""), Text(HeatStatus(r.totalWatts))]
  }

  function HeatTotalsRecord(data: seq<HeatRow>): seq<Cell>
  {
    [Text("Total Project Heat"), Amount(Sum(data, HeatTables), ""), Amount(Sum(data, HeatWatts), ""), Text("")]
  }

  function LoadingRecord(r: LoadingRow): seq<Cell>
  {
    [Text(r.locationName), Text(r.voltageType), Amount(r.totalWatts, ""), Amount(r.totalAmperes, ""),
     Text(LoadingStatus(r.isCalculated))]
  }

  function LoadingTotalsRecord(data: seq<LoadingRow>): seq<Cell>
  {
    [Text("Project Totals"), Text(""), Amount(Sum(data, LoadWatts), ""), Amount(Sum(data, LoadAmps), ""), Text("")]
  }

  function BalanceRecord(r: BalanceRow): seq<Cell>
  {
    [Text(r.locationName + " (" + r.voltageType + ")"), Amount(r.l1, ""), Amount(r.l2, ""), Amount(r.l3, ""),
     ImbalanceCell(r.balancePct, "")]
  }

  /** The rows of a sheet: the mapped records, and the totals record when there are two or more. */
  function WithTotals<T>(data: seq<T>, f: T -> seq<Cell>, totals: seq<Cell>): (r: seq<seq<Cell>>)
    ensures |r| == |data| + (if |data| > 1 then 1 else 0)
    ensures r[..|data|] == Mapped(data, f)
    ensures |data| > 1 ==> r[|data|] == totals
  {
    Mapped(data, f) + (if |data| > 1 then [totals] else [])
  }

  /** The workbook exportReportsToXlsx writes. */
  function Workbook(data: ReportData): (wb: seq<Sheet>)
    ensures |wb| == 3 && wb[0].name == "Heat" && wb[1].name == "Loading" && wb[2].name == "Balance"
  {
    [Sheet("Heat", HeatKeys, WithTotals(data.heat, HeatRecord, HeatTotalsRecord(data.heat))),
     Sheet("Loading", LoadingKeys, WithTotals(data.loading, LoadingRecord, LoadingTotalsRecord(data.loading))),
     Sheet("Balance", BalanceKeys, Mapped(data.balance, BalanceRecord))]
  }

  /** The name the workbook is offered under. */
  function XlsxFileName(projectName: string): (r: string)
    ensures IsPrefix(projectName, r) && r[|projectName|..] == "_Load_Calculations.xlsx"
  {
    projectName + "_Load_Calculations.xlsx"
  }

  /**
   * exportReportsToXlsx up to the save dialog: the sheets are built and
   * appended one after another, a totals row pushed onto the first two.
   */
  method ExportReportsToXlsx(data: ReportData, projectName: string) returns (wb: seq<Sheet>, filename: string)
    ensures wb == Workbook(data)
    ensures filename == XlsxFileName(projectName)
  {
    wb := [];
    var heatRows := Mapped(data.heat, HeatRecord);
    if |data.heat| > 1 {
      heatRows := heatRows + [HeatTotalsRecord(data.heat)];
    }
    wb := wb + [Sheet("Heat", HeatKeys, heatRows)];
    var loadingRows := Mapped(data.loading, LoadingRecord);
    if |data.loading| > 1 {
      loadingRows := loadingRows + [LoadingTotalsRecord(data.loading)];
    }
    wb := wb + [Sheet("Loading", LoadingKeys, loadingRows)];
    var balanceRows := Mapped(data.balance, BalanceRecord);
    wb := wb + [Sheet("Balance", BalanceKeys, balanceRows)];
    assert heatRows == WithTotals(data.heat, HeatRecord, HeatTotalsRecord(data.heat));
    assert loadingRows == WithTotals(data.loading, LoadingRecord, LoadingTotalsRecord(data.loading));
    filename := projectName + "_Load_Calculations.xlsx";
  }

  /** The Heat sheet's totals row sums the Tables and Total Heat columns above it. */
  lemma HeatSheetTotals(data: ReportData)
    requires |data.heat| > 1
    ensures var rows := Workbook(data)[0].rows; var h := |data.heat|;
      CellValue(rows[h], 1) == ColumnSum(rows[..h], 1) && CellValue(rows[h], 2) == ColumnSum(rows[..h], 2)
  {
    var rows := WithTotals(data.heat, HeatRecord, HeatTotalsRecord(data.heat));
    assert Workbook(data)[0].rows == rows;
    ColumnOfMapped(data.heat, HeatRecord, HeatTables, 1);
    ColumnOfMapped(data.heat, HeatRecord, HeatWatts, 2);
  }

  /** The Loading sheet's totals row sums the Total Watts and Total Amps columns above it. */
  lemma LoadingSheetTotals(data: ReportData)
    requires |data.loading| > 1
    ensures var rows := Workbook(data)[1].rows; var l := |data.loading|;
      CellValue(rows[l], 2) == ColumnSum(rows[..l], 2) && CellValue(rows[l], 3) == ColumnSum(rows[..l], 3)
  {
    var rows := WithTotals(data.loading, LoadingRecord, LoadingTotalsRecord(data.loading));
    assert Workbook(data)[1].rows == rows;
    ColumnOfMapped(data.loading, LoadingRecord, LoadWatts, 2);
    ColumnOfMapped(data.loading, LoadingRecord, LoadAmps, 3);
  }

  /** Every sheet has one row per report row in order; only Heat and Loading get a totals row, and only past one row. */
  lemma WorkbookShape(data: ReportData)
    ensures var wb := Workbook(data);
      |wb[0].rows| == |data.heat| + (if |data.heat| > 1 then 1 else 0) &&
      |wb[1].rows| == |data.loading| + (if |data.loading| > 1 then 1 else 0) &&
      |wb[2].rows| == |data.balance| &&
      (forall i :: 0 <= i < |data.heat| ==> wb[0].rows[i] == HeatRecord(data.heat[i])) &&
      (forall i :: 0 <= i < |data.loading| ==> wb[1].rows[i] == LoadingRecord(data.loading[i])) &&
      (forall i :: 0 <= i < |data.balance| ==> wb[2].rows[i] == BalanceRecord(data.balance[i]))
  {
    var wb := Workbook(data);
    assert wb[0].rows[..|data.heat|] == Mapped(data.heat, HeatRecord);
    assert wb[1].rows[..|data.loading|] == Mapped(data.loading, LoadingRecord);
    forall i | 0 <= i < |data.heat|
      ensures wb[0].rows[i] == HeatRecord(data.heat[i])
    {
      assert wb[0].rows[i] == wb[0].rows[..|data.heat|][i];
    }
    forall i | 0 <= i < |data.loading|
      ensures wb[1].rows[i] == LoadingRecord(data.loading[i])
    {
      assert wb[1].rows[i] == wb[1].rows[..|data.loading|][i];
    }
  }

  /** The HTML and the workbook agree on every status and imbalance cell. */
  lemma HtmlAgreesWithSheet(data: ReportData)
    ensures forall r :: r in data.heat ==> HeatHtmlRow(r)[3] == HeatRecord(r)[3]
    ensures forall r :: r in data.loading ==> LoadingHtmlRow(r)[4] == LoadingRecord(r)[4]
    ensures forall r :: r in data.balance ==> (BalanceHtmlRow(r)[4] == Text("N/A") <==> BalanceRecord(r)[4] == Text("N/A"))
  {
  }
}
