// Matching of imported spreadsheet rows against the parts catalogue
// (src/lib/load-calc/matching.ts).  The catalogue that `parts.getAll()`
// returns is an input; a failing lookup is the `Err` case of that input.

module Matching {
  import opened Common

  datatype MatchingConfig = MatchingConfig(normalizeWhitespace: bool, normalizeCase: bool, matchThreshold: real)

  datatype MatchState = Matched | Unmatched | Manual | Skipped

  datatype ManualEntry = ManualEntry(
    partNumber: string, manufacturer: string, voltage: real, current: real, power: real, description: string)

  datatype MatchResult = MatchResult(
    rowIndex: int,
    partId: Option<int>,
    confidence: real,
    state: MatchState,
    matchedPartNumber: Option<string>,
    matchedManufacturer: Option<string>,
    manualEntry: Option<ManualEntry>)

  /** The catalogue columns the matcher reads. */
  datatype CataloguePart = CataloguePart(id: int, part_number: string, manufacturer_name: string)

  datatype ExactMatch = ExactMatch(
    partId: Option<int>, confidence: real, matchedPartNumber: Option<string>, matchedManufacturer: Option<string>)

  const NoMatch := ExactMatch(None, 0.0, None, None)

  /** Normalisation of one catalogue or row string; `None` is null/undefined. */
  function NormalizeString(value: Option<string>, config: MatchingConfig): (r: string)
    ensures value.None? || value == Some("") ==> r == ""
    ensures !config.normalizeWhitespace && !config.normalizeCase && value.Some? ==> r == value.value
    ensures config.normalizeWhitespace ==> Collapsed(r)
    ensures config.normalizeCase ==> NoUpper(r)
  {
    if value.None? || value.value == "" then ""
    else
      var s := if config.normalizeWhitespace then NormalizeWhitespace(value.value) else value.value;
      if config.normalizeCase then
        ToLowerIsLower(s);
        assert config.normalizeWhitespace ==> Collapsed(ToLower(s)) by {
          if config.normalizeWhitespace { LowerKeepsCollapsed(s); }
        }
        ToLower(s)
      else s
  }

  /** For a fixed configuration, normalising twice is normalising once. */
  lemma NormalizeIdempotent(value: Option<string>, config: MatchingConfig)
    ensures NormalizeString(Some(NormalizeString(value, config)), config) == NormalizeString(value, config)
  {
    var r := NormalizeString(value, config);
    if r != "" {
      var s := if config.normalizeWhitespace then NormalizeWhitespace(r) else r;
      assert NormalizeString(Some(r), config) == if config.normalizeCase then ToLower(s) else s;
      if config.normalizeWhitespace { NormalizeWhitespaceFixed(r); }
      assert s == r;
      if config.normalizeCase {
        assert r == ToLower(if config.normalizeWhitespace then NormalizeWhitespace(value.value) else value.value);
        ToLowerIsLower(if config.normalizeWhitespace then NormalizeWhitespace(value.value) else value.value);
      }
    }
  }

  /** `row[field]`, where a missing key reads as `undefined`. */
  function Cell(row: Record<JsValue>, field: string): JsValue
  {
    match Get(row, field)
    case None => Undefined
    case Some(v) => v
  }

  /** A manufacturer argument counts only when truthy. */
  predicate Given(s: Option<string>) { s.Some? && s.value != "" }

  function ExtractManufacturerAndPart(row: Record<JsValue>, partNumberField: string, manufacturerField: Option<string>)
    : (r: (string, Option<string>))
    ensures r.0 == "" <==> !Truthy(Cell(row, partNumberField))
    ensures Cell(row, partNumberField).Str? ==> r.0 == Cell(row, partNumberField).s
    ensures r.1.None? <==> !Given(manufacturerField) || !Truthy(Cell(row, manufacturerField.value))
    ensures r.1.Some? ==> r.1.value != ""
  {
    var pn := Cell(row, partNumberField);
    var mf := if Given(manufacturerField) then Cell(row, manufacturerField.value) else Undefined;
    assert Truthy(pn) ==> JsString(pn) != "" by {
      if pn.Num? && pn.n.Floor as real != pn.n {
        assert pn.n < 0.0 ==> JsString(pn)[0] == '-';
      }
    }
    assert Truthy(mf) ==> JsString(mf) != "" by {
      if mf.Num? && mf.n.Floor as real != mf.n {
        assert mf.n < 0.0 ==> JsString(mf)[0] == '-';
      }
    }
    (if Truthy(pn) then JsString(pn) else "", if Truthy(mf) then Some(JsString(mf)) else None)
  }

  predicate PartNumberMatches(p: CataloguePart, npn: string, config: MatchingConfig)
  {
    NormalizeString(Some(p.part_number), config) == npn
  }

  predicate BothMatch(p: CataloguePart, npn: string, nm: string, config: MatchingConfig)
  {
    PartNumberMatches(p, npn, config) && NormalizeString(Some(p.manufacturer_name), config) == nm
  }

  /** Index of the first catalogue entry satisfying `f`. */
  function FirstWhere(parts: seq<CataloguePart>, f: CataloguePart -> bool): (r: Option<nat>)
    ensures r.Some? ==> r.value < |parts| && f(parts[r.value])
    ensures r.Some? ==> forall j :: 0 <= j < r.value ==> !f(parts[j])
    ensures r.None? ==> forall j :: 0 <= j < |parts| ==> !f(parts[j])
  {
    if parts == [] then None
    else if f(parts[0]) then Some(0)
    else
      var t := FirstWhere(parts[1..], f);
      if t.None? then None else Some(t.value + 1)
  }

  function Found(p: CataloguePart, confidence: real): ExactMatch
  {
    ExactMatch(Some(p.id), confidence, Some(p.part_number), Some(p.manufacturer_name))
  }

  /** What findExactMatch resolves to, as a function of its inputs. */
  function ExactMatchOf(partNumber: string, config: MatchingConfig, manufacturer: Option<string>,
                        catalogue: Result<seq<CataloguePart>>): ExactMatch
  {
    if partNumber == "" || catalogue.Err? then NoMatch
    else
      var parts := catalogue.value;
      var npn := NormalizeString(Some(partNumber), config);
      var both := if Given(manufacturer) then
                    var nm := NormalizeString(manufacturer, config);
                    FirstWhere(parts, p => BothMatch(p, npn, nm, config))
                  else None;
      if both.Some? then Found(parts[both.value], 1.0)
      else
        var byNumber := FirstWhere(parts, p => PartNumberMatches(p, npn, config));
        if byNumber.Some? then Found(parts[byNumber.value], if Given(manufacturer) then 0.8 else 1.0)
        else NoMatch
  }

  /**
   * With a manufacturer given, the first entry matching both the part number
   * and the manufacturer wins with confidence 1.
   */
  lemma ExactMatchFirstBoth(partNumber: string, config: MatchingConfig, manufacturer: Option<string>,
                            parts: seq<CataloguePart>, k: nat)
    requires partNumber != "" && k < |parts| && Given(manufacturer)
    requires BothMatch(parts[k], NormalizeString(Some(partNumber), config), NormalizeString(manufacturer, config), config)
    requires forall j :: 0 <= j < k ==>
               !BothMatch(parts[j], NormalizeString(Some(partNumber), config), NormalizeString(manufacturer, config), config)
    ensures ExactMatchOf(partNumber, config, manufacturer, Ok(parts)) == Found(parts[k], 1.0)
  {
    var npn := NormalizeString(Some(partNumber), config);
    var nm := NormalizeString(manufacturer, config);
    var both := FirstWhere(parts, p => BothMatch(p, npn, nm, config));
    assert both.Some?;
    assert !(both.value < k) && !(both.value > k);
  }

  /**
   * Otherwise the first entry matching the part number wins, with confidence
   * 0.8 when a manufacturer was given and 1 when not.
   */
  lemma ExactMatchFirstNumber(partNumber: string, config: MatchingConfig, manufacturer: Option<string>,
                              parts: seq<CataloguePart>, k: nat)
    requires partNumber != "" && k < |parts|
    requires Given(manufacturer) ==> forall j :: 0 <= j < |parts| ==>
               !BothMatch(parts[j], NormalizeString(Some(partNumber), config), NormalizeString(manufacturer, config), config)
    requires PartNumberMatches(parts[k], NormalizeString(Some(partNumber), config), config)
    requires forall j :: 0 <= j < k ==> !PartNumberMatches(parts[j], NormalizeString(Some(partNumber), config), config)
    ensures ExactMatchOf(partNumber, config, manufacturer, Ok(parts))
            == Found(parts[k], if Given(manufacturer) then 0.8 else 1.0)
  {
    var npn := NormalizeString(Some(partNumber), config);
    var nm := NormalizeString(manufacturer, config);
    var both := FirstWhere(parts, p => BothMatch(p, npn, nm, config));
    var byNumber := FirstWhere(parts, p => PartNumberMatches(p, npn, config));
    assert Given(manufacturer) ==> both.None?;
    assert byNumber.Some?;
    assert !(byNumber.value < k) && !(byNumber.value > k);
  }

  /** No match whatsoever yields `{partId: null, confidence: 0}`. */
  lemma NoMatchWhenNothingMatches(partNumber: string, config: MatchingConfig, manufacturer: Option<string>,
                                  parts: seq<CataloguePart>)
    requires forall j :: 0 <= j < |parts| ==> !PartNumberMatches(parts[j], NormalizeString(Some(partNumber), config), config)
    ensures ExactMatchOf(partNumber, config, manufacturer, Ok(parts)) == NoMatch
  {
  }

  /** The two early-return scans of findExactMatch. */
  method FindExactMatch(partNumber: string, config: MatchingConfig, manufacturer: Option<string>,
                        catalogue: Result<seq<CataloguePart>>) returns (m: ExactMatch)
    ensures m == ExactMatchOf(partNumber, config, manufacturer, catalogue)
    ensures m.partId.None? <==> m.confidence == 0.0
    ensures m.confidence in {0.0, 0.8, 1.0}
  {
    if partNumber == "" {
      return NoMatch;
    }
    var npn := NormalizeString(Some(partNumber), config);
    if catalogue.Err? {
      return NoMatch;
    }
    var parts := catalogue.value;
    if Given(manufacturer) {
      var nm := NormalizeString(manufacturer, config);
      var i := 0;
      while i < |parts|
        invariant 0 <= i <= |parts|
        invariant forall j :: 0 <= j < i ==> !BothMatch(parts[j], npn, nm, config)
      {
        if BothMatch(parts[i], npn, nm, config) {
          ExactMatchFirstBoth(partNumber, config, manufacturer, parts, i);
          return Found(parts[i], 1.0);
        }
        i := i + 1;
      }
    }
    var i := 0;
    while i < |parts|
      invariant 0 <= i <= |parts|
      invariant forall j :: 0 <= j < i ==> !PartNumberMatches(parts[j], npn, config)
    {
      if PartNumberMatches(parts[i], npn, config) {
        ExactMatchFirstNumber(partNumber, config, manufacturer, parts, i);
        return Found(parts[i], if Given(manufacturer) then 0.8 else 1.0);
      }
      i := i + 1;
    }
    return NoMatch;
  }

  /** `x || null` for an optional string. */
  function OrNull(s: Option<string>): Option<string>
  {
    if s.Some? && s.value != "" then s else None
  }

  /** matchRow: one result for one row. */
  function MatchRow(row: Record<JsValue>, rowIndex: int, partNumberField: string, manufacturerField: Option<string>,
                    config: MatchingConfig, catalogue: Result<seq<CataloguePart>>): (r: MatchResult)
    ensures r.rowIndex == rowIndex
    ensures r.state == Matched || r.state == Unmatched
    ensures r.state == Matched <==> r.confidence >= config.matchThreshold && Truthy(Cell(row, partNumberField))
    ensures !Truthy(Cell(row, partNumberField)) ==>
              r == MatchResult(rowIndex, None, 0.0, Unmatched, None, None, None)
    ensures r.manualEntry.None?
  {
    var (pn, mf) := ExtractManufacturerAndPart(row, partNumberField, manufacturerField);
    if pn == "" then MatchResult(rowIndex, None, 0.0, Unmatched, None, None, None)
    else
      var m := ExactMatchOf(pn, config, mf, catalogue);
      MatchResult(rowIndex, m.partId, m.confidence,
                  if m.confidence >= config.matchThreshold then Matched else Unmatched,
                  OrNull(m.matchedPartNumber), OrNull(m.matchedManufacturer), None)
  }

  const BatchSize: nat := 50

  /** The progress reports matchAllRows makes for `n` rows. */
  function ProgressReports(n: nat, from: nat): (r: seq<(nat, nat)>)
    decreases if from < n then n - from else 0
  {
    if from >= n then [] else [(if from + BatchSize < n then from + BatchSize else n, n)] + ProgressReports(n, from + BatchSize)
  }

  lemma {:induction false} ProgressReportsShape(n: nat, from: nat)
    requires from % BatchSize == 0
    ensures |ProgressReports(n, from)| == if from >= n then 0 else (n - from + BatchSize - 1) / BatchSize
    ensures forall k :: 0 <= k < |ProgressReports(n, from)| ==>
              ProgressReports(n, from)[k] == (if from + (k + 1) * BatchSize < n then from + (k + 1) * BatchSize else n, n)
    decreases if from < n then n - from else 0
  {
    if from < n {
      ProgressReportsShape(n, from + BatchSize);
    }
  }

  /** One result per row, in row order. */
  /** `matchRow` with its configuration fixed, as a function of row and index. */
  function Matcher(partNumberField: string, manufacturerField: Option<string>, config: MatchingConfig,
                   catalogue: Result<seq<CataloguePart>>): (Record<JsValue>, nat) -> MatchResult
  {
    (row, i) => MatchRow(row, i, partNumberField, manufacturerField, config, catalogue)
  }

  /** `rows.slice(start, end).map((row, j) => f(row, start + j))`. */
  function MapRows(rows: seq<Record<JsValue>>, start: nat, end: nat, f: (Record<JsValue>, nat) -> MatchResult)
    : (r: seq<MatchResult>)
    requires start <= end <= |rows|
    ensures |r| == end - start
    ensures forall j :: 0 <= j < end - start ==> r[j] == f(rows[start + j], start + j)
  {
    seq(end - start, j requires 0 <= j < end - start => f(rows[start + j], start + j))
  }

  /** A batch is the matching slice of the whole mapping. */
  lemma MapRowsSlice(rows: seq<Record<JsValue>>, start: nat, end: nat, f: (Record<JsValue>, nat) -> MatchResult)
    requires start <= end <= |rows|
    ensures MapRows(rows, start, end, f) == MapRows(rows, 0, |rows|, f)[start..end]
  {
    var all := MapRows(rows, 0, |rows|, f);
    forall j | 0 <= j < end - start
      ensures MapRows(rows, start, end, f)[j] == all[start..end][j]
    {
      assert all[start..end][j] == all[start + j];
    }
  }

  /** Every row matched in order, `rowIndex` being its position. */
  function MatchEach(rows: seq<Record<JsValue>>, partNumberField: string, manufacturerField: Option<string>,
                     config: MatchingConfig, catalogue: Result<seq<CataloguePart>>): (r: seq<MatchResult>)
    ensures |r| == |rows|
    ensures forall i :: 0 <= i < |rows| ==>
              r[i] == MatchRow(rows[i], i, partNumberField, manufacturerField, config, catalogue)
    ensures forall i :: 0 <= i < |rows| ==> r[i].rowIndex == i
  {
    MapRows(rows, 0, |rows|, Matcher(partNumberField, manufacturerField, config, catalogue))
  }

  /**
   * matchAllRows: rows are matched in batches of 50 and a progress report
   * `(processed, total)` follows each batch; the callback is modelled by
   * returning the reports in the order they are made.
   */
  method MatchAllRows(rows: seq<Record<JsValue>>, partNumberField: string, manufacturerField: Option<string>,
                      config: MatchingConfig, catalogue: Result<seq<CataloguePart>>)
    returns (results: seq<MatchResult>, progress: seq<(nat, nat)>)
    ensures results == MatchEach(rows, partNumberField, manufacturerField, config, catalogue)
    ensures progress == ProgressReports(|rows|, 0)
  {
    var f := Matcher(partNumberField, manufacturerField, config, catalogue);
    ghost var all := MapRows(rows, 0, |rows|, f);
    results := [];
    progress := [];
    var i := 0;
    while i < |rows|
      invariant i <= |rows| ==> results == all[..i]
      invariant i > |rows| ==> results == all
      invariant progress + ProgressReports(|rows|, i) == ProgressReports(|rows|, 0)
      decreases |rows| - i
    {
      var end := if i + BatchSize < |rows| then i + BatchSize else |rows|;
      var batch := MapRows(rows, i, end, f);
      MapRowsSlice(rows, i, end, f);
      assert all[..i] + all[i..end] == all[..end];
      results := results + batch;
      progress := progress + [(end, |rows|)];
      i := i + BatchSize;
    }
    assert results == MatchEach(rows, partNumberField, manufacturerField, config, catalogue);
  }

  /** updateMatchResultWithManualEntry. */
  function UpdateWithManualEntry(existing: MatchResult, entry: ManualEntry): (r: MatchResult)
    ensures r.state == Manual && r.confidence == 0.5 && r.partId.None? && r.manualEntry == Some(entry)
    ensures r.rowIndex == existing.rowIndex
    ensures r.matchedPartNumber == existing.matchedPartNumber
    ensures r.matchedManufacturer == existing.matchedManufacturer
  {
    existing.(state := Manual, manualEntry := Some(entry), confidence := 0.5, partId := None)
  }

  /** skipMatchResult. */
  function Skip(existing: MatchResult): (r: MatchResult)
    ensures r.state == Skipped && r.confidence == 0.0
    ensures r.rowIndex == existing.rowIndex && r.partId == existing.partId
    ensures r.matchedPartNumber == existing.matchedPartNumber
    ensures r.matchedManufacturer == existing.matchedManufacturer
    ensures r.manualEntry == existing.manualEntry
  {
    existing.(state := Skipped, confidence := 0.0)
  }
}
