// What the two import dialogs (src/components/bom/import-dialog.tsx and
// src/components/parts/parts-import-dialog.tsx) share: the wizard steps, the
// column auto-mapping by header patterns, the header-row field read with
// `parseInt`, and the preview cell lookup.

module ImportMapping {
  import opened Common
  import CsvParser

  /** The wizard steps of an import dialog. */
  datatype Step = Upload | SheetSelect | Mapping | Preview

  /** A file's contents as read from disk. */
  type Bytes = seq<bv8>

  /** `s.endsWith(suffix)`. */
  predicate EndsWith(s: string, suffix: string)
  {
    |suffix| <= |s| && s[|s| - |suffix|..] == suffix
  }

  /** The (lower-cased) file name picks the spreadsheet reader: `.xlsx` or `.xls`. */
  predicate IsExcelName(fileName: string)
  {
    EndsWith(fileName, ".xlsx") || EndsWith(fileName, ".xls")
  }

  // ---------------------------------------------------------------------
  // auto-mapping: `headerLower.findIndex(h => patterns.some(p => h.includes(p)))`
  // ---------------------------------------------------------------------

  /** Some pattern occurs in the (lower-cased) header. */
  predicate Matches(h: string, patterns: seq<string>)
  {
    exists k :: 0 <= k < |patterns| && Includes(h, patterns[k])
  }

  /** `patterns.some(p => h.includes(p))`. */
  function AnyIncluded(h: string, patterns: seq<string>): (r: bool)
    ensures r <==> Matches(h, patterns)
  {
    if patterns == [] then false
    else
      assert forall k :: 1 <= k < |patterns| ==> patterns[k] == patterns[1..][k - 1];
      Includes(h, patterns[0]) || AnyIncluded(h, patterns[1..])
  }

  /** `findIndex`: the first header some pattern occurs in, or -1. */
  function FindHeader(headers: seq<string>, patterns: seq<string>): (r: int)
    ensures -1 <= r < |headers|
    ensures r >= 0 ==> Matches(headers[r], patterns)
    ensures r >= 0 ==> forall j :: 0 <= j < r ==> !Matches(headers[j], patterns)
    ensures r == -1 ==> forall j :: 0 <= j < |headers| ==> !Matches(headers[j], patterns)
  {
    if headers == [] then -1
    else if AnyIncluded(headers[0], patterns) then 0
    else
      var k := FindHeader(headers[1..], patterns);
      assert forall j :: 1 <= j < |headers| ==> headers[j] == headers[1..][j - 1];
      if k == -1 then -1 else k + 1
  }

  /** `headers.map(h => h.toLowerCase())`. */
  function LowerHeaders(headers: seq<string>): (r: seq<string>)
    ensures |r| == |headers|
    ensures forall i :: 0 <= i < |headers| ==> r[i] == ToLower(headers[i])
  {
    seq(|headers|, i requires 0 <= i < |headers| => ToLower(headers[i]))
  }

  /** The object the forEach fills, table entry by table entry: a found index is set, -1 leaves the key out. */
  function AutoMapping<F>(headerLower: seq<string>, table: seq<(F, seq<string>)>): map<F, int>
  {
    if table == [] then map[]
    else
      var m := AutoMapping(headerLower, table[..|table| - 1]);
      var entry := table[|table| - 1];
      var idx := FindHeader(headerLower, entry.1);
      if idx != -1 then m[entry.0 := idx] else m
  }

  /** The fields of a table are listed once each. */
  ghost predicate DistinctFields<F>(table: seq<(F, seq<string>)>)
  {
    forall i, j :: 0 <= i < j < |table| ==> table[i].0 != table[j].0
  }

  /** processParsedRows' loop: `mappings.forEach(([key, patterns]) => ...)`. */
  method AutoMap<F>(headerLower: seq<string>, table: seq<(F, seq<string>)>) returns (found: map<F, int>)
    ensures found == AutoMapping(headerLower, table)
  {
    found := map[];
    var i := 0;
    while i < |table|
      invariant 0 <= i <= |table|
      invariant found == AutoMapping(headerLower, table[..i])
    {
      var key, patterns := table[i].0, table[i].1;
      var idx := FindHeader(headerLower, patterns);
      assert table[..i + 1][..i] == table[..i];
      if idx != -1 {
        found := found[key := idx];
      }
      i := i + 1;
    }
    assert table[..i] == table;
  }

  /**
   * Each listed field is mapped exactly when some header matches one of its
   * patterns, and then to the first such header; fields not listed stay
   * unmapped.
   */
  lemma {:induction false} AutoMappingFirstMatch<F>(headerLower: seq<string>, table: seq<(F, seq<string>)>)
    requires DistinctFields(table)
    ensures forall k :: 0 <= k < |table| ==>
      (table[k].0 in AutoMapping(headerLower, table) <==> FindHeader(headerLower, table[k].1) != -1)
    ensures forall k :: 0 <= k < |table| && table[k].0 in AutoMapping(headerLower, table) ==>
      AutoMapping(headerLower, table)[table[k].0] == FindHeader(headerLower, table[k].1)
    ensures forall f :: f in AutoMapping(headerLower, table) ==> exists k :: 0 <= k < |table| && table[k].0 == f
  {
    if table != [] {
      var n := |table| - 1;
      var init := table[..n];
      assert DistinctFields(init) by {
        forall i, j | 0 <= i < j < |init| ensures init[i].0 != init[j].0 {
          assert init[i] == table[i] && init[j] == table[j];
        }
      }
      AutoMappingFirstMatch(headerLower, init);
      AgreesStep(headerLower, table, AutoMapping(headerLower, init));
    }
  }

  /** `m` maps exactly the fields of `table` whose patterns some header matches, each to its first match. */
  ghost predicate Agrees<F>(headerLower: seq<string>, table: seq<(F, seq<string>)>, m: map<F, int>)
  {
    MapsFirst(headerLower, table, m) && OnlyListed(table, m)
  }

  predicate MapsFirst<F>(headerLower: seq<string>, table: seq<(F, seq<string>)>, m: map<F, int>)
  {
    forall k :: 0 <= k < |table| ==>
      (table[k].0 in m <==> FindHeader(headerLower, table[k].1) != -1) &&
      (table[k].0 in m ==> m[table[k].0] == FindHeader(headerLower, table[k].1))
  }

  ghost predicate OnlyListed<F>(table: seq<(F, seq<string>)>, m: map<F, int>)
  {
    forall f :: f in m ==> exists k :: 0 <= k < |table| && table[k].0 == f
  }

  lemma AgreesStep<F>(headerLower: seq<string>, table: seq<(F, seq<string>)>, m: map<F, int>)
    requires table != [] && DistinctFields(table) && Agrees(headerLower, table[..|table| - 1], m)
    requires m == AutoMapping(headerLower, table[..|table| - 1])
    ensures Agrees(headerLower, table, AutoMapping(headerLower, table))
  {
    var last := table[|table| - 1];
    var idx := FindHeader(headerLower, last.1);
    var full := AutoMapping(headerLower, table);
    assert full == if idx != -1 then m[last.0 := idx] else m;
    var init := table[..|table| - 1];
    forall k | 0 <= k < |init| ensures init[k].0 != last.0 {
      assert init[k] == table[k];
    }
    MapsFirstStep(headerLower, table, m, full);
    OnlyListedStep(table, m, full);
  }

  lemma MapsFirstStep<F>(headerLower: seq<string>, table: seq<(F, seq<string>)>, m: map<F, int>, full: map<F, int>)
    requires table != [] && DistinctFields(table) && MapsFirst(headerLower, table[..|table| - 1], m)
    requires table[|table| - 1].0 !in m
    requires var last := table[|table| - 1]; var idx := FindHeader(headerLower, last.1);
      full == if idx != -1 then m[last.0 := idx] else m
    ensures MapsFirst(headerLower, table, full)
  {
    var n := |table| - 1;
    var init := table[..n];
    var last := table[n];
    forall k | 0 <= k < |table|
      ensures table[k].0 in full <==> FindHeader(headerLower, table[k].1) != -1
      ensures table[k].0 in full ==> full[table[k].0] == FindHeader(headerLower, table[k].1)
    {
      if k < n {
        assert table[k] == init[k];
        assert table[k].0 != last.0;
      }
    }
  }

  lemma OnlyListedStep<F>(table: seq<(F, seq<string>)>, m: map<F, int>, full: map<F, int>)
    requires table != [] && OnlyListed(table[..|table| - 1], m)
    requires full.Keys <= m.Keys + {table[|table| - 1].0}
    ensures OnlyListed(table, full)
  {
    var n := |table| - 1;
    var init := table[..n];
    forall f | f in full ensures exists k :: 0 <= k < |table| && table[k].0 == f {
      if f != table[n].0 {
        assert f in m;
        var k :| 0 <= k < |init| && init[k].0 == f;
        assert table[k].0 == f;
      }
    }
  }

  // ---------------------------------------------------------------------
  // the header-row field
  // ---------------------------------------------------------------------

  /** The longest run of decimal digits at the start of `s`. */
  function LeadingDigits(s: string): (r: string)
    ensures |r| <= |s| && r == s[..|r|]
    ensures forall i :: 0 <= i < |r| ==> IsDigit(r[i])
    ensures |r| < |s| ==> !IsDigit(s[|r|])
  {
    if s == [] || !IsDigit(s[0]) then "" else [s[0]] + LeadingDigits(s[1..])
  }

  /**
   * `parseInt(value)` in base 10: leading white space is skipped, then an
   * optional sign and the longest run of digits; without a digit the result
   * is NaN (None).
   */
  function ParseInt(value: string): (r: Option<int>)
  {
    ParseSigned(TrimStart(value))
  }

  /** An optional sign, then the digits. */
  function ParseSigned(t: string): (r: Option<int>)
  {
    if |t| > 0 && t[0] == '-' then
      match ParseDigits(t[1..])
      case None => None
      case Some(v) => Some(-v)
    else if |t| > 0 && t[0] == '+' then ParseDigits(t[1..])
    else ParseDigits(t)
  }

  /** The value of the leading digits; None when there is none. */
  function ParseDigits(s: string): (r: Option<int>)
  {
    var digits := LeadingDigits(s);
    if digits == "" then None else Some(DigitsValue(digits) as int)
  }

  lemma {:induction false} LeadingDigitsOf(d: string, rest: string)
    requires forall i :: 0 <= i < |d| ==> IsDigit(d[i])
    requires rest == [] || !IsDigit(rest[0])
    ensures LeadingDigits(d + rest) == d
  {
    if d != [] {
      assert (d + rest)[1..] == d[1..] + rest;
      LeadingDigitsOf(d[1..], rest);
    } else {
      assert d + rest == rest;
    }
  }

  lemma ParseDigitsValue(s: string, d: string)
    requires |d| >= 1 && forall i :: 0 <= i < |d| ==> IsDigit(d[i])
    requires LeadingDigits(s) == d
    ensures ParseDigits(s) == Some(DigitsValue(d) as int)
  {
  }

  lemma TrimStartAtDigit(s: string)
    requires |s| >= 1 && IsDigit(s[0])
    ensures TrimStart(s) == s
  {
  }

  /** Text starting with a digit is read as its leading digits. */
  lemma ParseIntUnsigned(s: string)
    requires |s| >= 1 && IsDigit(s[0])
    ensures ParseInt(s) == ParseDigits(s)
  {
    TrimStartAtDigit(s);
  }

  /** A run of digits followed by a non-digit reads as its value. */
  lemma ParseIntBare(d: string, rest: string)
    requires |d| >= 1 && forall i :: 0 <= i < |d| ==> IsDigit(d[i])
    requires rest == [] || !IsDigit(rest[0])
    ensures ParseInt(d + rest) == Some(DigitsValue(d) as int)
  {
    ParseDigitsRun(d, rest);
    assert (d + rest)[0] == d[0];
    ParseIntUnsigned(d + rest);
  }

  /** A run of digits followed by a non-digit has those digits' value. */
  lemma ParseDigitsRun(d: string, rest: string)
    requires |d| >= 1 && forall i :: 0 <= i < |d| ==> IsDigit(d[i])
    requires rest == [] || !IsDigit(rest[0])
    ensures ParseDigits(d + rest) == Some(DigitsValue(d) as int)
  {
    LeadingDigitsOf(d, rest);
    ParseDigitsValue(d + rest, d);
  }

  /** A minus sign negates what the digits after it read as. */
  lemma ParseIntNegative(s: string, v: int)
    requires ParseDigits(s) == Some(v)
    ensures ParseInt("-" + s) == Some(-v)
  {
    var m := "-" + s;
    assert m[0] == '-' && m[1..] == s;
    assert TrimStart(m) == m;
  }

  /**
   * `parseInt` reads back the decimal text of any integer, and stops at the
   * first character that is not a digit ("3.5" and "1e3" read as 3 and 1).
   */
  lemma ParseIntReadsDecimal(n: int, rest: string)
    requires rest == [] || !IsDigit(rest[0])
    ensures ParseInt(IntToString(n) + rest) == Some(n)
  {
    if n < 0 {
      ParseDigitsRun(NatToString(-n), rest);
      NatToStringRoundTrip(-n);
      ParseIntNegative(NatToString(-n) + rest, -n);
      SeqAssoc("-", NatToString(-n), rest);
    } else {
      ParseIntBare(NatToString(n), rest);
      NatToStringRoundTrip(n);
    }
  }

  /** A text with no digit after the white space and sign is NaN. */
  lemma ParseIntNaN(value: string)
    requires forall i :: 0 <= i < |value| ==> !IsDigit(value[i])
    ensures ParseInt(value) == None
  {
    var t := TrimStart(value);
    assert forall i :: 0 <= i < |t| ==> t[i] == value[|value| - |t| + i];
    if |t| > 0 && (t[0] == '-' || t[0] == '+') {
      assert |t[1..]| == 0 || t[1..][0] == t[1];
    }
  }

  /** handleHeaderRowChange: NaN and values below 1 keep the current row. */
  function AcceptHeaderRow(current: int, value: string): (r: int)
    ensures ParseInt(value).Some? && ParseInt(value).value >= 1 ==> r == ParseInt(value).value
    ensures !(ParseInt(value).Some? && ParseInt(value).value >= 1) ==> r == current
    ensures current >= 1 ==> r >= 1
  {
    var row := ParseInt(value);
    if row.None? || row.value < 1 then current else row.value
  }

  /** Typing the decimal text of a row number sets it when it is at least 1, and is ignored otherwise. */
  lemma HeaderRowTyped(current: int, n: int)
    ensures AcceptHeaderRow(current, IntToString(n)) == (if n >= 1 then n else current)
  {
    ParseIntReadsDecimal(n, "");
    assert IntToString(n) + "" == IntToString(n);
  }

  // ---------------------------------------------------------------------
  // preview
  // ---------------------------------------------------------------------

  /** getPreviewValue: the cell under the mapped column's header; '' when unmapped, out of range or missing. */
  function PreviewValue(headers: seq<string>, row: Record<string>, idx: Option<int>): (r: string)
    ensures idx.None? ==> r == ""
    ensures idx.Some? && !(0 <= idx.value < |headers|) ==> r == ""
    ensures idx.Some? && 0 <= idx.value < |headers| && headers[idx.value] == "" ==> r == ""
    ensures idx.Some? && 0 <= idx.value < |headers| && headers[idx.value] !in Keys(row) ==> r == ""
  {
    if idx.None? || !(0 <= idx.value < |headers|) then ""
    else
      var header := headers[idx.value];
      if header == "" then ""
      else
        match Get(row, header)
        case None => ""
        case Some(v) => v
  }

  /**
   * For a row parsed from CSV text whose header fields are distinct, the
   * preview of a mapped column with a non-empty header is that row's field
   * in the column ('' past the end of a short line).
   */
  lemma PreviewOfParsedCsv(text: string, k: nat, i: nat)
    requires CsvParser.Distinct(CsvParser.ParseLine(CsvParser.HeaderLine(text)))
    requires k < |CsvParser.DataLines(text)|
    requires i < |CsvParser.ParseLine(CsvParser.HeaderLine(text))|
    requires CsvParser.ParseLine(CsvParser.HeaderLine(text))[i] != ""
    ensures var rows := CsvParser.ParseCsv(text);
      PreviewValue(CsvParser.GetCsvHeaders(rows), rows[k], Some(i)) ==
        CsvParser.ValueAt(CsvParser.ParseLine(CsvParser.DataLines(text)[k]), i)
  {
    var headers := CsvParser.ParseLine(CsvParser.HeaderLine(text));
    var values := CsvParser.ParseLine(CsvParser.DataLines(text)[k]);
    var rows := CsvParser.ParseCsv(text);
    CsvParser.HeadersOfParsed(text);
    assert rows[k] == CsvParser.RowOf(headers, values);
    CsvParser.RowValues(headers, values, i);
    PreviewOfRow(headers, rows[k], i, CsvParser.ValueAt(values, i));
  }

  /** The preview of a mapped column is the row's value under that column's non-empty header. */
  lemma PreviewOfRow(headers: seq<string>, row: Record<string>, i: nat, v: string)
    requires i < |headers| && headers[i] != ""
    requires Get(row, headers[i]) == Some(v)
    ensures PreviewValue(headers, row, Some(i)) == v
  {
  }
}
