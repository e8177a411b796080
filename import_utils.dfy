// Quantity and price extraction from free text, and the mapping of
// imported rows to BOM items (src/lib/import-utils.ts).
//
// Both parsers look for the first number in the trimmed text with the
// pattern `\d{1,3}(,\d{3})*(\.\d+)?|\d+(\.\d+)?|\.\d+`, drop its commas
// and read it with parseFloat. A regular expression tries its
// alternatives in order at the leftmost position where any of them
// matches, so the lexeme is computed here position by position.

module ImportUtils {
  import opened Common
  import opened BomTypes

  // ---------------------------------------------------------------------
  // Lexing the first number
  // ---------------------------------------------------------------------

  /** Length of the run of digits starting at `i`. */
  function DigitRun(s: string, i: nat): (n: nat)
    requires i <= |s|
    ensures i + n <= |s|
    ensures forall k :: i <= k < i + n ==> IsDigit(s[k])
    ensures i + n == |s| || !IsDigit(s[i + n])
    decreases |s| - i
  {
    if i < |s| && IsDigit(s[i]) then 1 + DigitRun(s, i + 1) else 0
  }

  /** Some alternative of the pattern matches at `p`: a digit, or a point before a digit. */
  predicate StartsNumber(s: string, p: nat)
    requires p < |s|
  {
    IsDigit(s[p]) || (s[p] == '.' && p + 1 < |s| && IsDigit(s[p + 1]))
  }

  /** The leftmost position at or after `p` where the pattern matches. */
  function FirstStart(s: string, p: nat): (r: Option<nat>)
    requires p <= |s|
    ensures r.None? ==> forall k :: p <= k < |s| ==> !StartsNumber(s, k)
    ensures r.Some? ==> p <= r.value < |s| && StartsNumber(s, r.value)
    ensures r.Some? ==> forall k :: p <= k < r.value ==> !StartsNumber(s, k)
    decreases |s| - p
  {
    if p == |s| then None
    else if StartsNumber(s, p) then Some(p)
    else FirstStart(s, p + 1)
  }

  /** `(,\d{3})*`, greedy: the end of the comma groups starting at `q`. */
  function Groups(s: string, q: nat): (r: nat)
    requires q <= |s|
    ensures q <= r <= |s|
    decreases |s| - q
  {
    if q + 4 <= |s| && s[q] == ',' && IsDigit(s[q + 1]) && IsDigit(s[q + 2]) && IsDigit(s[q + 3])
    then Groups(s, q + 4)
    else q
  }

  /** `(\.\d+)?`, greedy: the end of the optional fraction starting at `q`. */
  function Fraction(s: string, q: nat): (r: nat)
    requires q <= |s|
    ensures q <= r <= |s|
  {
    if q + 1 < |s| && s[q] == '.' && IsDigit(s[q + 1]) then q + 1 + DigitRun(s, q + 1) else q
  }

  /**
   * End of the match at `p` as written: the first alternative takes at
   * most three leading digits, and it always succeeds on a digit, so the
   * second alternative is never reached.
   */
  function LexemeEnd(s: string, p: nat): (e: nat)
    requires p < |s| && StartsNumber(s, p)
    ensures p < e <= |s|
  {
    if IsDigit(s[p]) then
      var lead := if DigitRun(s, p) < 3 then DigitRun(s, p) else 3;
      Fraction(s, Groups(s, p + lead))
    else Fraction(s, p)
  }

  /** End of the match at `p` when the integer part takes every leading digit. */
  function LexemeEndIntended(s: string, p: nat): (e: nat)
    requires p < |s| && StartsNumber(s, p)
    ensures p < e <= |s|
  {
    if IsDigit(s[p]) then Fraction(s, Groups(s, p + DigitRun(s, p))) else Fraction(s, p)
  }

  /** `replace(/,/g, '')`. */
  function RemoveCommas(s: string): (r: string)
    ensures |r| <= |s|
    ensures Lacks(r, ',')
    ensures Lacks(s, ',') ==> r == s
  {
    if s == [] then []
    else if s[0] == ',' then RemoveCommas(s[1..])
    else [s[0]] + RemoveCommas(s[1..])
  }

  // ---------------------------------------------------------------------
  // parseFloat on an unsigned decimal
  // ---------------------------------------------------------------------

  /** Value of the digits after the decimal point: 0.d1 d2 d3 ... */
  function FracValue(d: string): (r: real)
    requires forall i :: 0 <= i < |d| ==> IsDigit(d[i])
    ensures 0.0 <= r <= 1.0
  {
    if d == [] then 0.0 else (DigitValue(d[0]) as real + FracValue(d[1..])) / 10.0
  }

  /**
   * `parseFloat` on text that starts with digits or a point (no sign, no
   * exponent): the longest `\d*(\.\d*)?` prefix, or NaN (None) when it
   * holds no digit.
   */
  function ParseFloat(t: string): (r: Option<real>)
    ensures r.Some? ==> r.value >= 0.0
    ensures r.None? <==> !(StartsNumberText(t))
  {
    var n := DigitRun(t, 0);
    var f := if n < |t| && t[n] == '.' then DigitRun(t, n + 1) else 0;
    if n == 0 && f == 0 then None
    else Some(DigitsValue(t[..n]) as real + (if f > 0 then FracValue(t[n + 1..n + 1 + f]) else 0.0))
  }

  /** The text begins with a digit, or with a point followed by a digit. */
  predicate StartsNumberText(t: string)
  {
    t != [] && StartsNumber(t, 0)
  }

  /** The first number of `clean` as the code reads it, or None when it has none. */
  function FirstNumber(clean: string): (r: Option<real>)
    ensures r.Some? ==> r.value >= 0.0
    ensures (forall i :: 0 <= i < |clean| ==> !IsDigit(clean[i])) ==> r.None?
  {
    match FirstStart(clean, 0)
    case None => None
    case Some(p) => ParseFloat(RemoveCommas(clean[p..LexemeEnd(clean, p)]))
  }

  /** The first number of `clean`, reading every leading digit of its integer part. */
  function FirstNumberIntended(clean: string): (r: Option<real>)
    ensures r.Some? ==> r.value >= 0.0
    ensures (forall i :: 0 <= i < |clean| ==> !IsDigit(clean[i])) ==> r.None?
  {
    match FirstStart(clean, 0)
    case None => None
    case Some(p) => ParseFloat(RemoveCommas(clean[p..LexemeEndIntended(clean, p)]))
  }

  predicate NoDigit(s: string)
  {
    forall i :: 0 <= i < |s| ==> !IsDigit(s[i])
  }

  lemma TrimNoDigit(s: string)
    ensures NoDigit(s) ==> NoDigit(Trim(s))
  {
    var a := TrimIsSlice(s);
    forall i | 0 <= i < |Trim(s)| && NoDigit(s) ensures !IsDigit(Trim(s)[i]) {
      assert Trim(s)[i] == s[a + i];
    }
  }

  // ---------------------------------------------------------------------
  // parseQuantity and parseCurrency
  // ---------------------------------------------------------------------

  /** parseQuantity as written: the first number, or 1 when there is none. */
  function ParseQuantityAsWritten(value: string): (q: real)
    ensures q >= 0.0
    ensures Trim(value) == [] ==> q == 1.0
    ensures NoDigit(value) ==> q == 1.0
  {
    TrimNoDigit(value);
    var clean := Trim(value);
    if clean == [] then 1.0
    else match FirstNumber(clean)
      case None => 1.0
      case Some(x) => x
  }

  /** parseQuantity, with the integer part read in full. */
  function ParseQuantity(value: string): (q: real)
    ensures q >= 0.0
    ensures Trim(value) == [] ==> q == 1.0
    ensures NoDigit(value) ==> q == 1.0
  {
    TrimNoDigit(value);
    var clean := Trim(value);
    if clean == [] then 1.0
    else match FirstNumberIntended(clean)
      case None => 1.0
      case Some(x) => x
  }

  /** parseCurrency as written: the first number, or null when there is none. */
  function ParseCurrencyAsWritten(value: string): (r: Option<real>)
    ensures r.Some? ==> r.value >= 0.0
    ensures Trim(value) == [] ==> r.None?
    ensures NoDigit(value) ==> r.None?
    ensures r == FirstNumber(Trim(value))
  {
    TrimNoDigit(value);
    FirstNumber(Trim(value))
  }

  /** parseCurrency, with the integer part read in full. */
  function ParseCurrency(value: string): (r: Option<real>)
    ensures r.Some? ==> r.value >= 0.0
    ensures Trim(value) == [] ==> r.None?
    ensures NoDigit(value) ==> r.None?
  {
    TrimNoDigit(value);
    FirstNumberIntended(Trim(value))
  }

  /** Quantity and price read the same number whenever there is one. */
  lemma QuantityIsCurrency(value: string)
    ensures ParseCurrency(value).Some? ==> ParseQuantity(value) == ParseCurrency(value).value
    ensures ParseCurrency(value).None? ==> ParseQuantity(value) == 1.0
  {
  }

  // ---------------------------------------------------------------------
  // Worked values
  // ---------------------------------------------------------------------

  predicate AllDigits(s: string)
  {
    forall k :: 0 <= k < |s| ==> IsDigit(s[k])
  }

  /** A digit run fills the rest of an all-digit string. */
  lemma DigitRunAll(s: string, i: nat)
    requires i <= |s| && AllDigits(s)
    ensures DigitRun(s, i) == |s| - i
  {
  }

  /** parseFloat reads an all-digit string as its decimal value. */
  lemma ParseFloatDigits(s: string)
    requires s != [] && AllDigits(s)
    ensures ParseFloat(s) == Some(DigitsValue(s) as real)
  {
    DigitRunAll(s, 0);
    assert s[..|s|] == s;
  }

  /** On an all-digit string the intended match is the whole string. */
  lemma IntendedLexemeOfDigits(s: string)
    requires s != [] && AllDigits(s)
    ensures FirstStart(s, 0) == Some(0)
    ensures LexemeEndIntended(s, 0) == |s|
  {
    assert StartsNumber(s, 0);
    DigitRunAll(s, 0);
  }

  /** On an all-digit string the match as written stops after three digits. */
  lemma LexemeOfDigits(s: string)
    requires s != [] && AllDigits(s)
    ensures FirstStart(s, 0) == Some(0)
    ensures LexemeEnd(s, 0) == if |s| < 3 then |s| else 3
  {
    assert StartsNumber(s, 0);
    DigitRunAll(s, 0);
  }

  /** The first number of an all-digit string, as written and as intended. */
  lemma FirstNumberOfDigits(s: string)
    requires s != [] && AllDigits(s)
    ensures FirstNumberIntended(s) == Some(DigitsValue(s) as real)
    ensures var e := if |s| < 3 then |s| else 3;
            FirstNumber(s) == Some(DigitsValue(s[..e]) as real)
  {
    IntendedLexemeOfDigits(s);
    assert s[0..|s|] == s;
    assert RemoveCommas(s) == s;
    ParseFloatDigits(s);
    LexemeOfDigits(s);
    var e := if |s| < 3 then |s| else 3;
    var t := s[0..e];
    assert RemoveCommas(t) == t;
    ParseFloatDigits(t);
    assert s[..e] == t;
  }

  /** Digits are not whitespace, so a numeral is its own trim. */
  lemma TrimDigits(s: string)
    requires AllDigits(s)
    ensures Trim(s) == s
  {
    assert NoEdgeSpace(s);
  }

  /** An all-digit quantity reads as its decimal value (as written: its first three digits). */
  lemma ParseQuantityOfDigits(s: string)
    requires s != [] && AllDigits(s)
    ensures ParseQuantity(s) == DigitsValue(s) as real
    ensures ParseCurrency(s) == Some(DigitsValue(s) as real)
    ensures ParseQuantityAsWritten(s) == DigitsValue(s[..if |s| < 3 then |s| else 3]) as real
  {
    TrimDigits(s);
    FirstNumberOfDigits(s);
    assert s[..|s|] == s;
  }

  /**
   * With the integer part read in full, a plain decimal numeral reads
   * back as its value: `parseQuantity(String(n)) == n`.
   */
  lemma ParseQuantityOfNumeral(n: nat)
    ensures ParseQuantity(NatToString(n)) == n as real
    ensures ParseCurrency(NatToString(n)) == Some(n as real)
  {
    ParseQuantityOfDigits(NatToString(n));
    NatToStringRoundTrip(n);
  }

  /**
   * As written, the first alternative stops after three digits, so a
   * four-digit quantity without a separator loses its last digit.
   */
  lemma QuantityFourDigitsAsWritten()
    ensures ParseQuantityAsWritten("1234") == 123.0
    ensures ParseQuantity("1234") == 1234.0
  {
    assert AllDigits("1234");
    ParseQuantityOfDigits("1234");
    ValueOf1234();
    ValueOf123();
  }

  lemma ValueOf123()
    ensures DigitsValue("123") == 123
  {
    assert "123"[..2] == "12" && "12"[..1] == "1";
  }

  lemma ValueOf1234()
    ensures DigitsValue("1234") == 1234
    ensures "1234"[..3] == "123"
  {
    assert "1234"[..3] == "123";
    ValueOf123();
  }

  /** "10 EA" reads as 10: the unit after the number is ignored. */
  lemma QuantityWithUnit()
    ensures ParseQuantity("10 EA") == 10.0
    ensures ParseQuantityAsWritten("10 EA") == 10.0
  {
    var s := "10 EA";
    assert NoEdgeSpace(s);
    QuantityOfClean(s);
    UnitLexeme();
    NumberAtStart(s);
    UnitValue();
  }

  lemma UnitLexeme()
    ensures FirstStart("10 EA", 0) == Some(0)
    ensures LexemeEnd("10 EA", 0) == 2 && LexemeEndIntended("10 EA", 0) == 2
  {
    var s := "10 EA";
    assert StartsNumber(s, 0);
    assert DigitRun(s, 0) == 2 by { assert DigitRun(s, 2) == 0; }
    assert Groups(s, 2) == 2;
    assert Fraction(s, 2) == 2;
  }

  lemma UnitValue()
    ensures "10 EA"[0..2] == "10"
    ensures ParseFloat(RemoveCommas("10")) == Some(10.0)
  {
    assert "10 EA"[0..2] == "10";
    assert RemoveCommas("10") == "10";
    assert AllDigits("10");
    ParseFloatDigits("10");
    assert "10"[..1] == "1";
  }

  /** "1,200" reads as 1200: the thousands separator is dropped. */
  lemma QuantityWithSeparator()
    ensures ParseQuantity("1,200") == 1200.0
    ensures ParseQuantityAsWritten("1,200") == 1200.0
  {
    var s := "1,200";
    assert NoEdgeSpace(s);
    QuantityOfClean(s);
    SeparatedLexeme();
    NumberAtStart(s);
    assert s[0..5] == s;
    SeparatedValue();
  }

  /** A number that starts the text is read from its lexeme. */
  lemma NumberAtStart(s: string)
    requires s != [] && FirstStart(s, 0) == Some(0)
    ensures FirstNumberIntended(s) == ParseFloat(RemoveCommas(s[0..LexemeEndIntended(s, 0)]))
    ensures FirstNumber(s) == ParseFloat(RemoveCommas(s[0..LexemeEnd(s, 0)]))
  {
  }

  /** On text without edge whitespace, a found number is the quantity. */
  lemma QuantityOfClean(s: string)
    requires s != [] && NoEdgeSpace(s)
    ensures FirstNumberIntended(s).Some? ==> ParseQuantity(s) == FirstNumberIntended(s).value
    ensures FirstNumber(s).Some? ==> ParseQuantityAsWritten(s) == FirstNumber(s).value
  {
  }

  lemma SeparatedValue()
    ensures ParseFloat(RemoveCommas("1,200")) == Some(1200.0)
  {
    CommasOf1200();
    assert AllDigits("1200");
    ParseFloatDigits("1200");
    ValueOf1200();
  }

  lemma CommasOf1200()
    ensures RemoveCommas("1,200") == "1200"
  {
    assert "1,200"[1..] == ",200" && ",200"[1..] == "200";
    assert RemoveCommas("00") == "00";
  }

  lemma SeparatedLexeme()
    ensures FirstStart("1,200", 0) == Some(0)
    ensures LexemeEnd("1,200", 0) == 5 && LexemeEndIntended("1,200", 0) == 5
  {
    var s := "1,200";
    assert StartsNumber(s, 0);
    assert DigitRun(s, 0) == 1 by { assert DigitRun(s, 1) == 0; }
    assert Groups(s, 1) == 5 by { assert Groups(s, 5) == 5; }
    assert Fraction(s, 5) == 5;
  }

  lemma ValueOf1200()
    ensures DigitsValue("1200") == 1200
  {
    assert "1200"[..3] == "120" && "120"[..2] == "12" && "12"[..1] == "1";
  }

  // ---------------------------------------------------------------------
  // mapImportRowsToBOM
  // ---------------------------------------------------------------------

  /** `getVal(idx)`: the row's value under the idx-th header, or ''. */
  function CellAt(headers: seq<string>, row: Record<string>, idx: Option<int>): (r: string)
    ensures idx.None? ==> r == ""
    ensures idx.Some? && !(0 <= idx.value < |headers|) ==> r == ""
  {
    match idx
    case None => ""
    case Some(i) =>
      if 0 <= i < |headers| && headers[i] != "" then
        match Get(row, headers[i])
        case Some(v) => v
        case None => ""
      else ""
  }

  /** `x || null`: the empty string reads as null. */
  function NonEmpty(s: string): (r: Option<string>)
    ensures r.None? <==> s == ""
    ensures r.Some? ==> r.value == s
  {
    if s == "" then None else Some(s)
  }

  /** `x || d`: the empty string reads as the default. */
  function OrDefault(s: string, d: string): (r: string)
    ensures s != "" ==> r == s
    ensures s == "" ==> r == d
  {
    if s == "" then d else s
  }

  /** The item built from the row at `index`. */
  function ItemOfRow(headers: seq<string>, row: Record<string>, index: nat, mapping: ColumnMapping,
                     projectId: int, locationId: int): (item: ItemData)
    ensures item.project_id == projectId && item.location_id == locationId
    ensures item.sort_order == index && item.is_spare == 0
    ensures item.part_id.None? && item.secondary_description.None?
  {
    ItemData(
      project_id := projectId,
      location_id := locationId,
      part_id := None,
      part_number := OrDefault(CellAt(headers, row, mapping.partNumber), "UNKNOWN"),
      description := CellAt(headers, row, mapping.description),
      secondary_description := None,
      quantity := ParseQuantity(CellAt(headers, row, mapping.quantity)),
      unit := OrDefault(CellAt(headers, row, mapping.unit), "EA"),
      unit_price := ParseCurrency(CellAt(headers, row, mapping.unitPrice)),
      manufacturer := NonEmpty(CellAt(headers, row, mapping.manufacturer)),
      supplier := NonEmpty(CellAt(headers, row, mapping.supplier)),
      category := NonEmpty(CellAt(headers, row, mapping.category)),
      reference_designator := NonEmpty(CellAt(headers, row, mapping.referenceDesignator)),
      is_spare := 0,
      sort_order := index)
  }

  /** mapImportRowsToBOM: one item per row, column indices resolved against the first row's keys. */
  function MapImportRowsToBom(rows: seq<Record<string>>, mapping: ColumnMapping, projectId: int, locationId: int)
    : (items: seq<ItemData>)
    ensures rows == [] ==> items == []
    ensures |items| == |rows|
    ensures forall i :: 0 <= i < |rows| ==>
              items[i] == ItemOfRow(Keys(rows[0]), rows[i], i, mapping, projectId, locationId)
  {
    if rows == [] then []
    else
      var headers := Keys(rows[0]);
      seq(|rows|, i requires 0 <= i < |rows| => ItemOfRow(headers, rows[i], i, mapping, projectId, locationId))
  }

  /** Each imported item sits at its row's position, under the given project and location. */
  lemma ImportedItemsPlaced(rows: seq<Record<string>>, mapping: ColumnMapping, projectId: int, locationId: int, i: nat)
    requires i < |rows|
    ensures MapImportRowsToBom(rows, mapping, projectId, locationId)[i].sort_order == i
    ensures MapImportRowsToBom(rows, mapping, projectId, locationId)[i].project_id == projectId
    ensures MapImportRowsToBom(rows, mapping, projectId, locationId)[i].location_id == locationId
  {
  }

  /** An unmapped part number or unit falls back to 'UNKNOWN' and 'EA', a missing quantity to 1. */
  lemma UnmappedDefaults(rows: seq<Record<string>>, projectId: int, locationId: int, i: nat)
    requires i < |rows|
    ensures var item := MapImportRowsToBom(rows, NoMapping, projectId, locationId)[i];
            item.part_number == "UNKNOWN" && item.unit == "EA" && item.description == ""
            && item.quantity == 1.0 && item.unit_price.None?
            && item.manufacturer.None? && item.supplier.None? && item.category.None?
            && item.reference_designator.None?
  {
    assert Trim("") == "";
  }
}
