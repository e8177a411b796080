// BOM exports: the Eplan XML document, the BOM CSV, the JSON structure
// and the .zw1 header (src/lib/export-utils.ts).

module ExportUtils {
  import opened Common
  import opened BomTypes
  import CsvParser

  // ---------------------------------------------------------------------
  // escapeXml
  // ---------------------------------------------------------------------

  /** `s.replace(/c/g, rep)` for a single character `c`. */
  function ReplaceChar(s: string, c: char, rep: string): (r: string)
    ensures Lacks(s, c) ==> r == s
  {
    if s == [] then [] else (if s[0] == c then rep else [s[0]]) + ReplaceChar(s[1..], c, rep)
  }

  lemma {:induction false} ReplaceCharAppend(a: string, b: string, c: char, rep: string)
    ensures ReplaceChar(a + b, c, rep) == ReplaceChar(a, c, rep) + ReplaceChar(b, c, rep)
  {
    if a == [] {
      assert a + b == b;
    } else {
      assert (a + b)[1..] == a[1..] + b;
      ReplaceCharAppend(a[1..], b, c, rep);
    }
  }

  /** The five replacements of escapeXml, ampersand first. */
  function EscapeXmlText(s: string): string
  {
    ReplaceChar(ReplaceChar(ReplaceChar(ReplaceChar(ReplaceChar(s, '&', "&amp;"), '<', "&lt;"), '>', "&gt;"), '"', "&quot;"), '\'', "&apos;")
  }

  /**
   * escapeXml: null, undefined and '' give ''; otherwise each special
   * character is replaced by its entity (the replace chain of the source is
   * EscapeXmlText, shown equal to this per-character form by EscapeXmlIsPerChar).
   */
  function EscapeXml(v: Option<string>): (r: string)
    ensures v.None? ==> r == ""
  {
    match v
    case None => ""
    case Some(s) => EscapeChars(s)
  }

  /**
   * The escaped text holds no raw `<`, `>`, `"` or `'`, and decoding the
   * five entities gives the input back.
   */
  lemma EscapeXmlSafe(v: Option<string>)
    ensures XmlSafe(EscapeXml(v))
    ensures v.Some? ==> DecodeXml(EscapeXml(v)) == v.value
  {
    if v.Some? {
      EscapeCharsSafe(v.value);
      DecodeEscaped(v.value);
    }
  }

  /** The entity a character is written as. */
  function EntityOf(c: char): string
  {
    if c == '&' then "&amp;"
    else if c == '<' then "&lt;"
    else if c == '>' then "&gt;"
    else if c == '"' then "&quot;"
    else if c == '\'' then "&apos;"
    else [c]
  }

  /** Escaping character by character. */
  function EscapeChars(s: string): string
  {
    if s == [] then [] else EntityOf(s[0]) + EscapeChars(s[1..])
  }

  lemma {:induction false} EscapeCharsSafe(s: string)
    ensures XmlSafe(EscapeChars(s))
  {
    if s != [] {
      EscapeCharsSafe(s[1..]);
      XmlSafeEntity(s[0]);
      XmlSafeAppend(EntityOf(s[0]), EscapeChars(s[1..]));
    }
  }

  /** No raw `<`, `>`, `"` or `'`. */
  predicate XmlSafe(s: string)
  {
    Lacks(s, '<') && Lacks(s, '>') && Lacks(s, '"') && Lacks(s, '\'')
  }

  lemma XmlSafeEntity(c: char)
    ensures XmlSafe(EntityOf(c))
  {
  }

  lemma XmlSafeAppend(a: string, b: string)
    requires XmlSafe(a) && XmlSafe(b)
    ensures XmlSafe(a + b)
  {
    forall i | 0 <= i < |a + b| ensures (a + b)[i] != '<' && (a + b)[i] != '>' && (a + b)[i] != '"' && (a + b)[i] != '\'' {
      if i < |a| { assert (a + b)[i] == a[i]; } else { assert (a + b)[i] == b[i - |a|]; }
    }
  }

  /** A replacement on a single character. */
  lemma ReplaceOne(c: char, d: char, rep: string)
    ensures ReplaceChar([c], d, rep) == if c == d then rep else [c]
  {
    assert [c][1..] == [];
  }

  /** The chain of replacements on one character gives its entity. */
  lemma EscapeOneChar(c: char)
    ensures EscapeXmlText([c]) == EntityOf(c)
  {
    ReplaceOne(c, '&', "&amp;");
    if c == '&' {
      assert Lacks("&amp;", '<') && Lacks("&amp;", '>') && Lacks("&amp;", '"') && Lacks("&amp;", '\'');
    } else {
      ReplaceOne(c, '<', "&lt;");
      if c == '<' {
        assert Lacks("&lt;", '>') && Lacks("&lt;", '"') && Lacks("&lt;", '\'');
      } else {
        ReplaceOne(c, '>', "&gt;");
        if c == '>' {
          assert Lacks("&gt;", '"') && Lacks("&gt;", '\'');
        } else {
          ReplaceOne(c, '"', "&quot;");
          if c == '"' {
            assert Lacks("&quot;", '\'');
          } else {
            ReplaceOne(c, '\'', "&apos;");
          }
        }
      }
    }
  }

  /** The ordered replacements agree with escaping character by character. */
  lemma {:induction false} EscapeXmlIsPerChar(s: string)
    ensures EscapeXmlText(s) == EscapeChars(s)
  {
    if s != [] {
      var a := [s[0]];
      var b := s[1..];
      assert s == a + b;
      EscapeXmlIsPerChar(b);
      EscapeOneChar(s[0]);
      var a1 := ReplaceChar(a, '&', "&amp;");
      var b1 := ReplaceChar(b, '&', "&amp;");
      ReplaceCharAppend(a, b, '&', "&amp;");
      var a2 := ReplaceChar(a1, '<', "&lt;");
      var b2 := ReplaceChar(b1, '<', "&lt;");
      ReplaceCharAppend(a1, b1, '<', "&lt;");
      var a3 := ReplaceChar(a2, '>', "&gt;");
      var b3 := ReplaceChar(b2, '>', "&gt;");
      ReplaceCharAppend(a2, b2, '>', "&gt;");
      var a4 := ReplaceChar(a3, '"', "&quot;");
      var b4 := ReplaceChar(b3, '"', "&quot;");
      ReplaceCharAppend(a3, b3, '"', "&quot;");
      ReplaceCharAppend(a4, b4, '\'', "&apos;");
    }
  }

  /** Decoding of the five entities; any other text is kept as it is. */
  function DecodeXml(s: string): string
    decreases |s|
  {
    if s == [] then []
    else if IsPrefix("&amp;", s) then "&" + DecodeXml(s[5..])
    else if IsPrefix("&lt;", s) then "<" + DecodeXml(s[4..])
    else if IsPrefix("&gt;", s) then ">" + DecodeXml(s[4..])
    else if IsPrefix("&quot;", s) then "\"" + DecodeXml(s[6..])
    else if IsPrefix("&apos;", s) then "'" + DecodeXml(s[6..])
    else [s[0]] + DecodeXml(s[1..])
  }

  lemma DecodeAmp(rest: string)
    ensures DecodeXml("&amp;" + rest) == "&" + DecodeXml(rest)
  {
    var s := "&amp;" + rest;
    assert s[..5] == "&amp;" && s[5..] == rest;
  }

  lemma DecodeLt(rest: string)
    ensures DecodeXml("&lt;" + rest) == "<" + DecodeXml(rest)
  {
    var s := "&lt;" + rest;
    assert s[1] == 'l';
    assert !IsPrefix("&amp;", s);
    assert s[..4] == "&lt;" && s[4..] == rest;
  }

  lemma DecodeGt(rest: string)
    ensures DecodeXml("&gt;" + rest) == ">" + DecodeXml(rest)
  {
    var s := "&gt;" + rest;
    assert s[1] == 'g';
    assert !IsPrefix("&amp;", s) && !IsPrefix("&lt;", s);
    assert s[..4] == "&gt;" && s[4..] == rest;
  }

  lemma DecodeQuot(rest: string)
    ensures DecodeXml("&quot;" + rest) == "\"" + DecodeXml(rest)
  {
    var s := "&quot;" + rest;
    assert s[1] == 'q';
    assert !IsPrefix("&amp;", s) && !IsPrefix("&lt;", s) && !IsPrefix("&gt;", s);
    assert s[..6] == "&quot;" && s[6..] == rest;
  }

  lemma DecodeApos(rest: string)
    ensures DecodeXml("&apos;" + rest) == "'" + DecodeXml(rest)
  {
    var s := "&apos;" + rest;
    assert s[1] == 'a' && s[2] == 'p';
    assert !IsPrefix("&amp;", s) && !IsPrefix("&lt;", s) && !IsPrefix("&gt;", s) && !IsPrefix("&quot;", s);
    assert s[..6] == "&apos;" && s[6..] == rest;
  }

  lemma DecodePlain(c: char, rest: string)
    requires c != '&'
    ensures DecodeXml([c] + rest) == [c] + DecodeXml(rest)
  {
    var s := [c] + rest;
    assert s[0] == c;
    assert s[1..] == rest;
  }

  /** Decoding an entity gives back its character. */
  lemma DecodeEntity(c: char, rest: string)
    ensures DecodeXml(EntityOf(c) + rest) == [c] + DecodeXml(rest)
  {
    if c == '&' { DecodeAmp(rest); }
    else if c == '<' { DecodeLt(rest); }
    else if c == '>' { DecodeGt(rest); }
    else if c == '"' { DecodeQuot(rest); }
    else if c == '\'' { DecodeApos(rest); }
    else { DecodePlain(c, rest); }
  }

  /** Decoding the five entities recovers the escaped text. */
  lemma {:induction false} DecodeEscaped(s: string)
    ensures DecodeXml(EscapeChars(s)) == s
  {
    if s != [] {
      DecodeEscaped(s[1..]);
      DecodeEntity(s[0], EscapeChars(s[1..]));
    }
  }

  // ---------------------------------------------------------------------
  // generateEplanXML
  // ---------------------------------------------------------------------

  /** `items.filter(i => i.location_id === id)`. */
  function ItemsAt(items: seq<BomItem>, id: int): (r: seq<BomItem>)
    ensures |r| <= |items|
    ensures forall k :: 0 <= k < |r| ==> r[k].data.location_id == id
  {
    if items == [] then []
    else
      var last := items[|items| - 1];
      ItemsAt(items[..|items| - 1], id) + (if last.data.location_id == id then [last] else [])
  }

  /** `loc.export_name || loc.name`. */
  function LocationName(loc: Location): (r: string)
    ensures loc.export_name.Some? && loc.export_name.value != "" ==> r == loc.export_name.value
    ensures loc.export_name.None? || loc.export_name.value == "" ==> r == loc.name
  {
    match loc.export_name
    case Some(e) => if e != "" then e else loc.name
    case None => loc.name
  }

  /** The text of a number, or '' for a null price. */
  function PriceText(p: Option<real>): string
  {
    match p
    case None => ""
    case Some(x) => NumberToString(x)
  }

  /** IsSpare: 'true' iff is_spare is truthy (non-zero). */
  function SpareText(isSpare: int): (r: string)
    ensures r == "true" <==> isSpare != 0
  {
    if isSpare != 0 then "true" else "false"
  }

  /** The fixed text of the document head, around number, name and version. */
  const HeaderPieces: seq<string> := [
    "<?xml version=\"1.0\" encoding=\"UTF-8\"?>\n<EplanBomExport>\n  <Project Number=\"",
    "\" Name=\"", "\" Version=\"", "\">\n"]

  function XmlHeader(project: Package): string
  {
    Fill(HeaderPieces, [EscapeXml(Some(project.project_number)), EscapeXml(Some(project.package_name)),
                        EscapeXml(Some(project.version))])
  }

  const XmlFooter := "  </Project>\n</EplanBomExport>"

  function KittingOpen(loc: Location): string
  {
    Fill(["    <KittingLocation Name=\"", "\">\n"], [EscapeXml(Some(LocationName(loc)))])
  }

  const KittingClose := "    </KittingLocation>\n"

  /** The fixed text of a Part element, around its eleven values. */
  const PartPieces: seq<string> := [
    "      <Part>\n        <PartNumber>",
    "</PartNumber>\n        <Description>",
    "</Description>\n        <SecondaryDescription>",
    "</SecondaryDescription>\n        <Quantity>",
    "</Quantity>\n        <Unit>",
    "</Unit>\n        <UnitPrice>",
    "</UnitPrice>\n        <Manufacturer>",
    "</Manufacturer>\n        <Supplier>",
    "</Supplier>\n        <Category>",
    "</Category>\n        <RefDes>",
    "</RefDes>\n        <IsSpare>",
    "</IsSpare>\n      </Part>\n"]

  /** The values of a Part element, in element order. */
  function PartValues(item: BomItem): (r: seq<string>)
    ensures |r| == 11
    ensures r[10] == "true" <==> item.data.is_spare != 0
  {
    var d := item.data;
    [EscapeXml(Some(d.part_number)), EscapeXml(Some(d.description)), EscapeXml(d.secondary_description),
     NumberToString(d.quantity), EscapeXml(Some(d.unit)), PriceText(d.unit_price),
     EscapeXml(d.manufacturer), EscapeXml(d.supplier), EscapeXml(d.category),
     EscapeXml(d.reference_designator), SpareText(d.is_spare)]
  }

  /** The Part element of one item. */
  function PartXml(item: BomItem): string
  {
    Fill(PartPieces, PartValues(item))
  }

  /** The Part elements of a list of items, in order. */
  function PartsXml(items: seq<BomItem>): string
  {
    ConcatMap(items, PartRenderer())
  }

  function PartRenderer(): BomItem -> string
  {
    item => PartXml(item)
  }

  /** A location's KittingLocation element, or nothing when no item is there. */
  function LocationXml(loc: Location, items: seq<BomItem>): (r: string)
    ensures ItemsAt(items, loc.id) == [] <==> r == ""
  {
    var here := ItemsAt(items, loc.id);
    if here == [] then "" else KittingOpen(loc) + PartsXml(here) + KittingClose
  }

  /** The KittingLocation elements of the locations, in location order. */
  function LocationsXml(locations: seq<Location>, items: seq<BomItem>): string
  {
    ConcatMap(locations, LocationRenderer(items))
  }

  function LocationRenderer(items: seq<BomItem>): Location -> string
  {
    loc => LocationXml(loc, items)
  }

  /** The whole document. */
  function EplanXml(project: Package, locations: seq<Location>, items: seq<BomItem>): string
  {
    XmlHeader(project) + LocationsXml(locations, items) + XmlFooter
  }

  /** generateEplanXML: builds the document with `+=` location by location. */
  method GenerateEplanXml(project: Package, locations: seq<Location>, items: seq<BomItem>) returns (xml: string)
    ensures xml == EplanXml(project, locations, items)
  {
    xml := XmlHeader(project);
    xml := AppendLocations(xml, locations, items);
    xml := xml + XmlFooter;
  }

  /** The location loop of generateEplanXML; each pass appends one location's piece. */
  method AppendLocations(xml: string, locations: seq<Location>, items: seq<BomItem>) returns (out: string)
    ensures out == xml + LocationsXml(locations, items)
  {
    var render := LocationRenderer(items);
    out := xml;
    var i := 0;
    while i < |locations|
      invariant 0 <= i <= |locations|
      invariant out == xml + ConcatMap(locations[..i], render)
    {
      var piece := LocationPiece(locations[i], items);
      ConcatStep(xml, out, locations[..i], locations[i], render, piece);
      assert locations[..i] + [locations[i]] == locations[..i + 1];
      out := out + piece;
      i := i + 1;
    }
    assert locations[..i] == locations;
  }

  /** One pass of the location loop: skip an empty location, else open, list the parts, close. */
  method LocationPiece(loc: Location, items: seq<BomItem>) returns (piece: string)
    ensures piece == LocationRenderer(items)(loc)
  {
    var locItems := ItemsAt(items, loc.id);
    if |locItems| == 0 {
      return "";
    }
    piece := KittingOpen(loc);
    piece := AppendParts(piece, locItems);
    piece := piece + KittingClose;
  }

  /** The item loop: one Part element per item, in order. */
  method AppendParts(xml: string, locItems: seq<BomItem>) returns (out: string)
    ensures out == xml + PartsXml(locItems)
  {
    out := AppendAll(xml, locItems, PartRenderer());
  }

  // ---------------------------------------------------------------------
  // Every item is exported once, under its own location
  // ---------------------------------------------------------------------

  /** The items in the order the document lists them: location by location. */
  function PlacedItems(locations: seq<Location>, items: seq<BomItem>): seq<BomItem>
  {
    if locations == [] then []
    else PlacedItems(locations[..|locations| - 1], items) + ItemsAt(items, locations[|locations| - 1].id)
  }

  /** Number of locations with the given id. */
  function IdCount(locations: seq<Location>, id: int): (n: nat)
    ensures n <= |locations|
  {
    if locations == [] then 0
    else IdCount(locations[..|locations| - 1], id) + (if locations[|locations| - 1].id == id then 1 else 0)
  }

  /** How many times `x` occurs in `s`. */
  function Count(s: seq<BomItem>, x: BomItem): nat
  {
    if s == [] then 0 else Count(s[..|s| - 1], x) + (if s[|s| - 1] == x then 1 else 0)
  }

  lemma {:induction false} CountAppend(a: seq<BomItem>, b: seq<BomItem>, x: BomItem)
    ensures Count(a + b, x) == Count(a, x) + Count(b, x)
  {
    if b != [] {
      var n := |b| - 1;
      assert (a + b)[..|a| + n] == a + b[..n];
      CountAppend(a, b[..n], x);
    } else {
      assert a + b == a;
    }
  }

  /** Count agrees with multiset multiplicity. */
  lemma {:induction false} CountIsMultiplicity(s: seq<BomItem>, x: BomItem)
    ensures Count(s, x) == multiset(s)[x]
  {
    if s != [] {
      var n := |s| - 1;
      assert s == s[..n] + [s[n]];
      CountIsMultiplicity(s[..n], x);
    }
  }

  lemma ItemsAtSnoc(items: seq<BomItem>, x: BomItem, id: int)
    ensures ItemsAt(items + [x], id) == ItemsAt(items, id) + (if x.data.location_id == id then [x] else [])
  {
    assert (items + [x])[..|items|] == items;
  }

  /** Appending `y` adds one occurrence of it per location carrying its id, and nothing else. */
  lemma {:induction false} PlacedSnoc(locations: seq<Location>, items: seq<BomItem>, y: BomItem, x: BomItem)
    ensures Count(PlacedItems(locations, items + [y]), x)
            == Count(PlacedItems(locations, items), x) + (if x == y then IdCount(locations, y.data.location_id) else 0)
  {
    if locations != [] {
      var n := |locations| - 1;
      var init := locations[..n];
      var id := locations[n].id;
      PlacedSnoc(init, items, y, x);
      ItemsAtSnoc(items, y, id);
      var extra: seq<BomItem> := if y.data.location_id == id then [y] else [];
      CountAppend(PlacedItems(init, items), ItemsAt(items, id), x);
      CountAppend(PlacedItems(init, items + [y]), ItemsAt(items, id) + extra, x);
      CountAppend(ItemsAt(items, id), extra, x);
      assert Count(extra, x) == if x == y && y.data.location_id == id then 1 else 0 by {
        if extra != [] {
          assert extra[..0] == [];
        }
      }
    }
  }

  predicate DistinctIds(locations: seq<Location>)
  {
    forall i, j :: 0 <= i < j < |locations| ==> locations[i].id != locations[j].id
  }

  predicate HasId(locations: seq<Location>, id: int)
  {
    exists i :: 0 <= i < |locations| && locations[i].id == id
  }

  /** With distinct ids, an id that occurs occurs once. */
  lemma {:induction false} IdCountDistinct(locations: seq<Location>, id: int)
    requires DistinctIds(locations)
    ensures IdCount(locations, id) == if HasId(locations, id) then 1 else 0
  {
    if locations != [] {
      var n := |locations| - 1;
      var init := locations[..n];
      assert DistinctIds(init) by {
        forall i, j | 0 <= i < j < |init| ensures init[i].id != init[j].id {
          assert init[i] == locations[i] && init[j] == locations[j];
        }
      }
      IdCountDistinct(init, id);
      if HasId(init, id) {
        var i :| 0 <= i < |init| && init[i].id == id;
        assert locations[i] == init[i];
        assert locations[n].id != id;
      }
    }
  }

  /**
   * With distinct location ids and every item's location present, the
   * document lists every item exactly once (the same multiset).
   */
  lemma {:induction false} EachItemOnce(locations: seq<Location>, items: seq<BomItem>)
    requires DistinctIds(locations)
    requires forall k :: 0 <= k < |items| ==> HasId(locations, items[k].data.location_id)
    ensures multiset(PlacedItems(locations, items)) == multiset(items)
  {
    forall x | true
      ensures multiset(PlacedItems(locations, items))[x] == multiset(items)[x]
    {
      CountIsMultiplicity(PlacedItems(locations, items), x);
      CountIsMultiplicity(items, x);
      PlacedCount(locations, items, x);
    }
  }

  lemma {:induction false} PlacedCount(locations: seq<Location>, items: seq<BomItem>, x: BomItem)
    requires DistinctIds(locations)
    requires forall k :: 0 <= k < |items| ==> HasId(locations, items[k].data.location_id)
    ensures Count(PlacedItems(locations, items), x) == Count(items, x)
  {
    if items == [] {
      EmptyPlaced(locations);
    } else {
      var n := |items| - 1;
      var init := items[..n];
      var y := items[n];
      PlacedCount(locations, init, x);
      assert items == init + [y];
      PlacedSnoc(locations, init, y, x);
      IdCountDistinct(locations, y.data.location_id);
    }
  }

  lemma {:induction false} EmptyPlaced(locations: seq<Location>)
    ensures PlacedItems(locations, []) == []
  {
    if locations != [] {
      EmptyPlaced(locations[..|locations| - 1]);
    }
  }

  // ---------------------------------------------------------------------
  // generateCSV
  // ---------------------------------------------------------------------

  const CsvHeaders: seq<string> := ["Part Number", "Manufacturer", "Description", "Secondary Description",
    "Quantity", "Unit", "Unit Price", "Supplier", "Category", "Ref Des", "Is Spare"]

  /** A value that escapeCSV wraps in quotes. */
  predicate NeedsQuoting(s: string)
  {
    !Lacks(s, ',') || !Lacks(s, '"') || !Lacks(s, '\n')
  }

  /**
   * escapeCSV: null and undefined give ''; a value with a comma, quote or
   * line feed is quoted with its quotes doubled; others pass unchanged.
   */
  function EscapeCsv(v: Option<string>): (r: string)
    ensures v.None? ==> r == ""
    ensures v.Some? ==> CsvParser.Encodes(r, v.value)
    ensures v.Some? && !NeedsQuoting(v.value) ==> r == v.value
  {
    match v
    case None => ""
    case Some(s) => if NeedsQuoting(s) then CsvParser.Quote(s) else s
  }

  /** The values of one item's row, before escaping. */
  function CsvValues(item: BomItem): (r: seq<Option<string>>)
    ensures |r| == |CsvHeaders|
  {
    var d := item.data;
    [Some(d.part_number), d.manufacturer, Some(d.description), d.secondary_description,
     Some(NumberToString(d.quantity)), Some(d.unit),
     (match d.unit_price case None => None case Some(p) => Some(NumberToString(p))),
     d.supplier, d.category, d.reference_designator,
     Some(if d.is_spare != 0 then "Yes" else "No")]
  }

  function EscapeAll(vs: seq<Option<string>>): (r: seq<string>)
    ensures |r| == |vs|
    ensures forall k :: 0 <= k < |vs| ==> r[k] == EscapeCsv(vs[k])
  {
    seq(|vs|, k requires 0 <= k < |vs| => EscapeCsv(vs[k]))
  }

  /** `null` and `undefined` are written as empty fields. */
  function TextOf(v: Option<string>): string
  {
    match v
    case None => ""
    case Some(s) => s
  }

  function TextAll(vs: seq<Option<string>>): (r: seq<string>)
    ensures |r| == |vs|
    ensures forall k :: 0 <= k < |vs| ==> r[k] == TextOf(vs[k])
  {
    seq(|vs|, k requires 0 <= k < |vs| => TextOf(vs[k]))
  }

  function CsvRow(item: BomItem): string
  {
    Join(EscapeAll(CsvValues(item)), ",")
  }

  function CsvRows(items: seq<BomItem>): (r: seq<string>)
    ensures |r| == |items|
    ensures forall k :: 0 <= k < |items| ==> r[k] == CsvRow(items[k])
  {
    seq(|items|, k requires 0 <= k < |items| => CsvRow(items[k]))
  }

  /** generateCSV: the header line, then one line per item, joined with CRLF. */
  function GenerateCsv(items: seq<BomItem>): string
  {
    Join([Join(CsvHeaders, ",")] + CsvRows(items), "\r\n")
  }

  /**
   * Each row reads back, through the CSV line parser, as its eleven
   * values: escaping never splits or merges a field.
   */
  lemma CsvRowReadsBack(item: BomItem)
    ensures CsvParser.RawFields(CsvRow(item)) == TextAll(CsvValues(item))
    ensures |CsvParser.ParseLine(CsvRow(item))| == |CsvHeaders|
  {
    var vs := CsvValues(item);
    var enc := EscapeAll(vs);
    var fs := TextAll(vs);
    forall k | 0 <= k < |fs| ensures CsvParser.Encodes(enc[k], fs[k]) {
      if vs[k].None? {
        assert enc[k] == "" && fs[k] == "";
        assert CsvParser.Plain("");
      }
    }
    CsvParser.ParseEncodedLine(enc, fs);
  }

  /** The header line reads back as the eleven headers. */
  lemma CsvHeaderReadsBack()
    ensures CsvParser.ParseLine(Join(CsvHeaders, ",")) == CsvHeaders
  {
    forall k | 0 <= k < |CsvHeaders| ensures CsvParser.Encodes(CsvHeaders[k], CsvHeaders[k])
      && NoEdgeSpace(CsvHeaders[k]) {
      assert IsTitle(CsvHeaders[k]);
      TitleIsPlain(CsvHeaders[k]);
    }
    CsvParser.ParseEncodedLine(CsvHeaders, CsvHeaders);
  }

  // ---------------------------------------------------------------------
  // generateJSON (structure only) and the .zw1 header
  // ---------------------------------------------------------------------

  datatype ItemJson = ItemJson(
    partNumber: string, description: string, secondaryDescription: Option<string>,
    quantity: real, unit: string, unitPrice: Option<real>,
    manufacturer: Option<string>, supplier: Option<string>, category: Option<string>,
    referenceDesignator: Option<string>, isSpare: bool)

  datatype LocationJson = LocationJson(name: string, exportName: Option<string>, items: seq<ItemJson>)

  datatype ProjectJson = ProjectJson(projectNumber: string, packageName: string, name: Option<string>,
                                     description: Option<string>, version: string)

  datatype ExportJson = ExportJson(exportVersion: string, exportDate: string, project: ProjectJson,
                                   locations: seq<LocationJson>)

  function ItemToJson(item: BomItem): (r: ItemJson)
    ensures r.isSpare <==> item.data.is_spare == 1
    ensures r.partNumber == item.data.part_number && r.quantity == item.data.quantity
  {
    var d := item.data;
    ItemJson(d.part_number, d.description, d.secondary_description, d.quantity, d.unit, d.unit_price,
             d.manufacturer, d.supplier, d.category, d.reference_designator, d.is_spare == 1)
  }

  function LocationToJson(loc: Location, items: seq<BomItem>): (r: LocationJson)
    ensures r.name == loc.name && r.exportName == loc.export_name
    ensures |r.items| == |ItemsAt(items, loc.id)|
    ensures forall k :: 0 <= k < |r.items| ==> r.items[k] == ItemToJson(ItemsAt(items, loc.id)[k])
  {
    var here := ItemsAt(items, loc.id);
    LocationJson(loc.name, loc.export_name, seq(|here|, k requires 0 <= k < |here| => ItemToJson(here[k])))
  }

  /**
   * generateJSON before stringification: every location (empty ones
   * included), each with its own items; `exportDate` is the caller's clock.
   */
  function GenerateJson(project: Package, locations: seq<Location>, items: seq<BomItem>, now: string)
    : (r: ExportJson)
    ensures r.exportVersion == "1.0" && r.exportDate == now
    ensures r.project.projectNumber == project.project_number
    ensures |r.locations| == |locations|
    ensures forall i :: 0 <= i < |locations| ==> r.locations[i] == LocationToJson(locations[i], items)
  {
    ExportJson("1.0", now,
      ProjectJson(project.project_number, project.package_name, project.name, project.description, project.version),
      seq(|locations|, i requires 0 <= i < |locations| => LocationToJson(locations[i], items)))
  }

  const Zw1Before := "[Header]\nVersion=1.0\nProject="

  const Zw1After := "\nType=BOM\nFormat=XML\nEncoding=UTF-8\n\n[ColumnMapping]\nPartNumber=PartNumber\nDescription=Description\nQuantity=Quantity\nUnit=Unit\nManufacturer=Manufacturer\nSupplier=Supplier\nRefDes=RefDes\n\n[Options]\nCreateParts=true\nUpdateExisting=true\n"

  /** generateZW1Header: fixed text with the project number on the `Project=` line. */
  function Zw1Header(projectNumber: string): string
  {
    Zw1Before + projectNumber + Zw1After
  }

  /** The project number read back from a header. */
  function Zw1Project(header: string): string
    requires |header| >= |Zw1Before| + |Zw1After|
  {
    header[|Zw1Before|..|header| - |Zw1After|]
  }

  /** The header embeds the number, and only the number varies. */
  lemma Zw1RoundTrip(projectNumber: string)
    ensures |Zw1Header(projectNumber)| == |Zw1Before| + |projectNumber| + |Zw1After|
    ensures Zw1Project(Zw1Header(projectNumber)) == projectNumber
    ensures Zw1Header(projectNumber)[..|Zw1Before|] == Zw1Before
    ensures Zw1Header(projectNumber)[|Zw1Before| + |projectNumber|..] == Zw1After
  {
    var h := Zw1Header(projectNumber);
    assert h[|Zw1Before|..|h| - |Zw1After|] == projectNumber;
  }
}
