// The parts catalogue CSV (generatePartsCSV in src/lib/parts-export.ts).

module PartsExport {
  import opened Common
  import opened PartTypes
  import CsvParser

  const PartsHeaders: seq<string> := ["Manufacturer", "Part Number", "Description", "Secondary Description",
    "Unit", "Category"]

  /** `x || ''`: a missing or empty value is written as ''. */
  function OrEmpty(v: Option<string>): (r: string)
    ensures v.None? ==> r == ""
    ensures v.Some? ==> r == v.value
  {
    match v
    case None => ""
    case Some(s) => s
  }

  /** The six fields of a part, in header order. */
  function PartFields(p: PartWithManufacturer): (r: seq<string>)
    ensures |r| == |PartsHeaders|
    ensures r[1] == p.part.part_number && r[2] == p.part.description && r[4] == p.part.unit
    ensures r[0] == OrEmpty(p.manufacturer_name) && r[3] == OrEmpty(p.part.secondary_description)
    ensures r[5] == OrEmpty(p.category_name)
  {
    [OrEmpty(p.manufacturer_name), p.part.part_number, p.part.description,
     OrEmpty(p.part.secondary_description), p.part.unit, OrEmpty(p.category_name)]
  }

  /** A field holding a comma, a quote or a line feed. */
  predicate NeedsQuoting(f: string)
  {
    !Lacks(f, ',') || !Lacks(f, '"') || !Lacks(f, '\n')
  }

  /**
   * The field escape: quoted with doubled quotes when it holds a comma,
   * quote or line feed (rules 6 and 7 of section 2 of RFC 4180), verbatim
   * otherwise; either way the CSV line scan reads the field back.
   */
  function EscapeField(f: string): (r: string)
    ensures NeedsQuoting(f) ==> r == CsvParser.Quote(f)
    ensures !NeedsQuoting(f) ==> r == f
    ensures CsvParser.Encodes(r, f)
  {
    if NeedsQuoting(f) then CsvParser.Quote(f) else f
  }

  function EscapeFields(fs: seq<string>): (r: seq<string>)
    ensures |r| == |fs|
    ensures forall k :: 0 <= k < |fs| ==> r[k] == EscapeField(fs[k])
  {
    seq(|fs|, k requires 0 <= k < |fs| => EscapeField(fs[k]))
  }

  function Line(fs: seq<string>): string
  {
    Join(EscapeFields(fs), ",")
  }

  /** `[headers, ...rows]`: the header row, then one row of fields per part, in input order. */
  function AllRows(parts: seq<PartWithManufacturer>): (r: seq<seq<string>>)
    ensures |r| == |parts| + 1
    ensures r[0] == PartsHeaders
    ensures forall k :: 0 <= k < |parts| ==> r[k + 1] == PartFields(parts[k])
  {
    [PartsHeaders] + seq(|parts|, k requires 0 <= k < |parts| => PartFields(parts[k]))
  }

  function Lines(rows: seq<seq<string>>): (r: seq<string>)
    ensures |r| == |rows|
    ensures forall k :: 0 <= k < |rows| ==> r[k] == Line(rows[k])
  {
    seq(|rows|, k requires 0 <= k < |rows| => Line(rows[k]))
  }

  /** generatePartsCSV: each row escaped and comma-joined, the lines joined with CRLF. */
  function GeneratePartsCsv(parts: seq<PartWithManufacturer>): string
  {
    Join(Lines(AllRows(parts)), "\r\n")
  }

  /** A line of fields that need no quoting is the fields joined verbatim, and reads back as them. */
  lemma PlainLine(fs: seq<string>)
    requires |fs| >= 1
    requires forall k :: 0 <= k < |fs| ==> !NeedsQuoting(fs[k]) && NoEdgeSpace(fs[k])
    ensures Line(fs) == Join(fs, ",")
    ensures CsvParser.ParseLine(Line(fs)) == fs
  {
    assert EscapeFields(fs) == fs;
    CsvParser.ParseEncodedLine(fs, fs);
  }

  lemma HeadersPlain()
    ensures forall k :: 0 <= k < |PartsHeaders| ==> !NeedsQuoting(PartsHeaders[k]) && NoEdgeSpace(PartsHeaders[k])
  {
    forall k | 0 <= k < |PartsHeaders|
      ensures !NeedsQuoting(PartsHeaders[k]) && NoEdgeSpace(PartsHeaders[k])
    {
      assert IsTitle(PartsHeaders[k]);
      TitleIsPlain(PartsHeaders[k]);
    }
  }

  /** No header needs quoting, so the header line is the headers joined verbatim, and reads back as them. */
  lemma HeaderLineIsPlain()
    ensures Line(PartsHeaders) == Join(PartsHeaders, ",")
    ensures CsvParser.ParseLine(Line(PartsHeaders)) == PartsHeaders
  {
    HeadersPlain();
    PlainLine(PartsHeaders);
  }

  /** Every part line reads back, field for field, as the part's six values. */
  lemma PartLineReadsBack(p: PartWithManufacturer)
    ensures CsvParser.RawFields(Line(PartFields(p))) == PartFields(p)
  {
    var fs := PartFields(p);
    CsvParser.ParseEncodedLine(EscapeFields(fs), fs);
  }
}
