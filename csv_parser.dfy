// The CSV reader of the BOM import (src/lib/csv-parser.ts): the text is cut
// into lines first, the first line is the header, and each line is split by
// a quote-aware character scan.

module CsvParser {
  import opened Common

  // ---------------------------------------------------------------------
  // parseCSVLine
  // ---------------------------------------------------------------------

  /**
   * The variables of parseCSVLine's loop: `current`, `inQuotes`, and the
   * fields pushed so far, here kept untrimmed (each is trimmed as pushed).
   */
  datatype LineState = LineState(current: string, inQuotes: bool, fields: seq<string>)

  const Start := LineState("", false, [])

  /**
   * One iteration of parseCSVLine's loop on the unread text `s`: how many
   * characters it consumes and the state after it.  Inside quotes a doubled
   * quote is one literal quote; any other quote toggles the quoted state;
   * an unquoted comma ends the field.
   */
  function Step(s: string, st: LineState): (r: (nat, LineState))
    requires s != []
    ensures 1 <= r.0 <= |s|
  {
    if s[0] == '"' then
      if st.inQuotes && |s| > 1 && s[1] == '"' then (2, st.(current := st.current + ['"']))
      else (1, st.(inQuotes := !st.inQuotes))
    else if s[0] == ',' && !st.inQuotes then (1, LineState("", false, st.fields + [st.current]))
    else (1, st.(current := st.current + [s[0]]))
  }

  /** The whole scan from a state; at the end the last field is pushed. */
  function Scan(s: string, st: LineState): seq<string>
    decreases |s|
  {
    if s == [] then st.fields + [st.current]
    else
      var (n, next) := Step(s, st);
      Scan(s[n..], next)
  }

  /** The scan keeps the fields already pushed and adds at least one. */
  lemma {:induction false} ScanShape(s: string, st: LineState)
    ensures |Scan(s, st)| >= |st.fields| + 1
    ensures Scan(s, st)[..|st.fields|] == st.fields
    decreases |s|
  {
    if s != [] {
      var (n, next) := Step(s, st);
      ScanShape(s[n..], next);
      var r := Scan(s[n..], next);
      assert r[..|st.fields|] == r[..|next.fields|][..|st.fields|];
    }
  }

  function TrimAll(parts: seq<string>): (r: seq<string>)
    ensures |r| == |parts|
    ensures forall k :: 0 <= k < |parts| ==> r[k] == Trim(parts[k])
  {
    seq(|parts|, k requires 0 <= k < |parts| => Trim(parts[k]))
  }

  lemma TrimAllSnoc(xs: seq<string>, x: string)
    ensures TrimAll(xs + [x]) == TrimAll(xs) + [Trim(x)]
  {
  }

  lemma TrimAllFixed(xs: seq<string>)
    requires forall k :: 0 <= k < |xs| ==> NoEdgeSpace(xs[k])
    ensures TrimAll(xs) == xs
  {
  }

  /** The fields of a line before trimming. */
  function RawFields(line: string): seq<string>
  {
    Scan(line, Start)
  }

  /** parseCSVLine: at least one field, and every field trimmed. */
  function ParseLine(line: string): (r: seq<string>)
    ensures |r| >= 1
    ensures forall k :: 0 <= k < |r| ==> NoEdgeSpace(r[k])
  {
    ScanShape(line, Start);
    TrimAll(RawFields(line))
  }

  /** The loop of parseCSVLine, which skips the second quote of a pair. */
  method ParseCsvLine(line: string) returns (result: seq<string>)
    ensures result == ParseLine(line)
  {
    result := [];
    var current := "";
    var inQuotes := false;
    ghost var raw: seq<string> := [];
    var i := 0;
    while i < |line|
      invariant 0 <= i <= |line|
      invariant Scan(line[i..], LineState(current, inQuotes, raw)) == RawFields(line)
      invariant result == TrimAll(raw)
    {
      ghost var n := Step(line[i..], LineState(current, inQuotes, raw)).0;
      assert line[i..][n..] == line[i + n..];
      var c := line[i];
      if c == '"' {
        if inQuotes && i + 1 < |line| && line[i + 1] == '"' {
          current := current + ['"'];
          i := i + 1;
        } else {
          inQuotes := !inQuotes;
        }
      } else if c == ',' && !inQuotes {
        TrimAllSnoc(raw, current);
        result := result + [Trim(current)];
        raw := raw + [current];
        current := "";
      } else {
        current := current + [c];
      }
      i := i + 1;
    }
    TrimAllSnoc(raw, current);
    result := result + [Trim(current)];
  }

  // One step of the scan on a known first character.

  lemma ScanChar(c: char, t: string, st: LineState)
    requires c != '"' && (c != ',' || st.inQuotes)
    ensures Scan([c] + t, st) == Scan(t, st.(current := st.current + [c]))
  {
    assert ([c] + t)[1..] == t;
  }

  lemma ScanQuotePair(t: string, st: LineState)
    requires st.inQuotes
    ensures Scan(['"', '"'] + t, st) == Scan(t, st.(current := st.current + ['"']))
  {
    assert (['"', '"'] + t)[2..] == t;
  }

  lemma ScanQuoteToggle(t: string, st: LineState)
    requires !st.inQuotes || t == [] || t[0] != '"'
    ensures Scan(['"'] + t, st) == Scan(t, st.(inQuotes := !st.inQuotes))
  {
    assert (['"'] + t)[1..] == t;
  }

  lemma ScanComma(t: string, st: LineState)
    requires !st.inQuotes
    ensures Scan([','] + t, st) == Scan(t, LineState("", false, st.fields + [st.current]))
  {
    assert ([','] + t)[1..] == t;
  }

  /** Outside quotes a character other than a quote is one step. */
  lemma ScanUnquotedStep(s: string, st: LineState)
    requires s != [] && s[0] != '"' && !st.inQuotes
    ensures s[0] == ',' ==> Scan(s, st) == Scan(s[1..], LineState("", false, st.fields + [st.current]))
    ensures s[0] != ',' ==> Scan(s, st) == Scan(s[1..], st.(current := st.current + [s[0]]))
  {
  }

  lemma {:induction false} ScanUnquoted(s: string, current: string, fields: seq<string>)
    requires Lacks(s, '"')
    ensures Scan(s, LineState(current, false, fields)) == fields + SplitFrom(s, ',', current)
    decreases |s|
  {
    if s != [] {
      ScanUnquotedStep(s, LineState(current, false, fields));
      if s[0] == ',' {
        ScanUnquoted(s[1..], "", fields + [current]);
        assert fields + [current] + SplitFrom(s[1..], ',', "") == fields + ([current] + SplitFrom(s[1..], ',', ""));
      } else {
        ScanUnquoted(s[1..], current + [s[0]], fields);
      }
    }
  }

  /**
   * Without quotes the scan is a plain split: one trimmed field per
   * comma-separated piece, so the field count is the comma count plus one.
   */
  lemma NoQuotesIsSplit(line: string)
    requires Lacks(line, '"')
    ensures ParseLine(line) == TrimAll(Split(line, ','))
    ensures |ParseLine(line)| == CountChar(line, ',') + 1
  {
    ScanUnquoted(line, "", []);
    assert [] + Split(line, ',') == Split(line, ',');
    SplitCount(line, ',', "");
  }

  // ---------------------------------------------------------------------
  // Quoting, the inverse of the scan
  // ---------------------------------------------------------------------

  /** Inner quotes doubled (rule 7 of section 2 of RFC 4180). */
  function Escape(v: string): (r: string)
    ensures |r| >= |v|
  {
    if v == [] then [] else (if v[0] == '"' then "\"\"" else [v[0]]) + Escape(v[1..])
  }

  /** A field enclosed in quotes with its inner quotes doubled. */
  function Quote(v: string): (r: string)
    ensures |r| >= |v| + 2 && r[0] == '"' && r[|r| - 1] == '"'
  {
    "\"" + Escape(v) + "\""
  }

  /** Text the scan reads verbatim: no quote and no comma. */
  predicate Plain(v: string) { Lacks(v, '"') && Lacks(v, ',') }

  /** Inside quotes, the escape of a body's first character reads as that character. */
  lemma ScanEscapedChar(v: string, rest: string, st: LineState)
    requires v != [] && st.inQuotes
    ensures Scan(Escape(v) + "\"" + rest, st) == Scan(Escape(v[1..]) + "\"" + rest, st.(current := st.current + [v[0]]))
  {
    var t := Escape(v[1..]) + "\"" + rest;
    if v[0] == '"' {
      assert Escape(v) + "\"" + rest == ['"', '"'] + t;
      ScanQuotePair(t, st);
    } else {
      assert Escape(v) + "\"" + rest == [v[0]] + t;
      ScanChar(v[0], t, st);
    }
  }

  /** Reading an escaped body and its closing quote yields the body's text. */
  lemma {:induction false} ScanQuotedBody(v: string, rest: string, current: string, fields: seq<string>)
    requires rest == [] || rest[0] == ','
    ensures Scan(Escape(v) + "\"" + rest, LineState(current, true, fields))
            == Scan(rest, LineState(current + v, false, fields))
    decreases |v|
  {
    var st := LineState(current, true, fields);
    if v == [] {
      assert Escape(v) + "\"" + rest == ['"'] + rest;
      ScanQuoteToggle(rest, st);
      assert current + v == current;
    } else {
      var c := v[0];
      ScanEscapedChar(v, rest, st);
      ScanQuotedBody(v[1..], rest, current + [c], fields);
      assert current + [c] + v[1..] == current + v;
    }
  }

  lemma {:induction false} ScanPlain(v: string, rest: string, current: string, fields: seq<string>)
    requires Plain(v)
    ensures Scan(v + rest, LineState(current, false, fields)) == Scan(rest, LineState(current + v, false, fields))
    decreases |v|
  {
    if v == [] {
      assert v + rest == rest;
      assert current + v == current;
    } else {
      assert v + rest == [v[0]] + (v[1..] + rest);
      ScanChar(v[0], v[1..] + rest, LineState(current, false, fields));
      ScanPlain(v[1..], rest, current + [v[0]], fields);
      assert current + [v[0]] + v[1..] == current + v;
    }
  }

  /** A field written either quoted or, when plain, verbatim. */
  predicate Encodes(e: string, v: string)
  {
    e == Quote(v) || (e == v && Plain(v))
  }

  /** One encoded field followed by a comma or the end of the line. */
  lemma ScanField(e: string, v: string, rest: string, fields: seq<string>)
    requires Encodes(e, v)
    requires rest == [] || rest[0] == ','
    ensures Scan(e + rest, LineState("", false, fields)) == Scan(rest, LineState(v, false, fields))
  {
    assert "" + v == v;
    if e == Quote(v) {
      var t := Escape(v) + "\"" + rest;
      assert e + rest == ['"'] + t;
      ScanQuoteToggle(t, LineState("", false, fields));
      ScanQuotedBody(v, rest, "", fields);
    } else {
      ScanPlain(v, rest, "", fields);
    }
  }

  lemma {:induction false} ScanEncoded(enc: seq<string>, fs: seq<string>, fields: seq<string>)
    requires |enc| == |fs| >= 1
    requires forall k :: 0 <= k < |fs| ==> Encodes(enc[k], fs[k])
    ensures Scan(Join(enc, ","), LineState("", false, fields)) == fields + fs
    decreases |enc|
  {
    if |enc| == 1 {
      ScanField(enc[0], fs[0], [], fields);
      assert Join(enc, ",") == enc[0] + [];
      assert fs == [fs[0]];
    } else {
      var tail := Join(enc[1..], ",");
      var rest := "," + tail;
      assert Join(enc, ",") == enc[0] + rest;
      ScanField(enc[0], fs[0], rest, fields);
      ScanComma(tail, LineState(fs[0], false, fields));
      ScanEncoded(enc[1..], fs[1..], fields + [fs[0]]);
      assert fields + [fs[0]] + fs[1..] == fields + fs;
    }
  }

  /**
   * Round trip: joining fields, each quoted or written verbatim when plain,
   * and scanning the line gives the fields back before trimming, and
   * exactly when they carry no edge whitespace.
   */
  lemma ParseEncodedLine(enc: seq<string>, fs: seq<string>)
    requires |enc| == |fs| >= 1
    requires forall k :: 0 <= k < |fs| ==> Encodes(enc[k], fs[k])
    ensures RawFields(Join(enc, ",")) == fs
    ensures ParseLine(Join(enc, ",")) == TrimAll(fs)
    ensures (forall k :: 0 <= k < |fs| ==> NoEdgeSpace(fs[k])) ==> ParseLine(Join(enc, ",")) == fs
  {
    ScanEncoded(enc, fs, []);
    assert [] + fs == fs;
    if forall k :: 0 <= k < |fs| ==> NoEdgeSpace(fs[k]) {
      TrimAllFixed(fs);
    }
  }

  /** A quoted comma does not split the field. */
  lemma QuotedCommaKept(a: string, b: string)
    requires NoEdgeSpace(a + "," + b)
    ensures ParseLine(Quote(a + "," + b)) == [a + "," + b]
  {
    ParseEncodedLine([Quote(a + "," + b)], [a + "," + b]);
    assert Join([Quote(a + "," + b)], ",") == Quote(a + "," + b);
  }

  // ---------------------------------------------------------------------
  // parseCSV and getCSVHeaders
  // ---------------------------------------------------------------------

  /** `text.split(/\r?\n/)`: split at line feeds, each taking one preceding `\r`. */
  function SplitLines(text: string): (r: seq<string>)
    ensures |r| >= 1
  {
    var pieces := Split(text, '\n');
    seq(|pieces|, k requires 0 <= k < |pieces| =>
          if k < |pieces| - 1 && pieces[k] != [] && pieces[k][|pieces[k]| - 1] == '\r'
          then pieces[k][..|pieces[k]| - 1] else pieces[k])
  }

  /** `lines.filter(line => line.trim())`. */
  function NonBlank(lines: seq<string>): (r: seq<string>)
    ensures |r| <= |lines|
    ensures forall k :: 0 <= k < |r| ==> Trim(r[k]) != "" && r[k] in lines
    ensures forall k :: 0 <= k < |lines| && Trim(lines[k]) != "" ==> lines[k] in r
  {
    if lines == [] then []
    else
      var rest := NonBlank(lines[1..]);
      assert forall k :: 1 <= k < |lines| ==> lines[k] == lines[1..][k - 1];
      if Trim(lines[0]) != "" then [lines[0]] + rest else rest
  }

  /** `values[i] || ''`. */
  function ValueAt(values: seq<string>, i: nat): string
  {
    if i < |values| then values[i] else ""
  }

  /**
   * The row object built by `headers.forEach((h, i) => row[h] = values[i] || '')`:
   * a repeated header keeps its first position and its last value.
   */
  function RowOf(headers: seq<string>, values: seq<string>): Record<string>
  {
    if headers == [] then []
    else Put(RowOf(headers[..|headers| - 1], values), headers[|headers| - 1], ValueAt(values, |headers| - 1))
  }

  /** The row's keys are the headers, and nothing else. */
  lemma {:induction false} RowKeys(headers: seq<string>, values: seq<string>)
    ensures forall k :: k in Keys(RowOf(headers, values)) <==> k in headers
  {
    if headers != [] {
      var n := |headers| - 1;
      RowKeys(headers[..n], values);
      PutKeys(RowOf(headers[..n], values), headers[n], ValueAt(values, n));
      assert headers == headers[..n] + [headers[n]];
    }
  }

  /** Each header's value is the value at its last position, or '' past the end. */
  lemma {:induction false} RowValues(headers: seq<string>, values: seq<string>, i: nat)
    requires i < |headers|
    requires forall j :: i < j < |headers| ==> headers[j] != headers[i]
    ensures Get(RowOf(headers, values), headers[i]) == Some(ValueAt(values, i))
  {
    var n := |headers| - 1;
    var prev := RowOf(headers[..n], values);
    assert RowOf(headers, values) == Put(prev, headers[n], ValueAt(values, n));
    if i < n {
      var init := headers[..n];
      assert init[i] == headers[i];
      assert forall j :: i < j < n ==> init[j] == headers[j];
      RowValues(init, values, i);
      assert headers[n] != headers[i];
    }
  }

  predicate Distinct(xs: seq<string>)
  {
    forall i, j :: 0 <= i < j < |xs| ==> xs[i] != xs[j]
  }

  /** With distinct headers the row's keys are the headers, in header order. */
  lemma {:induction false} RowKeysAreHeaders(headers: seq<string>, values: seq<string>)
    requires Distinct(headers)
    ensures Keys(RowOf(headers, values)) == headers
  {
    if headers != [] {
      var n := |headers| - 1;
      var init := headers[..n];
      assert Distinct(init) by {
        forall i, j | 0 <= i < j < |init| ensures init[i] != init[j] {
          assert init[i] == headers[i] && init[j] == headers[j];
        }
      }
      RowKeysAreHeaders(init, values);
      var prev := RowOf(init, values);
      assert headers[n] !in Keys(prev) by {
        forall i | 0 <= i < |init| ensures init[i] != headers[n] {
          assert init[i] == headers[i];
        }
      }
      PutKeys(prev, headers[n], ValueAt(values, n));
      assert headers == init + [headers[n]];
    }
  }

  /** The header line of a text: the first of its lines. */
  function HeaderLine(text: string): string
  {
    SplitLines(text)[0]
  }

  /** The data lines that parseCSV keeps: the non-blank ones after the header. */
  function DataLines(text: string): seq<string>
  {
    NonBlank(SplitLines(text)[1..])
  }

  /** parseCSV: one row per kept data line, keyed by the header line's fields. */
  function ParseCsv(text: string): (rows: seq<Record<string>>)
    ensures |rows| == |DataLines(text)|
    ensures forall i :: 0 <= i < |rows| ==> rows[i] == RowOf(ParseLine(HeaderLine(text)), ParseLine(DataLines(text)[i]))
  {
    var headers := ParseLine(HeaderLine(text));
    var data := DataLines(text);
    seq(|data|, k requires 0 <= k < |data| => RowOf(headers, ParseLine(data[k])))
  }

  /** Every parsed row has exactly the header line's fields as keys. */
  lemma ParsedRowKeys(text: string, i: nat)
    requires i < |ParseCsv(text)|
    ensures forall k :: k in Keys(ParseCsv(text)[i]) <==> k in ParseLine(HeaderLine(text))
  {
    RowKeys(ParseLine(HeaderLine(text)), ParseLine(DataLines(text)[i]));
  }

  /** getCSVHeaders: no headers for no rows, else the first row's keys. */
  function GetCsvHeaders(rows: seq<Record<string>>): (r: seq<string>)
    ensures rows == [] ==> r == []
    ensures rows != [] ==> r == Keys(rows[0])
  {
    if rows == [] then [] else Keys(rows[0])
  }

  /**
   * The headers reported for parsed text are its header line's fields when
   * those are distinct and some data line is kept.
   */
  lemma HeadersOfParsed(text: string)
    requires Distinct(ParseLine(HeaderLine(text)))
    requires |DataLines(text)| > 0
    ensures GetCsvHeaders(ParseCsv(text)) == ParseLine(HeaderLine(text))
  {
    RowKeysAreHeaders(ParseLine(HeaderLine(text)), ParseLine(DataLines(text)[0]));
  }
}
