// The pure helpers of the Load Calc parts seed script
// (src-tauri/scripts/seed_load_calc_parts.cjs): the voltage-type
// normalisation and the quote-aware CSV reader.

module SeedParts {
  import opened Common

  // ---------------------------------------------------------------------
  // normalizeVoltageType
  // ---------------------------------------------------------------------

  /** `VoltageType` of src/types/load-calc.ts. */
  datatype VoltageType = DC | Vac120Single | Vac230Three | Vac480Three | Vac480Single | Vac600Three | Legacy

  function VoltageName(v: VoltageType): (r: string)
  {
    match v
    case DC => "DC"
    case Vac120Single => "120VAC_1PH"
    case Vac230Three => "230VAC_3PH"
    case Vac480Three => "480VAC_3PH"
    case Vac480Single => "480VAC_1PH"
    case Vac600Three => "600VAC_3PH"
    case Legacy => "LEGACY"
  }

  /**
   * normalizeVoltageType: a missing or empty cell is LEGACY; otherwise the
   * trimmed, upper-cased text is classified.
   */
  function NormalizeVoltageType(src: Option<string>): (r: VoltageType)
    ensures src.None? || src == Some("") ==> r == Legacy
    ensures src.Some? && src.value != "" ==> r == Classify(ToUpper(Trim(src.value)))
  {
    if src.None? || src.value == "" then Legacy
    else Classify(ToUpper(Trim(src.value)))
  }

  /** The rules in order; the first that matches decides. */
  function Classify(s: string): (r: VoltageType)
    ensures r == DC <==> s == "DC"
    ensures r == Vac600Three ==> Includes(s, "600")
    ensures r == Legacy ==> !Includes(s, "120") && !Includes(s, "600")
  {
    if s == "DC" then DC
    else if Includes(s, "120") && Includes(s, "1") then Vac120Single
    else if Includes(s, "230") && Includes(s, "3") then Vac230Three
    else if Includes(s, "480") && Includes(s, "3") then Vac480Three
    else if Includes(s, "480") && Includes(s, "1") then Vac480Single
    else if Includes(s, "600") then Vac600Three
    else (PhaseTestRedundant(s); Legacy)
  }

  /** A text lacking some character of `sub` cannot contain `sub`. */
  lemma LacksExcludes(s: string, sub: string, k: nat)
    requires k < |sub| && Lacks(s, sub[k])
    ensures !Includes(s, sub)
  {
  }

  /**
   * The phase tests of the first two rules add nothing: a text containing
   * "120" contains "1", and one containing "230" contains "3".  So any 120 V
   * text is single phase and any 230 V text three phase.
   */
  lemma PhaseTestRedundant(s: string)
    ensures Includes(s, "120") ==> Includes(s, "1")
    ensures Includes(s, "230") ==> Includes(s, "3")
  {
    if Includes(s, "120") {
      var i :| OccursAt(s, "120", i);
      OccursWithin(s, "120", i, 0);
    }
    if Includes(s, "230") {
      var i :| OccursAt(s, "230", i);
      OccursWithin(s, "230", i, 1);
    }
  }

  /** Where `sub` occurs, each of its characters occurs on its own. */
  lemma OccursWithin(s: string, sub: string, i: int, k: nat)
    requires OccursAt(s, sub, i) && k < |sub|
    ensures OccursAt(s, [sub[k]], i + k)
  {
    assert s[i + k] == s[i..i + |sub|][k] == sub[k];
    assert s[i + k..i + k + 1] == [sub[k]];
  }

  /** Upper-casing a text without lower-case letters changes nothing. */
  lemma UpperFixed(s: string)
    requires forall i :: 0 <= i < |s| ==> !IsLowerLetter(s[i])
    ensures ToUpper(s) == s
  {
  }

  /** Each name is already trimmed and upper case, so it reads as itself. */
  lemma NameCanonical(v: VoltageType)
    ensures ToUpper(Trim(VoltageName(v))) == VoltageName(v)
  {
    var n := VoltageName(v);
    assert NoEdgeSpace(n);
    UpperFixed(n);
  }

  // Each name falls under its own rule and under no earlier one.

  lemma Classify120(s: string)
    requires s == "120VAC_1PH"
    ensures Classify(s) == Vac120Single
  {
    assert OccursAt(s, "120", 0);
    PhaseTestRedundant(s);
  }

  lemma Classify230(s: string)
    requires s == "230VAC_3PH"
    ensures Classify(s) == Vac230Three
  {
    LacksExcludes(s, "120", 0);
    assert OccursAt(s, "230", 0);
    PhaseTestRedundant(s);
  }

  lemma Classify480Three(s: string)
    requires s == "480VAC_3PH"
    ensures Classify(s) == Vac480Three
  {
    LacksExcludes(s, "120", 0);
    LacksExcludes(s, "230", 0);
    assert OccursAt(s, "480", 0);
    assert OccursAt(s, "3", 7);
  }

  lemma Classify480Single(s: string)
    requires s == "480VAC_1PH"
    ensures Classify(s) == Vac480Single
  {
    LacksExcludes(s, "120", 1);
    LacksExcludes(s, "230", 0);
    LacksExcludes(s, "3", 0);
    assert OccursAt(s, "480", 0);
    assert OccursAt(s, "1", 7);
  }

  lemma Classify600(s: string)
    requires s == "600VAC_3PH"
    ensures Classify(s) == Vac600Three
  {
    LacksExcludes(s, "120", 0);
    LacksExcludes(s, "230", 0);
    LacksExcludes(s, "480", 0);
    assert OccursAt(s, "600", 0);
  }

  lemma ClassifyLegacy(s: string)
    requires s == "LEGACY"
    ensures Classify(s) == Legacy
  {
    LacksExcludes(s, "120", 0);
    LacksExcludes(s, "230", 0);
    LacksExcludes(s, "480", 0);
    LacksExcludes(s, "600", 0);
  }

  lemma ClassifyName(v: VoltageType, n: string)
    requires n == VoltageName(v)
    ensures Classify(n) == v
  {
    match v
    case DC =>
    case Vac120Single => Classify120(n);
    case Vac230Three => Classify230(n);
    case Vac480Three => Classify480Three(n);
    case Vac480Single => Classify480Single(n);
    case Vac600Three => Classify600(n);
    case Legacy => ClassifyLegacy(n);
  }

  /** Every name normalises to itself, so normalising twice changes nothing. */
  lemma NormalizeIdempotent(src: Option<string>)
    ensures NormalizeVoltageType(Some(VoltageName(NormalizeVoltageType(src)))) == NormalizeVoltageType(src)
  {
    var v := NormalizeVoltageType(src);
    NameCanonical(v);
    ClassifyName(v, VoltageName(v));
  }

  /** A 24 V AC part has no rule of its own and falls back to LEGACY. */
  lemma Normalize24Vac(s: string)
    requires s == "24VAC"
    ensures NormalizeVoltageType(Some(s)) == Legacy
  {
    assert NoEdgeSpace(s);
    UpperFixed(s);
    LacksExcludes(s, "120", 0);
    LacksExcludes(s, "230", 1);
    LacksExcludes(s, "480", 1);
    LacksExcludes(s, "600", 0);
  }

  /** Case and surrounding blanks do not matter: " dc " is DC. */
  lemma NormalizeDcLoose(s: string)
    requires s == " dc "
    ensures NormalizeVoltageType(Some(s)) == DC
  {
    assert TrimStart(s) == "dc ";
    assert TrimEnd("dc ") == "dc";
    assert ToUpper("dc") == "DC";
  }

  // ---------------------------------------------------------------------
  // parseCSV
  // ---------------------------------------------------------------------

  /** The variables of parseCSV's loop. */
  datatype ScanState = ScanState(cur: string, row: seq<string>, rows: seq<seq<string>>, inQuotes: bool)

  const Start := ScanState("", [], [], false)

  /**
   * One iteration of the loop on the unread text `s`: how many characters
   * it consumes and the state after it.
   */
  function Step(s: string, st: ScanState): (r: (nat, ScanState))
    requires s != []
    ensures 1 <= r.0 <= |s|
    ensures r.0 == 2 ==> st.inQuotes && s[..2] == ['"', '"']
  {
    var c := s[0];
    if st.inQuotes then
      if c == '"' then
        if |s| > 1 && s[1] == '"' then (2, st.(cur := st.cur + ['"']))
        else (1, st.(inQuotes := false))
      else (1, st.(cur := st.cur + [c]))
    else if c == '"' then (1, st.(inQuotes := true))
    else if c == ',' then (1, st.(row := st.row + [st.cur], cur := ""))
    else if c == '\r' then (1, st)
    else if c == '\n' then (1, ScanState("", [], st.rows + [st.row + [st.cur]], false))
    else (1, st.(cur := st.cur + [c]))
  }

  /** The loop from a state to the end of the text. */
  function Run(s: string, st: ScanState): ScanState
    decreases |s|
  {
    if s == [] then st
    else
      var (n, next) := Step(s, st);
      Run(s[n..], next)
  }

  /** The last row is pushed only if it has something in it. */
  function Finish(st: ScanState): (r: seq<seq<string>>)
  {
    if |st.cur| > 0 || |st.row| > 0 then st.rows + [st.row + [st.cur]] else st.rows
  }

  function ParseCsv(text: string): seq<seq<string>>
  {
    Finish(Run(text, Start))
  }

  /** parseCSV's loop, which skips the second quote of a doubled pair. */
  method ParseCsvText(text: string) returns (rows: seq<seq<string>>)
    ensures rows == ParseCsv(text)
  {
    rows := [];
    var cur := "";
    var row: seq<string> := [];
    var inQuotes := false;
    var i := 0;
    while i < |text|
      invariant 0 <= i <= |text|
      invariant Run(text[i..], ScanState(cur, row, rows, inQuotes)) == Run(text, Start)
    {
      ghost var n := Step(text[i..], ScanState(cur, row, rows, inQuotes)).0;
      assert text[i..][n..] == text[i + n..];
      var ch := text[i];
      if inQuotes {
        if ch == '"' {
          if i + 1 < |text| && text[i + 1] == '"' {
            cur := cur + ['"'];
            i := i + 1;
          } else {
            inQuotes := false;
          }
        } else {
          cur := cur + [ch];
        }
      } else {
        if ch == '"' {
          inQuotes := true;
        } else if ch == ',' {
          row := row + [cur];
          cur := "";
        } else if ch == '\r' {
        } else if ch == '\n' {
          row := row + [cur];
          rows := rows + [row];
          row := [];
          cur := "";
        } else {
          cur := cur + [ch];
        }
      }
      i := i + 1;
    }
    if |cur| > 0 || |row| > 0 {
      row := row + [cur];
      rows := rows + [row];
    }
  }

  // Quoted text.

  /** Inside quotes, text without a quote is copied into the field as it is. */
  lemma {:induction false} QuotedRun(s: string, t: string, st: ScanState)
    requires st.inQuotes && Lacks(s, '"')
    ensures Run(s + t, st) == Run(t, st.(cur := st.cur + s))
    decreases |s|
  {
    if s != [] {
      assert (s + t)[1..] == s[1..] + t;
      QuotedRun(s[1..], t, st.(cur := st.cur + [s[0]]));
      assert st.cur + [s[0]] + s[1..] == st.cur + s;
    } else {
      assert s + t == t && st.cur + s == st.cur;
    }
  }

  /** Inside quotes, a doubled quote is one literal quote. */
  lemma DoubledQuote(t: string, st: ScanState)
    requires st.inQuotes
    ensures Run(['"', '"'] + t, st) == Run(t, st.(cur := st.cur + ['"']))
  {
    assert (['"', '"'] + t)[2..] == t;
  }

  /**
   * A quoted field, commas, carriage returns and newlines included, adds its
   * content to the current field and leaves the quotes.
   */
  lemma QuotedField(s: string, t: string, st: ScanState)
    requires !st.inQuotes && Lacks(s, '"')
    requires t == [] || t[0] != '"'
    ensures Run(['"'] + s + ['"'] + t, st) == Run(t, st.(cur := st.cur + s))
  {
    var text := ['"'] + s + ['"'] + t;
    var inside := st.(inQuotes := true);
    var tail := ['"'] + t;
    var filled := inside.(cur := st.cur + s);
    assert text[1..] == s + tail;
    OpenQuote(text, st);
    QuotedRun(s, tail, inside);
    assert tail[1..] == t;
    CloseQuote(tail, filled);
    assert filled.(inQuotes := false) == st.(cur := st.cur + s);
  }

  lemma OpenQuote(s: string, st: ScanState)
    requires s != [] && s[0] == '"' && !st.inQuotes
    ensures Run(s, st) == Run(s[1..], st.(inQuotes := true))
  {
  }

  lemma CloseQuote(s: string, st: ScanState)
    requires s != [] && s[0] == '"' && st.inQuotes && (|s| == 1 || s[1] != '"')
    ensures Run(s, st) == Run(s[1..], st.(inQuotes := false))
  {
  }

  /** A lone quoted field is one row of one field, whatever separators it holds. */
  lemma QuotedFieldAlone(s: string)
    requires s != [] && Lacks(s, '"')
    ensures ParseCsv(['"'] + s + ['"']) == [[s]]
  {
    var text := ['"'] + s + ['"'];
    QuotedField(s, [], Start);
    assert text + [] == text;
    assert Start.cur + s == s;
    var e := ScanState(s, [], [], false);
    assert Start.(cur := s) == e;
    assert Run(text, Start) == e;
    assert Finish(e) == [[] + [s]];
    assert [] + [s] == [s];
  }

  // Unquoted text: lines, then fields.

  /** The text without its carriage returns. */
  function DropCR(s: string): (r: string)
    ensures Lacks(r, '\r')
    ensures Lacks(s, ',') ==> Lacks(r, ',')
  {
    if s == [] then []
    else if s[0] == '\r' then DropCR(s[1..])
    else [s[0]] + DropCR(s[1..])
  }

  /**
   * A reading of unquoted text independent of the character loop: cut it
   * into lines at each newline, drop the carriage returns, split each line
   * at its commas; a last line with nothing in it gives no row.
   */
  function UnquotedRows(s: string): (r: seq<seq<string>>)
    decreases |s|
  {
    var k := IndexOf(s, '\n');
    if k == |s| then
      var fields := Split(DropCR(s), ',');
      if fields == [""] then [] else [fields]
    else [Split(DropCR(s[..k]), ',')] + UnquotedRows(s[k + 1..])
  }

  /** The loop over unquoted text is the loop over its pieces. */
  lemma {:induction false} RunConcat(s: string, t: string, st: ScanState)
    requires !st.inQuotes && Lacks(s, '"')
    ensures !Run(s, st).inQuotes
    ensures Run(s + t, st) == Run(t, Run(s, st))
    decreases |s|
  {
    if s != [] {
      var (n, next) := Step(s, st);
      assert Step(s + t, st) == (n, next);
      assert (s + t)[1..] == s[1..] + t;
      RunConcat(s[1..], t, next);
    } else {
      assert s + t == t;
    }
  }

  /** One line without quotes: its fields gather in `row` and `cur`. */
  lemma {:induction false} RunLine(s: string, st: ScanState)
    requires !st.inQuotes && Lacks(s, '"') && Lacks(s, '\n')
    ensures Run(s, st).rows == st.rows
    ensures Run(s, st).row + [Run(s, st).cur] == st.row + SplitFrom(DropCR(s), ',', st.cur)
    decreases |s|
  {
    if s != [] {
      var next := Step(s, st).1;
      RunLine(s[1..], next);
      if s[0] == ',' {
        assert DropCR(s) == [','] + DropCR(s[1..]);
        assert st.row + [st.cur] + SplitFrom(DropCR(s[1..]), ',', "")
            == st.row + ([st.cur] + SplitFrom(DropCR(s[1..]), ',', ""));
      } else if s[0] != '\r' {
        assert DropCR(s) == [s[0]] + DropCR(s[1..]);
        assert DropCR(s)[1..] == DropCR(s[1..]);
      }
    }
  }

  /** `Finish` reads the pending row as a whole. */
  lemma FinishPending(st: ScanState)
    ensures Finish(st) == if st.row + [st.cur] == [""] then st.rows else st.rows + [st.row + [st.cur]]
  {
    if st.row + [st.cur] == [""] {
      assert st.row == [] by { assert |st.row + [st.cur]| == |st.row| + 1; }
      assert st.cur == (st.row + [st.cur])[0];
    }
  }

  /** A whole line and its newline push the line's fields as one row. */
  lemma LineThenNewline(line: string, rest: string, rows: seq<seq<string>>)
    requires Lacks(line, '"') && Lacks(line, '\n')
    ensures Run(line + (['\n'] + rest), ScanState("", [], rows, false))
         == Run(rest, ScanState("", [], rows + [Split(DropCR(line), ',')], false))
  {
    var st := ScanState("", [], rows, false);
    RunLine(line, st);
    RunConcat(line, ['\n'] + rest, st);
    var e := Run(line, st);
    assert e.row + [e.cur] == Split(DropCR(line), ',') by {
      assert [] + SplitFrom(DropCR(line), ',', "") == SplitFrom(DropCR(line), ',', "");
    }
    assert Step(['\n'] + rest, e) == (1, ScanState("", [], rows + [Split(DropCR(line), ',')], false));
    assert (['\n'] + rest)[1..] == rest;
  }

  /** The last line, without a newline, is a row unless it is empty. */
  lemma LastLine(s: string, rows: seq<seq<string>>)
    requires Lacks(s, '"') && Lacks(s, '\n')
    ensures var fields := Split(DropCR(s), ',');
            Finish(Run(s, ScanState("", [], rows, false))) == rows + (if fields == [""] then [] else [fields])
  {
    var st := ScanState("", [], rows, false);
    RunLine(s, st);
    var e := Run(s, st);
    var fields := Split(DropCR(s), ',');
    assert e.row + [e.cur] == fields by {
      assert [] + SplitFrom(DropCR(s), ',', "") == SplitFrom(DropCR(s), ',', "");
    }
    FinishPending(e);
    assert rows + [] == rows;
  }

  lemma ConsAssoc<T>(a: seq<T>, x: T, b: seq<T>)
    ensures a + [x] + b == a + ([x] + b)
  {
  }

  /** From the start of a line, the loop reads unquoted text as UnquotedRows does. */
  lemma {:induction false} RowsFrom(s: string, rows: seq<seq<string>>)
    requires Lacks(s, '"')
    ensures Finish(Run(s, ScanState("", [], rows, false))) == rows + UnquotedRows(s)
    decreases |s|
  {
    var k := IndexOf(s, '\n');
    if k == |s| {
      LastLine(s, rows);
    } else {
      var line, rest := s[..k], s[k + 1..];
      var fields := Split(DropCR(line), ',');
      assert UnquotedRows(s) == [fields] + UnquotedRows(rest);
      assert Lacks(line, '\n');
      assert s == line + (['\n'] + rest);
      var st1 := ScanState("", [], rows + [fields], false);
      LineThenNewline(line, rest, rows);
      assert Run(s, ScanState("", [], rows, false)) == Run(rest, st1);
      RowsFrom(rest, rows + [fields]);
      ConsAssoc(rows, fields, UnquotedRows(rest));
    }
  }

  /**
   * Without quotes, parseCSV is lines split at commas: carriage returns are
   * dropped, nothing is trimmed, and a trailing newline adds no empty row.
   */
  lemma UnquotedIsSplit(text: string)
    requires Lacks(text, '"')
    ensures ParseCsv(text) == UnquotedRows(text)
  {
    RowsFrom(text, []);
    assert [] + UnquotedRows(text) == UnquotedRows(text);
  }

  /** A final newline after a line with content adds no row. */
  lemma TrailingNewline(text: string)
    requires Lacks(text, '"') && Lacks(text, '\n') && DropCR(text) != ""
    ensures ParseCsv(text + "\n") == ParseCsv(text)
    ensures |ParseCsv(text)| == 1
  {
    UnquotedIsSplit(text);
    UnquotedIsSplit(text + "\n");
    var k := IndexOf(text + "\n", '\n');
    assert k == |text| by {
      assert (text + "\n")[|text|] == '\n';
    }
    assert (text + "\n")[..k] == text;
    assert UnquotedRows([]) == [];
    SplitNonEmpty(DropCR(text));
  }

  /** Only the empty text splits into the one empty field. */
  lemma SplitNonEmpty(s: string)
    requires s != ""
    ensures Split(s, ',') != [""]
  {
    if s[0] == ',' {
      assert |Split(s, ',')| >= 2;
    } else {
      SplitFromKeeps(s[1..], [s[0]]);
      assert Split(s, ',') == SplitFrom(s[1..], ',', [s[0]]) by { assert "" + [s[0]] == [s[0]]; }
    }
  }

  lemma {:induction false} SplitFromKeeps(s: string, current: string)
    requires current != ""
    ensures SplitFrom(s, ',', current)[0] != ""
    decreases |s|
  {
    if s != [] && s[0] != ',' {
      SplitFromKeeps(s[1..], current + [s[0]]);
    }
  }

  /** Fields keep their blanks: trimming is the caller's job. */
  lemma NoTrim(s: string)
    requires s != [] && Lacks(s, '"') && Lacks(s, '\n') && Lacks(s, '\r') && Lacks(s, ',')
    ensures ParseCsv(s) == [[s]]
  {
    assert Start == ScanState("", [], [], false);
    LastLine(s, []);
    DropCRPlain(s);
    SplitFromPlain(s, "");
    assert "" + s == s;
    assert [s] != [""];
    assert [] + [[s]] == [[s]];
  }

  lemma {:induction false} DropCRPlain(s: string)
    requires Lacks(s, '\r')
    ensures DropCR(s) == s
    decreases |s|
  {
    if s != [] {
      DropCRPlain(s[1..]);
    }
  }

  lemma {:induction false} SplitFromPlain(s: string, current: string)
    requires Lacks(s, ',')
    ensures SplitFrom(s, ',', current) == [current + s]
    decreases |s|
  {
    if s != [] {
      SplitFromPlain(s[1..], current + [s[0]]);
      assert current + [s[0]] + s[1..] == current + s;
    } else {
      assert current + s == current;
    }
  }
}
