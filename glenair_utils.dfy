// Wire-gauge parsing and formatting, the size tables and the Series 80
// part-number template of the Glenair builder (src/lib/glenair/utils.ts).

module GlenairUtils {
  import opened Common
  import ImportUtils

  /** `AWG_TO_MM2`: cross-section in mm² of each AWG size. */
  const AwgToMm2: map<int, real> := map[
    4 := 21.15, 6 := 13.30, 8 := 8.37, 10 := 5.26, 12 := 3.31, 14 := 2.08, 16 := 1.31,
    18 := 0.82, 20 := 0.52, 22 := 0.33, 24 := 0.20, 26 := 0.13, 28 := 0.08, 30 := 0.05,
    32 := 0.03, 34 := 0.02, 36 := 0.013, 40 := 0.005]

  /** `STANDARD_WIRE_SIZES.awg`, thinnest first. */
  const StandardAwg: seq<string> :=
    ["40", "36", "34", "32", "30", "28", "26", "24", "22", "20", "18", "16", "14", "12", "10", "8", "6", "4"]

  /** `STANDARD_WIRE_SIZES.mm2`, in the same order. */
  const StandardMm2: seq<string> :=
    ["0.005", "0.013", "0.02", "0.03", "0.05", "0.08", "0.13", "0.20", "0.33", "0.52", "0.82", "1.31", "2.08",
     "3.31", "5.26", "8.37", "13.30", "21.15"]

  /** The value handed to `parseAwgValue`: a number, a string, or null/undefined. */
  datatype AwgInput = AwgNull | AwgNumber(x: real) | AwgText(s: string)

  /** `parseInt(s, 10)`: leading white space, an optional sign, then the longest run of digits; NaN is None. */
  function JsParseInt(s: string): (r: Option<int>)
    ensures r.Some? ==> exists k :: 0 <= k < |s| && IsDigit(s[k])
  {
    var t := TrimStart(s);
    var neg := t != [] && t[0] == '-';
    var start := if t != [] && (t[0] == '-' || t[0] == '+') then 1 else 0;
    var n := ImportUtils.DigitRun(t, start);
    if n == 0 then None
    else
      assert IsDigit(s[|s| - |t| + start]) by { assert t[start] == s[|s| - |t| + start]; }
      var v := DigitsValue(t[start..start + n]);
      Some(if neg then -(v as int) else v as int)
  }

  /** parseInt reads a plain run of digits as its value. */
  lemma {:induction false} JsParseIntDigits(s: string)
    requires s != [] && forall k :: 0 <= k < |s| ==> IsDigit(s[k])
    ensures JsParseInt(s) == Some(DigitsValue(s) as int)
  {
    assert !IsSpace(s[0]);
    assert TrimStart(s) == s;
    var t := TrimStart(s);
    assert t[0] != '-' && t[0] != '+';
    DigitRunAll(s, 0);
    assert ImportUtils.DigitRun(t, 0) == |s|;
    assert s[0..|s|] == s;
  }

  /** `parseFloat` on trimmed text: an optional sign, then an unsigned decimal. */
  function JsParseFloat(t: string): (r: Option<real>)
  {
    if t != [] && t[0] == '-' then
      var u := ImportUtils.ParseFloat(t[1..]);
      if u.Some? then Some(-u.value) else None
    else if t != [] && t[0] == '+' then ImportUtils.ParseFloat(t[1..])
    else ImportUtils.ParseFloat(t)
  }

  /** The `N/0` branch: the text before the first '/' and the text up to the next '/'. */
  function SlashGauge(v: string): (r: Option<real>)
    ensures r.Some? ==> r.value <= 0.0
    ensures Lacks(v, '/') ==> r.None?
  {
    var i := IndexOf(v, '/');
    if i == |v| then None
    else
      var rest := v[i + 1..];
      var numStr := v[..i];
      var denomStr := rest[..IndexOf(rest, '/')];
      var num := JsParseInt(numStr);
      var denom := JsParseInt(denomStr);
      if num.Some? && denom == Some(0) then Some(-(if num.value < 0 then -num.value else num.value) as real)
      else None
  }

  /** parseAwgValue: numbers pass through, `N/0` is −N, otherwise parseFloat; null when nothing parses. */
  function ParseAwgValue(value: AwgInput): (r: Option<real>)
    ensures value.AwgNull? ==> r.None?
    ensures value.AwgNumber? ==> r == Some(value.x)
  {
    match value
    case AwgNull => None
    case AwgNumber(x) => Some(x)
    case AwgText(s) =>
      var v := Trim(s);
      var slash := SlashGauge(v);
      if slash.Some? then slash
      else if v == "0" then Some(0.0)
      else JsParseFloat(v)
  }

  /** The AWG branch of formatWireValue on whole gauges: −1 … −4 print as `1/0` … `4/0`, other values as the number. */
  function FormatAwg(value: int): (r: string)
    ensures -4 <= value <= -1 ==> r == [DigitChar(-value), '/', '0']
    ensures (value < -4 || value >= 0) ==> r == IntToString(value)
  {
    if value == -1 then "1/0"
    else if value == -2 then "2/0"
    else if value == -3 then "3/0"
    else if value == -4 then "4/0"
    else IntToString(value)
  }

  lemma {:induction false} DigitRunAll(s: string, i: nat)
    requires i <= |s| && forall k :: i <= k < |s| ==> IsDigit(s[k])
    ensures ImportUtils.DigitRun(s, i) == |s| - i
    decreases |s| - i
  {
    if i < |s| {
      DigitRunAll(s, i + 1);
    }
  }

  /** parseFloat reads the decimal digits of a natural number back as that number. */
  lemma {:induction false} ParseNatText(n: nat)
    ensures ImportUtils.ParseFloat(NatToString(n)) == Some(n as real)
  {
    var t := NatToString(n);
    DigitRunAll(t, 0);
    assert t[..|t|] == t;
    NatToStringRoundTrip(n);
  }

  lemma {:induction false} IntTextPlain(v: int)
    ensures NoEdgeSpace(IntToString(v)) && Lacks(IntToString(v), '/')
  {
    var t := IntToString(v);
    var d := if v < 0 then NatToString(-v) else NatToString(v);
    assert v < 0 ==> forall k :: 1 <= k < |t| ==> t[k] == d[k - 1];
  }

  /** The `N/0` branch reads a digit, a slash and a zero as minus that digit. */
  lemma {:induction false} SlashOfDigit(v: string, c: char)
    requires IsDigit(c) && v == [c, '/', '0']
    ensures SlashGauge(v) == Some(-(DigitValue(c) as real))
  {
    assert IndexOf(v, '/') == 1;
    var rest := v[2..];
    assert rest == ['0'];
    assert IndexOf(rest, '/') == 1;
    assert rest[..1] == rest;
    assert v[..1] == [c];
    JsParseIntDigits([c]);
    JsParseIntDigits(rest);
  }

  /** Trimmed text that reads as `N/0` is parsed by that branch. */
  lemma SlashFirst(t: string)
    requires NoEdgeSpace(t) && SlashGauge(t).Some?
    ensures ParseAwgValue(AwgText(t)) == SlashGauge(t)
  {
    assert Trim(t) == t;
  }

  /** A digit, a slash and a zero read back as minus the digit. */
  lemma {:induction false} SlashTextOfDigit(t: string, c: char)
    requires IsDigit(c) && t == [c, '/', '0']
    ensures ParseAwgValue(AwgText(t)) == Some(-(DigitValue(c) as real))
  {
    assert NoEdgeSpace(t) by {
      assert t[0] == c && t[|t| - 1] == '0';
    }
    SlashOfDigit(t, c);
    SlashFirst(t);
  }

  lemma DigitValueIs(c: char, d: int)
    requires IsDigit(c) && c as int == '0' as int + d
    ensures DigitValue(c) == d
  {
  }

  lemma NegatedSome(x: Option<real>, c: char, value: int)
    requires IsDigit(c) && DigitValue(c) == -value
    requires x == Some(-(DigitValue(c) as real))
    ensures x == Some(value as real)
  {
  }

  /** A digit for −value, a slash and a zero read back as value. */
  lemma SlashGaugeOfChar(t: string, c: char, value: int)
    requires IsDigit(c) && t == [c, '/', '0'] && c as int == '0' as int - value
    ensures ParseAwgValue(AwgText(t)) == Some(value as real)
  {
    SlashTextOfDigit(t, c);
    DigitValueIs(c, -value);
    NegatedSome(ParseAwgValue(AwgText(t)), c, value);
  }

  /** `1/0` … `4/0` read back as −1 … −4. */
  lemma {:induction false} SlashGaugeRoundTrip(value: int)
    requires -4 <= value <= -1
    ensures ParseAwgValue(AwgText(FormatAwg(value))) == Some(value as real)
  {
    SlashGaugeOfChar(FormatAwg(value), DigitChar(-value), value);
  }

  /** Text without '/' and without edge spaces goes straight to parseFloat (or is "0"). */
  lemma {:induction false} PlainText(t: string)
    requires NoEdgeSpace(t) && Lacks(t, '/')
    ensures ParseAwgValue(AwgText(t)) == if t == "0" then Some(0.0) else JsParseFloat(t)
  {
    assert Trim(t) == t;
    assert SlashGauge(t).None?;
  }

  /** Non-negative whole gauges read back through parseFloat. */
  lemma {:induction false} NaturalGaugeRoundTrip(value: nat)
    ensures ParseAwgValue(AwgText(NatToString(value))) == Some(value as real)
  {
    var t := NatToString(value);
    IntTextPlain(value);
    PlainText(t);
    ParseNatText(value);
    if t == "0" {
      NatToStringRoundTrip(value);
    } else {
      assert IsDigit(t[0]);
    }
  }

  /** Gauges below −4 read back through parseFloat's sign. */
  lemma {:induction false} NegativeGaugeRoundTrip(value: int)
    requires value < 0
    ensures ParseAwgValue(AwgText("-" + NatToString(-value))) == Some(value as real)
  {
    var d := NatToString(-value);
    var t := "-" + d;
    IntTextPlain(value);
    PlainText(t);
    assert t[1..] == d;
    ParseNatText(-value);
  }

  /** Formatting a whole AWG gauge and parsing it back gives the gauge. */
  lemma {:induction false} AwgRoundTrip(value: int)
    ensures ParseAwgValue(AwgText(FormatAwg(value))) == Some(value as real)
  {
    if value < -4 || value >= 0 {
      if value >= 0 {
        NaturalGaugeRoundTrip(value);
      } else {
        NegativeGaugeRoundTrip(value);
      }
    } else {
      SlashGaugeRoundTrip(value);
    }
  }

  /** parseFloat on `<digits>.<digits>`. */
  lemma {:induction false} ParseDecimal(whole: string, frac: string)
    requires whole != [] && frac != []
    requires forall k :: 0 <= k < |whole| ==> IsDigit(whole[k])
    requires forall k :: 0 <= k < |frac| ==> IsDigit(frac[k])
    ensures ImportUtils.ParseFloat(whole + "." + frac) == Some(DigitsValue(whole) as real + ImportUtils.FracValue(frac))
  {
    var t := whole + "." + frac;
    var n := |whole|;
    assert t[..n] == whole;
    assert t[n] == '.';
    DigitRunPrefix(t, whole, 0);
    assert t[n + 1..] == frac;
    DigitRunAll(frac, 0);
    DigitRunShift(t, n + 1);
    assert t[n + 1..n + 1 + |frac|] == frac;
  }

  /** A run of digits is measured the same inside a longer text as on its own suffix. */
  lemma {:induction false} DigitRunShift(t: string, i: nat)
    requires i <= |t|
    ensures ImportUtils.DigitRun(t, i) == ImportUtils.DigitRun(t[i..], 0)
    decreases |t| - i
  {
    if i < |t| && IsDigit(t[i]) {
      DigitRunShift(t, i + 1);
      DigitRunShift(t[i..], 1);
      assert t[i..][1..] == t[i + 1..];
    }
  }

  lemma {:induction false} DigitRunPrefix(t: string, w: string, i: nat)
    requires i <= |w| < |t| && t[..|w|] == w && !IsDigit(t[|w|])
    requires forall k :: i <= k < |w| ==> IsDigit(w[k])
    ensures ImportUtils.DigitRun(t, i) == |w| - i
    decreases |w| - i
  {
    if i < |w| {
      assert t[i] == w[i];
      DigitRunPrefix(t, w, i + 1);
    }
  }

  /** The table entry for the AWG size `awg` is the mm² text `whole.frac`. */
  predicate SizeRow(awg: string, whole: string, frac: string)
  {
    awg != [] && whole != [] && frac != [] &&
    (forall k :: 0 <= k < |awg| ==> IsDigit(awg[k])) &&
    (forall k :: 0 <= k < |whole| ==> IsDigit(whole[k])) &&
    (forall k :: 0 <= k < |frac| ==> IsDigit(frac[k])) &&
    DigitsValue(awg) in AwgToMm2 &&
    AwgToMm2[DigitsValue(awg)] == DigitsValue(whole) as real + ImportUtils.FracValue(frac)
  }

  lemma {:induction false} SizeRowParses(awg: string, whole: string, frac: string)
    requires SizeRow(awg, whole, frac)
    ensures var g := JsParseInt(awg);
            g.Some? && g.value in AwgToMm2 && ImportUtils.ParseFloat(whole + "." + frac) == Some(AwgToMm2[g.value])
  {
    JsParseIntDigits(awg);
    ParseDecimal(whole, frac);
  }

  lemma Gauge40()
    ensures SizeRow("40", "0", "005") && "0.005" == "0" + "." + "005"
  {
  }

  lemma Gauge36()
    ensures SizeRow("36", "0", "013") && "0.013" == "0" + "." + "013"
  {
  }

  lemma Gauge34()
    ensures SizeRow("34", "0", "02") && "0.02" == "0" + "." + "02"
  {
  }

  lemma Gauge32()
    ensures SizeRow("32", "0", "03") && "0.03" == "0" + "." + "03"
  {
  }

  lemma Gauge30()
    ensures SizeRow("30", "0", "05") && "0.05" == "0" + "." + "05"
  {
  }

  lemma Gauge28()
    ensures SizeRow("28", "0", "08") && "0.08" == "0" + "." + "08"
  {
  }

  lemma Gauge26()
    ensures SizeRow("26", "0", "13") && "0.13" == "0" + "." + "13"
  {
  }

  lemma Gauge24()
    ensures SizeRow("24", "0", "20") && "0.20" == "0" + "." + "20"
  {
  }

  lemma Gauge22()
    ensures SizeRow("22", "0", "33") && "0.33" == "0" + "." + "33"
  {
  }

  lemma Gauge20()
    ensures SizeRow("20", "0", "52") && "0.52" == "0" + "." + "52"
  {
  }

  lemma Gauge18()
    ensures SizeRow("18", "0", "82") && "0.82" == "0" + "." + "82"
  {
  }

  lemma Gauge16()
    ensures SizeRow("16", "1", "31") && "1.31" == "1" + "." + "31"
  {
  }

  lemma Gauge14()
    ensures SizeRow("14", "2", "08") && "2.08" == "2" + "." + "08"
  {
  }

  lemma Gauge12()
    ensures SizeRow("12", "3", "31") && "3.31" == "3" + "." + "31"
  {
  }

  lemma Gauge10()
    ensures SizeRow("10", "5", "26") && "5.26" == "5" + "." + "26"
  {
  }

  lemma Gauge8()
    ensures SizeRow("8", "8", "37") && "8.37" == "8" + "." + "37"
  {
  }

  lemma Gauge6()
    ensures SizeRow("6", "13", "30") && "13.30" == "13" + "." + "30"
  {
  }

  lemma Gauge4()
    ensures SizeRow("4", "21", "15") && "21.15" == "21" + "." + "15"
  {
  }

  lemma Row(i: nat)
    requires i < 18
    ensures SizeRow(StandardAwg[i], Wholes[i], Fracs[i]) && StandardMm2[i] == Wholes[i] + "." + Fracs[i]
  {
    if i == 0 {
      Gauge40();
    } else if i == 1 {
      Gauge36();
    } else if i == 2 {
      Gauge34();
    } else if i == 3 {
      Gauge32();
    } else if i == 4 {
      Gauge30();
    } else if i == 5 {
      Gauge28();
    } else if i == 6 {
      Gauge26();
    } else if i == 7 {
      Gauge24();
    } else if i == 8 {
      Gauge22();
    } else if i == 9 {
      Gauge20();
    } else if i == 10 {
      Gauge18();
    } else if i == 11 {
      Gauge16();
    } else if i == 12 {
      Gauge14();
    } else if i == 13 {
      Gauge12();
    } else if i == 14 {
      Gauge10();
    } else if i == 15 {
      Gauge8();
    } else if i == 16 {
      Gauge6();
    } else if i == 17 {
      Gauge4();
    }
  }

  const Wholes: seq<string> := ["0", "0", "0", "0", "0", "0", "0", "0", "0", "0", "0", "1", "2", "3", "5", "8", "13", "21"]
  const Fracs: seq<string> := ["005", "013", "02", "03", "05", "08", "13", "20", "33", "52", "82", "31", "08", "31", "26", "37", "30", "15"]

  /** The two size lists have 18 entries, and each mm² entry is the table's value for the AWG entry beside it. */
  lemma WireSizeTables()
    ensures |StandardAwg| == 18 && |StandardMm2| == 18
    ensures forall i :: 0 <= i < 18 ==>
              var g := JsParseInt(StandardAwg[i]);
              g.Some? && g.value in AwgToMm2 && ImportUtils.ParseFloat(StandardMm2[i]) == Some(AwgToMm2[g.value])
  {
    forall i | 0 <= i < 18
      ensures var g := JsParseInt(StandardAwg[i]);
              g.Some? && g.value in AwgToMm2 && ImportUtils.ParseFloat(StandardMm2[i]) == Some(AwgToMm2[g.value])
    {
      Row(i);
      SizeRowParses(StandardAwg[i], Wholes[i], Fracs[i]);
    }
  }

  /** buildPartNumber: `80<shell>-<arrangement>-<contact type><keying>`. */
  function BuildPartNumber(shellStyle: string, arrangement: string, contactType: string, keying: string): (r: string)
    ensures |r| == 4 + |shellStyle| + |arrangement| + |contactType| + |keying|
    ensures r[..2] == "80"
  {
    "80" + shellStyle + "-" + arrangement + "-" + contactType + keying
  }

  /** Splitting a part number at its dashes gives back its three fields when none of them holds a dash. */
  lemma {:induction false} PartNumberFields(shellStyle: string, arrangement: string, contactType: string, keying: string)
    requires Lacks(shellStyle, '-') && Lacks(arrangement, '-') && Lacks(contactType + keying, '-')
    ensures Split(BuildPartNumber(shellStyle, arrangement, contactType, keying), '-') ==
            ["80" + shellStyle, arrangement, contactType + keying]
  {
    var a := "80" + shellStyle;
    var c := contactType + keying;
    assert Lacks(a, '-') by {
      forall i | 0 <= i < |a|
        ensures a[i] != '-'
      {
        if i >= 2 {
          assert a[i] == shellStyle[i - 2];
        }
      }
    }
    assert BuildPartNumber(shellStyle, arrangement, contactType, keying) == a + "-" + arrangement + "-" + c;
    SplitThree(a, arrangement, c);
  }

  lemma {:induction false} SplitThree(a: string, b: string, c: string)
    requires Lacks(a, '-') && Lacks(b, '-') && Lacks(c, '-')
    ensures Split(a + "-" + b + "-" + c, '-') == [a, b, c]
  {
    assert a + "-" + b + "-" + c == a + "-" + (b + "-" + c);
    SplitLacking(a, b + "-" + c, "");
    SplitLacking(b, c, "");
    SplitWhole(c, "");
    assert "" + a == a && "" + b == b && "" + c == c;
  }

  lemma {:induction false} SplitWhole(s: string, current: string)
    requires Lacks(s, '-')
    ensures SplitFrom(s, '-', current) == [current + s]
    decreases |s|
  {
    if s == [] {
      assert current + s == current;
    } else {
      SplitWhole(s[1..], current + [s[0]]);
      assert current + [s[0]] + s[1..] == current + s;
    }
  }

  lemma {:induction false} SplitLacking(a: string, rest: string, current: string)
    requires Lacks(a, '-')
    ensures SplitFrom(a + "-" + rest, '-', current) == [current + a] + SplitFrom(rest, '-', "")
    decreases |a|
  {
    if a == [] {
      assert a + "-" + rest == ['-'] + rest;
      assert (['-'] + rest)[1..] == rest;
      assert current + a == current;
    } else {
      assert (a + "-" + rest)[1..] == a[1..] + "-" + rest;
      SplitLacking(a[1..], rest, current + [a[0]]);
      assert current + [a[0]] + a[1..] == current + a;
    }
  }
}
