// Shared vocabulary for the whole model: optional values and results, the
// JavaScript value kinds that reach the core through untyped records, and the
// string and number helpers (trim, whitespace collapse, lower-casing, search,
// split/join, rounding, decimal text) that the TypeScript code takes from the
// runtime.

module Common {

  datatype Option<T> = None | Some(value: T)

  datatype Result<T> = Ok(value: T) | Err(msg: string)
  {
    predicate IsOk() { Ok? }
  }

  // ---------------------------------------------------------------------
  // JavaScript values that arrive as `unknown` (spreadsheet cells, record
  // fields).  NaN and objects are not modelled.
  // ---------------------------------------------------------------------

  datatype JsValue = Undefined | Null | Str(s: string) | Num(n: real) | Bool(b: bool)

  /** A toast notification: `toast.success(text)` or `toast.error(text)`. */
  datatype Toast = SuccessToast(text: string) | ErrorToast(text: string)

  /** JavaScript truthiness: '', 0, false, null and undefined are falsy. */
  predicate Truthy(v: JsValue)
  {
    match v
    case Undefined => false
    case Null => false
    case Str(s) => s != ""
    case Num(n) => n != 0.0
    case Bool(b) => b
  }

  /** `String(v)` for the value kinds above. */
  function JsString(v: JsValue): (r: string)
    ensures v.Str? ==> r == v.s
    ensures v.Num? && v.n.Floor as real == v.n ==> r == IntToString(v.n.Floor)
  {
    match v
    case Undefined => "undefined"
    case Null => "null"
    case Str(s) => s
    case Num(n) => NumberToString(n)
    case Bool(b) => if b then "true" else "false"
  }

  /** `v ? String(v) : ''` — the idiom used to read optional cells. */
  function TextOrEmpty(v: JsValue): (r: string)
    ensures !Truthy(v) ==> r == ""
    ensures v.Str? ==> r == v.s
  {
    if Truthy(v) then JsString(v) else ""
  }

  // ---------------------------------------------------------------------
  // Characters
  // ---------------------------------------------------------------------

  /** The ASCII members of the `\s` class used by `trim` and `/\s+/`. */
  predicate IsSpace(c: char)
  {
    c == ' ' || c == '\t' || c == '\n' || c == '\r' || c == '\U{000B}' || c == '\U{000C}'
  }

  predicate IsUpper(c: char) { 'A' <= c <= 'Z' }

  predicate IsLowerLetter(c: char) { 'a' <= c <= 'z' }

  predicate IsDigit(c: char) { '0' <= c <= '9' }

  function LowerChar(c: char): (r: char)
    ensures !IsUpper(r)
    ensures !IsUpper(c) ==> r == c
  {
    if IsUpper(c) then (c as int + 32) as char else c
  }

  function UpperChar(c: char): (r: char)
    ensures !IsLowerLetter(r)
    ensures !IsLowerLetter(c) ==> r == c
  {
    if IsLowerLetter(c) then (c as int - 32) as char else c
  }

  /** `toLowerCase`, restricted to ASCII letters. */
  function ToLower(s: string): (r: string)
    ensures |r| == |s|
    ensures forall i :: 0 <= i < |s| ==> r[i] == LowerChar(s[i])
  {
    if s == [] then [] else [LowerChar(s[0])] + ToLower(s[1..])
  }

  /** `toUpperCase`, restricted to ASCII letters. */
  function ToUpper(s: string): (r: string)
    ensures |r| == |s|
    ensures forall i :: 0 <= i < |s| ==> r[i] == UpperChar(s[i])
  {
    if s == [] then [] else [UpperChar(s[0])] + ToUpper(s[1..])
  }

  predicate NoUpper(s: string) { forall i :: 0 <= i < |s| ==> !IsUpper(s[i]) }

  lemma ToLowerIsLower(s: string)
    ensures NoUpper(ToLower(s))
    ensures ToLower(ToLower(s)) == ToLower(s)
  {
  }

  // ---------------------------------------------------------------------
  // trim and whitespace collapsing
  // ---------------------------------------------------------------------

  function TrimStart(s: string): (r: string)
    ensures |r| <= |s| && r == s[|s| - |r|..]
    ensures r == [] || !IsSpace(r[0])
    ensures forall i :: 0 <= i < |s| - |r| ==> IsSpace(s[i])
  {
    if s != [] && IsSpace(s[0]) then TrimStart(s[1..]) else s
  }

  function TrimEnd(s: string): (r: string)
    ensures |r| <= |s| && r == s[..|r|]
    ensures r == [] || !IsSpace(r[|r| - 1])
    ensures forall i :: |r| <= i < |s| ==> IsSpace(s[i])
  {
    if s != [] && IsSpace(s[|s| - 1]) then TrimEnd(s[..|s| - 1]) else s
  }

  predicate NoEdgeSpace(s: string)
  {
    s == [] || (!IsSpace(s[0]) && !IsSpace(s[|s| - 1]))
  }

  /** `String.prototype.trim`. */
  function Trim(s: string): (r: string)
    ensures NoEdgeSpace(r)
    ensures |r| <= |s|
    ensures NoEdgeSpace(s) ==> r == s
  {
    TrimEnd(TrimStart(s))
  }

  lemma TrimIdempotent(s: string)
    ensures Trim(Trim(s)) == Trim(s)
  {
  }

  /** All-whitespace strings, and only those, trim to ''. */
  lemma TrimEmptyIff(s: string)
    ensures Trim(s) == [] <==> forall i :: 0 <= i < |s| ==> IsSpace(s[i])
  {
  }

  /** The trimmed string is a slice of the original, starting at `a`. */
  lemma TrimIsSlice(s: string) returns (a: nat)
    ensures a + |Trim(s)| <= |s| && Trim(s) == s[a..a + |Trim(s)|]
  {
    var t := TrimStart(s);
    a := |s| - |t|;
    assert Trim(s) == t[..|Trim(s)|];
  }

  predicate NoDoubleSpace(s: string)
  {
    forall i :: 0 <= i < |s| - 1 ==> !(IsSpace(s[i]) && IsSpace(s[i + 1]))
  }

  /** Skip a (possibly empty) run of whitespace. */
  function DropSpaces(s: string): (r: string)
    ensures |r| <= |s| && r == s[|s| - |r|..]
    ensures r == [] || !IsSpace(r[0])
    ensures forall i :: 0 <= i < |s| - |r| ==> IsSpace(s[i])
  {
    if s != [] && IsSpace(s[0]) then DropSpaces(s[1..]) else s
  }

  /** `replace(/\s+/g, ' ')`: every maximal whitespace run becomes one space. */
  function CollapseSpaces(s: string): (r: string)
    ensures |r| <= |s|
    ensures NoDoubleSpace(r)
    ensures r != [] && s != [] ==> (IsSpace(r[0]) <==> IsSpace(s[0]))
    ensures (s == []) <==> (r == [])
    ensures forall i :: 0 <= i < |r| ==> (IsSpace(r[i]) ==> r[i] == ' ')
    decreases |s|
  {
    if s == [] then []
    else if IsSpace(s[0]) then
      var rest := DropSpaces(s[1..]);
      var tail := CollapseSpaces(rest);
      [' '] + tail
    else
      [s[0]] + CollapseSpaces(s[1..])
  }

  lemma {:induction false} CollapseLast(s: string)
    requires s != []
    ensures IsSpace(CollapseSpaces(s)[|CollapseSpaces(s)| - 1]) <==> IsSpace(s[|s| - 1])
    decreases |s|
  {
    var c := CollapseSpaces(s);
    if IsSpace(s[0]) {
      var rest := DropSpaces(s[1..]);
      var tail := CollapseSpaces(rest);
      assert c == [' '] + tail;
      if rest != [] {
        CollapseLast(rest);
        assert c[|c| - 1] == tail[|tail| - 1];
        assert s[|s| - 1] == rest[|rest| - 1];
      } else {
        assert c == [' '];
        if |s| > 1 {
          assert IsSpace(s[1..][|s| - 2]);
        }
      }
    } else {
      var tail := CollapseSpaces(s[1..]);
      assert c == [s[0]] + tail;
      if |s| > 1 {
        CollapseLast(s[1..]);
        assert c[|c| - 1] == tail[|tail| - 1];
        assert s[|s| - 1] == s[1..][|s| - 2];
      }
    }
  }

  /** A string that is already collapsed is left unchanged. */
  lemma {:induction false} CollapseFixed(s: string)
    requires NoDoubleSpace(s)
    requires forall i :: 0 <= i < |s| ==> (IsSpace(s[i]) ==> s[i] == ' ')
    ensures CollapseSpaces(s) == s
    decreases |s|
  {
    if s != [] {
      if IsSpace(s[0]) {
        assert s[1..] == [] || !IsSpace(s[1..][0]);
        assert DropSpaces(s[1..]) == s[1..];
      }
      CollapseFixed(s[1..]);
    }
  }

  /** Collapsing never creates leading or trailing whitespace. */
  lemma CollapseKeepsEdges(s: string)
    requires NoEdgeSpace(s)
    ensures NoEdgeSpace(CollapseSpaces(s))
  {
    if s != [] { CollapseLast(s); }
  }

  /** Whitespace-normal form: no edge whitespace, no runs, only plain spaces. */
  predicate Collapsed(s: string)
  {
    NoEdgeSpace(s) && NoDoubleSpace(s) && forall i :: 0 <= i < |s| ==> (IsSpace(s[i]) ==> s[i] == ' ')
  }

  /** `trim().replace(/\s+/g, ' ')`. */
  function NormalizeWhitespace(s: string): (r: string)
    ensures Collapsed(r)
    ensures r == [] <==> Trim(s) == []
  {
    CollapseKeepsEdges(Trim(s));
    CollapseSpaces(Trim(s))
  }

  /** Normal form is a fixed point of the normalisation. */
  lemma NormalizeWhitespaceFixed(s: string)
    requires Collapsed(s)
    ensures NormalizeWhitespace(s) == s
  {
    assert Trim(s) == s;
    CollapseFixed(s);
  }

  /** Lower-casing does not touch whitespace, so it keeps the normal form. */
  lemma LowerKeepsCollapsed(s: string)
    requires Collapsed(s)
    ensures Collapsed(ToLower(s))
  {
    var r := ToLower(s);
    forall i | 0 <= i < |s| ensures IsSpace(r[i]) <==> IsSpace(s[i]) && (IsSpace(r[i]) ==> r[i] == s[i]) {
      assert r[i] == LowerChar(s[i]);
    }
  }

  // ---------------------------------------------------------------------
  // Searching, splitting, joining
  // ---------------------------------------------------------------------

  predicate IsPrefix(p: string, s: string) { |p| <= |s| && s[..|p|] == p }

  predicate OccursAt(s: string, sub: string, i: int)
  {
    0 <= i <= |s| - |sub| && s[i..i + |sub|] == sub
  }

  /** `s.includes(sub)`. */
  ghost predicate Contains(s: string, sub: string)
  {
    exists i :: OccursAt(s, sub, i)
  }

  /** Executable form of `includes`, scanning from the left. */
  function ContainsFrom(s: string, sub: string, i: nat): (r: bool)
    requires i <= |s|
    ensures r <==> exists k :: i <= k && OccursAt(s, sub, k)
    decreases |s| - i
  {
    if i + |sub| > |s| then false
    else if s[i..i + |sub|] == sub then (assert OccursAt(s, sub, i); true)
    else ContainsFrom(s, sub, i + 1)
  }

  function Includes(s: string, sub: string): (r: bool)
    ensures r <==> Contains(s, sub)
  {
    ContainsFrom(s, sub, 0)
  }

  /** Index of the first occurrence of `c`, or |s|. */
  function IndexOf(s: string, c: char): (r: nat)
    ensures r <= |s|
    ensures r < |s| ==> s[r] == c
    ensures forall i :: 0 <= i < r ==> s[i] != c
  {
    if s == [] then 0 else if s[0] == c then 0 else 1 + IndexOf(s[1..], c)
  }

  /** `s.split(c)` for a one-character separator. */
  function Split(s: string, c: char): (r: seq<string>)
    ensures |r| >= 1
  {
    SplitFrom(s, c, "")
  }

  /** The split of `s` when the piece `current` has already been read. */
  function SplitFrom(s: string, c: char, current: string): (r: seq<string>)
    ensures |r| >= 1
    decreases |s|
  {
    if s == [] then [current]
    else if s[0] == c then [current] + SplitFrom(s[1..], c, "")
    else SplitFrom(s[1..], c, current + [s[0]])
  }

  /** `parts.join(sep)`. */
  function Join(parts: seq<string>, sep: string): (r: string)
  {
    if parts == [] then ""
    else if |parts| == 1 then parts[0]
    else parts[0] + sep + Join(parts[1..], sep)
  }

  /** The concatenation of `f` over `items`, in order. */
  function ConcatMap<T>(items: seq<T>, f: T -> string): string
  {
    if items == [] then "" else ConcatMap(items[..|items| - 1], f) + f(items[|items| - 1])
  }

  /** One more element appended to a ConcatMap. */
  lemma ConcatStep<T>(xml: string, before: string, xs: seq<T>, x: T, f: T -> string, piece: string)
    requires before == xml + ConcatMap(xs, f)
    requires piece == f(x)
    ensures before + piece == xml + ConcatMap(xs + [x], f)
  {
    assert (xs + [x])[..|xs|] == xs;
  }

  /** Appends `f(x)` for each `x` of `xs`, in order, with `+=`. */
  method AppendAll<T>(xml: string, xs: seq<T>, f: T -> string) returns (out: string)
    ensures out == xml + ConcatMap(xs, f)
  {
    out := xml;
    var j := 0;
    while j < |xs|
      invariant 0 <= j <= |xs|
      invariant out == xml + ConcatMap(xs[..j], f)
    {
      assert xs[..j + 1][..j] == xs[..j];
      out := out + f(xs[j]);
      j := j + 1;
    }
    assert xs[..j] == xs;
  }

  /** A template literal: the fixed pieces with one value between each two. */
  function Fill(pieces: seq<string>, values: seq<string>): string
    requires |pieces| == |values| + 1
    decreases |values|
  {
    if values == [] then pieces[0] else pieces[0] + values[0] + Fill(pieces[1..], values[1..])
  }

  lemma {:induction false} SplitFromJoin(s: string, c: char, current: string)
    ensures Join(SplitFrom(s, c, current), [c]) == current + s
    decreases |s|
  {
    if s == [] {
      assert current + s == current;
    } else if s[0] == c {
      var rest := SplitFrom(s[1..], c, "");
      SplitFromJoin(s[1..], c, "");
      assert ([current] + rest)[1..] == rest;
      assert "" + s[1..] == s[1..];
      assert s == [c] + s[1..];
    } else {
      SplitFromJoin(s[1..], c, current + [s[0]]);
      assert current + [s[0]] + s[1..] == current + s;
    }
  }

  /** Joining the pieces with the separator gives the text back. */
  lemma SplitJoin(s: string, c: char)
    ensures Join(Split(s, c), [c]) == s
  {
    SplitFromJoin(s, c, "");
    assert "" + s == s;
  }

  /** One piece more than there are separators. */
  lemma {:induction false} SplitCount(s: string, c: char, current: string)
    ensures |SplitFrom(s, c, current)| == CountChar(s, c) + 1
    decreases |s|
  {
    if s != [] {
      if s[0] == c {
        SplitCount(s[1..], c, "");
      } else {
        SplitCount(s[1..], c, current + [s[0]]);
      }
    }
  }

  /** `c` occurs nowhere in `s`. */
  predicate Lacks(s: string, c: char)
  {
    forall i :: 0 <= i < |s| ==> s[i] != c
  }

  predicate IsLetter(c: char) { 'A' <= c <= 'Z' || 'a' <= c <= 'z' }

  /** A column title: letters and inner single spaces, as every fixed header is. */
  predicate IsTitle(s: string)
  {
    s != [] && IsLetter(s[0]) && IsLetter(s[|s| - 1]) && forall i :: 0 <= i < |s| ==> IsLetter(s[i]) || s[i] == ' '
  }

  lemma TitleIsPlain(s: string)
    requires IsTitle(s)
    ensures Lacks(s, ',') && Lacks(s, '"') && Lacks(s, '\n') && NoEdgeSpace(s)
  {
  }

  /** Number of occurrences of `c` in `s`. */
  function CountChar(s: string, c: char): (r: nat)
    ensures r <= |s|
    ensures r == 0 <==> Lacks(s, c)
  {
    if s == [] then 0 else (if s[0] == c then 1 else 0) + CountChar(s[1..], c)
  }

  // ---------------------------------------------------------------------
  // Numbers
  // ---------------------------------------------------------------------

  /** `Math.round(x * 100) / 100`, with `Math.round(y) = floor(y + 0.5)`. */
  function Round2(x: real): (r: real)
    ensures x - 0.005 < r <= x + 0.005
  {
    ((x * 100.0 + 0.5).Floor as real) / 100.0
  }

  function Round2Int(x: real): (k: int)
    ensures k as real <= x * 100.0 + 0.5 < k as real + 1.0
  {
    (x * 100.0 + 0.5).Floor
  }

  function Max(a: real, b: real): real { if a >= b then a else b }
  function Min(a: real, b: real): real { if a <= b then a else b }

  function DigitChar(d: nat): (c: char)
    requires d < 10
    ensures IsDigit(c)
  {
    ('0' as int + d) as char
  }

  function DigitValue(c: char): (d: nat)
    requires IsDigit(c)
    ensures d < 10 && DigitChar(d) == c
  {
    (c as int - '0' as int)
  }

  /** Decimal digits of a natural number, without leading zeros. */
  function NatToString(n: nat): (r: string)
    ensures |r| >= 1
    ensures forall i :: 0 <= i < |r| ==> IsDigit(r[i])
    ensures n > 0 ==> r[0] != '0'
    decreases n
  {
    if n < 10 then [DigitChar(n)] else NatToString(n / 10) + [DigitChar(n % 10)]
  }

  /** Value of a non-empty run of decimal digits. */
  function DigitsValue(s: string): (n: nat)
    requires forall i :: 0 <= i < |s| ==> IsDigit(s[i])
    decreases |s|
  {
    if s == [] then 0 else DigitsValue(s[..|s| - 1]) * 10 + DigitValue(s[|s| - 1])
  }

  lemma {:induction false} NatToStringRoundTrip(n: nat)
    ensures DigitsValue(NatToString(n)) == n
    decreases n
  {
    if n >= 10 {
      NatToStringRoundTrip(n / 10);
      var s := NatToString(n);
      assert s[..|s| - 1] == NatToString(n / 10);
    }
  }

  /** `String(n)` for an integer. */
  function IntToString(n: int): (r: string)
    ensures |r| >= 1
    ensures n >= 0 ==> r == NatToString(n)
    ensures n < 0 ==> r == "-" + NatToString(-n)
  {
    if n < 0 then "-" + NatToString(-n) else NatToString(n)
  }

  /** Fraction digits of 0 <= f < 1, `count` places, trailing zeros kept. */
  function FractionDigits(f: real, count: nat): (r: string)
    requires 0.0 <= f < 1.0
    ensures |r| == count
    decreases count
  {
    if count == 0 then ""
    else
      var d := (f * 10.0).Floor;
      assert 0 <= d < 10;
      [DigitChar(d)] + FractionDigits(f * 10.0 - d as real, count - 1)
  }

  function StripTrailingZeros(s: string): (r: string)
    ensures |r| <= |s| && r == s[..|r|]
    ensures r == [] || r[|r| - 1] != '0'
  {
    if s != [] && s[|s| - 1] == '0' then StripTrailingZeros(s[..|s| - 1]) else s
  }

  /**
   * `String(x)` for a number.  Integers are printed exactly; other values
   * print their first fifteen fraction digits without trailing zeros, which
   * agrees with JavaScript for every value with at most fifteen decimals.
   */
  function NumberToString(x: real): (r: string)
    ensures x.Floor as real == x ==> r == IntToString(x.Floor)
  {
    if x.Floor as real == x then IntToString(x.Floor)
    else
      var a := if x < 0.0 then -x else x;
      var whole := a.Floor;
      var frac := StripTrailingZeros(FractionDigits(a - whole as real, 15));
      var body := NatToString(whole) + (if frac == [] then "" else "." + frac);
      if x < 0.0 then "-" + body else body
  }

  // ---------------------------------------------------------------------
  // Ordered string-keyed records (JavaScript objects with string keys keep
  // insertion order).
  // ---------------------------------------------------------------------

  type Record<V> = seq<(string, V)>

  function Keys<V>(r: Record<V>): (ks: seq<string>)
    ensures |ks| == |r|
    ensures forall i :: 0 <= i < |r| ==> ks[i] == r[i].0
  {
    if r == [] then [] else [r[0].0] + Keys(r[1..])
  }

  predicate DistinctKeys<V>(r: Record<V>)
  {
    forall i, j :: 0 <= i < j < |r| ==> r[i].0 != r[j].0
  }

  function Get<V>(r: Record<V>, k: string): (o: Option<V>)
    ensures o.None? <==> k !in Keys(r)
  {
    if r == [] then None else if r[0].0 == k then Some(r[0].1) else Get(r[1..], k)
  }

  /** An entry whose key does not occur earlier is what its key looks up. */
  lemma {:induction false} GetAt<V>(r: Record<V>, k: nat)
    requires k < |r| && forall j :: 0 <= j < k ==> r[j].0 != r[k].0
    ensures Get(r, r[k].0) == Some(r[k].1)
  {
    if k > 0 {
      assert r[1..][k - 1] == r[k];
      forall j | 0 <= j < k - 1 ensures r[1..][j].0 != r[1..][k - 1].0 {
        assert r[1..][j] == r[j + 1];
      }
      GetAt(r[1..], k - 1);
    }
  }

  /** `obj[k] = v`: an existing key keeps its position, a new key goes last. */
  function Put<V>(r: Record<V>, k: string, v: V): (r': Record<V>)
    ensures Get(r', k) == Some(v)
    ensures forall j :: j != k ==> Get(r', j) == Get(r, j)
  {
    if r == [] then [(k, v)]
    else if r[0].0 == k then [(k, v)] + r[1..]
    else [r[0]] + Put(r[1..], k, v)
  }

  lemma {:induction false} PutKeys<V>(r: Record<V>, k: string, v: V)
    ensures k in Keys(r) ==> Keys(Put(r, k, v)) == Keys(r)
    ensures k !in Keys(r) ==> Keys(Put(r, k, v)) == Keys(r) + [k]
  {
    if r != [] && r[0].0 != k {
      PutKeys(r[1..], k, v);
      assert Keys(Put(r, k, v)) == [r[0].0] + Keys(Put(r[1..], k, v));
      assert Keys(r) == [r[0].0] + Keys(r[1..]);
    }
  }

  /** `delete obj[k]`. */
  function Remove<V>(r: Record<V>, k: string): (r': Record<V>)
    ensures k !in Keys(r')
    ensures forall j :: j != k ==> Get(r', j) == Get(r, j)
    ensures |r'| <= |r|
  {
    if r == [] then []
    else if r[0].0 == k then Remove(r[1..], k)
    else [r[0]] + Remove(r[1..], k)
  }

  // ---------------------------------------------------------------------
  // Integer-keyed tables in ascending key order
  // ---------------------------------------------------------------------

  /** The members of `s` in `[lo, hi)`, from smallest to largest. */
  function AscendingIn(s: set<int>, lo: int, hi: int): (r: seq<int>)
    ensures forall x :: x in r <==> x in s && lo <= x < hi
    ensures forall i, j :: 0 <= i < j < |r| ==> r[i] < r[j]
    decreases hi - lo
  {
    if lo >= hi then []
    else
      var rest := AscendingIn(s, lo + 1, hi);
      if lo in s then
        AscendingCons(lo, rest);
        [lo] + rest
      else rest
  }

  /** Putting a smaller number in front of an ascending sequence keeps it ascending. */
  lemma AscendingCons(x: int, rest: seq<int>)
    requires forall i, j :: 0 <= i < j < |rest| ==> rest[i] < rest[j]
    requires forall y :: y in rest ==> x < y
    ensures forall i, j :: 0 <= i < j < |[x] + rest| ==> ([x] + rest)[i] < ([x] + rest)[j]
  {
    forall i, j | 0 <= i < j < |[x] + rest| ensures ([x] + rest)[i] < ([x] + rest)[j] {
      if i == 0 {
        assert rest[j - 1] in rest;
      }
    }
  }

  lemma SeqAssoc<T>(a: seq<T>, b: seq<T>, c: seq<T>)
    ensures a + (b + c) == a + b + c
  {
  }
}
