/**
 * The reply-to-visualization interpreter (`VisualizationService`): it classifies an
 * assistant reply as no-data or dummy content, picks a chart category from an
 * ordered keyword table, pulls the decimal numbers out of the text, takes the
 * title and description from the first two lines, and slices the number pool
 * into a fixed structure per category.
 *
 * `Math.random` is replaced by the parameter `fallback`: the twelve draws of
 * random integers from 0 to 99. Numbers are exact decimals (`real`).
 */
module VisualizationService {
  import opened Wrappers
  import opened Text

  datatype Category = Sales | Comparison | Trend | Distribution | Radar | Gauge | Mixed

  datatype Validation = Validation(isValid: bool, isDummy: bool)

  datatype Series = Series(name: string, values: seq<real>)

  datatype Kpis = Kpis(current: real, target: real, progress: real)

  /** The numeric and label parts of the Chart.js structure built per category;
   *  colours, widths and other styling are not modelled. */
  datatype ChartData =
    | LineData(labels: seq<string>, series: Series)
    | ComparisonData(labels: seq<string>, seriesA: Series, seriesB: Series)
    | DistributionData(labels: seq<string>, values: seq<real>)
    | RadarData(labels: seq<string>, current: Series, previous: Series)
    | GaugeData(value: real, slices: seq<real>)
    | MixedData(kpis: Kpis, trendLabels: seq<string>, trend: Series,
                distributionLabels: seq<string>, distribution: seq<real>)

  datatype ParsedData = ParsedData(
    category: Category, title: string, description: string, data: ChartData, isDummy: bool)

  const NoDataIndicators: seq<string> :=
    ["no data", "no information", "no trained", "cannot provide", "don't have", "do not have", "unavailable"]
  const DummyMarkers: seq<string> := ["dummy", "sample", "example"]

  const NoTrainedDataMessage: string :=
    "No trained data available for this request. Would you like to see a demo visualization instead?"
  const DefaultTitle: string := "Data Analysis"

  const Months: seq<string> := ["Jan", "Feb", "Mar", "Apr", "May", "Jun", "Jul", "Aug", "Sep", "Oct", "Nov", "Dec"]
  const RadarLabels: seq<string> := ["Revenue", "Growth", "Satisfaction", "Retention", "Engagement", "Innovation"]
  const CategoryLabels: seq<string> := ["Category A", "Category B", "Category C", "Category D"]
  const MixedDistributionLabels: seq<string> := ["A", "B", "C", "D"]

  /** The ordered keyword table: the first group with a keyword in the text wins. */
  const KeywordTable: seq<(Category, seq<string>)> := [
    (Sales, ["sales", "revenue", "profit", "income"]),
    (Comparison, ["compare", "versus", "vs", "against"]),
    (Trend, ["trend", "growth", "increase", "decrease"]),
    (Distribution, ["distribution", "breakdown", "composition", "share"]),
    (Radar, ["performance", "metrics", "attributes", "factors"]),
    (Gauge, ["progress", "goal", "target", "achievement"]),
    (Mixed, ["overview", "dashboard", "summary", "analysis"])
  ]

  function Min(a: int, b: int): int { if a <= b then a else b }

  predicate ContainsAny(s: string, words: seq<string>) {
    exists w | w in words :: Contains(s, w)
  }

  // ---------------------------------------------------------------------------
  // validateOpenAIResponse

  /** `isDummy` holds exactly when the lower-cased reply mentions one of the
   *  no-data phrases or one of `dummy`, `sample`, `example`; since a no-data
   *  reply is always also dummy, `isValid` can never be false. */
  function ValidateResponse(response: string): (v: Validation)
    ensures v.isDummy <==>
      ContainsAny(ToLower(response), NoDataIndicators) || ContainsAny(ToLower(response), DummyMarkers)
    ensures v.isValid
  {
    var lower := ToLower(response);
    var hasNoData := ContainsAny(lower, NoDataIndicators);
    var isDummy := Contains(lower, "dummy") || Contains(lower, "sample") || Contains(lower, "example") || hasNoData;
    assert ContainsAny(lower, DummyMarkers) ==> Contains(lower, "dummy") || Contains(lower, "sample") || Contains(lower, "example");
    Validation(!hasNoData || isDummy, isDummy)
  }

  // ---------------------------------------------------------------------------
  // extractNumbers: every decimal number of the reply, in order

  predicate IsDigit(c: char) { '0' <= c <= '9' }

  predicate HasDigit(s: string) {
    exists i :: 0 <= i < |s| && IsDigit(s[i])
  }

  predicate IsDigits(t: string) {
    t != [] && forall i :: 0 <= i < |t| ==> IsDigit(t[i])
  }

  /** A whole match of the number pattern: digits, optionally a dot and more digits. */
  predicate IsNumeral(t: string) {
    IsDigits(t) || exists k :: 0 < k < |t| - 1 && t[k] == '.' && IsDigits(t[..k]) && IsDigits(t[k + 1..])
  }

  /** Length of the run of digits at the front of `s`. */
  function DigitRun(s: string): (n: nat)
    ensures n <= |s|
    ensures forall i :: 0 <= i < n ==> IsDigit(s[i])
    ensures n < |s| ==> !IsDigit(s[n])
    decreases |s|
  {
    if s != [] && IsDigit(s[0]) then 1 + DigitRun(s[1..]) else 0
  }

  /** Length of the greedy match of the number pattern at the front of `s`: a numeral
   *  that cannot be extended, neither by a digit nor, when it has no fraction yet,
   *  by a dot followed by a digit. */
  function MatchLength(s: string): (n: nat)
    requires s != [] && IsDigit(s[0])
    ensures 0 < n <= |s| && IsNumeral(s[..n])
    ensures n < |s| ==> !IsDigit(s[n])
    ensures n + 1 < |s| && s[n] == '.' && IsDigit(s[n + 1]) ==> '.' in s[..n]
  {
    var d := DigitRun(s);
    if d + 1 < |s| && s[d] == '.' && IsDigit(s[d + 1]) then
      var f := DigitRun(s[d + 1..]);
      var n := d + 1 + f;
      assert s[..n][..d] == s[..d] && s[..n][d + 1..] == s[d + 1..][..f];
      assert s[..n][d] == '.';
      n
    else
      assert forall i :: 0 <= i < d ==> s[..d][i] == s[i];
      d
  }

  /** The successive matches, left to right, as `String.prototype.match` with the
   *  global flag returns them (no match gives the empty sequence). */
  function Matches(s: string): (ms: seq<string>)
    ensures forall i :: 0 <= i < |ms| ==> IsNumeral(ms[i])
    decreases |s|
  {
    if s == [] then []
    else if !IsDigit(s[0]) then Matches(s[1..])
    else
      var n := MatchLength(s);
      [s[..n]] + Matches(s[n..])
  }

  /** Value of a run of decimal digits, most significant first. */
  function DigitsValue(t: string): nat
    requires forall i :: 0 <= i < |t| ==> IsDigit(t[i])
    decreases |t|
  {
    if t == [] then 0 else DigitsValue(t[..|t| - 1]) * 10 + DigitValue(t[|t| - 1])
  }

  function DigitValue(c: char): (v: nat)
    requires IsDigit(c)
    ensures v < 10
  {
    c as int - '0' as int
  }

  function Pow10(k: nat): (p: nat)
    ensures p >= 1
  {
    if k == 0 then 1 else 10 * Pow10(k - 1)
  }

  /** The digit run is exactly `k` long when `k` digits are followed by a non-digit or the end. */
  lemma DigitRunExact(s: string, k: nat)
    requires k <= |s| && forall i :: 0 <= i < k ==> IsDigit(s[i])
    requires k < |s| ==> !IsDigit(s[k])
    ensures DigitRun(s) == k
  {
  }

  /** In a numeral, the leading digit run stops at the dot, if there is one. */
  lemma NumeralShape(t: string)
    requires IsNumeral(t)
    ensures 0 < DigitRun(t)
    ensures DigitRun(t) == |t| || (DigitRun(t) + 1 < |t| && t[DigitRun(t)] == '.' && IsDigits(t[DigitRun(t) + 1..]))
  {
    if IsDigits(t) {
      DigitRunExact(t, |t|);
    } else {
      var k :| 0 < k < |t| - 1 && t[k] == '.' && IsDigits(t[..k]) && IsDigits(t[k + 1..]);
      forall i | 0 <= i < k ensures IsDigit(t[i]) {
        assert t[..k][i] == t[i];
      }
      DigitRunExact(t, k);
    }
  }

  /** A run of `k` digits is worth less than `10^k`. */
  lemma {:induction false} DigitsValueBound(t: string)
    requires forall i :: 0 <= i < |t| ==> IsDigit(t[i])
    ensures DigitsValue(t) < Pow10(|t|)
    decreases |t|
  {
    if t != [] {
      var p := t[..|t| - 1];
      DigitsValueBound(p);
      assert DigitsValue(t) == DigitsValue(p) * 10 + DigitValue(t[|t| - 1]);
      assert DigitsValue(p) * 10 <= (Pow10(|p|) - 1) * 10;
    }
  }

  lemma FractionBelowOne(x: nat, y: nat)
    requires x < y
    ensures 0.0 <= x as real / y as real < 1.0
  {
    assert x as real / y as real * y as real == x as real;
  }

  /** `Number(t)` for a numeral `t`, as the exact decimal it spells: a numeral of
   *  digits only is their value, and otherwise the digits before the dot are
   *  the whole part and those after it a fraction below one. */
  function NumeralValue(t: string): (v: real)
    requires IsNumeral(t)
    ensures v >= 0.0
    ensures IsDigits(t) ==> v == DigitsValue(t) as real
    ensures 0 < DigitRun(t) &&
      DigitsValue(t[..DigitRun(t)]) as real <= v < DigitsValue(t[..DigitRun(t)]) as real + 1.0
  {
    NumeralShape(t);
    var d := DigitRun(t);
    var whole := DigitsValue(t[..d]) as real;
    if d == |t| then
      assert t[..d] == t;
      whole
    else
      var f := t[d + 1..];
      DigitsValueBound(f);
      FractionBelowOne(DigitsValue(f), Pow10(|t| - d - 1));
      assert !IsDigit(t[d]);
      whole + DigitsValue(f) as real / Pow10(|t| - d - 1) as real
  }

  /** The numbers of the reply, left to right: one non-negative value per match. */
  function ExtractNumbers(text: string): (numbers: seq<real>)
    ensures |numbers| == |Matches(text)|
    ensures forall i :: 0 <= i < |numbers| ==> numbers[i] == NumeralValue(Matches(text)[i])
    ensures forall i :: 0 <= i < |numbers| ==> numbers[i] >= 0.0
    ensures numbers == [] <==> !HasDigit(text)
  {
    var ms := Matches(text);
    MatchesEmptyIff(text);
    seq(|ms|, i requires 0 <= i < |ms| => NumeralValue(ms[i]))
  }

  /** There is no match exactly when the text has no ASCII digit. */
  lemma {:induction false} MatchesEmptyIff(s: string)
    ensures Matches(s) == [] <==> !HasDigit(s)
    decreases |s|
  {
    if s != [] && !IsDigit(s[0]) {
      MatchesEmptyIff(s[1..]);
      if HasDigit(s) {
        var i :| 0 <= i < |s| && IsDigit(s[i]);
        assert s[1..][i - 1] == s[i];
      }
      if HasDigit(s[1..]) {
        var i :| 0 <= i < |s[1..]| && IsDigit(s[1..][i]);
        assert s[i + 1] == s[1..][i];
      }
    } else if s != [] {
      assert IsDigit(s[0]);
    }
  }

  /** The digits of `s`, in order. */
  function Digits(s: string): string
    decreases |s|
  {
    if s == [] then [] else (if IsDigit(s[0]) then [s[0]] else []) + Digits(s[1..])
  }

  function Concat(ms: seq<string>): string
    decreases |ms|
  {
    if ms == [] then [] else ms[0] + Concat(ms[1..])
  }

  lemma {:induction false} DigitsAppend(a: string, b: string)
    ensures Digits(a + b) == Digits(a) + Digits(b)
    decreases |a|
  {
    if a != [] {
      DigitsAppend(a[1..], b);
      assert (a + b)[1..] == a[1..] + b;
    } else {
      assert a + b == b;
    }
  }

  /** The matches hold every digit of the text, each exactly once and in order:
   *  no digit is skipped and the matches do not overlap. */
  lemma {:induction false} MatchesKeepEveryDigit(s: string)
    ensures Digits(Concat(Matches(s))) == Digits(s)
    decreases |s|
  {
    if s != [] && !IsDigit(s[0]) {
      MatchesKeepEveryDigit(s[1..]);
    } else if s != [] {
      var n := MatchLength(s);
      MatchesKeepEveryDigit(s[n..]);
      assert Matches(s) == [s[..n]] + Matches(s[n..]);
      assert Concat(Matches(s)) == s[..n] + Concat(Matches(s[n..]));
      DigitsAppend(s[..n], Concat(Matches(s[n..])));
      DigitsAppend(s[..n], s[n..]);
      assert s[..n] + s[n..] == s;
    }
  }

  /** A numeral on its own is matched whole: rendering a number then extracting
   *  it gives the number back. */
  lemma NumeralMatchesWhole(t: string)
    requires IsNumeral(t)
    ensures Matches(t) == [t]
  {
    NumeralShape(t);
    var d := DigitRun(t);
    assert IsDigit(t[0]);
    if d < |t| {
      var u := t[d + 1..];
      assert IsDigits(u);
      DigitRunExact(u, |u|);
    }
    assert MatchLength(t) == |t|;
    assert t[..|t|] == t && t[|t|..] == [];
  }

  /** The shortest decimal spelling of a natural number. */
  function DecimalString(n: nat): (t: string)
    ensures IsDigits(t)
    decreases n
  {
    var c := ('0' as int + n % 10) as char;
    if n < 10 then [c] else DecimalString(n / 10) + [c]
  }

  lemma {:induction false} DecimalStringValue(n: nat)
    ensures DigitsValue(DecimalString(n)) == n
    decreases n
  {
    if n >= 10 {
      DecimalStringValue(n / 10);
      var t := DecimalString(n);
      assert t[..|t| - 1] == DecimalString(n / 10);
    }
  }

  /** Round trip: the number written in decimal is extracted as itself. */
  lemma ExtractRendered(n: nat)
    ensures ExtractNumbers(DecimalString(n)) == [n as real]
  {
    var t := DecimalString(n);
    NumeralMatchesWhole(t);
    DecimalStringValue(n);
    assert DigitRun(t) == |t|;
    assert t[..|t|] == t;
  }

  /** Digits, a dot and digits: the value is the whole part plus the digits
   *  after the dot over the matching power of ten. */
  lemma DecimalNumeralValue(w: string, f: string)
    requires IsDigits(w) && IsDigits(f)
    ensures IsNumeral(w + "." + f)
    ensures NumeralValue(w + "." + f) == DigitsValue(w) as real + DigitsValue(f) as real / Pow10(|f|) as real
  {
    DotSplit(w, f);
    NumeralAfterDot(w, f);
  }

  /** Digits, a dot and digits form a numeral whose digit run stops at the dot. */
  lemma DotSplit(w: string, f: string)
    requires IsDigits(w) && IsDigits(f)
    ensures IsNumeral(w + "." + f) && DigitRun(w + "." + f) == |w|
    ensures (w + "." + f)[..|w|] == w && (w + "." + f)[|w| + 1..] == f
  {
    var t := w + "." + f;
    var d := |w|;
    assert t[..d] == w && t[d + 1..] == f && t[d] == '.';
    assert 0 < d < |t| - 1;
    assert forall i :: 0 <= i < d ==> t[i] == w[i];
    DigitRunExact(t, d);
  }

  /** The value of a numeral whose digit run stops at the dot after `w`. */
  lemma NumeralAfterDot(w: string, f: string)
    requires IsDigits(w) && IsDigits(f)
    requires IsNumeral(w + "." + f) && DigitRun(w + "." + f) == |w|
    requires (w + "." + f)[..|w|] == w && (w + "." + f)[|w| + 1..] == f
    ensures NumeralValue(w + "." + f) == DigitsValue(w) as real + DigitsValue(f) as real / Pow10(|f|) as real
  {
    NumeralShape(w + "." + f);
  }

  /** Round trip with a fraction: a whole part, a dot and the digits of the
   *  fraction are extracted as the exact decimal they spell. */
  lemma ExtractRenderedDecimal(a: nat, b: nat)
    ensures ExtractNumbers(DecimalString(a) + "." + DecimalString(b)) ==
      [a as real + b as real / Pow10(|DecimalString(b)|) as real]
  {
    var t := DecimalString(a) + "." + DecimalString(b);
    DecimalNumeralValue(DecimalString(a), DecimalString(b));
    NumeralMatchesWhole(t);
    DecimalStringValue(a);
    DecimalStringValue(b);
  }

  // ---------------------------------------------------------------------------
  // detectDataType

  /** Group `i` of the table has a keyword in `lower`. */
  predicate GroupMatches(table: seq<(Category, seq<string>)>, lower: string, i: int)
    requires 0 <= i < |table|
  {
    ContainsAny(lower, table[i].1)
  }

  /** The first group, in table order, with a keyword in `lower`; `Mixed` when none has. */
  function FirstMatch(table: seq<(Category, seq<string>)>, lower: string): (c: Category)
    decreases |table|
  {
    if table == [] then Mixed
    else if ContainsAny(lower, table[0].1) then table[0].0
    else FirstMatch(table[1..], lower)
  }

  lemma {:induction false} FirstMatchIsFirst(table: seq<(Category, seq<string>)>, lower: string)
    ensures
      (exists i :: 0 <= i < |table| && GroupMatches(table, lower, i) && FirstMatch(table, lower) == table[i].0 &&
         forall j :: 0 <= j < i ==> !GroupMatches(table, lower, j))
      || ((forall j :: 0 <= j < |table| ==> !GroupMatches(table, lower, j)) && FirstMatch(table, lower) == Mixed)
    decreases |table|
  {
    if table != [] {
      if ContainsAny(lower, table[0].1) {
        assert GroupMatches(table, lower, 0);
      } else {
        FirstMatchIsFirst(table[1..], lower);
        forall j | 1 <= j < |table| ensures GroupMatches(table, lower, j) == GroupMatches(table[1..], lower, j - 1) {
          assert table[1..][j - 1] == table[j];
        }
        if exists i :: 0 <= i < |table[1..]| && GroupMatches(table[1..], lower, i) &&
             FirstMatch(table[1..], lower) == table[1..][i].0 &&
             forall j :: 0 <= j < i ==> !GroupMatches(table[1..], lower, j) {
          var i :| 0 <= i < |table[1..]| && GroupMatches(table[1..], lower, i) &&
             FirstMatch(table[1..], lower) == table[1..][i].0 &&
             forall j :: 0 <= j < i ==> !GroupMatches(table[1..], lower, j);
          assert GroupMatches(table, lower, i + 1);
          assert forall j :: 0 <= j < i + 1 ==> !GroupMatches(table, lower, j) by {
            forall j | 0 <= j < i + 1 ensures !GroupMatches(table, lower, j) {
              if j > 0 { assert !GroupMatches(table[1..], lower, j - 1); }
            }
          }
        }
      }
    }
  }

  /** The chart category: the first group of `KeywordTable` with a keyword in the
   *  lower-cased text, or `Mixed` when no keyword occurs. */
  function DetectDataType(text: string): (c: Category)
    ensures
      (exists i :: 0 <= i < |KeywordTable| && GroupMatches(KeywordTable, ToLower(text), i) && c == KeywordTable[i].0 &&
         forall j :: 0 <= j < i ==> !GroupMatches(KeywordTable, ToLower(text), j))
      || ((forall j :: 0 <= j < |KeywordTable| ==> !GroupMatches(KeywordTable, ToLower(text), j)) && c == Mixed)
  {
    FirstMatchIsFirst(KeywordTable, ToLower(text));
    FirstMatch(KeywordTable, ToLower(text))
  }

  /** A sales keyword wins over every other group, whatever else the text holds. */
  lemma SalesWins(text: string)
    requires Contains(ToLower(text), "sales")
    ensures DetectDataType(text) == Sales
  {
    assert ContainsAny(ToLower(text), KeywordTable[0].1);
  }

  /** A comparison is reported only when no sales keyword occurs. */
  lemma ComparisonExcludesSales(text: string)
    requires DetectDataType(text) == Comparison
    ensures !ContainsAny(ToLower(text), KeywordTable[0].1)
    ensures ContainsAny(ToLower(text), KeywordTable[1].1)
  {
  }

  // ---------------------------------------------------------------------------
  // createDataStructure

  /** Twelve random integers, each from 0 to 99. */
  predicate IsFallbackDraw(fallback: seq<nat>) {
    |fallback| == 12 && forall i :: 0 <= i < |fallback| ==> fallback[i] < 100
  }

  /** The extracted numbers, or the random draws when there are none. */
  function Pool(numbers: seq<real>, fallback: seq<nat>): (pool: seq<real>)
    requires IsFallbackDraw(fallback)
    ensures pool != []
    ensures numbers != [] ==> pool == numbers
    ensures numbers == [] ==> |pool| == 12 && forall i :: 0 <= i < 12 ==> pool[i] == fallback[i] as real
  {
    if |numbers| > 0 then numbers else seq(|fallback|, i requires 0 <= i < |fallback| => fallback[i] as real)
  }

  /** `Array.prototype.slice(start, end)` with non-negative integer bounds: both
   *  are clamped to the length, and a crossed range gives the empty sequence. */
  function Slice<T>(s: seq<T>, start: nat, end: nat): (r: seq<T>)
    ensures start <= end <= |s| ==> r == s[start..end]
    ensures start <= |s| <= end ==> r == s[start..]
    ensures |s| <= start || end <= start ==> r == []
    ensures forall x :: x in r ==> x in s
  {
    var a := Min(start, |s|);
    var b := Min(end, |s|);
    if b <= a then [] else s[a..b]
  }

  /** Element `i`, or the default `d` when it is missing or zero (a falsy value). */
  function ElementOr(data: seq<real>, i: nat, d: real): (e: real)
    ensures i < |data| && data[i] != 0.0 ==> e == data[i]
    ensures e == d || (i < |data| && e == data[i])
    ensures d != 0.0 ==> e != 0.0
  {
    if i < |data| && data[i] != 0.0 then data[i] else d
  }

  /** The radar chart: the first six values are the current period, the next six
   *  the previous one. */
  function RadarChart(data: seq<real>): (r: ChartData)
    ensures r.RadarData? && r.labels == RadarLabels
    ensures r.current.values + r.previous.values == data[..Min(|data|, 12)]
    ensures |r.current.values| == Min(|data|, 6)
  {
    RadarData(RadarLabels, Series("Current Period", Slice(data, 0, 6)), Series("Previous Period", Slice(data, 6, 12)))
  }

  /** The gauge: the first value, or 75 when it is missing or zero, and its
   *  complement to 100. */
  function GaugeChart(data: seq<real>): (r: ChartData)
    requires data != []
    ensures r.GaugeData? && |r.slices| == 2 && r.slices[0] == r.value && r.slices[0] + r.slices[1] == 100.0
    ensures data[0] != 0.0 ==> r.value == data[0]
    ensures data[0] == 0.0 ==> r.value == 75.0
  {
    var value := ElementOr(data, 0, 75.0);
    GaugeData(value, [value, 100.0 - value])
  }

  /** The dashboard: three indicators defaulted when missing or zero, a six-month
   *  trend of the first six values and a distribution of the next four. */
  function MixedChart(data: seq<real>): (r: ChartData)
    requires data != []
    ensures r.MixedData?
    ensures r.kpis.current == (if data[0] != 0.0 then data[0] else 85.0)
    ensures r.kpis.target == (if |data| > 1 && data[1] != 0.0 then data[1] else 100.0)
    ensures r.kpis.progress == (if |data| > 2 && data[2] != 0.0 then data[2] else 75.0)
    ensures r.trendLabels == Months[..6] && r.distributionLabels == MixedDistributionLabels
    ensures r.trend.values + r.distribution == data[..Min(|data|, 10)]
    ensures |r.trend.values| == Min(|data|, 6)
  {
    MixedData(
      Kpis(ElementOr(data, 0, 85.0), ElementOr(data, 1, 100.0), ElementOr(data, 2, 75.0)),
      Slice(Months, 0, 6), Series("Trend", Slice(data, 0, 6)),
      MixedDistributionLabels, Slice(data, 6, 10))
  }

  /** The line chart of the sales and trend categories: the first twelve values
   *  against all twelve month names. */
  function LineChart(data: seq<real>): (r: ChartData)
    ensures r.LineData? && r.labels == Months
    ensures r.series.values <= data && |r.series.values| == Min(|data|, 12)
  {
    LineData(Months, Series("Current Year", Slice(data, 0, 12)))
  }

  /** The comparison: the values split at `floor(n / 2)`, with as many month
   *  names as the first half has values, up to twelve. */
  function ComparisonChart(data: seq<real>): (r: ChartData)
    ensures r.ComparisonData?
    ensures r.seriesA.values + r.seriesB.values == data
    ensures |r.seriesA.values| == |data| / 2 && |r.seriesB.values| == |data| - |data| / 2
    ensures r.labels == Months[..Min(|data| / 2, 12)]
  {
    var half := |data| / 2;
    ComparisonData(Slice(Months, 0, half), Series("Series A", Slice(data, 0, half)), Series("Series B", Slice(data, half, |data|)))
  }

  /** The distribution: the first four values against the four category labels. */
  function DistributionChart(data: seq<real>): (r: ChartData)
    ensures r.DistributionData? && r.labels == CategoryLabels
    ensures r.values <= data && |r.values| == Min(|data|, 4)
  {
    DistributionData(CategoryLabels, Slice(data, 0, 4))
  }

  /** The series of each category are slices of the pool and nothing is padded;
   *  the comparison halves split the pool at `floor(n / 2)`; the gauge slices add
   *  up to 100. */
  function CreateDataStructure(category: Category, numbers: seq<real>, fallback: seq<nat>): (r: ChartData)
    requires IsFallbackDraw(fallback)
    ensures var pool := Pool(numbers, fallback);
      match category
      case Sales | Trend =>
        r.LineData? && r.labels == Months &&
        r.series.values <= pool && |r.series.values| == Min(|pool|, 12)
      case Comparison =>
        r.ComparisonData? &&
        r.seriesA.values + r.seriesB.values == pool &&
        |r.seriesA.values| == |pool| / 2 && |r.seriesB.values| == |pool| - |pool| / 2 &&
        r.labels == Months[..Min(|pool| / 2, 12)]
      case Distribution =>
        r.DistributionData? && r.labels == CategoryLabels &&
        r.values <= pool && |r.values| == Min(|pool|, 4)
      case Radar =>
        r.RadarData? && r.labels == RadarLabels &&
        r.current.values + r.previous.values == pool[..Min(|pool|, 12)] &&
        |r.current.values| == Min(|pool|, 6)
      case Gauge =>
        r.GaugeData? && |r.slices| == 2 && r.slices[0] == r.value && r.slices[0] + r.slices[1] == 100.0 &&
        (pool[0] != 0.0 ==> r.value == pool[0]) && (pool[0] == 0.0 ==> r.value == 75.0)
      case Mixed =>
        r.MixedData? &&
        r.kpis.current == (if pool[0] != 0.0 then pool[0] else 85.0) &&
        r.kpis.target == (if |pool| > 1 && pool[1] != 0.0 then pool[1] else 100.0) &&
        r.kpis.progress == (if |pool| > 2 && pool[2] != 0.0 then pool[2] else 75.0) &&
        r.trendLabels == Months[..6] && r.distributionLabels == MixedDistributionLabels &&
        r.trend.values + r.distribution == pool[..Min(|pool|, 10)] &&
        |r.trend.values| == Min(|pool|, 6)
  {
    var data := Pool(numbers, fallback);
    match category
    case Radar => RadarChart(data)
    case Gauge => GaugeChart(data)
    case Mixed => MixedChart(data)
    case Sales | Trend => LineChart(data)
    case Comparison => ComparisonChart(data)
    case Distribution => DistributionChart(data)
  }

  /** Every number the chart shows, other than the gauge's defaulted value and
   *  its complement. */
  function SeriesValues(d: ChartData): seq<real> {
    match d
    case LineData(_, s) => s.values
    case ComparisonData(_, a, b) => a.values + b.values
    case DistributionData(_, v) => v
    case RadarData(_, a, b) => a.values + b.values
    case GaugeData(_, _) => []
    case MixedData(_, _, t, _, v) => t.values + v
  }

  /** No value is invented: every series value is an element of the pool. */
  lemma SeriesValuesFromPool(category: Category, numbers: seq<real>, fallback: seq<nat>)
    requires IsFallbackDraw(fallback)
    ensures forall x :: x in SeriesValues(CreateDataStructure(category, numbers, fallback)) ==> x in Pool(numbers, fallback)
  {
    var pool := Pool(numbers, fallback);
    var r := CreateDataStructure(category, numbers, fallback);
    forall x | x in SeriesValues(r) ensures x in pool {
      match category
      case Radar =>
        assert x in pool[..Min(|pool|, 12)];
      case Mixed =>
        assert x in pool[..Min(|pool|, 10)];
      case _ =>
    }
  }

  // ---------------------------------------------------------------------------
  // parseOpenAIResponse

  predicate IsHashOrWhitespace(c: char) { c == '#' || IsWhitespace(c) }

  /** The first line without its leading run of `#` and white space, or the
   *  default title when nothing is left. */
  function Title(line: string): (t: string)
    ensures (forall i :: 0 <= i < |line| ==> IsHashOrWhitespace(line[i])) ==> t == DefaultTitle
    ensures (exists i :: 0 <= i < |line| && !IsHashOrWhitespace(line[i])) ==>
      && 0 < |t| <= |line| && t == line[|line| - |t|..] && !IsHashOrWhitespace(t[0])
      && forall i :: 0 <= i < |line| - |t| ==> IsHashOrWhitespace(line[i])
    ensures '\n' !in line ==> '\n' !in t
  {
    var stripped := TrimStart(line, IsHashOrWhitespace);
    if stripped == [] then DefaultTitle else stripped
  }

  /** The reply never makes the interpreter throw. The title comes from the first
   *  line, the description is the second line or empty, `isDummy` is the
   *  classifier's verdict whether or not the random draws stood in for missing
   *  numbers, and the data is built from the extracted numbers. */
  function ParseOpenAIResponse(response: string, fallback: seq<nat>): (r: Result<ParsedData, string>)
    requires IsFallbackDraw(fallback)
    ensures r.Success?
    ensures var lines := Split(response, '\n');
      && r.value.title == Title(lines[0]) && '\n' !in r.value.title
      && r.value.description == (if |lines| > 1 then lines[1] else [])
      && '\n' !in r.value.description
      && r.value.isDummy == ValidateResponse(response).isDummy
      && r.value.category == DetectDataType(response)
      && r.value.data == CreateDataStructure(r.value.category, ExtractNumbers(response), fallback)
  {
    var v := ValidateResponse(response);
    if !v.isValid && !v.isDummy then
      Failure(NoTrainedDataMessage)
    else
      var lines := Split(response, '\n');
      var title := Title(lines[0]);
      var category := DetectDataType(response);
      var numbers := ExtractNumbers(response);
      Success(ParsedData(
        category, title, if |lines| > 1 then lines[1] else [],
        CreateDataStructure(category, numbers, fallback), v.isDummy))
  }

  /** A reply without any digit is charted from the random draws, yet it is
   *  flagged as dummy only when its wording says so. */
  lemma FallbackDoesNotFlagDummy(response: string, fallback: seq<nat>)
    requires IsFallbackDraw(fallback)
    requires !HasDigit(response)
    ensures Pool(ExtractNumbers(response), fallback) == seq(12, i requires 0 <= i < 12 => fallback[i] as real)
    ensures ParseOpenAIResponse(response, fallback).value.isDummy <==>
      ContainsAny(ToLower(response), NoDataIndicators) || ContainsAny(ToLower(response), DummyMarkers)
  {
  }
}
