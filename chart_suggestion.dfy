/**
 * The two keyword classifiers of the chart-suggestion screen: whether the
 * assistant text is to be badged as demo data, and which chart type to suggest.
 */
module ChartSuggestion {
  import opened Text

  /** `ChartType` of the application's types. */
  datatype ChartType = Line | Bar | Pie | Doughnut | Radar | Mixed

  /** The chart types the screen offers, in display order. */
  const ChartTypes: seq<ChartType> := [Line, Bar, Pie, Radar, Mixed]

  /** Demo data unless the text mentions `assistant` (case-sensitive) and its
   *  lower-cased form mentions neither `demo` nor `sample`. */
  predicate IsDemoData(data: string)
    ensures !Contains(data, "assistant") ==> IsDemoData(data)
    ensures Contains(ToLower(data), "demo") || Contains(ToLower(data), "sample") ==> IsDemoData(data)
  {
    !Contains(data, "assistant") || Contains(ToLower(data), "demo") || Contains(ToLower(data), "sample")
  }

  /** The suggested chart: `trend` decides for a line chart whatever else occurs;
   *  after it come `compar` (bar), `distribut` (pie) and `metric` (radar), and
   *  the dashboard otherwise. The suggestion is always one of the offered types. */
  function SuggestedType(data: string): (t: ChartType)
    ensures t in ChartTypes && t != Doughnut
    ensures t == Line <==> Contains(ToLower(data), "trend")
    ensures t == Bar <==> !Contains(ToLower(data), "trend") && Contains(ToLower(data), "compar")
    ensures t == Pie <==>
      !Contains(ToLower(data), "trend") && !Contains(ToLower(data), "compar") && Contains(ToLower(data), "distribut")
    ensures t == Radar <==>
      !Contains(ToLower(data), "trend") && !Contains(ToLower(data), "compar") && !Contains(ToLower(data), "distribut")
      && Contains(ToLower(data), "metric")
    ensures t == Mixed <==>
      !Contains(ToLower(data), "trend") && !Contains(ToLower(data), "compar") && !Contains(ToLower(data), "distribut")
      && !Contains(ToLower(data), "metric")
  {
    var lower := ToLower(data);
    if Contains(lower, "trend") then Line
    else if Contains(lower, "compar") then Bar
    else if Contains(lower, "distribut") then Pie
    else if Contains(lower, "metric") then Radar
    else Mixed
  }

  /** Lower-casing does not change whether a lower-case word occurs, so a
   *  word that is written in lower case in the data is always seen. */
  lemma {:induction false} LowerKeepsLowerWord(data: string, word: string)
    requires forall i :: 0 <= i < |word| ==> !IsAsciiUpper(word[i])
    requires Contains(data, word)
    ensures Contains(ToLower(data), word)
  {
    ContainsIff(data, word);
    var i :| OccursAt(data, word, i);
    var lower := ToLower(data);
    assert lower[i..i + |word|] == word by {
      forall j | 0 <= j < |word| ensures lower[i + j] == word[j] {
        assert data[i + j] == word[j];
      }
    }
    assert OccursAt(lower, word, i);
    ContainsIff(lower, word);
  }

  /** A text that says `trend` in lower case is charted as a line, even when it
   *  also names comparisons, distributions or metrics. */
  lemma TrendAlwaysLine(data: string)
    requires Contains(data, "trend")
    ensures SuggestedType(data) == Line
  {
    LowerKeepsLowerWord(data, "trend");
  }
}
