/**
 * Aggregation detection (src/features/detector.py): a feature is a group-level
 * aggregation when its source text contains one of a fixed list of keywords,
 * compared case-insensitively.
 */
module Detector {
  import opened Wrappers
  import opened Strings

  const AggregationKeywords: seq<string> := [
    "np.vectorize(", "np.where(", "#gby", ".sum(", ".max(", ".min(", ".unique(",
    ".nunique(", ".mean(", ".median(", ".percentile(", ".take(", "[first_value]",
    ".nansum(", "np.nanmax(", "np.nanmin(", "flag1", "rows_out", "agg_out", "#agg",
    ".count_nonzero(", "zip(", "counter("
  ]

  /** What `is_aggregation` is given: a function (with its source text when it can be read) or a code string. */
  datatype Subject = Function(source: Option<string>) | Code(text: string)

  /** Some keyword, lower-cased, occurs in the lower-cased text. */
  predicate MentionsKeyword(text: string) {
    MentionsAny(ToLower(text), AggregationKeywords)
  }

  /** Some keyword of `kws`, lower-cased, occurs in `lowered`. */
  predicate MentionsAny(lowered: string, kws: seq<string>) {
    exists i :: 0 <= i < |kws| && Contains(lowered, ToLower(kws[i]))
  }

  /** The `any(...)` scan over the keywords `kws` from index `from` on. */
  function ScanKeywords(lowered: string, kws: seq<string>, from: nat): (r: bool)
    requires from <= |kws|
    ensures r <==> exists i :: from <= i < |kws| && Contains(lowered, ToLower(kws[i]))
    decreases |kws| - from
  {
    if from == |kws| then false
    else Contains(lowered, ToLower(kws[from])) || ScanKeywords(lowered, kws, from + 1)
  }

  /** Keyword search on a text. */
  function IsAggregationText(text: string): (r: bool)
    ensures r <==> MentionsKeyword(text)
  {
    ScanKeywords(ToLower(text), AggregationKeywords, 0)
  }

  /** `is_aggregation`: a function whose source cannot be read is not an aggregation. */
  function IsAggregation(s: Subject): (r: bool)
    ensures s.Function? && s.source.None? ==> !r
    ensures s.Function? && s.source.Some? ==> (r <==> MentionsKeyword(s.source.value))
    ensures s.Code? ==> (r <==> MentionsKeyword(s.text))
  {
    match s
    case Function(src) => if src.None? then false else IsAggregationText(src.value)
    case Code(t) => IsAggregationText(t)
  }

  /** Surrounding a flagged text with more code keeps it flagged. */
  lemma AggregationSurvivesContext(before: string, text: string, after: string)
    requires IsAggregationText(text)
    ensures IsAggregationText(before + text + after)
  {
    var i :| 0 <= i < |AggregationKeywords| && Contains(ToLower(text), ToLower(AggregationKeywords[i]));
    var kw := ToLower(AggregationKeywords[i]);
    ToLowerConcat(before, text);
    ToLowerConcat(before + text, after);
    ContainsPrepend(ToLower(before), ToLower(text), kw);
    ContainsAppend(ToLower(before) + ToLower(text), kw, ToLower(after));
    assert Contains(ToLower(before + text + after), kw);
  }

  /** The letter case of the text never changes the verdict. */
  lemma CaseDoesNotMatter(a: string, b: string)
    requires |a| == |b|
    requires forall i :: 0 <= i < |a| ==> LowerChar(a[i]) == LowerChar(b[i])
    ensures IsAggregationText(a) == IsAggregationText(b)
  {
    assert ToLower(a) == ToLower(b);
  }

  /** A text holding any keyword, in any case, is flagged. */
  lemma KeywordFlags(text: string, i: nat)
    requires i < |AggregationKeywords| && Contains(ToLower(text), ToLower(AggregationKeywords[i]))
    ensures IsAggregationText(text)
  {
  }

  /** A text that mentions `.sum(` in any case is flagged. */
  lemma SumIsAggregation(before: string, after: string)
    ensures IsAggregationText(before + ".SUM(" + after)
  {
    var kw := AggregationKeywords[3];
    var low := ToLower(".SUM(");
    assert low == kw by {
      assert kw == ".sum(";
      assert low[0] == '.' && low[1] == 's' && low[2] == 'u' && low[3] == 'm' && low[4] == '(';
    }
    ToLowerIdempotent(".SUM(");
    assert StartsWith(low, ToLower(kw));
    KeywordFlags(".SUM(", 3);
    AggregationSurvivesContext(before, ".SUM(", after);
  }
}
