/**
 * The analysis result exchanged between the analysis service and the dashboard:
 * the `summary` object that `generate_summary_improved` returns and that the
 * dashboard reads as `results.summary`. Every field may be absent (`None`); the
 * service's early and error returns send an EMPTY sentiment summary `{}`, which is
 * present but has no fields.
 */
module Analysis {
  import opened Wrappers

  datatype SentimentSummary = SentimentSummary(
    positive: Option<nat>,
    neutral: Option<nat>,
    negative: Option<nat>,
    totalReviews: Option<nat>,
    overallSentiment: Option<string>,
    averageScore: Option<real>)

  /** The JSON object `{}`. */
  const EmptySentiment: SentimentSummary := SentimentSummary(None, None, None, None, None, None)

  datatype Summary = Summary(
    text: string,
    sentiment: Option<SentimentSummary>,
    keyInsights: seq<string>,
    reviewCount: Option<nat>)

  /** What the dashboard keeps in its `results` state: the analysis response. */
  datatype Results = Results(summary: Option<Summary>)

  /**
   * JavaScript's `a || b` for a numeric field: an absent field and a zero are both
   * falsy, so either one yields `b`.
   */
  function FirstNonZero(a: Option<nat>, b: nat): (r: nat)
    ensures r == 0 ==> b == 0
    ensures a.Some? && a.value != 0 ==> r == a.value
    ensures (a.None? || a.value == 0) ==> r == b
  {
    if a.Some? && a.value != 0 then a.value else b
  }

  /** `results?.summary?.sentiment_summary`, when it is present (`{}` counts as present). */
  function SentimentOf(results: Option<Results>): Option<SentimentSummary>
  {
    if results.Some? && results.value.summary.Some? then results.value.summary.value.sentiment
    else None
  }

  /** `pos + neu + neg` in JavaScript: an absent operand makes the sum `NaN` (here `None`). */
  function CountSum(s: SentimentSummary): (r: Option<nat>)
    ensures r.Some? <==> s.positive.Some? && s.neutral.Some? && s.negative.Some?
  {
    if s.positive.Some? && s.neutral.Some? && s.negative.Some?
    then Some(s.positive.value + s.neutral.value + s.negative.value)
    else None
  }
}
