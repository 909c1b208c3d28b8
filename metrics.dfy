/**
 * The dashboard's scalar KPIs (`calculateMetrics`) and its rating breakdown
 * (`getRatingBreakdown`). Ratings are kept as the number of tenths that their
 * `toFixed(1)` text shows: 35 is "3.5".
 */
module Metrics {
  import opened Wrappers
  import opened Rounding
  import opened Analysis

  /** The fixed multiplier behind the "AI reach" estimate. */
  const ReachMultiplier: nat := 5

  datatype KeyMetrics = KeyMetrics(
    overallScore: int,    // percentage of positive reviews
    totalMentions: nat,
    avgRating: int,       // tenths of a star, 0..50
    aiReach: int)

  /** The linear map of a sentiment score in [-1, 1] onto the star scale [0, 5]. */
  function StarScale(score: real): (r: real)
    ensures -1.0 <= score <= 1.0 ==> 0.0 <= r <= 5.0
  {
    ((score + 1.0) / 2.0) * 5.0
  }

  /** `Math.min(hi, Math.max(lo, x))`. */
  function Clamp(x: real, lo: real, hi: real): (r: real)
    requires lo <= hi
    ensures lo <= r <= hi
    ensures lo <= x <= hi ==> r == x
    ensures x < lo ==> r == lo
    ensures x > hi ==> r == hi
  {
    if x < lo then lo else if x > hi then hi else x
  }

  /** The average star rating shown: the clamped star-scale position, to one decimal. */
  function AverageRating(score: Option<real>): (t: int)
    ensures 0 <= t <= 50
  {
    JsFixed1(Clamp(StarScale(score.GetOr(0.0)), 0.0, 5.0))
  }

  /** The share of positive reviews, in percent; 0 when there are no reviews. */
  function OverallScore(positive: nat, total: nat): int
  {
    if total > 0 then JsRound(positive as real / total as real * 100.0) else 0
  }

  /** `total_reviews || review_count || 0`, reading a missing sentiment summary as `{}`. */
  function TotalReviews(summary: Summary): nat
  {
    var sentiment := summary.sentiment.GetOr(EmptySentiment);
    FirstNonZero(sentiment.totalReviews, FirstNonZero(summary.reviewCount, 0))
  }

  /** `calculateMetrics`: nothing until a result with a summary has arrived. */
  function CalculateMetrics(results: Option<Results>): (m: Option<KeyMetrics>)
    ensures m.None? <==> results.None? || results.value.summary.None?
    ensures m.Some? ==> 0 <= m.value.avgRating <= 50
    ensures m.Some? ==> m.value.aiReach == ReachMultiplier * m.value.totalMentions
    ensures m.Some? && m.value.totalMentions == 0 ==> m.value.overallScore == 0
    ensures m.Some? ==> var summary := results.value.summary.value;
      var sentiment := summary.sentiment.GetOr(EmptySentiment);
      m.value.totalMentions == TotalReviews(summary)
      && m.value.overallScore == OverallScore(FirstNonZero(sentiment.positive, 0), TotalReviews(summary))
      && m.value.avgRating == AverageRating(sentiment.averageScore)
  {
    if results.None? || results.value.summary.None? then None
    else
      var summary := results.value.summary.value;
      var sentiment := summary.sentiment.GetOr(EmptySentiment);
      var total := TotalReviews(summary);
      var positive := FirstNonZero(sentiment.positive, 0);
      JsRoundOfInt(total * ReachMultiplier);
      Some(KeyMetrics(
        OverallScore(positive, total),
        total,
        AverageRating(sentiment.averageScore),
        JsRound((total * ReachMultiplier) as real)))
  }

  /** The total is the first of total_reviews, review_count that is present and non-zero. */
  lemma TotalMentionsChoice(summary: Summary)
    ensures var s := summary.sentiment.GetOr(EmptySentiment);
      TotalReviews(summary) ==
        if s.totalReviews.Some? && s.totalReviews.value > 0 then s.totalReviews.value
        else if summary.reviewCount.Some? && summary.reviewCount.value > 0 then summary.reviewCount.value
        else 0
  {
  }

  /** `(p / t) * 100` is the exact percentage `p * 100 / t`, and lies in [0, 100] when p <= t. */
  lemma PercentOfTotal(p: real, t: real)
    requires 0.0 <= p <= t && t > 0.0
    ensures p / t * 100.0 == p * 100.0 / t
    ensures 0.0 <= p / t * 100.0 <= 100.0
  {
    var q := p / t;
    assert q * t == p;
    assert 0.0 <= q <= 1.0;
    assert (q * 100.0) * t == p * 100.0;
  }

  /** A consistent result scores between 0 and 100, within half a point of the exact share. */
  lemma OverallScoreBounds(positive: nat, total: nat)
    requires 0 < total && positive <= total
    ensures 0 <= OverallScore(positive, total) <= 100
    ensures var exact := positive as real * 100.0 / total as real;
      -0.5 <= OverallScore(positive, total) as real - exact <= 0.5
  {
    var x := positive as real / total as real * 100.0;
    PercentOfTotal(positive as real, total as real);
    JsRoundMonotone(0.0, x);
    JsRoundMonotone(x, 100.0);
    JsRoundOfInt(0);
    JsRoundOfInt(100);
  }

  /** The rating never decreases as the sentiment score grows. */
  lemma AverageRatingMonotone(s1: real, s2: real)
    requires s1 <= s2
    ensures AverageRating(Some(s1)) <= AverageRating(Some(s2))
  {
    var c1 := Clamp(StarScale(s1), 0.0, 5.0);
    var c2 := Clamp(StarScale(s2), 0.0, 5.0);
    assert c1 <= c2;
    JsFixed1Monotone(c1, c2);
  }

  /** In range, the rating is the star-scale position rounded to one decimal. */
  lemma AverageRatingTracksScore(score: real)
    requires -1.0 <= score <= 1.0
    ensures var t := AverageRating(Some(score));
      -0.5 <= t as real - 10.0 * StarScale(score) <= 0.5
  {
  }

  /** A missing (or zero) score gives the neutral midpoint, 2.5 stars. */
  lemma MissingScoreIsNeutral()
    ensures AverageRating(None) == 25
    ensures AverageRating(Some(0.0)) == 25
  {
  }

  /** The worked example: 28 positive of 51 with score 0.4 gives 55%, 51, "3.5" and 255. */
  lemma ExampleMetrics(text: string, insights: seq<string>)
    ensures CalculateMetrics(Some(Results(Some(Summary(text, Some(SentimentSummary(
      Some(28), Some(15), Some(8), Some(51), Some("mostly positive"), Some(0.4))), insights, Some(51))))))
      == Some(KeyMetrics(55, 51, 35, 255))
  {
    var share := 28.0 / 51.0;
    assert share * 51.0 == 28.0;
    assert 54.5 <= share * 100.0 < 55.5;
    assert StarScale(0.4) == 3.5;
  }

  // ----- rating breakdown -----

  /** Sub-ratings in tenths of a star. */
  datatype RatingBreakdown = RatingBreakdown(
    overallQuality: int,
    organization: int,
    valueForMoney: int,
    overallExperience: int,
    overallRepertoire: int)

  /** `total_reviews || (positive + neutral + negative) || 0`. */
  function BreakdownTotal(s: SentimentSummary): nat
  {
    FirstNonZero(s.totalReviews, FirstNonZero(CountSum(s), 0))
  }

  /** `getRatingBreakdown`: fixed discounts of the UNCLAMPED star-scale position. */
  function GetRatingBreakdown(results: Option<Results>): (b: Option<RatingBreakdown>)
    ensures b.None? <==> SentimentOf(results).None? || BreakdownTotal(SentimentOf(results).value) == 0
    ensures b.Some? ==> b.value.valueForMoney == b.value.overallExperience == b.value.overallRepertoire
  {
    match SentimentOf(results)
    case None => None
    case Some(s) =>
      if BreakdownTotal(s) == 0 then None
      else
        var base := StarScale(s.averageScore.GetOr(0.0));
        Some(RatingBreakdown(JsFixed1(base * 0.98), JsFixed1(base * 0.96), JsFixed1(base), JsFixed1(base), JsFixed1(base)))
  }

  /** For an in-range score the sub-ratings lie in [0, 5], organization <= quality <= value. */
  lemma BreakdownOrdered(results: Option<Results>)
    requires GetRatingBreakdown(results).Some?
    requires var s := SentimentOf(results).value;
      s.averageScore.Some? ==> -1.0 <= s.averageScore.value <= 1.0
    ensures var b := GetRatingBreakdown(results).value;
      0 <= b.organization <= b.overallQuality <= b.valueForMoney <= 50
  {
    var s := SentimentOf(results).value;
    var base := StarScale(s.averageScore.GetOr(0.0));
    assert 0.0 <= base * 0.96 <= base * 0.98 <= base <= 5.0;
    JsFixed1Monotone(base * 0.96, base * 0.98);
    JsFixed1Monotone(base * 0.98, base);
    JsFixed1Monotone(base, 5.0);
  }

  /** For an in-range score, "value for money" is exactly the headline average rating. */
  lemma BreakdownAgreesWithRating(results: Option<Results>)
    requires GetRatingBreakdown(results).Some?
    requires var s := SentimentOf(results).value;
      s.averageScore.Some? ==> -1.0 <= s.averageScore.value <= 1.0
    ensures CalculateMetrics(results).Some?
    ensures GetRatingBreakdown(results).value.valueForMoney == CalculateMetrics(results).value.avgRating
  {
  }

  /** Out of range the breakdown is not clamped: a score of 2 shows 7.5 against a headline 5.0. */
  lemma BreakdownIsUnclamped()
    ensures var r := Some(Results(Some(Summary("", Some(SentimentSummary(
      Some(1), Some(0), Some(0), Some(1), None, Some(2.0))), [], Some(1)))));
      GetRatingBreakdown(r).value.valueForMoney == 75 && CalculateMetrics(r).value.avgRating == 50
  {
    assert StarScale(2.0) == 7.5;
  }
}
