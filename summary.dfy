/**
 * The analysis service's summary step, `generate_summary_improved` in
 * backend/ml_service.py: it picks the first text column of an analysis report,
 * joins and truncates its reviews, derives sentiment counts and an average
 * (from the report's own counts, or from one polarity score per review), maps the
 * average to a label, lists key insights and writes a summary text (the
 * summariser's output, or a fallback sentence).
 *
 * The polarity scorer (TextBlob) and the summariser (a transformers pipeline) are
 * parameters: each either returns a value or fails with a message.
 */
module SummaryService {
  import opened Wrappers
  import opened Rounding
  import opened Text
  import opened Analysis

  /** One column's entry in the report's `analysis` map. */
  datatype TextStats = TextStats(sampleReviews: seq<string>, nReviews: Option<nat>, avgLengthWords: Option<real>)

  /** `analysis.get(text_col, {})` when the column has no entry. */
  const NoStats: TextStats := TextStats([], None, None)

  /** The report's optional `sentiment_data`; each count may be absent. */
  datatype SentimentCounts = SentimentCounts(positive: Option<nat>, negative: Option<nat>, neutral: Option<nat>, total: Option<nat>)

  /** The analysis report: column kinds in insertion order, per-column stats, optional counts. */
  datatype Report = Report(columns: seq<(string, string)>, analysis: map<string, TextStats>, sentimentData: Option<SentimentCounts>)

  /** What the sentiment step settles on before the text is written. */
  datatype Sentiments = Sentiments(pos: nat, neg: nat, neu: nat, avg: real, nReviews: nat)

  const NoTextColumnsMessage: string := "No text reviews found in the dataset."
  const NoReviewsMessage: string := "No reviews found in the dataset."
  const ErrorPrefix: string := "Error generating summary: "
  const PromptPrefix: string := "Summarize the following event reviews: "
  const MaxCombined: nat := 5000
  const Window: nat := 2500

  // ===== column choice =====

  /** The names of the columns whose kind is "text", in order. */
  function TextColumns(columns: seq<(string, string)>): (r: seq<string>)
    ensures |r| <= |columns|
    ensures r == [] <==> forall i :: 0 <= i < |columns| ==> columns[i].1 != "text"
    ensures r != [] ==> exists i :: (0 <= i < |columns| && columns[i] == (r[0], "text")
      && forall j :: 0 <= j < i ==> columns[j].1 != "text")
    ensures forall k :: 0 <= k < |r| ==> exists i :: 0 <= i < |columns| && columns[i] == (r[k], "text")
  {
    if columns == [] then []
    else
      var rest := TextColumns(columns[1..]);
      assert forall k :: 0 <= k < |rest| ==> exists i :: 0 <= i < |columns| && columns[i] == (rest[k], "text") by {
        forall k | 0 <= k < |rest| ensures exists i :: 0 <= i < |columns| && columns[i] == (rest[k], "text") {
          var i :| 0 <= i < |columns[1..]| && columns[1..][i] == (rest[k], "text");
          assert columns[i + 1] == (rest[k], "text");
        }
      }
      if columns[0].1 == "text" then
        [columns[0].0] + rest
      else
        assert rest != [] ==> exists i :: (0 <= i < |columns| && columns[i] == (rest[0], "text")
          && forall j :: 0 <= j < i ==> columns[j].1 != "text") by {
          if rest != [] {
            var i :| 0 <= i < |columns[1..]| && columns[1..][i] == (rest[0], "text")
              && forall j :: 0 <= j < i ==> columns[1..][j].1 != "text";
            assert columns[i + 1] == (rest[0], "text");
            forall j | 0 <= j < i + 1 ensures columns[j].1 != "text" {
              if j > 0 { assert columns[j] == columns[1..][j - 1]; }
            }
          }
        }
        assert rest == [] ==> forall i :: 0 <= i < |columns| ==> columns[i].1 != "text" by {
          if rest == [] {
            forall i | 0 <= i < |columns| ensures columns[i].1 != "text" {
              if i > 0 { assert columns[i] == columns[1..][i - 1]; }
            }
          }
        }
        rest
  }

  // ===== the text handed to the summariser =====

  /**
   * The joined reviews cut to fit the model: above 5000 characters, the first 2500
   * and the last 2500 characters with one space between them.
   */
  function Truncate(combined: string): (r: string)
    ensures |combined| <= MaxCombined ==> r == combined
    ensures |combined| > MaxCombined ==> (|r| == 2 * Window + 1
      && r[..Window] == combined[..Window] && r[Window] == ' '
      && r[Window + 1..] == combined[|combined| - Window..])
  {
    if |combined| > MaxCombined then combined[..Window] + " " + combined[|combined| - Window..]
    else combined
  }

  /** The cut never yields more than 5001 characters, and cutting twice changes nothing. */
  lemma TruncateIdempotent(combined: string)
    ensures |Truncate(combined)| <= 2 * Window + 1
    ensures Truncate(Truncate(combined)) == Truncate(combined)
  {
    var r := Truncate(combined);
    if |combined| > MaxCombined {
      var rr := Truncate(r);
      assert rr[..Window] == r[..Window];
      assert rr[Window + 1..] == r[|r| - Window..] == r[Window + 1..];
      assert rr == rr[..Window] + [rr[Window]] + rr[Window + 1..];
      assert r == r[..Window] + [r[Window]] + r[Window + 1..];
    }
  }

  /** Reviews joined with single spaces, as `" ".join(all_reviews)`. */
  function CombineReviews(reviews: seq<string>): string
  {
    Join(" ", reviews)
  }

  /** Joining n reviews adds one space between neighbours. */
  lemma CombineReviewsLength(reviews: seq<string>)
    requires |reviews| >= 1
    ensures |CombineReviews(reviews)| == TotalLength(reviews) + |reviews| - 1
  {
    JoinLength(" ", reviews);
  }

  function Prompt(combined: string): string
  {
    PromptPrefix + combined
  }

  // ===== sentiment from the report's counts =====

  lemma QuotientBounds(x: real, d: real)
    requires d > 0.0 && -d <= x <= d
    ensures -1.0 <= x / d <= 1.0
    ensures x / d > 0.0 <==> x > 0.0
    ensures x / d < 0.0 <==> x < 0.0
  {
    var q := x / d;
    assert q * d == x;
  }

  /**
   * `(pos - neg) / (pos + neg + neu)`, or 0 when there are no counts: a value in
   * [-1, 1] whose sign is the sign of `pos - neg`.
   */
  function AverageFromCounts(pos: nat, neg: nat, neu: nat): (a: real)
    ensures pos + neg + neu == 0 ==> a == 0.0
    ensures -1.0 <= a <= 1.0
    ensures a > 0.0 <==> pos > neg
    ensures a < 0.0 <==> neg > pos
  {
    if pos + neg + neu > 0 then
      QuotientBounds((pos - neg) as real, (pos + neg + neu) as real);
      (pos - neg) as real / (pos + neg + neu) as real
    else 0.0
  }

  /** The counts branch: absent counts are 0 and an absent total is the number of sample reviews. */
  function FromCounts(sd: SentimentCounts, nSamples: nat): (s: Sentiments)
    ensures -1.0 <= s.avg <= 1.0
  {
    var pos := sd.positive.GetOr(0);
    var neg := sd.negative.GetOr(0);
    var neu := sd.neutral.GetOr(0);
    Sentiments(pos, neg, neu, AverageFromCounts(pos, neg, neu), sd.total.GetOr(nSamples))
  }

  // ===== sentiment from polarity scores =====

  /** The scores above `t`, the `(sentiment_scores > t).sum()` of the service. */
  function CountAbove(scores: seq<real>, t: real): (n: nat)
    ensures n <= |scores|
  {
    if scores == [] then 0 else (if scores[0] > t then 1 else 0) + CountAbove(scores[1..], t)
  }

  /** The scores below `t`. */
  function CountBelow(scores: seq<real>, t: real): (n: nat)
    ensures n <= |scores|
  {
    if scores == [] then 0 else (if scores[0] < t then 1 else 0) + CountBelow(scores[1..], t)
  }

  /** A score is never both above 0.1 and below -0.1, so the neutral remainder is not negative. */
  lemma {:induction false} BucketsDisjoint(scores: seq<real>)
    ensures CountAbove(scores, 0.1) + CountBelow(scores, -0.1) <= |scores|
  {
    if scores != [] {
      BucketsDisjoint(scores[1..]);
    }
  }

  function Sum(scores: seq<real>): real
  {
    if scores == [] then 0.0 else scores[0] + Sum(scores[1..])
  }

  lemma {:induction false} SumBounds(scores: seq<real>)
    requires forall i :: 0 <= i < |scores| ==> -1.0 <= scores[i] <= 1.0
    ensures -(|scores| as real) <= Sum(scores) <= |scores| as real
  {
    if scores != [] {
      SumBounds(scores[1..]);
    }
  }

  /** `np.mean`. */
  function Mean(scores: seq<real>): real
    requires |scores| > 0
  {
    Sum(scores) / |scores| as real
  }

  /** Polarities lie in [-1, 1], and so does their mean. */
  lemma MeanBounds(scores: seq<real>)
    requires |scores| > 0
    requires forall i :: 0 <= i < |scores| ==> -1.0 <= scores[i] <= 1.0
    ensures -1.0 <= Mean(scores) <= 1.0
  {
    SumBounds(scores);
    QuotientBounds(Sum(scores), |scores| as real);
  }

  /** The polarity branch: the three buckets split the reviews; the count is the stats' `n_reviews`. */
  function FromScores(scores: seq<real>, nReviews: nat): (s: Sentiments)
    requires |scores| > 0
    ensures s.pos + s.neg + s.neu == |scores|
    ensures s.pos == CountAbove(scores, 0.1) && s.neg == CountBelow(scores, -0.1)
  {
    BucketsDisjoint(scores);
    var pos := CountAbove(scores, 0.1);
    var neg := CountBelow(scores, -0.1);
    Sentiments(pos, neg, |scores| - pos - neg, Mean(scores), nReviews)
  }

  /**
   * The scores of all reviews in order, or the first scorer failure: the loop
   * stops at the first review whose analysis raises.
   */
  function PolarityScores(reviews: seq<string>, analyze: string -> Result<real, string>): (r: Result<seq<real>, string>)
    ensures r.Ok? ==> |r.value| == |reviews|
    ensures r.Ok? <==> forall i :: 0 <= i < |reviews| ==> analyze(reviews[i]).Ok?
  {
    if reviews == [] then Ok([])
    else
      match analyze(reviews[0])
      case Err(e) => Err(e)
      case Ok(p) =>
        match PolarityScores(reviews[1..], analyze)
        case Err(e) =>
          Err(e)
        case Ok(rest) =>
          assert forall i :: 0 <= i < |reviews| ==> analyze(reviews[i]).Ok? by {
            forall i | 0 <= i < |reviews| ensures analyze(reviews[i]).Ok? {
              if i > 0 { assert reviews[i] == reviews[1..][i - 1]; }
            }
          }
          Ok([p] + rest)
  }

  /** The scores line up with the reviews. */
  lemma {:induction false} PolarityScoresAt(reviews: seq<string>, analyze: string -> Result<real, string>, i: nat)
    requires PolarityScores(reviews, analyze).Ok? && i < |reviews|
    ensures analyze(reviews[i]).Ok? && PolarityScores(reviews, analyze).value[i] == analyze(reviews[i]).value
  {
    if i > 0 {
      PolarityScoresAt(reviews[1..], analyze, i - 1);
    }
  }

  /** The scoring loop: one polarity per review, appended in order. */
  method ScoreReviews(reviews: seq<string>, analyze: string -> Result<real, string>) returns (r: Result<seq<real>, string>)
    ensures r == PolarityScores(reviews, analyze)
  {
    var scores: seq<real> := [];
    var i := 0;
    PrefixStart(reviews, analyze);
    while i < |reviews|
      invariant 0 <= i <= |reviews|
      invariant PolarityScores(reviews, analyze) == PrefixThen(reviews, analyze, i, scores)
    {
      PrefixStep(reviews, analyze, i, scores);
      var p := analyze(reviews[i]);
      if p.Err? {
        return Err(p.error);
      }
      scores := scores + [p.value];
      i := i + 1;
    }
    PrefixDone(reviews, analyze, scores);
    return Ok(scores);
  }

  /** What scoring the reviews from i onwards after `scores` yields. */
  function PrefixThen(reviews: seq<string>, analyze: string -> Result<real, string>, i: nat, scores: seq<real>): Result<seq<real>, string>
    requires i <= |reviews|
  {
    match PolarityScores(reviews[i..], analyze)
    case Err(e) => Err(e)
    case Ok(rest) => Ok(scores + rest)
  }

  lemma PrefixStep(reviews: seq<string>, analyze: string -> Result<real, string>, i: nat, scores: seq<real>)
    requires i < |reviews|
    ensures analyze(reviews[i]).Err? ==> PrefixThen(reviews, analyze, i, scores) == Err(analyze(reviews[i]).error)
    ensures analyze(reviews[i]).Ok? ==>
      PrefixThen(reviews, analyze, i, scores) == PrefixThen(reviews, analyze, i + 1, scores + [analyze(reviews[i]).value])
  {
    assert reviews[i..][1..] == reviews[i + 1..];
    assert reviews[i..][0] == reviews[i];
    if analyze(reviews[i]).Ok? {
      var p := analyze(reviews[i]).value;
      match PolarityScores(reviews[i + 1..], analyze)
      case Err(e) =>
      case Ok(rest) =>
        assert PolarityScores(reviews[i..], analyze) == Ok([p] + rest);
        assert scores + ([p] + rest) == (scores + [p]) + rest;
    }
  }

  lemma PrefixStart(reviews: seq<string>, analyze: string -> Result<real, string>)
    ensures PrefixThen(reviews, analyze, 0, []) == PolarityScores(reviews, analyze)
  {
    assert reviews[0..] == reviews;
    match PolarityScores(reviews, analyze)
    case Err(e) =>
    case Ok(rest) =>
      assert [] + rest == rest;
  }

  lemma PrefixDone(reviews: seq<string>, analyze: string -> Result<real, string>, scores: seq<real>)
    ensures PrefixThen(reviews, analyze, |reviews|, scores) == Ok(scores)
  {
    assert reviews[|reviews|..] == [];
    assert scores + [] == scores;
  }

  // ===== label and insights =====

  /** The label ladder: the first threshold the average passes. */
  function OverallLabel(avg: real): (name: string)
    ensures name == "very positive" <==> avg > 0.15
    ensures name == "mostly positive" <==> 0.05 < avg <= 0.15
    ensures name == "very negative" <==> avg < -0.15
    ensures name == "mostly negative" <==> -0.15 <= avg < -0.05
    ensures name == "mixed/neutral" <==> -0.05 <= avg <= 0.05
  {
    if avg > 0.15 then "very positive"
    else if avg > 0.05 then "mostly positive"
    else if avg < -0.15 then "very negative"
    else if avg < -0.05 then "mostly negative"
    else "mixed/neutral"
  }

  /** Labels from most negative (0) to most positive (4). */
  function LabelRank(name: string): nat
  {
    if name == "very negative" then 0
    else if name == "mostly negative" then 1
    else if name == "mixed/neutral" then 2
    else if name == "mostly positive" then 3
    else 4
  }

  /** A higher average never gets a more negative label. */
  lemma LabelMonotone(a: real, b: real)
    requires a <= b
    ensures LabelRank(OverallLabel(a)) <= LabelRank(OverallLabel(b))
  {
  }

  function PositiveInsight(pos: nat): string
  {
    "Highly positive reception (" + NatToString(pos) + " positive reviews)"
  }

  function ConcernInsight(neg: nat): string
  {
    "Some concerns raised (" + NatToString(neg) + " negative reviews)"
  }

  const OverallPositive: string := "Overall positive sentiment"
  const Improvement: string := "Areas for improvement identified"

  /**
   * The insights: a positive-reception line iff positives outnumber twice the
   * negatives, a concerns line iff there is a negative review, and last exactly one
   * closing line chosen by the average's sign.
   */
  function KeyInsights(pos: nat, neg: nat, avg: real): (r: seq<string>)
    ensures 1 <= |r| <= 3
    ensures PositiveInsight(pos) in r <==> pos > neg * 2
    ensures ConcernInsight(neg) in r <==> neg > 0
    ensures r[|r| - 1] == if avg > 0.0 then OverallPositive else Improvement
    ensures OverallPositive in r <==> avg > 0.0
    ensures Improvement in r <==> avg <= 0.0
  {
    var p := PositiveInsight(pos);
    var c := ConcernInsight(neg);
    assert p[0] == 'H' && c[0] == 'S' && OverallPositive[0] == 'O' && Improvement[0] == 'A';
    (if pos > neg * 2 then [p] else []) + (if neg > 0 then [c] else [])
      + [if avg > 0.0 then OverallPositive else Improvement]
  }

  /** The insight list as the service builds it, one `append` at a time. */
  method BuildKeyInsights(pos: nat, neg: nat, avg: real) returns (insights: seq<string>)
    ensures insights == KeyInsights(pos, neg, avg)
  {
    insights := [];
    if pos > neg * 2 {
      insights := insights + [PositiveInsight(pos)];
    }
    if neg > 0 {
      insights := insights + [ConcernInsight(neg)];
    }
    if avg > 0.0 {
      insights := insights + [OverallPositive];
    } else {
      insights := insights + [Improvement];
    }
  }

  /** The fallback's wording for the balance of positives and negatives. */
  function SentimentDescription(pos: nat, neg: nat): (d: string)
    ensures d == "predominantly positive" <==> pos > neg
    ensures d == "predominantly negative" <==> neg > pos
    ensures d == "mixed" <==> pos == neg
  {
    assert "predominantly positive"[14] != "predominantly negative"[14];
    if pos > neg then "predominantly positive"
    else if neg > pos then "predominantly negative"
    else "mixed"
  }

  /** `format(x, '.1f')`: tenths rounded half to even, a minus sign for a negative value. */
  function Format1(x: real): (s: string)
    ensures |s| >= 3
    ensures x < 0.0 <==> s[0] == '-'
  {
    var m := if x < 0.0 then -x else x;
    var t := PyRound(10.0 * m);
    assert t >= 0;
    TenthsToString(x < 0.0, t)
  }

  /** The themes clause: at most the first three insights, or "general feedback" for none. */
  function Themes(insights: seq<string>): string
  {
    if insights != [] then Join(", ", if |insights| > 3 then insights[..3] else insights)
    else "general feedback"
  }

  /** The fallback sentence, used when no summariser output is available. */
  function FallbackSummary(nReviews: nat, pos: nat, neg: nat, avgLength: real, insights: seq<string>): string
  {
    "Analyzed " + NatToString(nReviews) + " event reviews with " + SentimentDescription(pos, neg)
      + " sentiment. " + "Average review length: " + Format1(avgLength) + " words. "
      + "Key themes include: " + Themes(insights) + "."
  }

  /**
   * The insight list always has one to three entries, so the fallback quotes all of
   * them and never says "general feedback".
   */
  lemma FallbackQuotesEveryInsight(pos: nat, neg: nat, avg: real)
    ensures Themes(KeyInsights(pos, neg, avg)) == Join(", ", KeyInsights(pos, neg, avg))
    ensures Themes(KeyInsights(pos, neg, avg)) != "general feedback"
  {
    var r := KeyInsights(pos, neg, avg);
    if |r| == 1 {
      assert Join(", ", r) == r[0];
      assert r[0][0] == 'O' || r[0][0] == 'A';
    } else {
      JoinLength(", ", r);
      assert |Join(", ", r)| >= 2 * |", "|;
    }
  }

  // ===== the whole step =====

  /** The shape of the early and the error returns: `sentiment_summary: {}`, no insights, no count. */
  function EmptySummary(text: string): Summary
  {
    Summary(text, Some(EmptySentiment), [], None)
  }

  /** The summary for settled sentiments: summariser text (stripped) or the fallback wording. */
  function Assemble(stats: TextStats, combined: string, s: Sentiments,
                    summarizer: Option<string -> Result<string, string>>): Summary
  {
    var insights := KeyInsights(s.pos, s.neg, s.avg);
    var sentiment := SentimentSummary(Some(s.pos), Some(s.neu), Some(s.neg), Some(s.nReviews),
      Some(OverallLabel(s.avg)), Some(PyRound3(s.avg)));
    var fallback := FallbackSummary(s.nReviews, s.pos, s.neg, stats.avgLengthWords.GetOr(0.0), insights);
    var text :=
      match summarizer
      case None => fallback
      case Some(f) =>
        match f(Prompt(combined))
        case Ok(raw) => PyStrip(raw)
        case Err(_) => fallback;
    Summary(text, Some(sentiment), insights, Some(s.nReviews))
  }

  /** The stats of the first text column, `{}` when the analysis has none for it. */
  function FirstTextStats(report: Report): TextStats
    requires TextColumns(report.columns) != []
  {
    var col := TextColumns(report.columns)[0];
    if col in report.analysis then report.analysis[col] else NoStats
  }

  /** `generate_summary_improved` as one value. */
  function SummaryOf(report: Report, analyze: string -> Result<real, string>,
                     summarizer: Option<string -> Result<string, string>>): Summary
  {
    if TextColumns(report.columns) == [] then EmptySummary(NoTextColumnsMessage)
    else
      var stats := FirstTextStats(report);
      var reviews := stats.sampleReviews;
      if reviews == [] then EmptySummary(NoReviewsMessage)
      else
        var combined := Truncate(CombineReviews(reviews));
        match report.sentimentData
        case Some(sd) => Assemble(stats, combined, FromCounts(sd, |reviews|), summarizer)
        case None =>
          match PolarityScores(reviews, analyze)
          case Err(e) => EmptySummary(ErrorPrefix + e)
          case Ok(scores) => Assemble(stats, combined, FromScores(scores, stats.nReviews.GetOr(|reviews|)), summarizer)
  }

  /** The summary step, with the scoring loop. */
  method GenerateSummaryImproved(report: Report, analyze: string -> Result<real, string>,
                                 summarizer: Option<string -> Result<string, string>>) returns (r: Summary)
    ensures r == SummaryOf(report, analyze, summarizer)
  {
    var columns := TextColumns(report.columns);
    if columns == [] {
      return EmptySummary(NoTextColumnsMessage);
    }
    var stats := FirstTextStats(report);
    var reviews := stats.sampleReviews;
    if reviews == [] {
      return EmptySummary(NoReviewsMessage);
    }
    var combined := Truncate(CombineReviews(reviews));
    var sentiments: Sentiments;
    if report.sentimentData.Some? {
      sentiments := FromCounts(report.sentimentData.value, |reviews|);
    } else {
      var scored := ScoreReviews(reviews, analyze);
      if scored.Err? {
        return EmptySummary(ErrorPrefix + scored.error);
      }
      sentiments := FromScores(scored.value, stats.nReviews.GetOr(|reviews|));
    }
    r := Assemble(stats, combined, sentiments, summarizer);
  }

  // ===== properties of the whole step =====

  /** Without a text column, or without sample reviews, the fixed message and empty results. */
  lemma EarlyReturns(report: Report, analyze: string -> Result<real, string>,
                     summarizer: Option<string -> Result<string, string>>)
    ensures TextColumns(report.columns) == [] ==>
      SummaryOf(report, analyze, summarizer) == Summary(NoTextColumnsMessage, Some(EmptySentiment), [], None)
    ensures TextColumns(report.columns) != [] && FirstTextStats(report).sampleReviews == [] ==>
      SummaryOf(report, analyze, summarizer) == Summary(NoReviewsMessage, Some(EmptySentiment), [], None)
  {
  }

  /** A review the scorer cannot analyse turns the whole result into the error shape. */
  lemma ScorerFailure(report: Report, analyze: string -> Result<real, string>,
                      summarizer: Option<string -> Result<string, string>>, i: nat)
    requires TextColumns(report.columns) != [] && report.sentimentData.None?
    requires i < |FirstTextStats(report).sampleReviews|
    requires analyze(FirstTextStats(report).sampleReviews[i]).Err?
    ensures var r := SummaryOf(report, analyze, summarizer);
      StartsWith(r.text, ErrorPrefix) && r.sentiment == Some(EmptySentiment) && r.keyInsights == [] && r.reviewCount.None?
  {
  }

  /** The summary built from settled sentiments carries them, their label and their insights. */
  lemma AssembleShape(stats: TextStats, combined: string, s: Sentiments,
                      summarizer: Option<string -> Result<string, string>>)
    ensures var r := Assemble(stats, combined, s, summarizer);
      r.reviewCount == Some(s.nReviews)
      && r.sentiment == Some(SentimentSummary(Some(s.pos), Some(s.neu), Some(s.neg), Some(s.nReviews),
           Some(OverallLabel(s.avg)), Some(PyRound3(s.avg))))
      && r.keyInsights == KeyInsights(s.pos, s.neg, s.avg)
    ensures summarizer.Some? && summarizer.value(Prompt(combined)).Ok? ==>
      Assemble(stats, combined, s, summarizer).text == PyStrip(summarizer.value(Prompt(combined)).value)
  {
  }

  /** Past the early returns, the step assembles the counts' or the scores' sentiments, or fails. */
  lemma SettledBranches(report: Report, analyze: string -> Result<real, string>,
                        summarizer: Option<string -> Result<string, string>>)
    requires TextColumns(report.columns) != [] && FirstTextStats(report).sampleReviews != []
    ensures var stats := FirstTextStats(report);
      var reviews := stats.sampleReviews;
      var combined := Truncate(CombineReviews(reviews));
      var r := SummaryOf(report, analyze, summarizer);
      && (report.sentimentData.Some? ==>
            r == Assemble(stats, combined, FromCounts(report.sentimentData.value, |reviews|), summarizer))
      && (report.sentimentData.None? && PolarityScores(reviews, analyze).Ok? ==>
            r == Assemble(stats, combined, FromScores(PolarityScores(reviews, analyze).value,
                   stats.nReviews.GetOr(|reviews|)), summarizer))
      && (report.sentimentData.None? && PolarityScores(reviews, analyze).Err? ==>
            r == EmptySummary(ErrorPrefix + PolarityScores(reviews, analyze).error))
  {
  }

  /**
   * A full result: every sentiment field is present, the review count is reported
   * twice and agrees, and the insights agree with the counts.
   */
  predicate FullShape(r: Summary)
  {
    r.sentiment.Some?
    && var s := r.sentiment.value;
    s.totalReviews == r.reviewCount
    && s.positive.Some? && s.negative.Some? && s.neutral.Some? && s.averageScore.Some?
    && (PositiveInsight(s.positive.value) in r.keyInsights <==> s.positive.value > 2 * s.negative.value)
    && (ConcernInsight(s.negative.value) in r.keyInsights <==> s.negative.value > 0)
    && 1 <= |r.keyInsights| <= 3
  }

  /** Whatever sentiments the step settles on, the assembled result has the full shape. */
  lemma AssembledFullShape(stats: TextStats, combined: string, s: Sentiments,
                           summarizer: Option<string -> Result<string, string>>)
    ensures FullShape(Assemble(stats, combined, s, summarizer))
  {
    AssembleShape(stats, combined, s, summarizer);
  }

  /**
   * Whenever the step gets as far as sentiments, the summary reports the same review
   * count twice, a label and a 3-decimal average consistent with each other, and
   * insights consistent with the counts.
   */
  lemma ResultShape(report: Report, analyze: string -> Result<real, string>,
                    summarizer: Option<string -> Result<string, string>>)
    requires SummaryOf(report, analyze, summarizer).reviewCount.Some?
    ensures FullShape(SummaryOf(report, analyze, summarizer))
  {
    EarlyReturns(report, analyze, summarizer);
    if TextColumns(report.columns) != [] && FirstTextStats(report).sampleReviews != [] {
      var stats := FirstTextStats(report);
      var reviews := stats.sampleReviews;
      var combined := Truncate(CombineReviews(reviews));
      SettledBranches(report, analyze, summarizer);
      if report.sentimentData.Some? {
        AssembledFullShape(stats, combined, FromCounts(report.sentimentData.value, |reviews|), summarizer);
      } else if PolarityScores(reviews, analyze).Ok? {
        AssembledFullShape(stats, combined,
          FromScores(PolarityScores(reviews, analyze).value, stats.nReviews.GetOr(|reviews|)), summarizer);
      }
    }
  }

  /** The counts branch: the average of the report's counts, kept within 0.0005 by the rounding. */
  lemma CountsBranch(report: Report, analyze: string -> Result<real, string>,
                     summarizer: Option<string -> Result<string, string>>)
    requires TextColumns(report.columns) != [] && FirstTextStats(report).sampleReviews != []
    requires report.sentimentData.Some?
    ensures var r := SummaryOf(report, analyze, summarizer);
      var sd := report.sentimentData.value;
      var s := r.sentiment.value;
      var avg := AverageFromCounts(sd.positive.GetOr(0), sd.negative.GetOr(0), sd.neutral.GetOr(0));
      s.positive == Some(sd.positive.GetOr(0)) && s.negative == Some(sd.negative.GetOr(0))
      && s.neutral == Some(sd.neutral.GetOr(0))
      && r.reviewCount == Some(sd.total.GetOr(|FirstTextStats(report).sampleReviews|))
      && -1.0 <= s.averageScore.value <= 1.0
      && -0.0005 <= s.averageScore.value - avg <= 0.0005
      && s.overallSentiment == Some(OverallLabel(avg))
  {
    var stats := FirstTextStats(report);
    var reviews := stats.sampleReviews;
    SettledBranches(report, analyze, summarizer);
    AssembleShape(stats, Truncate(CombineReviews(reviews)), FromCounts(report.sentimentData.value, |reviews|), summarizer);
  }

  /** The polarity branch: the three counts add up to the number of reviews scored. */
  lemma PolarityBranch(report: Report, analyze: string -> Result<real, string>,
                       summarizer: Option<string -> Result<string, string>>)
    requires TextColumns(report.columns) != [] && FirstTextStats(report).sampleReviews != []
    requires report.sentimentData.None?
    requires PolarityScores(FirstTextStats(report).sampleReviews, analyze).Ok?
    ensures var r := SummaryOf(report, analyze, summarizer);
      var s := r.sentiment.value;
      var stats := FirstTextStats(report);
      s.positive.value + s.neutral.value + s.negative.value == |stats.sampleReviews|
      && r.reviewCount == Some(stats.nReviews.GetOr(|stats.sampleReviews|))
  {
    var stats := FirstTextStats(report);
    var reviews := stats.sampleReviews;
    SettledBranches(report, analyze, summarizer);
    AssembleShape(stats, Truncate(CombineReviews(reviews)),
      FromScores(PolarityScores(reviews, analyze).value, stats.nReviews.GetOr(|reviews|)), summarizer);
  }

  /** With a working summariser, the text is its stripped output for the prefixed, cut reviews. */
  lemma SummarizerText(report: Report, analyze: string -> Result<real, string>,
                       f: string -> Result<string, string>)
    requires TextColumns(report.columns) != [] && FirstTextStats(report).sampleReviews != []
    requires report.sentimentData.Some?
    requires f(Prompt(Truncate(CombineReviews(FirstTextStats(report).sampleReviews)))).Ok?
    ensures SummaryOf(report, analyze, Some(f)).text
      == PyStrip(f(Prompt(Truncate(CombineReviews(FirstTextStats(report).sampleReviews)))).value)
    ensures |Prompt(Truncate(CombineReviews(FirstTextStats(report).sampleReviews)))| <= |PromptPrefix| + 2 * Window + 1
  {
    var stats := FirstTextStats(report);
    var reviews := stats.sampleReviews;
    var combined := Truncate(CombineReviews(reviews));
    SettledBranches(report, analyze, Some(f));
    AssembleShape(stats, combined, FromCounts(report.sentimentData.value, |reviews|), Some(f));
    TruncateIdempotent(CombineReviews(reviews));
  }
}
