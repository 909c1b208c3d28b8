/**
 * The dashboard's synthetic chart series. None of them is measured: each is
 * fabricated from the one sentiment snapshot of the analysis result. A
 * `Math.random()` draw is an explicit parameter, and `isFixture` is whether the
 * search query names the demonstration event (see Dashboard.IsFixtureQuery).
 * A count that the source computes from a missing field (`NaN`) or copies from
 * one (`undefined`) is `None`.
 */
module Charts {
  import opened Wrappers
  import opened Rounding
  import opened Text
  import opened Analysis

  /** The time labels "0h" .. "6h". */
  function HourLabel(h: nat): string
    requires h < 10
  {
    [DigitChar(h)] + "h"
  }

  /** A draw of `Math.random()`. */
  predicate IsDraw(r: real) { 0.0 <= r < 1.0 }

  /** Both counts are missing, or both are present and x <= y. */
  predicate AtMost(x: Option<nat>, y: Option<nat>)
  {
    (x.Some? <==> y.Some?) && (x.Some? ==> x.value <= y.value)
  }

  lemma MulMonotone(m: real, f1: real, f2: real)
    requires 0.0 <= m && f1 <= f2
    ensures m * f1 <= m * f2
  {
    assert m * f2 - m * f1 == m * (f2 - f1);
  }

  /** `Math.round(m * f)` grows with `f` for a non-negative `m`. */
  lemma RoundedScaleMonotone(m: real, f1: real, f2: real)
    requires 0.0 <= m && f1 <= f2
    ensures JsRound(m * f1) <= JsRound(m * f2)
  {
    MulMonotone(m, f1, f2);
    JsRoundMonotone(m * f1, m * f2);
  }

  // ===== sentiment over time =====

  datatype SentimentPoint = SentimentPoint(
    time: string, positive: Option<nat>, neutral: Option<nat>, negative: Option<nat>)

  /** The fraction of the final volume reached at hours 0..5; hour 6 is the final volume. */
  const GrowthCurve: seq<real> := [0.4, 0.5, 0.6, 0.75, 0.85, 0.95]

  /** `Math.round(count * f)`; a missing count gives `NaN`. */
  function Scaled(count: Option<nat>, f: real): (r: Option<nat>)
    requires 0.0 <= f
    ensures r.Some? <==> count.Some?
  {
    if count.Some? then
      var n := JsRound(count.value as real * f);
      Some(n)
    else None
  }

  const PlaceholderSentimentSeries: seq<SentimentPoint> := [
    SentimentPoint("0h", Some(120), Some(30), Some(10)),
    SentimentPoint("1h", Some(150), Some(35), Some(15)),
    SentimentPoint("2h", Some(180), Some(40), Some(20)),
    SentimentPoint("3h", Some(200), Some(45), Some(25)),
    SentimentPoint("4h", Some(220), Some(50), Some(30)),
    SentimentPoint("5h", Some(240), Some(55), Some(35)),
    SentimentPoint("6h", Some(260), Some(60), Some(40))]

  /** `sentimentOverTime`: the final counts scaled back along a fixed growth curve. */
  function SentimentOverTime(results: Option<Results>): (series: seq<SentimentPoint>)
    ensures |series| == 7
    ensures forall h :: 0 <= h < 7 ==> series[h].time == HourLabel(h)
  {
    match SentimentOf(results)
    case None =>
      assert forall h :: 0 <= h < 7 ==> PlaceholderSentimentSeries[h].time == HourLabel(h);
      PlaceholderSentimentSeries
    case Some(s) =>
      seq(7, h requires 0 <= h < 7 =>
        if h < 6 then
          SentimentPoint(HourLabel(h), Scaled(s.positive, GrowthCurve[h]),
            Scaled(s.neutral, GrowthCurve[h]), Scaled(s.negative, GrowthCurve[h]))
        else SentimentPoint(HourLabel(6), s.positive, s.neutral, s.negative))
  }

  /** Each component of the series never decreases from one hour to a later one. */
  ghost predicate SeriesGrows(series: seq<SentimentPoint>)
  {
    forall h1, h2 :: 0 <= h1 <= h2 < |series| ==> PointAtMost(series[h1], series[h2])
  }

  ghost predicate PointAtMost(p: SentimentPoint, q: SentimentPoint)
  {
    AtMost(p.positive, q.positive) && AtMost(p.neutral, q.neutral) && AtMost(p.negative, q.negative)
  }

  /** Growth checked hour by hour extends to any two hours. */
  lemma {:induction false} GrowsFromSteps(series: seq<SentimentPoint>)
    requires forall h :: 0 <= h < |series| - 1 ==> PointAtMost(series[h], series[h + 1])
    ensures SeriesGrows(series)
  {
    forall h1, h2 | 0 <= h1 <= h2 < |series| ensures PointAtMost(series[h1], series[h2]) {
      var k := h1;
      while k < h2
        invariant h1 <= k <= h2 && PointAtMost(series[h1], series[k])
      {
        assert PointAtMost(series[k], series[k + 1]);
        k := k + 1;
      }
    }
  }

  /** The fraction of the final volume at hour h (1 at hour 6). */
  function Growth(h: nat): (f: real)
    requires h < 7
    ensures 0.0 <= f <= 1.0
  {
    if h < 6 then GrowthCurve[h] else 1.0
  }

  lemma GrowthIncreasing(h1: nat, h2: nat)
    requires h1 <= h2 < 7
    ensures Growth(h1) <= Growth(h2)
  {
  }

  lemma ScaledMonotone(c: Option<nat>, f1: real, f2: real)
    requires 0.0 <= f1 <= f2
    ensures AtMost(Scaled(c, f1), Scaled(c, f2))
  {
    if c.Some? { RoundedScaleMonotone(c.value as real, f1, f2); }
  }

  /** Every point, the last included, is the final count scaled by the growth fraction. */
  lemma {:induction false} SentimentPointScaled(s: SentimentSummary, results: Option<Results>, h: nat)
    requires SentimentOf(results) == Some(s) && h < 7
    ensures var p := SentimentOverTime(results)[h];
      p.positive == Scaled(s.positive, Growth(h)) && p.neutral == Scaled(s.neutral, Growth(h))
      && p.negative == Scaled(s.negative, Growth(h))
  {
    if h == 6 {
      if s.positive.Some? { JsRoundOfInt(s.positive.value); }
      if s.neutral.Some? { JsRoundOfInt(s.neutral.value); }
      if s.negative.Some? { JsRoundOfInt(s.negative.value); }
    }
  }

  /** The "6h" point is the input counts exactly. */
  lemma SentimentFinalPoint(results: Option<Results>)
    requires SentimentOf(results).Some?
    ensures var s := SentimentOf(results).value; var p := SentimentOverTime(results)[6];
      p.positive == s.positive && p.neutral == s.neutral && p.negative == s.negative
  {
  }

  /** Each series is non-decreasing over time, so no point exceeds the final one. */
  lemma {:induction false} SentimentSeriesGrows(results: Option<Results>)
    ensures SeriesGrows(SentimentOverTime(results))
  {
    var series := SentimentOverTime(results);
    if SentimentOf(results).Some? {
      var s := SentimentOf(results).value;
      forall h | 0 <= h < 6 ensures PointAtMost(series[h], series[h + 1]) {
        SentimentPointScaled(s, results, h);
        SentimentPointScaled(s, results, h + 1);
        GrowthIncreasing(h, h + 1);
        ScaledMonotone(s.positive, Growth(h), Growth(h + 1));
        ScaledMonotone(s.neutral, Growth(h), Growth(h + 1));
        ScaledMonotone(s.negative, Growth(h), Growth(h + 1));
      }
    } else {
      assert series == PlaceholderSentimentSeries;
    }
    GrowsFromSteps(series);
  }

  /** A count is present at every hour exactly when the input has it. */
  lemma SentimentSeriesPresence(results: Option<Results>, h: nat)
    requires SentimentOf(results).Some? && h < 7
    ensures var s := SentimentOf(results).value; var p := SentimentOverTime(results)[h];
      (p.positive.Some? <==> s.positive.Some?) && (p.neutral.Some? <==> s.neutral.Some?)
      && (p.negative.Some? <==> s.negative.Some?)
  {
  }

  // ===== platform distribution =====

  datatype PlatformCount = PlatformCount(name: string, mentions: int)

  /** The five draws of the generic platform split, in the order the source makes them. */
  datatype PlatformDraws = PlatformDraws(twitter: real, instagram: real, linkedIn: real, facebook: real, tikTok: real)

  const FixturePlatforms: seq<PlatformCount> := [
    PlatformCount("Instagram", 28), PlatformCount("Reddit", 15), PlatformCount("Twitter", 8),
    PlatformCount("LinkedIn", 0), PlatformCount("Facebook", 0), PlatformCount("TikTok", 0)]

  const PlaceholderPlatforms: seq<PlatformCount> := [
    PlatformCount("Twitter", 4500), PlatformCount("Instagram", 12000), PlatformCount("LinkedIn", 1800),
    PlatformCount("Facebook", 900), PlatformCount("TikTok", 1400), PlatformCount("Reddit", 650)]

  /** `Math.round(total * (low + draw * width))`. */
  function Band(total: int, low: real, width: real, draw: real): int
  {
    JsRound(total as real * BandFraction(low, width, draw))
  }

  /** The random fraction `low + draw * width` of a band. */
  function BandFraction(low: real, width: real, draw: real): real
  {
    low + draw * width
  }

  /** The generic split before sorting: Reddit carries every mention, the others a random share. */
  function UnsortedPlatforms(total: nat, d: PlatformDraws): seq<PlatformCount>
  {
    [PlatformCount("Reddit", total),
     PlatformCount("Twitter", Band(total, 0.3, 0.4, d.twitter)),
     PlatformCount("Instagram", Band(total, 0.2, 0.3, d.instagram)),
     PlatformCount("LinkedIn", Band(total, 0.1, 0.2, d.linkedIn)),
     PlatformCount("Facebook", Band(total, 0.15, 0.25, d.facebook)),
     PlatformCount("TikTok", Band(total, 0.05, 0.15, d.tikTok))]
  }

  ghost predicate NonIncreasing(s: seq<PlatformCount>)
  {
    forall i, j :: 0 <= i < j < |s| ==> s[i].mentions >= s[j].mentions
  }

  lemma HeadIsMax(s: seq<PlatformCount>)
    requires |s| > 0
    ensures NonIncreasing(s) ==> forall x :: x in s ==> x.mentions <= s[0].mentions
  {
    if NonIncreasing(s) {
      forall x | x in s ensures x.mentions <= s[0].mentions {
        var j :| 0 <= j < |s| && s[j] == x;
        if j > 0 { assert s[0].mentions >= s[j].mentions; }
      }
    }
  }

  /** Inserts `p` before the first entry with no more mentions than it. */
  function InsertByMentions(p: PlatformCount, s: seq<PlatformCount>): (r: seq<PlatformCount>)
    ensures multiset(r) == multiset(s) + multiset{p}
    ensures forall x :: x in r <==> x == p || x in s
  {
    if s == [] || s[0].mentions <= p.mentions then [p] + s
    else
      assert s == [s[0]] + s[1..];
      [s[0]] + InsertByMentions(p, s[1..])
  }

  /** An entry with at least as many mentions as every entry of a sorted list can go first. */
  lemma ConsKeepsOrder(x: PlatformCount, t: seq<PlatformCount>)
    requires NonIncreasing(t) && forall y :: y in t ==> y.mentions <= x.mentions
    ensures NonIncreasing([x] + t)
  {
    var r := [x] + t;
    forall i, j | 0 <= i < j < |r| ensures r[i].mentions >= r[j].mentions {
      assert r[j] == t[j - 1];
      if i > 0 { assert r[i] == t[i - 1]; }
    }
  }

  lemma TailKeepsOrder(s: seq<PlatformCount>)
    requires s != [] && NonIncreasing(s)
    ensures NonIncreasing(s[1..])
  {
    forall i, j | 0 <= i < j < |s[1..]| ensures s[1..][i].mentions >= s[1..][j].mentions {
      assert s[1..][i] == s[i + 1] && s[1..][j] == s[j + 1];
    }
  }

  /** Inserting into a list sorted by descending mentions keeps it sorted. */
  lemma {:induction false} InsertKeepsOrder(p: PlatformCount, s: seq<PlatformCount>)
    requires NonIncreasing(s)
    ensures NonIncreasing(InsertByMentions(p, s))
  {
    if s == [] || s[0].mentions <= p.mentions {
      if s != [] { HeadIsMax(s); }
      ConsKeepsOrder(p, s);
    } else {
      var rest := InsertByMentions(p, s[1..]);
      TailKeepsOrder(s);
      InsertKeepsOrder(p, s[1..]);
      HeadIsMax(s);
      forall y | y in rest ensures y.mentions <= s[0].mentions {
        if y != p { assert y in s[1..]; assert y in s; }
      }
      ConsKeepsOrder(s[0], rest);
    }
  }

  /**
   * `.sort((a, b) => b.mentions - a.mentions)`: a stable sort on descending mentions
   * (an insertion sort; equal counts keep their input order).
   */
  function SortByMentions(s: seq<PlatformCount>): (r: seq<PlatformCount>)
    ensures multiset(r) == multiset(s)
    ensures forall x :: x in r <==> x in s
    ensures NonIncreasing(r)
  {
    if s == [] then []
    else
      assert s == [s[0]] + s[1..];
      InsertKeepsOrder(s[0], SortByMentions(s[1..]));
      InsertByMentions(s[0], SortByMentions(s[1..]))
  }

  /** `platformData`. */
  function PlatformData(results: Option<Results>, isFixture: bool, draws: PlatformDraws): (r: seq<PlatformCount>)
    ensures |r| == 6
  {
    match SentimentOf(results)
    case None => PlaceholderPlatforms
    case Some(s) =>
      if isFixture then FixturePlatforms
      else
        var r := SortByMentions(UnsortedPlatforms(FirstNonZero(s.totalReviews, 0), draws));
        assert |r| == |multiset(r)| == 6;
        r
  }

  /** The drawn fraction lies in its band. */
  lemma FractionInBand(low: real, width: real, draw: real)
    requires 0.0 <= width && IsDraw(draw)
    ensures low <= BandFraction(low, width, draw) <= low + width
  {
    MulMonotone(width, 0.0, draw);
    MulMonotone(width, draw, 1.0);
  }

  /** A random share stays inside its band, and never above the total. */
  lemma BandWithin(total: nat, low: real, width: real, draw: real)
    requires 0.0 <= low && 0.0 <= width && low + width <= 1.0 && IsDraw(draw)
    ensures JsRound(total as real * low) <= Band(total, low, width, draw) <= JsRound(total as real * (low + width))
    ensures 0 <= Band(total, low, width, draw) <= total
  {
    FractionInBand(low, width, draw);
    RoundedScaleMonotone(total as real, low, BandFraction(low, width, draw));
    RoundedScaleMonotone(total as real, BandFraction(low, width, draw), low + width);
    BandAtLeastNothing(total, low, width, draw);
    BandAtMostWhole(total, low, width, draw);
  }

  /** A band that starts at or above 0 gives at least nothing. */
  lemma BandAtLeastNothing(m: int, low: real, width: real, draw: real)
    requires m >= 0 && 0.0 <= low && 0.0 <= width && IsDraw(draw)
    ensures 0 <= Band(m, low, width, draw)
  {
    FractionInBand(low, width, draw);
    RoundedScaleMonotone(m as real, 0.0, BandFraction(low, width, draw));
    assert m as real * 0.0 == 0.0;
  }

  /** The demonstration event's literal breakdown, already in descending order (it is not sorted). */
  lemma FixturePlatformData(results: Option<Results>, draws: PlatformDraws)
    requires SentimentOf(results).Some?
    ensures PlatformData(results, true, draws) == [
      PlatformCount("Instagram", 28), PlatformCount("Reddit", 15), PlatformCount("Twitter", 8),
      PlatformCount("LinkedIn", 0), PlatformCount("Facebook", 0), PlatformCount("TikTok", 0)]
    ensures NonIncreasing(PlatformData(results, true, draws))
  {
  }

  /**
   * The generic split is a descending permutation of the six platforms, Reddit
   * carries `total_reviews || 0`, and it is the largest count.
   */
  lemma UnsortedBounded(total: nat, draws: PlatformDraws)
    requires IsDraw(draws.twitter) && IsDraw(draws.instagram) && IsDraw(draws.linkedIn)
    requires IsDraw(draws.facebook) && IsDraw(draws.tikTok)
    ensures forall x :: x in UnsortedPlatforms(total, draws) ==> 0 <= x.mentions <= total
  {
    BandWithin(total, 0.3, 0.4, draws.twitter);
    BandWithin(total, 0.2, 0.3, draws.instagram);
    BandWithin(total, 0.1, 0.2, draws.linkedIn);
    BandWithin(total, 0.15, 0.25, draws.facebook);
    BandWithin(total, 0.05, 0.15, draws.tikTok);
  }

  /** Sorting puts a largest entry first and keeps every bound on the entries. */
  lemma SortedMax(s: seq<PlatformCount>, top: PlatformCount)
    requires top in s && forall x :: x in s ==> 0 <= x.mentions <= top.mentions
    ensures var r := SortByMentions(s);
      |r| == |s| && r[0].mentions == top.mentions && top in r
      && forall i :: 0 <= i < |r| ==> 0 <= r[i].mentions <= top.mentions
  {
    var r := SortByMentions(s);
    assert |r| == |multiset(r)| == |multiset(s)| == |s|;
    var k :| 0 <= k < |r| && r[k] == top;
    assert r[0] in s;
    assert r[0].mentions >= r[k].mentions;
    forall i | 0 <= i < |r| ensures 0 <= r[i].mentions <= top.mentions {
      assert r[i] in s;
    }
  }

  lemma {:induction false} GenericPlatformData(results: Option<Results>, draws: PlatformDraws)
    requires SentimentOf(results).Some?
    requires IsDraw(draws.twitter) && IsDraw(draws.instagram) && IsDraw(draws.linkedIn)
    requires IsDraw(draws.facebook) && IsDraw(draws.tikTok)
    ensures var total := FirstNonZero(SentimentOf(results).value.totalReviews, 0);
      var r := PlatformData(results, false, draws);
      && NonIncreasing(r)
      && multiset(r) == multiset(UnsortedPlatforms(total, draws))
      && PlatformCount("Reddit", total) in r
      && r[0].mentions == total
      && (forall i :: 0 <= i < |r| ==> 0 <= r[i].mentions <= total)
  {
    var total := FirstNonZero(SentimentOf(results).value.totalReviews, 0);
    var u := UnsortedPlatforms(total, draws);
    UnsortedBounded(total, draws);
    assert u[0] == PlatformCount("Reddit", total);
    SortedMax(u, u[0]);
  }

  // ===== rating distribution =====

  datatype StarBucket = StarBucket(name: string, value: Option<int>, color: string)

  /** The colour every star label is drawn in, whatever the mode. */
  function StarColor(name: string): string
  {
    if name == "5 Stars" then "#10b981"
    else if name == "4 Stars" then "#3b82f6"
    else if name == "3 Stars" then "#f59e0b"
    else if name == "2 Stars" then "#ef4444"
    else if name == "1 Star" then "#f97316"
    else ""
  }

  const PlaceholderRatings: seq<StarBucket> := [
    StarBucket("5 Stars", Some(3731), "#10b981"), StarBucket("4 Stars", Some(1096), "#3b82f6"),
    StarBucket("3 Stars", Some(814), "#f59e0b"), StarBucket("2 Stars", Some(400), "#ef4444"),
    StarBucket("1 Star", Some(131), "#f97316")]

  /** The total assumed when `total_reviews` is missing or zero. */
  const DefaultRatingTotal: nat := 45

  /** `Math.round(total * (count / total) * f)`; a missing count gives `NaN`. */
  function Portion(total: nat, count: nat, f: real): int
    requires total > 0
  {
    JsRound(total as real * (count as real / total as real) * f)
  }

  function Share(total: nat, count: Option<nat>, f: real): Option<int>
    requires total > 0
  {
    if count.Some? then Some(Portion(total, count.value, f)) else None
  }

  /** `ratingDistribution`: buckets are NOT renormalised to add up to the total. */
  function RatingDistribution(results: Option<Results>, isFixture: bool): (r: seq<StarBucket>)
    ensures |r| == 5
  {
    match SentimentOf(results)
    case None => PlaceholderRatings
    case Some(s) =>
      var total := FirstNonZero(s.totalReviews, DefaultRatingTotal);
      if isFixture then
        [StarBucket("3 Stars", Some(JsRound(total as real * 0.4)), "#f59e0b"),
         StarBucket("2 Stars", Some(JsRound(total as real * 0.33)), "#ef4444"),
         StarBucket("4 Stars", Some(JsRound(total as real * 0.15)), "#3b82f6"),
         StarBucket("1 Star", Some(JsRound(total as real * 0.08)), "#f97316"),
         StarBucket("5 Stars", Some(JsRound(total as real * 0.04)), "#10b981")]
      else
        [StarBucket("5 Stars", Share(total, s.positive, 0.7), "#10b981"),
         StarBucket("4 Stars", Share(total, s.positive, 0.3), "#3b82f6"),
         StarBucket("3 Stars", Share(total, s.neutral, 1.0), "#f59e0b"),
         StarBucket("2 Stars", Share(total, s.negative, 0.6), "#ef4444"),
         StarBucket("1 Star", Share(total, s.negative, 0.4), "#f97316")]
  }

  function Names(r: seq<StarBucket>): seq<string>
  {
    seq(|r|, i requires 0 <= i < |r| => r[i].name)
  }

  /**
   * In every mode each bucket carries its label's fixed colour; the fixture keeps
   * its literal order 3, 2, 4, 1, 5 stars, the other modes go from 5 stars down.
   */
  lemma RatingColours(results: Option<Results>, isFixture: bool)
    ensures var r := RatingDistribution(results, isFixture);
      (forall i :: 0 <= i < |r| ==> r[i].color == StarColor(r[i].name))
      && Names(r) == if SentimentOf(results).Some? && isFixture
        then ["3 Stars", "2 Stars", "4 Stars", "1 Star", "5 Stars"]
        else ["5 Stars", "4 Stars", "3 Stars", "2 Stars", "1 Star"]
  {
  }

  /** The demonstration event with 51 reviews: 20, 17, 8, 4 and 2 for 3, 2, 4, 1 and 5 stars. */
  lemma FixtureRatings51(results: Option<Results>)
    requires SentimentOf(results).Some? && SentimentOf(results).value.totalReviews == Some(51)
    ensures var r := RatingDistribution(results, true);
      r[0] == StarBucket("3 Stars", Some(20), "#f59e0b") && r[1] == StarBucket("2 Stars", Some(17), "#ef4444")
      && r[2] == StarBucket("4 Stars", Some(8), "#3b82f6") && r[3] == StarBucket("1 Star", Some(4), "#f97316")
      && r[4] == StarBucket("5 Stars", Some(2), "#10b981")
  {
  }

  lemma MulDivCancel(t: real, c: real)
    requires t > 0.0
    ensures t * (c / t) == c
  {
  }

  /** A share of the total that is the count's own ratio is that fraction of the count. */
  lemma PortionOfCount(total: nat, c: nat, f: real)
    requires total > 0
    ensures Portion(total, c, f) == JsRound(c as real * f)
  {
    var x := total as real * (c as real / total as real);
    MulDivCancel(total as real, c as real);
    assert x * f == c as real * f;
  }

  /**
   * Generic mode: 5 and 4 stars are the 0.7/0.3 split of the positives, 3 stars the
   * neutrals exactly, 2 and 1 stars the 0.6/0.4 split of the negatives.
   */
  lemma GenericRatings(results: Option<Results>, p: nat, u: nat, n: nat)
    requires SentimentOf(results).Some?
    requires var s := SentimentOf(results).value;
      s.positive == Some(p) && s.neutral == Some(u) && s.negative == Some(n)
    ensures var r := RatingDistribution(results, false);
      r[0].value == Some(JsRound(p as real * 0.7)) && r[1].value == Some(JsRound(p as real * 0.3))
      && r[2].value == Some(u)
      && r[3].value == Some(JsRound(n as real * 0.6)) && r[4].value == Some(JsRound(n as real * 0.4))
      && r[0].value.value >= r[1].value.value && r[3].value.value >= r[4].value.value
  {
    var total := FirstNonZero(SentimentOf(results).value.totalReviews, DefaultRatingTotal);
    PortionOfCount(total, p, 0.7);
    PortionOfCount(total, p, 0.3);
    PortionOfCount(total, u, 1.0);
    JsRoundOfInt(u);
    PortionOfCount(total, n, 0.6);
    PortionOfCount(total, n, 0.4);
    RoundedScaleMonotone(p as real, 0.3, 0.7);
    RoundedScaleMonotone(n as real, 0.4, 0.6);
  }

  /** Rounding drift is kept: five positive reviews of five fill six star slots. */
  lemma RatingsNotRenormalised()
    ensures var results := Some(Results(Some(Summary("", Some(SentimentSummary(
      Some(5), Some(0), Some(0), Some(5), None, None)), [], Some(5)))));
      var r := RatingDistribution(results, false);
      r[0].value.value + r[1].value.value + r[2].value.value + r[3].value.value + r[4].value.value == 6
  {
    PortionOfCount(5, 5, 0.7);
    PortionOfCount(5, 5, 0.3);
    PortionOfCount(5, 0, 1.0);
    PortionOfCount(5, 0, 0.6);
    PortionOfCount(5, 0, 0.4);
  }

  // ===== engagement curve =====

  datatype EngagementPoint = EngagementPoint(time: string, engagement: int)

  const PlaceholderEngagement: seq<EngagementPoint> := [
    EngagementPoint("0h", 1200), EngagementPoint("1h", 1500), EngagementPoint("2h", 1800),
    EngagementPoint("3h", 2200), EngagementPoint("4h", 2600), EngagementPoint("5h", 3000),
    EngagementPoint("6h", 3400)]

  /** The final engagement: a random figure in 5200..5999 for the fixture, else 50 per review. */
  function MaxEngagement(s: SentimentSummary, isFixture: bool, fixtureDraw: real): int
  {
    if isFixture then 5200 + Floor(fixtureDraw * 800.0) else FirstNonZero(s.totalReviews, 100) * 50
  }

  /** `engagementData`: six jittered fractions of the final engagement, then the final value. */
  function EngagementData(results: Option<Results>, isFixture: bool, fixtureDraw: real, jitter: seq<real>)
    : (series: seq<EngagementPoint>)
    requires |jitter| == 6
    ensures |series| == 7
    ensures forall h :: 0 <= h < 7 ==> series[h].time == HourLabel(h)
  {
    match SentimentOf(results)
    case None =>
      assert forall h :: 0 <= h < 7 ==> PlaceholderEngagement[h].time == HourLabel(h);
      PlaceholderEngagement
    case Some(s) =>
      var m := MaxEngagement(s, isFixture, fixtureDraw);
      var series := [
        EngagementPoint("0h", Band(m, 0.18, 0.04, jitter[0])),
        EngagementPoint("1h", Band(m, 0.32, 0.06, jitter[1])),
        EngagementPoint("2h", Band(m, 0.48, 0.04, jitter[2])),
        EngagementPoint("3h", Band(m, 0.63, 0.04, jitter[3])),
        EngagementPoint("4h", Band(m, 0.78, 0.04, jitter[4])),
        EngagementPoint("5h", Band(m, 0.88, 0.04, jitter[5])),
        EngagementPoint("6h", m)];
      assert forall h :: 0 <= h < 7 ==> series[h].time == HourLabel(h);
      series
  }

  /** The fixture's final engagement lies in 5200..5999. */
  lemma FixtureEngagementRange(s: SentimentSummary, fixtureDraw: real)
    requires IsDraw(fixtureDraw)
    ensures 5200 <= MaxEngagement(s, true, fixtureDraw) <= 5999
  {
  }

  /** The "6h" point is the final engagement exactly. */
  lemma EngagementFinalPoint(results: Option<Results>, isFixture: bool, fixtureDraw: real, jitter: seq<real>)
    requires |jitter| == 6 && SentimentOf(results).Some?
    ensures EngagementData(results, isFixture, fixtureDraw, jitter)[6].engagement
      == MaxEngagement(SentimentOf(results).value, isFixture, fixtureDraw)
  {
  }

  /** A band that ends before the next one starts gives the smaller rounded share. */
  lemma BandsInOrder(m: int, low1: real, width1: real, draw1: real, low2: real, width2: real, draw2: real)
    requires m >= 0 && 0.0 <= width1 && 0.0 <= width2 && IsDraw(draw1) && IsDraw(draw2)
    requires low1 + width1 <= low2
    ensures Band(m, low1, width1, draw1) <= Band(m, low2, width2, draw2)
  {
    var f1 := BandFraction(low1, width1, draw1);
    var f2 := BandFraction(low2, width2, draw2);
    FractionInBand(low1, width1, draw1);
    FractionInBand(low2, width2, draw2);
    RoundedScaleMonotone(m as real, f1, f2);
  }

  /** A band that ends at or below 1 gives at most the whole. */
  lemma BandAtMostWhole(m: int, low: real, width: real, draw: real)
    requires m >= 0 && 0.0 <= width && IsDraw(draw) && low + width <= 1.0
    ensures Band(m, low, width, draw) <= m
  {
    FractionInBand(low, width, draw);
    RoundedScaleMonotone(m as real, BandFraction(low, width, draw), 1.0);
    assert m as real * 1.0 == m as real;
    JsRoundOfInt(m);
  }

  predicate EngagementGrowsAt(series: seq<EngagementPoint>)
  {
    forall h1, h2 :: 0 <= h1 <= h2 < |series| ==> series[h1].engagement <= series[h2].engagement
  }

  /** Consecutive points in order make the whole series ordered. */
  lemma {:induction false} EngagementFromSteps(series: seq<EngagementPoint>)
    requires forall h :: 0 <= h < |series| - 1 ==> series[h].engagement <= series[h + 1].engagement
    ensures EngagementGrowsAt(series)
  {
    forall h1, h2 | 0 <= h1 <= h2 < |series| ensures series[h1].engagement <= series[h2].engagement {
      var k := h1;
      while k < h2
        invariant h1 <= k <= h2 && series[h1].engagement <= series[k].engagement
      {
        k := k + 1;
      }
    }
  }

  /** Whatever the draws, the engagement curve never decreases. */
  lemma EngagementGrows(results: Option<Results>, isFixture: bool, fixtureDraw: real, jitter: seq<real>)
    requires |jitter| == 6 && (forall i :: 0 <= i < 6 ==> IsDraw(jitter[i]))
    requires IsDraw(fixtureDraw)
    ensures EngagementGrowsAt(EngagementData(results, isFixture, fixtureDraw, jitter))
  {
    var series := EngagementData(results, isFixture, fixtureDraw, jitter);
    if SentimentOf(results).Some? {
      var m := MaxEngagement(SentimentOf(results).value, isFixture, fixtureDraw);
      BandsInOrder(m, 0.18, 0.04, jitter[0], 0.32, 0.06, jitter[1]);
      BandsInOrder(m, 0.32, 0.06, jitter[1], 0.48, 0.04, jitter[2]);
      BandsInOrder(m, 0.48, 0.04, jitter[2], 0.63, 0.04, jitter[3]);
      BandsInOrder(m, 0.63, 0.04, jitter[3], 0.78, 0.04, jitter[4]);
      BandsInOrder(m, 0.78, 0.04, jitter[4], 0.88, 0.04, jitter[5]);
      BandAtMostWhole(m, 0.88, 0.04, jitter[5]);
    }
    EngagementFromSteps(series);
  }
}
