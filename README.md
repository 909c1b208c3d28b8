# Event review summarizer: a verified model of its core

The event review summarizer takes a CSV of reviews, or one scraped from social
media for a named event. A FastAPI service profiles the CSV and writes a summary:
sentiment counts, an average score, an overall label, key insights and a short
text. A React dashboard draws cards and charts from that summary. This project
models the logic at the heart of that flow and proves what each piece promises:

- **Dashboard metrics** (`Metrics`, `Charts`, `Stars`): the four key-metric cards
  (`calculateMetrics`) and the rating breakdown (`getRatingBreakdown`). Also the four
  synthetic chart series: sentiment over time, platforms, rating distribution and
  engagement. Also the star strip (`renderStars`).
- **Dashboard acquisition** (`Dashboard`): the file picker, the Search & Analyze
  selector, and the check of the scraper's answer. Also the name of the CSV handed
  to the analysis service, and the demonstration event's literal results. The
  component is a `Selector` class. Each handler's new state is given by a function
  on a `View` snapshot.
- **Summary service** (`SummaryService`): `generate_summary_improved`. It covers
  column choice, joining and truncation, sentiment from counts or from per-review
  polarity, the label ladder, key insights, summary text or fallback wording, and
  the early and error returns.
- **API server** (`Server`): the CORS allow-list built from `ALLOWED_ORIGINS`, and
  the `.csv` name check on uploads.

Shared pieces:

- `Analysis`: the summary record exchanged between the service and the dashboard.
  Every JSON field may be absent.
- `Rounding`: JavaScript `Math.round`, `Math.floor`, `Math.ceil`, `% 1` and
  `toFixed(1)`; Python `round` and `.1f`. All are exact over reals.
- `Text`: digits, split and join, Python `strip`/`rstrip`, JavaScript `\s`
  replacement, lower-casing.
- `Wrappers`: `Option` and `Result`.

Conventions used throughout:

- A JavaScript numeric field read with `x || d` is `FirstNonZero(x, d)`: a missing
  field and a zero both give `d`.
- A count used in arithmetic while absent (which gives `NaN` in the dashboard) is
  `None`.
- Every `Math.random()` draw is a parameter in [0, 1).
- The "fixture" branch is `searchQuery.toLowerCase().includes('techvistara')`. It is
  a boolean input to the chart functions, and `Dashboard.IsFixtureQuery` models the
  test itself.

## Model

| member | source | states |
|---|---|---|
| Metrics.StarScale | frontend/src/pages/Dashboard.jsx:260 | a score in [-1, 1] maps into [0, 5] |
| Metrics.Clamp | frontend/src/pages/Dashboard.jsx:261 | `min(hi, max(lo, x))` lies in [lo, hi], is x inside, lo below and hi above |
| Metrics.AverageRating | frontend/src/pages/Dashboard.jsx:259-266 | the displayed rating, in tenths, is always within 0..50 |
| Metrics.CalculateMetrics | frontend/src/pages/Dashboard.jsx:244-267 | null exactly when there is no summary; the rating is within 0..5 stars; reach is 5 times the mentions; no mentions means a 0 score; the three cards are the first non-zero of `total_reviews` and `review_count` (else 0), the rounded positive share of it and the star rating of the average score |
| Metrics.TotalMentionsChoice | frontend/src/pages/Dashboard.jsx:248 | the total is `total_reviews`, else `review_count`, else 0; a zero counts as missing |
| Metrics.PercentOfTotal | frontend/src/pages/Dashboard.jsx:254-256 | `(p / t) * 100` equals `p * 100 / t` and lies in [0, 100] when p <= t |
| Metrics.OverallScoreBounds | frontend/src/pages/Dashboard.jsx:254-256 | the score lies in 0..100, within half a point of the exact percentage |
| Metrics.AverageRatingMonotone | frontend/src/pages/Dashboard.jsx:259-266 | a higher sentiment score never shows a lower rating |
| Metrics.AverageRatingTracksScore | frontend/src/pages/Dashboard.jsx:259-266 | for a score in [-1, 1] the rating is `((s + 1) / 2) * 5` to one decimal |
| Metrics.MissingScoreIsNeutral | frontend/src/pages/Dashboard.jsx:259-261 | a missing or zero score shows 2.5 stars |
| Metrics.ExampleMetrics | frontend/src/pages/Dashboard.jsx:244-267 | 28 positive of 51 with score 0.4 gives 55%, 51 mentions, 3.5 stars and 255 reach, whatever the text and insights |
| Metrics.GetRatingBreakdown | frontend/src/pages/Dashboard.jsx:404-423 | null exactly when there is no sentiment summary or the total `total_reviews \|\| pos+neu+neg \|\| 0` is 0; value, experience and repertoire are equal |
| Metrics.BreakdownOrdered | frontend/src/pages/Dashboard.jsx:414-421 | organisation <= quality <= value, all within 0..5 stars for a score in [-1, 1] |
| Metrics.BreakdownAgreesWithRating | frontend/src/pages/Dashboard.jsx:404-423 | for a score in [-1, 1] the breakdown's value-for-money equals the rating card |
| Metrics.BreakdownIsUnclamped | frontend/src/pages/Dashboard.jsx:414 | a score of 2 gives a 7.5 breakdown while the card is clamped to 5.0 |
| Charts.Scaled | frontend/src/pages/Dashboard.jsx:293-298 | `Math.round(count * f)` is present exactly when the count is |
| Charts.SentimentOverTime | frontend/src/pages/Dashboard.jsx:291-309 | seven points labelled 0h..6h, with or without a summary |
| Charts.GrowsFromSteps | frontend/src/pages/Dashboard.jsx:291-300 | a series whose consecutive points grow is non-decreasing throughout |
| Charts.Growth | frontend/src/pages/Dashboard.jsx:293-299 | each hour's factor lies in [0, 1] |
| Charts.GrowthIncreasing | frontend/src/pages/Dashboard.jsx:293-299 | the factors .4, .5, .6, .75, .85, .95, 1 increase with the hour |
| Charts.ScaledMonotone | frontend/src/pages/Dashboard.jsx:293-298 | a larger factor never gives a smaller rounded count |
| Charts.SentimentPointScaled | frontend/src/pages/Dashboard.jsx:293-299 | hour h holds each count scaled by the hour's factor |
| Charts.SentimentFinalPoint | frontend/src/pages/Dashboard.jsx:299 | the 6h point is the input counts exactly |
| Charts.SentimentSeriesGrows | frontend/src/pages/Dashboard.jsx:291-309 | every series is non-decreasing, so no point exceeds the final one |
| Charts.SentimentSeriesPresence | frontend/src/pages/Dashboard.jsx:293-299 | a count is present at every hour exactly when the input has it |
| Charts.HeadIsMax | frontend/src/pages/Dashboard.jsx:334 | the head of a descending list is its maximum |
| Charts.InsertByMentions | frontend/src/pages/Dashboard.jsx:334 | insertion adds the element and keeps the multiset |
| Charts.InsertKeepsOrder | frontend/src/pages/Dashboard.jsx:334 | inserting into a descending list keeps it descending |
| Charts.SortByMentions | frontend/src/pages/Dashboard.jsx:334 | the sort yields a descending permutation of its input |
| Charts.PlatformData | frontend/src/pages/Dashboard.jsx:311-343 | always six platforms |
| Charts.FractionInBand | frontend/src/pages/Dashboard.jsx:329-333 | `a + r * w` lies in [a, a + w] for a draw r |
| Charts.BandWithin | frontend/src/pages/Dashboard.jsx:329-333 | each random share lies between its rounded band ends, and within 0..total |
| Charts.FixturePlatformData | frontend/src/pages/Dashboard.jsx:316-325 | the demonstration event shows Instagram 28, Reddit 15, Twitter 8 and three zeros, in that literal order |
| Charts.UnsortedBounded | frontend/src/pages/Dashboard.jsx:327-333 | before sorting every count lies in 0..total |
| Charts.SortedMax | frontend/src/pages/Dashboard.jsx:334 | sorting puts a maximal element first and keeps every count in bounds |
| Charts.GenericPlatformData | frontend/src/pages/Dashboard.jsx:314-334 | the result is a descending permutation of the six platforms; Reddit carries `total_reviews \|\| 0`, the maximum |
| Charts.RatingDistribution | frontend/src/pages/Dashboard.jsx:345-376 | always five buckets |
| Charts.RatingColours | frontend/src/pages/Dashboard.jsx:351-376 | each label carries its fixed colour; the demonstration order is 3, 2, 4, 1, 5 stars |
| Charts.FixtureRatings51 | frontend/src/pages/Dashboard.jsx:349-358 | the demonstration event with 51 reviews gives 20, 17, 8, 4, 2 |
| Charts.PortionOfCount | frontend/src/pages/Dashboard.jsx:361-368 | `round(total * (c / total) * f)` is `round(c * f)` |
| Charts.GenericRatings | frontend/src/pages/Dashboard.jsx:361-368 | 5 and 4 stars are the 0.7 and 0.3 shares of the positives, 3 stars the neutrals, 2 and 1 star the 0.6 and 0.4 shares of the negatives; hence 5 >= 4 and 2 >= 1 |
| Charts.RatingsNotRenormalised | frontend/src/pages/Dashboard.jsx:361-368 | 5 positive reviews give buckets summing to 6, not 5 |
| Charts.EngagementData | frontend/src/pages/Dashboard.jsx:378-401 | seven points labelled 0h..6h |
| Charts.FixtureEngagementRange | frontend/src/pages/Dashboard.jsx:381 | the demonstration event's final engagement lies in 5200..5999 |
| Charts.EngagementFinalPoint | frontend/src/pages/Dashboard.jsx:390 | the 6h point is the final engagement exactly |
| Charts.BandsInOrder | frontend/src/pages/Dashboard.jsx:384-389 | a band that ends before the next starts gives the smaller rounded value |
| Charts.BandAtMostWhole | frontend/src/pages/Dashboard.jsx:389-390 | the 5h band never exceeds the final value |
| Charts.BandAtLeastNothing | frontend/src/pages/Dashboard.jsx:329-333 | a band starting at or above 0 never gives a negative share |
| Charts.EngagementFromSteps | frontend/src/pages/Dashboard.jsx:383-391 | consecutive points in order make the whole series ordered |
| Charts.EngagementGrows | frontend/src/pages/Dashboard.jsx:378-401 | for any draws the engagement series never decreases |
| Stars.Repeat | frontend/src/pages/Dashboard.jsx:433-442 | a loop of n pushes gives n copies, none for n <= 0 |
| Stars.RenderStars | frontend/src/pages/Dashboard.jsx:428-443 | the two loops and the conditional push build `floor(r)` full, one half iff `r % 1 >= .5`, then `5 - ceil(r)` empty |
| Stars.CountOf | frontend/src/pages/Dashboard.jsx:428-443 | a glyph count never exceeds the strip's length |
| Stars.CountOfRepeat | frontend/src/pages/Dashboard.jsx:433-442 | a run of one glyph counts that glyph n times and no other |
| Stars.StarOrder | frontend/src/pages/Dashboard.jsx:428-443 | full stars come first, then the half star, then the empty ones |
| Stars.CountOfStrip | frontend/src/pages/Dashboard.jsx:428-443 | the strip's counts are its three parts' counts |
| Stars.StarTally | frontend/src/pages/Dashboard.jsx:430-438 | the strip has `floor(r)` full stars and one half star iff the fraction is >= .5 |
| Stars.StarCount | frontend/src/pages/Dashboard.jsx:428-443 | for r in [0, 5]: 5 glyphs when the fraction is 0 or >= .5, 4 when it is in (0, .5) |
| Stars.WholeRatings | frontend/src/pages/Dashboard.jsx:428-443 | 0 gives five empty, 5 five full, 2.5 two full, a half and two empty |
| Stars.FourStarStrip | frontend/src/pages/Dashboard.jsx:431-439 | 2.3 gives only four glyphs |
| Stars.FiveStarGlyphs | frontend/src/pages/Dashboard.jsx:428-443 | a strip of exactly 5 glyphs with the same full and half counts |
| Stars.FiveStarsAgree | frontend/src/pages/Dashboard.jsx:428-443 | where the original gives 5 glyphs the corrected strip is identical |
| Dashboard.FixtureQueryInContext | frontend/src/pages/Dashboard.jsx:106 | the fixture test matches the name anywhere in the query |
| Dashboard.DemoEventRecognised | frontend/src/pages/Dashboard.jsx:106 | the test ignores case: "Techvistara 5.0" is the fixture |
| Dashboard.FileChange | frontend/src/pages/Dashboard.jsx:53-63 | a `text/csv` pick is kept and clears error and results; anything else, including no file, drops the file and sets the invalid-file error, keeping the results |
| Dashboard.FileChangeIdempotent | frontend/src/pages/Dashboard.jsx:53-63 | picking the same files again changes nothing |
| Dashboard.MimeTypeIsNotExtension | frontend/src/pages/Dashboard.jsx:53-63 | a `text/csv` file named `reviews.txt` is accepted by the picker and refused by the server |
| Dashboard.Choose | frontend/src/pages/Dashboard.jsx:220-228 | upload iff a file is picked; the scraper iff no file but both query and date; otherwise nothing |
| Dashboard.SelectorPassesInnerGuards | frontend/src/pages/Dashboard.jsx:220-228 | a started request sets loading and clears error and results; otherwise only the error changes; neither inner guard message can appear through the selector |
| Dashboard.UploadErrorText | frontend/src/pages/Dashboard.jsx:88-90 | the shown error is the server's detail, else the fallback; never empty |
| Dashboard.ScraperErrorText | frontend/src/pages/Dashboard.jsx:212-214 | the shown error is the detail, else the message, else the fallback; never empty |
| Dashboard.UploadSettles | frontend/src/pages/Dashboard.jsx:85-92 | a finished upload ends loading and shows its results, or a non-empty error with the results untouched |
| Dashboard.ScrapeSettles | frontend/src/pages/Dashboard.jsx:208-217 | a finished scraper request ends loading and shows its results, or a non-empty error with the results untouched |
| Dashboard.SuccessfulSearchShowsOnlyResults | frontend/src/pages/Dashboard.jsx:220-228 | a successful request started by the selector leaves no error, only the results |
| Dashboard.NoPostsMessageNamesQuery | frontend/src/pages/Dashboard.jsx:186 | the no-posts error quotes the query verbatim |
| Dashboard.Sniff | frontend/src/pages/Dashboard.jsx:182-188 | a body not starting with `{` or `[` passes unchanged; a JSON body fails iff `success` or `data.success` is `false`, with the no-posts error, and a JSON body that does not parse always fails with the parser's message |
| Dashboard.CsvFileName | frontend/src/pages/Dashboard.jsx:193 | the name ends in `.csv` and holds no whitespace |
| Dashboard.CsvFileNameAccepted | frontend/src/pages/Dashboard.jsx:193 | the server's name check accepts every CSV name the dashboard builds |
| Dashboard.CsvFileNameExample | frontend/src/pages/Dashboard.jsx:193 | a run of spaces becomes one underscore: "AI  Day" gives "AI_Day.csv" |
| Dashboard.ScraperUpload | frontend/src/pages/Dashboard.jsx:182-199 | the scraped text is uploaded unchanged under the derived name, exactly when the sniff passes |
| Dashboard.ScrapeOutcome | frontend/src/pages/Dashboard.jsx:105-209 | the fixture query yields the literal demonstration results whenever its analysis succeeds; otherwise a failed fetch or a failed sniff is passed on as the error, and a sniffed, uploaded CSV returns the server's analysis |
| Dashboard.ScraperFailureNamesQuery | frontend/src/pages/Dashboard.jsx:182-187 | a scraper reporting failure is shown as the no-posts message naming the query, results untouched |
| Dashboard.DemoMetrics | frontend/src/pages/Dashboard.jsx:141-163 | the demonstration event's cards read 55%, 51, 3.5 and 255 |
| Dashboard.Selector.constructor | frontend/src/pages/Dashboard.jsx:43-49 | no file, no error, no results, not loading, empty query and date |
| Dashboard.Selector.HandleFileChange | frontend/src/pages/Dashboard.jsx:53-63 | the new state is `FileChange` of the old |
| Dashboard.Selector.BeginUpload | frontend/src/pages/Dashboard.jsx:65-74 | without a file the no-file error; otherwise loading set, error and results cleared |
| Dashboard.Selector.BeginScrape | frontend/src/pages/Dashboard.jsx:95-103 | without query or date its own error; otherwise loading set, error and results cleared |
| Dashboard.Selector.HandleSearchAnalyze | frontend/src/pages/Dashboard.jsx:220-228 | starts the request `Choose` picks and leaves the state `SearchAnalyze` gives |
| Dashboard.Selector.FinishUpload | frontend/src/pages/Dashboard.jsx:85-92 | the new state is `UploadFinished` of the old |
| Dashboard.Selector.FinishScrape | frontend/src/pages/Dashboard.jsx:105-217 | the new state is `ScrapeFinished` of the old with `ScrapeOutcome` |
| SummaryService.TextColumns | backend/ml_service.py:130-133 | exactly the "text" columns in order; empty iff there is none; the first is the earliest |
| SummaryService.Truncate | backend/ml_service.py:162-165 | up to 5000 characters unchanged; longer gives the first 2500, a space and the last 2500 |
| SummaryService.TruncateIdempotent | backend/ml_service.py:162-165 | the result has at most 5001 characters and truncating again changes nothing |
| SummaryService.CombineReviewsLength | backend/ml_service.py:160 | the join has the reviews' lengths plus one space between each |
| SummaryService.QuotientBounds | backend/ml_service.py:175-176 | a difference bounded by the sum gives a quotient in [-1, 1] with the same sign |
| SummaryService.AverageFromCounts | backend/ml_service.py:175-178 | 0 for no counts; within [-1, 1]; positive iff pos > neg, negative iff neg > pos |
| SummaryService.FromCounts | backend/ml_service.py:168-178 | the average from counts lies in [-1, 1] |
| SummaryService.BucketsDisjoint | backend/ml_service.py:195-197 | the positive and negative buckets never overlap, so the neutral count is not negative |
| SummaryService.SumBounds | backend/ml_service.py:198 | scores in [-1, 1] sum to within plus or minus their number |
| SummaryService.MeanBounds | backend/ml_service.py:198 | the mean polarity lies in [-1, 1] |
| SummaryService.FromScores | backend/ml_service.py:194-198 | pos counts scores > 0.1, neg counts scores < -0.1, and pos + neg + neu is the number of reviews |
| SummaryService.PolarityScores | backend/ml_service.py:183-192 | one score per review, and a result exactly when every review can be scored |
| SummaryService.PolarityScoresAt | backend/ml_service.py:183-192 | score i is the scorer's value for review i |
| SummaryService.ScoreReviews | backend/ml_service.py:180-192 | the loop appends one score per review, stopping at the first failure |
| SummaryService.OverallLabel | backend/ml_service.py:200-210 | the ladder partitions the reals: above .15, (.05, .15], below -.15, [-.15, -.05), [-.05, .05] |
| SummaryService.LabelMonotone | backend/ml_service.py:200-210 | a higher average never gets a lower label |
| SummaryService.KeyInsights | backend/ml_service.py:214-222 | 1 to 3 entries; "Highly positive" iff pos > 2 neg; "Some concerns" iff neg > 0; last is "Overall positive sentiment" iff avg > 0, else "Areas for improvement identified" |
| SummaryService.BuildKeyInsights | backend/ml_service.py:214-222 | the successive appends build exactly `KeyInsights` |
| SummaryService.SentimentDescription | backend/ml_service.py:255-260 | "predominantly positive" iff pos > neg, "predominantly negative" iff neg > pos, "mixed" iff equal |
| SummaryService.Format1 | backend/ml_service.py:263 | `.1f` has a digit, a point and a digit, with a minus sign iff negative |
| SummaryService.FallbackQuotesEveryInsight | backend/ml_service.py:262-264 | the fallback quotes every insight (there are at most 3) and never says "general feedback" |
| SummaryService.GenerateSummaryImproved | backend/ml_service.py:120-279 | the step computes `SummaryOf` |
| SummaryService.EarlyReturns | backend/ml_service.py:133-156 | no text column or no reviews gives the fixed message, `{}` and no insights |
| SummaryService.ScorerFailure | backend/ml_service.py:273-279 | a review the scorer cannot handle gives "Error generating summary: ...", `{}` and no insights |
| SummaryService.AssembleShape | backend/ml_service.py:224-271 | the result carries the counts, the label, avg to 3 places, the insights and `review_count`; the summariser's text is stripped |
| SummaryService.SettledBranches | backend/ml_service.py:168-279 | counts give the counts summary; polarity gives the scores summary or the error shape |
| SummaryService.AssembledFullShape | backend/ml_service.py:224-271 | whatever sentiments are settled on, the result has every sentiment field, agreeing review counts and insights that agree with the counts |
| SummaryService.ResultShape | backend/ml_service.py:224-271 | a full result has every sentiment field, `total_reviews == review_count`, and insights agreeing with the counts |
| SummaryService.CountsBranch | backend/ml_service.py:168-231 | from counts: missing counts are 0, the total defaults to the review count, avg is within 0.0005 of the exact quotient and labelled by it |
| SummaryService.PolarityBranch | backend/ml_service.py:180-198 | from polarities: the three counts add up to the number of reviews and `review_count` is `n_reviews` |
| SummaryService.SummarizerText | backend/ml_service.py:237-248 | a working summariser's stripped output is the text, and its prompt is bounded |
| Server.CleanOrigin | backend/main.py:43 | a cleaned piece has no trailing `/` and is a prefix of the stripped piece |
| Server.KeepPiece | backend/main.py:43 | a piece gives at most one origin, without a trailing `/` |
| Server.KeepOrigins | backend/main.py:42-44 | no more origins than pieces |
| Server.KeptOriginsNoSlash | backend/main.py:42-44 | no kept origin ends in `/` |
| Server.KeepOriginsAppend | backend/main.py:42-44 | each piece is handled on its own and input order is kept |
| Server.KeepOne | backend/main.py:43 | a piece is dropped iff blank once stripped, otherwise cleaned |
| Server.SlashesGiveEmptyOrigin | backend/main.py:43 | a piece of slashes passes the filter and becomes "" |
| Server.BuildAllowedOrigins | backend/main.py:36-49 | the comprehension, then the conditional append, give `AllowedOrigins` |
| Server.FallbackOrigin | backend/main.py:46-49 | the frontend URL is always allowed; kept pieces come first; it is appended once, at the end, only when missing |
| Server.NoTrailingSlash | backend/main.py:42-49 | no allowed origin ends in `/` |
| Server.DefaultConfiguration | backend/main.py:36-49 | the default setting yields exactly its three origins and nothing is appended |
| Server.EmptySetting | backend/main.py:36-49 | an empty setting leaves only the frontend URL |
| Server.UploadGuard | backend/main.py:152-156 | the upload passes iff the name ends in `.csv`, else 400 "File must be a CSV file" |
| Server.CsvSuffixAccepted | backend/main.py:152 | any name ending in `.csv` passes |
| Server.UpperCaseExtensionRefused | backend/main.py:152-156 | the check is case-sensitive: `reviews.CSV` is refused |
| Text.NatToStringRoundTrip | backend/ml_service.py:262 | the decimal digits of n read back as n |
| Text.SplitJoin | backend/main.py:43 | joining the comma pieces gives back the setting |
| Text.PyStrip | backend/main.py:43 | no whitespace is left at either end; the result is empty iff the text is all whitespace |
| Text.RStripChar | backend/main.py:43 | `rstrip('/')` removes exactly the trailing run of `/` |
| Text.ReplaceSpaceRuns | frontend/src/pages/Dashboard.jsx:193 | no whitespace is left; the result is empty only for an empty input and no longer than it |
| Text.WordsUnchanged | frontend/src/pages/Dashboard.jsx:193 | text without whitespace is left unchanged |
| Text.WordsFirst | frontend/src/pages/Dashboard.jsx:193 | a prefix without whitespace is copied and the rest replaced on its own |
| Text.ReplaceSpaceRunsIdempotent | frontend/src/pages/Dashboard.jsx:193 | replacing twice is replacing once |
| Text.ReplaceSpaceRunsAt | frontend/src/pages/Dashboard.jsx:193 | a whole run of whitespace between words becomes a single `_` |
| Rounding.JsRound | frontend/src/pages/Dashboard.jsx:255 | `Math.round(x)` is the integer within half of x, halves going up |
| Rounding.JsFixed1 | frontend/src/pages/Dashboard.jsx:266 | `toFixed(1)` is x to the nearest tenth, halves away from zero |
| Rounding.PyRound3 | backend/ml_service.py:229 | `round(x, 3)` is within 0.0005 of x and keeps [-1, 1] |

## Left out

- Rendering (JSX, recharts, icons, card formatting such as `toLocaleString` and the `K` suffix) is presentation, not logic.
- Network, timers and browser APIs are out of the model. This covers axios and fetch, `setTimeout`, `console`, Blob/File/FormData, and `handleDownload`. The network answers are parameters of `Dashboard.Selector.FinishUpload` and `FinishScrape`.
- Floating point: `Math.round`, `toFixed`, `%`, `Math.floor`, Python `round` and `.1f` work on exact reals. Binary rounding at exact halves (for example 1.005) is not modelled.
- `Math.random()` is a parameter in [0, 1). The in-place `.sort` is modelled by its result: a stable descending insertion sort.
- `Dashboard.Selector.HandleSearchAnalyze`: the handlers do not test `loading`. The button's `disabled` attribute does (lines 498 and 581). The Enter key path at line 491 does not, so the model follows the handlers. The split at each request's first `await` models the order of state changes within one request. Two requests in flight at once, and their interleaving, are out of scope.
- `Dashboard.Sniff`: `JSON.parse` is a parameter, `parsed`: a probe of `success` and `data.success`, or the parser's error message. The unused `errorMsg` variable at line 185 has no effect and is dropped.
- `Dashboard.Failure`: `err.response.data.detail` is taken as a string. FastAPI's list-valued validation details are not modelled.
- `Dashboard.IsFixtureQuery`: `toLowerCase` is ASCII lower-casing. For the needle `techvistara` the two agree. Only U+212A (Kelvin sign, giving `k`) and U+0130 (giving `i` plus a combining dot) lower-case to ASCII letters from outside ASCII. Neither can complete the needle.
- The demonstration CSV fetch and its analysis call are one parameter, `demoAnswer`. Its answer is discarded, as in the source. The console messages and delays are left out.
- `get_summarizer`, `analyze_csv_file`, TextBlob and numpy are foreign code. The scorer and the summariser are parameters. The summariser's length limits (`max_length=150` and similar) are not modelled. `get_summarizer` mutating a global cache is not modelled.
- `SummaryService.Format1`: only the shape of the `.1f` text is proved (sign, digits, point), not its digits for every real.
- `SummaryService.ScorerFailure`: the catch-all at lines 273-279 is modelled for a scorer failure. Other Python exceptions (a malformed report) cannot arise over the typed `Report`.
- The FastAPI routes, authentication, the database, file saving and clean-up, the thread pool and timeouts are I/O plumbing. So are `AuthContext.jsx`, `api/example.py`, `backend/database.py` and `backend/schemas.py`.

## Findings

| source | as written | input that shows it | evidently intended | confidence | as-written member | corrected member |
|---|---|---|---|---|---|---|
| frontend/src/pages/Dashboard.jsx:431-439 | full stars are `floor(r)`, a half star iff `r % 1 >= .5`, empty stars are `5 - ceil(r)` | a rating of 2.3 draws 2 full and 2 empty: four glyphs | always a strip of five glyphs, rounding the fraction down | medium, not executed | Stars.FourStarStrip | Stars.FiveStarGlyphs |
