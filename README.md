# Finance analytics core, modelled in Dafny

This project models the two analytics services of an MCP finance server.

**Technical-indicator engine** (`StockAnalysisService`). It reads a price
history, most recent day first, and a live quote. From them it computes:

- the simple moving average of the closes;
- the average volume;
- a 14-period RSI;
- the 20-day volatility;
- a BUY/SELL/HOLD recommendation from three signal votes.

It also writes three text reports: the analysis, the recommendation and the
technical indicators.

**Sentiment aggregator** (`SentimentAnalysisService`). It reads a batch of
news articles, each with an optional sentiment label and an optional score.
It classifies each label and tallies positive, negative and neutral
articles. It averages the scores that are present and picks an overall
sentiment by strict plurality. It then writes a news digest and a
market-impact note.

How the Java is represented:

- `BigDecimal` is a `real`. Each `divide(…, scale, HALF_UP)` and
  `setScale(…, HALF_UP)` is `Decimal.RoundHalfUp(x, scale)`: the nearest
  multiple of 10^-scale, with a tie going away from zero.
- `compareTo` is comparison by value, so scale never matters.
- The records `StockData`, `NewsData` and `SentimentResult` are datatypes in
  module `Model`. A field that a parser may leave null is an `Option`.
- A report built with `StringBuilder` appends is a `Report.Text`: the
  sequence of the pieces appended. A piece is one of:
  - fixed wording (`Lit`);
  - text copied from an input (`Field`);
  - a `BigDecimal` (`Number`);
  - an `int` (`Count`);
  - a `"%.2f"`-formatted double (`Fixed2`).
- Each loop of the services is a `method` with a loop. Each method is
  proved equal to a function that specifies it, and the properties are
  lemmas about those functions.
- The history's order (index 0 is the most recent day) is the caller's
  promise. The engine never reads the dates, so nothing checks it.

Files: `decimal.dfy` (rounding), `model.dfy` (records), `report.dfy`
(report pieces), `stock_analysis.dfy` (engine), `sentiment_analysis.dfy`
(aggregator).

## Model

| member | source | states |
|---|---|---|
| Decimal.RoundHalfUpIsNearest | src/main/java/com/yogeshchsamant/mcp/finance/service/StockAnalysisService.java:139 | HALF_UP division yields a multiple of 10^-scale within half a step of the exact quotient; an exact tie goes away from zero |
| Decimal.RoundHalfUpSign | src/main/java/com/yogeshchsamant/mcp/finance/service/StockAnalysisService.java:189-190 | rounding a non-negative value never gives a negative one, and rounding a non-positive value never gives a positive one |
| Decimal.RoundHalfUpExact | src/main/java/com/yogeshchsamant/mcp/finance/service/StockAnalysisService.java:155 | a value already on the grid of the scale is returned unchanged |
| Decimal.RoundHalfUpMonotone | src/main/java/com/yogeshchsamant/mcp/finance/service/StockAnalysisService.java:198 | rounding never reverses the order of two values |
| Report.CountLitAppend | src/main/java/com/yogeshchsamant/mcp/finance/service/SentimentAnalysisService.java:83-138 | counting a fixed wording in two appended texts adds the two counts |
| Report.CountLitPositive | src/main/java/com/yogeshchsamant/mcp/finance/service/SentimentAnalysisService.java:83-138 | a wording is counted at least once exactly when it occurs in the text |
| StockAnalysis.CalculateMovingAverage | src/main/java/com/yogeshchsamant/mcp/finance/service/StockAnalysisService.java:130-140 | returns 0 when the history is shorter than the window; otherwise the mean of the first `periods` closes, HALF_UP at 2 digits (loop invariant: the running sum is the sum of the closes so far) |
| StockAnalysis.CalculateAverageVolume | src/main/java/com/yogeshchsamant/mcp/finance/service/StockAnalysisService.java:160-170 | returns 0 when the history is shorter than the window; otherwise the mean of the first `periods` volumes, HALF_UP to a whole number |
| StockAnalysis.WindowMeanReadsOnlyWindow | src/main/java/com/yogeshchsamant/mcp/finance/service/StockAnalysisService.java:135-139 | two sequences that agree on the first `periods` values have the same window mean |
| StockAnalysis.WindowMeanBounds | src/main/java/com/yogeshchsamant/mcp/finance/service/StockAnalysisService.java:135-139 | a window mean lies between the rounded least and rounded greatest value of the window |
| StockAnalysis.MovingAverageIgnoresOlderDays | src/main/java/com/yogeshchsamant/mcp/finance/service/StockAnalysisService.java:135-139 | the entries at index `periods` or beyond do not affect the moving average |
| StockAnalysis.MovingAverageWithinRange | src/main/java/com/yogeshchsamant/mcp/finance/service/StockAnalysisService.java:135-139 | the moving average lies within the range of the window's closes, up to rounding the bounds to cents |
| StockAnalysis.AverageVolumeIsWholeWindowMean | src/main/java/com/yogeshchsamant/mcp/finance/service/StockAnalysisService.java:165-169 | the average volume is a whole number, reads only the first `periods` days, and lies within the rounded range of their volumes |
| StockAnalysis.CalculateRsi | src/main/java/com/yogeshchsamant/mcp/finance/service/StockAnalysisService.java:172-201 | returns the sentinel 50 when there are fewer than periods + 1 days; the result is always in [0, 100]; it equals the RSI function (loop invariants tie `gains` and `losses` to the sums of the first i changes) |
| StockAnalysis.ChangeSplitsIntoGainAndLoss | src/main/java/com/yogeshchsamant/mcp/finance/service/StockAnalysisService.java:181-186 | a positive change adds only to the gains; a zero or negative change adds only its absolute value to the losses; gain minus loss is the change |
| StockAnalysis.GainsLossesNonNegative | src/main/java/com/yogeshchsamant/mcp/finance/service/StockAnalysisService.java:177-187 | gains and losses are never negative |
| StockAnalysis.GainsMinusLosses | src/main/java/com/yogeshchsamant/mcp/finance/service/StockAnalysisService.java:180-187 | gains minus losses equals the net move of the close over the window (a telescoping sum) |
| StockAnalysis.RsQuotientNonNegative | src/main/java/com/yogeshchsamant/mcp/finance/service/StockAnalysisService.java:189-196 | when the rounded average loss is not 0 it is positive, and the rounded RS is not negative |
| StockAnalysis.RsiWithinBounds | src/main/java/com/yogeshchsamant/mcp/finance/service/StockAnalysisService.java:189-200 | the RSI always lies in [0, 100] |
| StockAnalysis.NoLosses | src/main/java/com/yogeshchsamant/mcp/finance/service/StockAnalysisService.java:180-187 | when no close is below the close of the day before it, the losses are 0 |
| StockAnalysis.RsiOfRisingWindowIsHundred | src/main/java/com/yogeshchsamant/mcp/finance/service/StockAnalysisService.java:190-194 | a window without losses has a rounded average loss of 0, so the RSI is exactly 100 |
| StockAnalysis.GainsLossesSamePrefix | src/main/java/com/yogeshchsamant/mcp/finance/service/StockAnalysisService.java:180-187 | gains and losses over n changes depend only on the closes at indices 0..n |
| StockAnalysis.RsiIgnoresOlderDays | src/main/java/com/yogeshchsamant/mcp/finance/service/StockAnalysisService.java:172-201 | the RSI reads only the entries at indices 0..periods |
| StockAnalysis.CalculateVolatility | src/main/java/com/yogeshchsamant/mcp/finance/service/StockAnalysisService.java:142-158 | returns 0 with fewer than 20 days; otherwise the rounded result of the square-root step applied to the variance (loop invariant: the running sum of squared deviations from MA20) |
| StockAnalysis.SquaredDeviationsNonNegative | src/main/java/com/yogeshchsamant/mcp/finance/service/StockAnalysisService.java:148-153 | the sum of squared deviations is never negative |
| StockAnalysis.VarianceNonNegative | src/main/java/com/yogeshchsamant/mcp/finance/service/StockAnalysisService.java:155-156 | the variance handed to `Math.sqrt` is never negative |
| StockAnalysis.SumOfConstant | src/main/java/com/yogeshchsamant/mcp/finance/service/StockAnalysisService.java:135-138 | summing n copies of c gives n * c |
| StockAnalysis.NoDeviations | src/main/java/com/yogeshchsamant/mcp/finance/service/StockAnalysisService.java:150-153 | closes that all equal the mean have no squared deviation |
| StockAnalysis.FlatWindowHasNoVariance | src/main/java/com/yogeshchsamant/mcp/finance/service/StockAnalysisService.java:142-155 | twenty equal closes in whole cents have that close as MA20 and variance 0 |
| StockAnalysis.GenerateRecommendation | src/main/java/com/yogeshchsamant/mcp/finance/service/StockAnalysisService.java:57-99 | the text opens with BUY exactly when bullish > bearish, SELL exactly when bearish > bullish, HOLD exactly on a tie, and equals the recommendation text of the two vote counts |
| StockAnalysis.HeadlineFollowsVotes | src/main/java/com/yogeshchsamant/mcp/finance/service/StockAnalysisService.java:85-96 | the text opens with the BUY headline exactly when bullish > bearish, SELL exactly when bearish > bullish, HOLD exactly when they are equal |
| StockAnalysis.VotesCast | src/main/java/com/yogeshchsamant/mcp/finance/service/StockAnalysisService.java:63-83 | the change vote is always cast (a change of exactly 0 votes bearish); the MA20 vote is cast exactly with 20 days; the volume vote counts only when it is bullish |
| StockAnalysis.VolumeVoteIsBullishOnly | src/main/java/com/yogeshchsamant/mcp/finance/service/StockAnalysisService.java:78-83 | the current volume never changes the bearish count and moves the bullish count by at most one |
| StockAnalysis.ShortHistoryNeverHolds | src/main/java/com/yogeshchsamant/mcp/finance/service/StockAnalysisService.java:63-96 | with fewer than 10 days the verdict is never HOLD; it is BUY exactly when the change is strictly positive |
| StockAnalysis.HoldExactlyWhenVotesCancel | src/main/java/com/yogeshchsamant/mcp/finance/service/StockAnalysisService.java:63-96 | HOLD exactly when the votes cancel: with 10-19 days, a non-positive change against heavy volume; from 20 days, no volume vote and an MA20 vote that disagrees with the change vote |
| StockAnalysis.GenerateTechnicalIndicators | src/main/java/com/yogeshchsamant/mcp/finance/service/StockAnalysisService.java:101-128 | the report is the RSI line and its zone line (from 14 days), the MA20 line (from 20) and the MA50 line (from 50), in that order |
| StockAnalysis.IndicatorLinesGatedByLength | src/main/java/com/yogeshchsamant/mcp/finance/service/StockAnalysisService.java:104-125 | the RSI line appears exactly when size >= 14, MA20 exactly when size >= 20, MA50 exactly when size >= 50 |
| StockAnalysis.FourteenDaysShowNeutralSentinel | src/main/java/com/yogeshchsamant/mcp/finance/service/StockAnalysisService.java:104-114 | with exactly 14 days the report is the RSI line with the sentinel 50, read as neutral momentum, and nothing else |
| StockAnalysis.RisingWindowIsOverbought | src/main/java/com/yogeshchsamant/mcp/finance/service/StockAnalysisService.java:108-109 | a 15-day history without losses is reported as overbought (RSI 100 > 70) |
| StockAnalysis.GenerateAnalysis | src/main/java/com/yogeshchsamant/mcp/finance/service/StockAnalysisService.java:30-55 | the analysis is the quote lines, the MA20 lines (from 20 days) and the volatility line |
| StockAnalysis.MomentumLineFollowsMovingAverage | src/main/java/com/yogeshchsamant/mcp/finance/service/StockAnalysisService.java:40-49 | the bullish-momentum line appears exactly when there are 20 days and the price is strictly above MA20; the bearish line appears exactly when there are 20 days and it is not |
| SentimentAnalysis.ToUpperIdempotent | src/main/java/com/yogeshchsamant/mcp/finance/service/SentimentAnalysisService.java:46 | upper-casing twice is upper-casing once |
| SentimentAnalysis.ClassifyIgnoresCase | src/main/java/com/yogeshchsamant/mcp/finance/service/SentimentAnalysisService.java:46-53 | a label and its upper-cased form are in the same class |
| SentimentAnalysis.BullishLabels | src/main/java/com/yogeshchsamant/mcp/finance/service/SentimentAnalysisService.java:46-48 | "Bullish" and "Somewhat-Bullish" are counted positive |
| SentimentAnalysis.BearishLabels | src/main/java/com/yogeshchsamant/mcp/finance/service/SentimentAnalysisService.java:46-50 | "Bearish" and "Somewhat-Bearish" are counted negative |
| SentimentAnalysis.NeutralLabel | src/main/java/com/yogeshchsamant/mcp/finance/service/SentimentAnalysisService.java:46-53 | "Neutral" is counted neutral |
| SentimentAnalysis.BullishWinsOverBearish | src/main/java/com/yogeshchsamant/mcp/finance/service/SentimentAnalysisService.java:46-50 | every label whose upper case contains both "BULLISH" and "BEARISH" is counted positive, because "BULLISH" is tested first |
| SentimentAnalysis.MixedLabelIsBullish | src/main/java/com/yogeshchsamant/mcp/finance/service/SentimentAnalysisService.java:46-50 | an instance: the label "Bearish/Bullish" is counted positive |
| SentimentAnalysis.CalculateSentiment | src/main/java/com/yogeshchsamant/mcp/finance/service/SentimentAnalysisService.java:29-80 | the counts are the numbers of labelled articles of each class; totalArticles is the list size; the average is over the present scores (0 when none); the overall sentiment is by strict plurality; an empty list gives NEUTRAL, 0.0 and all counts 0 |
| SentimentAnalysis.BucketsAddUp | src/main/java/com/yogeshchsamant/mcp/finance/service/SentimentAnalysisService.java:44-65 | positive + negative + neutral equals the number of labelled articles, which is at most the list size |
| SentimentAnalysis.ScoreSumBounds | src/main/java/com/yogeshchsamant/mcp/finance/service/SentimentAnalysisService.java:56-59 | when every present score lies in [lo, hi], their sum lies between count * lo and count * hi |
| SentimentAnalysis.AverageScoreWithinRange | src/main/java/com/yogeshchsamant/mcp/finance/service/SentimentAnalysisService.java:56-69 | the average stays 0 when no article has a score; otherwise it lies within the range of the present scores |
| SentimentAnalysis.UnscoredArticleKeepsAverage | src/main/java/com/yogeshchsamant/mcp/finance/service/SentimentAnalysisService.java:56-69 | an article without a score does not change the average, so the divisor is the count of present scores, not the list size |
| SentimentAnalysis.OverallIsStrictPlurality | src/main/java/com/yogeshchsamant/mcp/finance/service/SentimentAnalysisService.java:71-77 | BULLISH exactly when positive exceeds both others, BEARISH exactly when negative does, so the two exclude each other; any tie for the lead gives NEUTRAL |
| SentimentAnalysis.ThreeBullishOneBearish | src/main/java/com/yogeshchsamant/mcp/finance/service/SentimentAnalysisService.java:44-77 | three "Bullish" articles and one "Bearish" one tally 3, 1 and 0, and the overall sentiment is BULLISH |
| SentimentAnalysis.AppendEntry | src/main/java/com/yogeshchsamant/mcp/finance/service/SentimentAnalysisService.java:106-116 | one article's entry, as the pieces of the source's appends; the bullet is followed by the title, "  Source: " by the source, and "  Summary: " by the summary as shown (its first 100 characters and "..." when longer) |
| SentimentAnalysis.AppendBucket | src/main/java/com/yogeshchsamant/mcp/finance/service/SentimentAnalysisService.java:102-117 | appends nothing for an empty bucket; otherwise appends the heading and the entries of the first min(3, size) articles, in order (loop invariant: the entries so far) |
| SentimentAnalysis.GenerateNewsSummary | src/main/java/com/yogeshchsamant/mcp/finance/service/SentimentAnalysisService.java:82-139 | the digest is the header, then the bullish bucket, then the bearish bucket (loop invariant: the lists built so far are the filters of the articles read so far) |
| SentimentAnalysis.ShownSummaryBounds | src/main/java/com/yogeshchsamant/mcp/finance/service/SentimentAnalysisService.java:110-115 | a summary of at most 100 characters (Unicode scalar values) is shown unchanged; a longer one is shown as its first 100 characters and "...", so at most 103 characters |
| SentimentAnalysis.HighlightsMatchTally | src/main/java/com/yogeshchsamant/mcp/finance/service/SentimentAnalysisService.java:91-100 | the bullish (bearish) list holds as many articles as the positive (negative) count |
| SentimentAnalysis.HighlightsKeepOrder | src/main/java/com/yogeshchsamant/mcp/finance/service/SentimentAnalysisService.java:91-100 | the filter preserves order: filtering a concatenation concatenates the filters |
| SentimentAnalysis.HighlightsAreOfTheirClass | src/main/java/com/yogeshchsamant/mcp/finance/service/SentimentAnalysisService.java:91-100 | every article in a bucket is in the batch and has a label of that bucket's class |
| SentimentAnalysis.EntriesCounts | src/main/java/com/yogeshchsamant/mcp/finance/service/SentimentAnalysisService.java:105-117 | a list of entries has one bullet per article and no bucket heading |
| SentimentAnalysis.EntryCounts | src/main/java/com/yogeshchsamant/mcp/finance/service/SentimentAnalysisService.java:107-116 | an entry has exactly one bullet and no bucket heading |
| SentimentAnalysis.BucketCounts | src/main/java/com/yogeshchsamant/mcp/finance/service/SentimentAnalysisService.java:102-118 | a bucket shows min(3, size) bullets, and its heading once when it is not empty and never when it is empty |
| SentimentAnalysis.DigestShape | src/main/java/com/yogeshchsamant/mcp/finance/service/SentimentAnalysisService.java:102-136 | the digest has exactly min(3, positive) + min(3, negative) bullets; each heading appears exactly when its bucket is not empty |
| SentimentAnalysis.GenerateMarketImpact | src/main/java/com/yogeshchsamant/mcp/finance/service/SentimentAnalysisService.java:141-179 | the note is the aggregate's lines, the paragraph for the overall sentiment, and the volume caveat for the article count |
| SentimentAnalysis.ImpactQuotesTheAggregate | src/main/java/com/yogeshchsamant/mcp/finance/service/SentimentAnalysisService.java:144-151 | the report opens with the lines stating the aggregate; each caption is immediately followed by its value: the overall sentiment, the average score and the three counts |
| SentimentAnalysis.VolumeNoteThresholds | src/main/java/com/yogeshchsamant/mcp/finance/service/SentimentAnalysisService.java:169-176 | the report ends with the volume note, which is present exactly when count > 15 or count < 5: the high-volume one exactly above 15, the low-volume one exactly below 5, none for 5..15; its caption is followed by the count |
| SentimentAnalysis.ImpactFollowsOverallSentiment | src/main/java/com/yogeshchsamant/mcp/finance/service/SentimentAnalysisService.java:153-167 | the paragraph comes right after the aggregate lines; its headline is POSITIVE exactly for "BULLISH", NEGATIVE exactly for "BEARISH", and NEUTRAL for any other value |

## Left out

- The data fetcher `AlphaVantageService` is not part of this model. It does HTTP, JSON parsing and date parsing, with a fallback to the clock. So the most-recent-first order of a history is not proved; it is documented as the caller's promise.
- The controller `McpController`, the Spring configuration, the application class, the DTOs and `McpRequest`/`McpResponse` are not part of this model. They only route requests and hold data.
- The orchestration methods `analyzeStock` and `analyzeStockSentiment` are left out. They only call the fetcher and fill DTO fields.
- StockAnalysis.CalculateVolatility: the floating-point step `Math.sqrt(variance.doubleValue()) * 100` and `new BigDecimal(double)` are the parameter `sqrtPercent`. The variance before it is modelled exactly; the square root is not.
- The `double` arithmetic of the score sum and average is modelled as exact `real` arithmetic, so floating-point rounding is not captured.
- The rendering of numbers is not modelled: `BigDecimal.toString` (with its scale), `int` to text, and `String.format("%.2f")`. A report keeps such a number as a piece holding its value.
- Upper-casing covers ASCII letters only; Unicode case mapping is not modelled.
- StockAnalysis.CalculateMovingAverage: requires `periods > 0`, since the source divides by `periods`. Every call site passes 20 or 50.
- StockAnalysis.CalculateAverageVolume: requires `periods > 0`, for the same reason. The call site passes 10.
- StockAnalysis.CalculateRsi: requires `periods > 0`, for the same reason. The call site passes 14.
- StockAnalysis.GenerateRecommendation: requires the quote's `changePercent` to be present. The source would throw a NullPointerException on a null value, and the quote parser always sets it.
- Null strings are not modelled. A `null` title, source, summary or overall sentiment cannot occur in the model, and the `NullPointerException` the source would raise on a null summary is not modelled either. A null `change` or `changePercent` in the analysis is rendered as the text `null`, as `StringBuilder` does.
- SentimentAnalysis.CalculateSentiment: the source creates a `SentimentResult` and then fills it with setters. The model builds the finished value at the end, since nothing observes it in between.
- SentimentAnalysis.AppendEntry: the source appends `"...\n"` in one call after the first 100 characters of a long summary. The model puts "..." into the shown summary and "\n" in a piece of its own, which renders the same text.
- SentimentAnalysis.AppendEntry: the length test and the cut at 100 count Unicode scalar values (Dafny `char`), not the UTF-16 code units of `String.length()` and `substring`. A summary with characters outside the Basic Multilingual Plane is cut at a different place, or not at all, where Java cuts it. Java can also split a surrogate pair, which a Dafny string cannot hold.
- SentimentAnalysis.ShownSummaryBounds: its bounds of 100 and 103 are in Unicode scalar values, not UTF-16 code units, for the same reason.
- The two copies of the digest's bucket loop in `generateNewsSummary` are one method, `AppendBucket`, called once per bucket.
