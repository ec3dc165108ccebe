/** The technical-indicator engine (service/StockAnalysisService.java).

    A price history is a sequence of StockData whose index 0 is the most
    recent trading day. The engine reads it by index only and never looks at
    the dates, so that order is the caller's promise, not something checked.
    Each calculation is a loop over the first entries of the history; each is
    a method here, proved equal to a function that specifies it, and the
    properties of the engine are lemmas about those functions. */
module StockAnalysis {
  import opened Model
  import opened Decimal
  import opened Report

  // ---------------------------------------------------------------------
  // Windows over the history

  /** The closing prices of a history, in its order. */
  function Prices(h: seq<StockData>): seq<real>
  {
    seq(|h|, i requires 0 <= i < |h| => h[i].price)
  }

  /** The traded volumes of a history, in its order. */
  function Volumes(h: seq<StockData>): seq<real>
  {
    seq(|h|, i requires 0 <= i < |h| => h[i].volume)
  }

  /** The sum of the first `n` values. */
  function SumFirst(xs: seq<real>, n: nat): real
    requires n <= |xs|
  {
    if n == 0 then 0.0 else SumFirst(xs, n - 1) + xs[n - 1]
  }

  /** The mean of the first `periods` values, rounded half up to `scale`
      digits; 0 when there are fewer than `periods` values. */
  function WindowMean(xs: seq<real>, periods: nat, scale: nat): real
    requires periods > 0
  {
    if |xs| < periods then 0.0
    else RoundHalfUp(SumFirst(xs, periods) / periods as real, scale)
  }

  /** The simple moving average of the closing price over the first
      `periods` days, at 2 fractional digits. */
  function MovingAverage(h: seq<StockData>, periods: nat): real
    requires periods > 0
  {
    WindowMean(Prices(h), periods, 2)
  }

  /** The average volume over the first `periods` days, as a whole number. */
  function AverageVolume(h: seq<StockData>, periods: nat): real
    requires periods > 0
  {
    WindowMean(Volumes(h), periods, 0)
  }

  /** calculateMovingAverage. */
  method CalculateMovingAverage(historical: seq<StockData>, periods: nat) returns (ma: real)
    requires periods > 0
    ensures ma == MovingAverage(historical, periods)
    ensures |historical| < periods ==> ma == 0.0
  {
    if |historical| < periods {
      return 0.0;
    }
    var sum := 0.0;
    for i := 0 to periods
      invariant sum == SumFirst(Prices(historical), i)
    {
      sum := sum + historical[i].price;
    }
    ma := RoundHalfUp(sum / periods as real, 2);
  }

  /** calculateAverageVolume. */
  method CalculateAverageVolume(historical: seq<StockData>, periods: nat) returns (avg: real)
    requires periods > 0
    ensures avg == AverageVolume(historical, periods)
    ensures |historical| < periods ==> avg == 0.0
  {
    if |historical| < periods {
      return 0.0;
    }
    var sum := 0.0;
    for i := 0 to periods
      invariant sum == SumFirst(Volumes(historical), i)
    {
      sum := sum + historical[i].volume;
    }
    avg := RoundHalfUp(sum / periods as real, 0);
  }

  lemma {:induction false} SumFirstSamePrefix(xs: seq<real>, ys: seq<real>, n: nat)
    requires n <= |xs| && n <= |ys|
    requires forall i :: 0 <= i < n ==> xs[i] == ys[i]
    ensures SumFirst(xs, n) == SumFirst(ys, n)
  {
    if n > 0 {
      SumFirstSamePrefix(xs, ys, n - 1);
    }
  }

  lemma {:induction false} SumFirstBounds(xs: seq<real>, n: nat, lo: real, hi: real)
    requires n <= |xs|
    requires forall i :: 0 <= i < n ==> lo <= xs[i] <= hi
    ensures n as real * lo <= SumFirst(xs, n) <= n as real * hi
  {
    if n > 0 {
      SumFirstBounds(xs, n - 1, lo, hi);
      assert n as real * lo == (n - 1) as real * lo + lo;
      assert n as real * hi == (n - 1) as real * hi + hi;
    }
  }

  /** Only the first `periods` values enter a window mean: two sequences
      that agree there have the same mean, whatever follows. */
  lemma WindowMeanReadsOnlyWindow(xs: seq<real>, ys: seq<real>, periods: nat, scale: nat)
    requires periods > 0 && periods <= |xs| && periods <= |ys|
    requires forall i :: 0 <= i < periods ==> xs[i] == ys[i]
    ensures WindowMean(xs, periods, scale) == WindowMean(ys, periods, scale)
  {
    SumFirstSamePrefix(xs, ys, periods);
  }

  /** A window mean lies between the rounded least and greatest value of
      the window. */
  lemma WindowMeanBounds(xs: seq<real>, periods: nat, scale: nat, lo: real, hi: real)
    requires periods > 0 && periods <= |xs|
    requires forall i :: 0 <= i < periods ==> lo <= xs[i] <= hi
    ensures RoundHalfUp(lo, scale) <= WindowMean(xs, periods, scale) <= RoundHalfUp(hi, scale)
  {
    var n := periods as real;
    var s := SumFirst(xs, periods);
    SumFirstBounds(xs, periods, lo, hi);
    MulDivCancel(lo, n);
    MulDivCancel(hi, n);
    DivMonotone(n * lo, s, n);
    DivMonotone(s, n * hi, n);
    RoundHalfUpMonotone(lo, s / n, scale);
    RoundHalfUpMonotone(s / n, hi, scale);
  }

  /** The moving average does not depend on the entries at index
      `periods` or beyond. */
  lemma MovingAverageIgnoresOlderDays(h: seq<StockData>, h': seq<StockData>, periods: nat)
    requires periods > 0 && periods <= |h| && periods <= |h'|
    requires forall i :: 0 <= i < periods ==> h[i].price == h'[i].price
    ensures MovingAverage(h, periods) == MovingAverage(h', periods)
  {
    WindowMeanReadsOnlyWindow(Prices(h), Prices(h'), periods, 2);
  }

  /** When every close in the window lies in [lo, hi], so does the moving
      average, up to rounding lo and hi to cents. */
  lemma MovingAverageWithinRange(h: seq<StockData>, periods: nat, lo: real, hi: real)
    requires periods > 0 && periods <= |h|
    requires forall i :: 0 <= i < periods ==> lo <= h[i].price <= hi
    ensures RoundHalfUp(lo, 2) <= MovingAverage(h, periods) <= RoundHalfUp(hi, 2)
  {
    WindowMeanBounds(Prices(h), periods, 2, lo, hi);
  }

  /** The average volume is a whole number, depends only on the first
      `periods` days, and lies between the rounded least and greatest
      volume of those days. */
  lemma AverageVolumeIsWholeWindowMean(h: seq<StockData>, h': seq<StockData>, periods: nat, lo: real, hi: real)
    requires periods > 0 && periods <= |h| && periods <= |h'|
    requires forall i :: 0 <= i < periods ==> h[i].volume == h'[i].volume
    requires forall i :: 0 <= i < periods ==> lo <= h[i].volume <= hi
    ensures AverageVolume(h, periods).Floor as real == AverageVolume(h, periods)
    ensures AverageVolume(h, periods) == AverageVolume(h', periods)
    ensures RoundHalfUp(lo, 0) <= AverageVolume(h, periods) <= RoundHalfUp(hi, 0)
  {
    var xs := Volumes(h);
    RoundHalfUpIsNearest(SumFirst(xs, periods) / periods as real, 0);
    assert Step(0) == 1.0;
    WindowMeanReadsOnlyWindow(xs, Volumes(h'), periods, 0);
    WindowMeanBounds(xs, periods, 0, lo, hi);
  }

  // ---------------------------------------------------------------------
  // Relative strength index

  function Abs(x: real): real
  {
    if x < 0.0 then -x else x
  }

  /** The day-over-day change of the close at index i against index i + 1
      (the day before it). */
  function Change(h: seq<StockData>, i: nat): real
    requires i + 1 < |h|
  {
    h[i].price - h[i + 1].price
  }

  /** What a change adds to the gains: itself when it is positive. */
  function Gain(change: real): real
  {
    if change > 0.0 then change else 0.0
  }

  /** What a change adds to the losses: its absolute value when it is zero
      or negative. */
  function Loss(change: real): real
  {
    if change > 0.0 then 0.0 else Abs(change)
  }

  /** The gains of the first `n` changes. */
  function Gains(h: seq<StockData>, n: nat): real
    requires n < |h|
  {
    if n == 0 then 0.0 else Gains(h, n - 1) + Gain(Change(h, n - 1))
  }

  /** The losses of the first `n` changes. */
  function Losses(h: seq<StockData>, n: nat): real
    requires n < |h|
  {
    if n == 0 then 0.0 else Losses(h, n - 1) + Loss(Change(h, n - 1))
  }

  /** The RSI over `periods` changes: the neutral sentinel 50 when the
      history has fewer than periods + 1 days, 100 when the average loss
      rounds to 0, and otherwise 100 - 100 / (1 + RS) with the averages and
      RS at 4 digits and the quotient at 2. */
  function Rsi(h: seq<StockData>, periods: nat): real
    requires periods > 0
  {
    if |h| < periods + 1 then 50.0
    else
      var avgGain := RoundHalfUp(Gains(h, periods) / periods as real, 4);
      var avgLoss := RoundHalfUp(Losses(h, periods) / periods as real, 4);
      if avgLoss == 0.0 then 100.0
      else
        GainsLossesNonNegative(h, periods);
        RsQuotientNonNegative(Gains(h, periods), Losses(h, periods), periods);
        var rs := RoundHalfUp(avgGain / avgLoss, 4);
        100.0 - RoundHalfUp(100.0 / (1.0 + rs), 2)
  }

  /** calculateRSI. */
  method CalculateRsi(historical: seq<StockData>, periods: nat) returns (rsi: real)
    requires periods > 0
    ensures rsi == Rsi(historical, periods)
    ensures |historical| < periods + 1 ==> rsi == 50.0
    ensures 0.0 <= rsi <= 100.0
  {
    if |historical| < periods + 1 {
      return 50.0;
    }
    var gains, losses := 0.0, 0.0;
    for i := 0 to periods
      invariant gains == Gains(historical, i)
      invariant losses == Losses(historical, i)
    {
      var change := historical[i].price - historical[i + 1].price;
      if change > 0.0 {
        gains := gains + change;
      } else {
        losses := losses + Abs(change);
      }
    }
    var avgGain := RoundHalfUp(gains / periods as real, 4);
    var avgLoss := RoundHalfUp(losses / periods as real, 4);
    RsiWithinBounds(historical, periods);
    if avgLoss == 0.0 {
      return 100.0;
    }
    GainsLossesNonNegative(historical, periods);
    RsQuotientNonNegative(gains, losses, periods);
    var rs := RoundHalfUp(avgGain / avgLoss, 4);
    rsi := 100.0 - RoundHalfUp(100.0 / (1.0 + rs), 2);
  }

  /** A change goes to exactly one side: its positive part to the gains,
      its negative part (as a magnitude) to the losses. */
  lemma ChangeSplitsIntoGainAndLoss(change: real)
    ensures Gain(change) >= 0.0 && Loss(change) >= 0.0
    ensures Gain(change) - Loss(change) == change
    ensures Gain(change) == 0.0 || Loss(change) == 0.0
    ensures change > 0.0 ==> Loss(change) == 0.0
    ensures change <= 0.0 ==> Gain(change) == 0.0
  {
  }

  /** Gains and losses are never negative. */
  lemma {:induction false} GainsLossesNonNegative(h: seq<StockData>, n: nat)
    requires n < |h|
    ensures Gains(h, n) >= 0.0 && Losses(h, n) >= 0.0
  {
    if n > 0 {
      GainsLossesNonNegative(h, n - 1);
    }
  }

  /** Gains minus losses telescope to the net move of the close over the
      first `n` changes. */
  lemma {:induction false} GainsMinusLosses(h: seq<StockData>, n: nat)
    requires n < |h|
    ensures Gains(h, n) - Losses(h, n) == h[0].price - h[n].price
  {
    if n > 0 {
      GainsMinusLosses(h, n - 1);
      ChangeSplitsIntoGainAndLoss(Change(h, n - 1));
    }
  }

  /** With non-negative gains and losses, and a non-zero rounded average
      loss, the rounded RS is not negative. */
  lemma RsQuotientNonNegative(gains: real, losses: real, periods: nat)
    requires periods > 0 && gains >= 0.0 && losses >= 0.0
    requires RoundHalfUp(losses / periods as real, 4) != 0.0
    ensures RoundHalfUp(losses / periods as real, 4) > 0.0
    ensures RoundHalfUp(RoundHalfUp(gains / periods as real, 4) / RoundHalfUp(losses / periods as real, 4), 4) >= 0.0
  {
    var n := periods as real;
    DivMonotone(0.0, gains, n);
    DivMonotone(0.0, losses, n);
    var avgGain := RoundHalfUp(gains / n, 4);
    var avgLoss := RoundHalfUp(losses / n, 4);
    RoundHalfUpSign(gains / n, 4);
    RoundHalfUpSign(losses / n, 4);
    DivMonotone(0.0, avgGain, avgLoss);
    RoundHalfUpSign(avgGain / avgLoss, 4);
  }

  /** The RSI always lies in [0, 100]. */
  lemma RsiWithinBounds(h: seq<StockData>, periods: nat)
    requires periods > 0
    ensures 0.0 <= Rsi(h, periods) <= 100.0
  {
    if |h| >= periods + 1 {
      var n := periods as real;
      var avgGain := RoundHalfUp(Gains(h, periods) / n, 4);
      var avgLoss := RoundHalfUp(Losses(h, periods) / n, 4);
      if avgLoss != 0.0 {
        GainsLossesNonNegative(h, periods);
        RsQuotientNonNegative(Gains(h, periods), Losses(h, periods), periods);
        var rs := RoundHalfUp(avgGain / avgLoss, 4);
        var q := 100.0 / (1.0 + rs);
        assert 0.0 < q <= 100.0 by {
          DivMonotone(100.0, 100.0 * (1.0 + rs), 1.0 + rs);
          MulDivCancel(100.0, 1.0 + rs);
        }
        RoundHalfUpSign(q, 2);
        RoundHalfUpMonotone(q, 100.0, 2);
        RoundHalfUpExact(100.0, 2);
      }
    }
  }

  lemma {:induction false} NoLosses(h: seq<StockData>, n: nat)
    requires n < |h|
    requires forall i :: 0 <= i < n ==> h[i].price >= h[i + 1].price
    ensures Losses(h, n) == 0.0
  {
    if n > 0 {
      NoLosses(h, n - 1);
    }
  }

  /** When no close in the window is below the one the day before it (no
      losses at all), the RSI is exactly 100. */
  lemma RsiOfRisingWindowIsHundred(h: seq<StockData>, periods: nat)
    requires periods > 0 && |h| >= periods + 1
    requires forall i :: 0 <= i < periods ==> h[i].price >= h[i + 1].price
    ensures Rsi(h, periods) == 100.0
  {
    NoLosses(h, periods);
    RoundHalfUpExact(0.0, 4);
  }

  lemma {:induction false} GainsLossesSamePrefix(h: seq<StockData>, h': seq<StockData>, n: nat)
    requires n < |h| && n < |h'|
    requires forall i :: 0 <= i <= n ==> h[i].price == h'[i].price
    ensures Gains(h, n) == Gains(h', n) && Losses(h, n) == Losses(h', n)
  {
    if n > 0 {
      GainsLossesSamePrefix(h, h', n - 1);
    }
  }

  /** The RSI reads only the entries at indices 0 .. periods. */
  lemma RsiIgnoresOlderDays(h: seq<StockData>, h': seq<StockData>, periods: nat)
    requires periods > 0 && |h| >= periods + 1 && |h'| >= periods + 1
    requires forall i :: 0 <= i <= periods ==> h[i].price == h'[i].price
    ensures Rsi(h, periods) == Rsi(h', periods)
  {
    GainsLossesSamePrefix(h, h', periods);
  }

  // ---------------------------------------------------------------------
  // Volatility

  /** The number of days the volatility and the moving average of the
      reports look at. */
  const LongWindow: nat := 20

  /** The sum of the squared deviations of the first `n` closes from
      `mean`. */
  function SquaredDeviations(h: seq<StockData>, mean: real, n: nat): real
    requires n <= |h|
  {
    if n == 0 then 0.0
    else SquaredDeviations(h, mean, n - 1) + (h[n - 1].price - mean) * (h[n - 1].price - mean)
  }

  /** The population variance of the last 20 closes around their moving
      average, at 4 digits. */
  function Variance(h: seq<StockData>): real
    requires |h| >= LongWindow
  {
    RoundHalfUp(SquaredDeviations(h, MovingAverage(h, LongWindow), LongWindow) / LongWindow as real, 4)
  }

  /** The 20-day volatility in percent at 2 digits, or 0 with fewer than
      20 days. `sqrtPercent` stands for the floating-point step
      Math.sqrt(variance.doubleValue()) * 100, which this model does not
      describe. */
  function Volatility(h: seq<StockData>, sqrtPercent: real -> real): real
  {
    if |h| < LongWindow then 0.0 else RoundHalfUp(sqrtPercent(Variance(h)), 2)
  }

  /** calculateVolatility. */
  method CalculateVolatility(historical: seq<StockData>, sqrtPercent: real -> real) returns (volatility: real)
    ensures volatility == Volatility(historical, sqrtPercent)
    ensures |historical| < LongWindow ==> volatility == 0.0
  {
    if |historical| < LongWindow {
      return 0.0;
    }
    var mean := CalculateMovingAverage(historical, LongWindow);
    var sumSquaredDifferences := 0.0;
    for i := 0 to LongWindow
      invariant sumSquaredDifferences == SquaredDeviations(historical, mean, i)
    {
      var difference := historical[i].price - mean;
      sumSquaredDifferences := sumSquaredDifferences + difference * difference;
    }
    var variance := RoundHalfUp(sumSquaredDifferences / LongWindow as real, 4);
    volatility := RoundHalfUp(sqrtPercent(variance), 2);
  }

  lemma {:induction false} SquaredDeviationsNonNegative(h: seq<StockData>, mean: real, n: nat)
    requires n <= |h|
    ensures SquaredDeviations(h, mean, n) >= 0.0
  {
    if n > 0 {
      SquaredDeviationsNonNegative(h, mean, n - 1);
      var d := h[n - 1].price - mean;
      assert d * d >= 0.0;
    }
  }

  /** The variance is never negative, so the square root the source takes
      of it is always defined. */
  lemma VarianceNonNegative(h: seq<StockData>)
    requires |h| >= LongWindow
    ensures Variance(h) >= 0.0
  {
    SquaredDeviationsNonNegative(h, MovingAverage(h, LongWindow), LongWindow);
    DivMonotone(0.0, SquaredDeviations(h, MovingAverage(h, LongWindow), LongWindow), LongWindow as real);
    RoundHalfUpSign(SquaredDeviations(h, MovingAverage(h, LongWindow), LongWindow) / LongWindow as real, 4);
  }

  lemma {:induction false} SumOfConstant(xs: seq<real>, n: nat, c: real)
    requires n <= |xs|
    requires forall i :: 0 <= i < n ==> xs[i] == c
    ensures SumFirst(xs, n) == n as real * c
  {
    if n > 0 {
      SumOfConstant(xs, n - 1, c);
      assert n as real * c == (n - 1) as real * c + c;
    }
  }

  lemma {:induction false} NoDeviations(h: seq<StockData>, n: nat, c: real)
    requires n <= |h|
    requires forall i :: 0 <= i < n ==> h[i].price == c
    ensures SquaredDeviations(h, c, n) == 0.0
  {
    if n > 0 {
      NoDeviations(h, n - 1, c);
    }
  }

  /** A flat window of closes already in whole cents has moving average
      equal to that close and variance 0. */
  lemma FlatWindowHasNoVariance(h: seq<StockData>, c: real)
    requires |h| >= LongWindow
    requires forall i :: 0 <= i < LongWindow ==> h[i].price == c
    requires (c * 100.0).Floor as real == c * 100.0
    ensures MovingAverage(h, LongWindow) == c
    ensures Variance(h) == 0.0
  {
    SumOfConstant(Prices(h), LongWindow, c);
    MulDivCancel(c, LongWindow as real);
    assert LongWindow as real * c / LongWindow as real == c;
    assert Step(2) == 100.0;
    RoundHalfUpExact(c, 2);
    NoDeviations(h, LongWindow, c);
    RoundHalfUpExact(0.0, 4);
  }

  // ---------------------------------------------------------------------
  // Recommendation

  /** The number of days the volume vote averages over. */
  const VolumeWindow: nat := 10

  datatype Verdict = Buy | Sell | Hold

  /** The verdict of a tally: the side with more votes, HOLD on a tie. */
  function Decide(bullish: nat, bearish: nat): Verdict
  {
    if bullish > bearish then Buy
    else if bearish > bullish then Sell
    else Hold
  }

  /** Whether the moving-average vote is cast and bullish: 20 days of
      history and the price strictly above their average. */
  predicate AboveMovingAverage(current: StockData, h: seq<StockData>)
  {
    |h| >= LongWindow && current.price > MovingAverage(h, LongWindow)
  }

  /** Whether the volume vote is cast: 10 days of history and the current
      volume strictly above their average. It only ever votes bullish. */
  predicate HeavyVolume(current: StockData, h: seq<StockData>)
  {
    |h| >= VolumeWindow && current.volume > AverageVolume(h, VolumeWindow)
  }

  /** Whether the change vote is bullish: a strictly positive change. */
  predicate Rising(current: StockData)
    requires current.changePercent.Some?
  {
    current.changePercent.value > 0.0
  }

  /** The bullish votes: moving average, change, volume. */
  function BullishSignals(current: StockData, h: seq<StockData>): nat
    requires current.changePercent.Some?
  {
    (if AboveMovingAverage(current, h) then 1 else 0)
    + (if Rising(current) then 1 else 0)
    + (if HeavyVolume(current, h) then 1 else 0)
  }

  /** The bearish votes: moving average (when cast) and change. */
  function BearishSignals(current: StockData, h: seq<StockData>): nat
    requires current.changePercent.Some?
  {
    (if |h| >= LongWindow && !AboveMovingAverage(current, h) then 1 else 0)
    + (if Rising(current) then 0 else 1)
  }

  const BuyHeadline := "BUY - Bullish signals outweigh bearish indicators. "
  const SellHeadline := "SELL - Bearish signals dominate. "
  const HoldHeadline := "HOLD - Mixed signals present. "

  /** The recommendation text for a tally. */
  function RecommendationText(bullish: nat, bearish: nat): Text
  {
    match Decide(bullish, bearish)
    case Buy =>
      [Lit(BuyHeadline), Lit("Stock shows positive momentum with "), Count(bullish),
       Lit(" bullish vs "), Count(bearish), Lit(" bearish signals.")]
    case Sell =>
      [Lit(SellHeadline), Lit("Stock shows negative momentum with "), Count(bearish),
       Lit(" bearish vs "), Count(bullish), Lit(" bullish signals.")]
    case Hold =>
      [Lit(HoldHeadline), Lit("Equal bullish and bearish indicators suggest sideways movement.")]
  }

  /** generateRecommendation. */
  method GenerateRecommendation(current: StockData, historical: seq<StockData>) returns (recommendation: Text)
    requires current.changePercent.Some?
    ensures recommendation == RecommendationText(BullishSignals(current, historical), BearishSignals(current, historical))
    ensures recommendation[0] == Lit(BuyHeadline) <==> BullishSignals(current, historical) > BearishSignals(current, historical)
    ensures recommendation[0] == Lit(SellHeadline) <==> BearishSignals(current, historical) > BullishSignals(current, historical)
    ensures recommendation[0] == Lit(HoldHeadline) <==> BullishSignals(current, historical) == BearishSignals(current, historical)
  {
    HeadlineFollowsVotes(BullishSignals(current, historical), BearishSignals(current, historical));
    var bullishSignals: nat, bearishSignals: nat := 0, 0;
    if |historical| >= LongWindow {
      var ma20 := CalculateMovingAverage(historical, LongWindow);
      if current.price > ma20 {
        bullishSignals := bullishSignals + 1;
      } else {
        bearishSignals := bearishSignals + 1;
      }
    }
    if current.changePercent.value > 0.0 {
      bullishSignals := bullishSignals + 1;
    } else {
      bearishSignals := bearishSignals + 1;
    }
    if |historical| >= VolumeWindow {
      var avgVolume := CalculateAverageVolume(historical, VolumeWindow);
      if current.volume > avgVolume {
        bullishSignals := bullishSignals + 1;
      }
    }
    if bullishSignals > bearishSignals {
      recommendation := [Lit(BuyHeadline), Lit("Stock shows positive momentum with "), Count(bullishSignals)];
      recommendation := recommendation + [Lit(" bullish vs "), Count(bearishSignals), Lit(" bearish signals.")];
    } else if bearishSignals > bullishSignals {
      recommendation := [Lit(SellHeadline), Lit("Stock shows negative momentum with "), Count(bearishSignals)];
      recommendation := recommendation + [Lit(" bearish vs "), Count(bullishSignals), Lit(" bullish signals.")];
    } else {
      recommendation := [Lit(HoldHeadline), Lit("Equal bullish and bearish indicators suggest sideways movement.")];
    }
  }

  /** The text opens with the headline of the side with more votes, or
      HOLD on a tie. */
  lemma HeadlineFollowsVotes(bullish: nat, bearish: nat)
    ensures RecommendationText(bullish, bearish)[0] == Lit(BuyHeadline) <==> bullish > bearish
    ensures RecommendationText(bullish, bearish)[0] == Lit(SellHeadline) <==> bearish > bullish
    ensures RecommendationText(bullish, bearish)[0] == Lit(HoldHeadline) <==> bullish == bearish
  {
    assert |BuyHeadline| == 51 && |SellHeadline| == 33 && |HoldHeadline| == 30;
  }

  /** The change vote is always cast, the moving-average vote exactly when
      there are 20 days, and the volume vote only when it is bullish. */
  lemma VotesCast(current: StockData, h: seq<StockData>)
    requires current.changePercent.Some?
    ensures BullishSignals(current, h) + BearishSignals(current, h)
      == 1 + (if |h| >= LongWindow then 1 else 0) + (if HeavyVolume(current, h) then 1 else 0)
    ensures BearishSignals(current, h) <= 2
    ensures Rising(current) ==> BullishSignals(current, h) >= 1
    ensures !Rising(current) ==> BearishSignals(current, h) >= 1
  {
  }

  /** The volume never adds a bearish vote: changing the current volume
      leaves the bearish count as it is. */
  lemma VolumeVoteIsBullishOnly(current: StockData, h: seq<StockData>, volume: real)
    requires current.changePercent.Some?
    ensures BearishSignals(current.(volume := volume), h) == BearishSignals(current, h)
    ensures BullishSignals(current.(volume := volume), h) >= BullishSignals(current, h) - 1
  {
  }

  /** With fewer than 10 days only the change vote is cast, so there is no
      HOLD: BUY exactly when the change is strictly positive, SELL when it
      is zero or negative. */
  lemma ShortHistoryNeverHolds(current: StockData, h: seq<StockData>)
    requires current.changePercent.Some? && |h| < VolumeWindow
    ensures Decide(BullishSignals(current, h), BearishSignals(current, h)) != Hold
    ensures Decide(BullishSignals(current, h), BearishSignals(current, h)) == Buy <==> current.changePercent.value > 0.0
  {
  }

  /** HOLD happens exactly when the votes cancel out: between 10 and 19
      days, a zero or falling change against heavy volume; from 20 days on,
      no volume vote and a moving-average vote that disagrees with the
      change vote. */
  lemma HoldExactlyWhenVotesCancel(current: StockData, h: seq<StockData>)
    requires current.changePercent.Some?
    ensures Decide(BullishSignals(current, h), BearishSignals(current, h)) == Hold <==>
      || (VolumeWindow <= |h| < LongWindow && !Rising(current) && HeavyVolume(current, h))
      || (|h| >= LongWindow && !HeavyVolume(current, h) && AboveMovingAverage(current, h) != Rising(current))
  {
  }

  // ---------------------------------------------------------------------
  // Technical indicators

  /** The number of changes the RSI looks at. */
  const RsiPeriods: nat := 14

  /** The days of history from which MA50 is reported. */
  const MaxWindow: nat := 50

  datatype RsiZone = Overbought | Oversold | NeutralMomentum

  /** The zone of an RSI: above 70 overbought, below 30 oversold, neutral
      otherwise (70 and 30 themselves included). */
  function Zone(rsi: real): RsiZone
  {
    if rsi > 70.0 then Overbought
    else if rsi < 30.0 then Oversold
    else NeutralMomentum
  }

  function ZoneLine(zone: RsiZone): string
  {
    match zone
    case Overbought => "RSI indicates overbought conditions.\n"
    case Oversold => "RSI indicates oversold conditions.\n"
    case NeutralMomentum => "RSI indicates neutral momentum.\n"
  }

  const RsiLabel := "RSI (14): "
  const Ma20Label := "MA20: $"
  const Ma50Label := "MA50: $"

  function RsiLines(h: seq<StockData>): Text
  {
    if |h| >= RsiPeriods then
      var rsi := Rsi(h, RsiPeriods);
      [Lit(RsiLabel), Number(rsi), Lit("\n"), Lit(ZoneLine(Zone(rsi)))]
    else []
  }

  function MovingAverageLine(h: seq<StockData>, caption: string, periods: nat): Text
    requires periods > 0
  {
    if |h| >= periods then [Lit(caption), Number(MovingAverage(h, periods)), Lit("\n")] else []
  }

  /** The indicator lines: RSI from 14 days, MA20 from 20, MA50 from 50;
      a line whose history is too short is left out. */
  function IndicatorsText(h: seq<StockData>): Text
  {
    RsiLines(h) + MovingAverageLine(h, Ma20Label, LongWindow) + MovingAverageLine(h, Ma50Label, MaxWindow)
  }

  /** generateTechnicalIndicators. */
  method GenerateTechnicalIndicators(historical: seq<StockData>) returns (indicators: Text)
    ensures indicators == IndicatorsText(historical)
  {
    indicators := [];
    if |historical| >= RsiPeriods {
      var rsi := CalculateRsi(historical, RsiPeriods);
      indicators := indicators + [Lit(RsiLabel), Number(rsi), Lit("\n")];
      if rsi > 70.0 {
        indicators := indicators + [Lit("RSI indicates overbought conditions.\n")];
      } else if rsi < 30.0 {
        indicators := indicators + [Lit("RSI indicates oversold conditions.\n")];
      } else {
        indicators := indicators + [Lit("RSI indicates neutral momentum.\n")];
      }
    }
    if |historical| >= LongWindow {
      var ma20 := CalculateMovingAverage(historical, LongWindow);
      indicators := indicators + [Lit(Ma20Label), Number(ma20), Lit("\n")];
    }
    if |historical| >= MaxWindow {
      var ma50 := CalculateMovingAverage(historical, MaxWindow);
      indicators := indicators + [Lit(Ma50Label), Number(ma50), Lit("\n")];
    }
  }

  /** Each indicator line appears exactly when the history is long enough
      for it. */
  lemma IndicatorLinesGatedByLength(h: seq<StockData>)
    ensures Lit(RsiLabel) in IndicatorsText(h) <==> |h| >= RsiPeriods
    ensures Lit(Ma20Label) in IndicatorsText(h) <==> |h| >= LongWindow
    ensures Lit(Ma50Label) in IndicatorsText(h) <==> |h| >= MaxWindow
  {
    var rsi, ma20, ma50 := RsiLines(h), MovingAverageLine(h, Ma20Label, LongWindow), MovingAverageLine(h, Ma50Label, MaxWindow);
    assert Lit(Ma20Label) !in rsi && Lit(Ma50Label) !in rsi;
    assert Lit(RsiLabel) !in ma20 && Lit(Ma50Label) !in ma20;
    assert Lit(RsiLabel) !in ma50 && Lit(Ma20Label) !in ma50;
    assert Lit(RsiLabel) in rsi <==> |h| >= RsiPeriods;
    assert Lit(Ma20Label) in ma20 <==> |h| >= LongWindow;
    assert Lit(Ma50Label) in ma50 <==> |h| >= MaxWindow;
  }

  /** With exactly 14 days there are only 13 changes, so the RSI line shows
      the sentinel 50 as neutral momentum, and no moving-average line
      appears. */
  lemma FourteenDaysShowNeutralSentinel(h: seq<StockData>)
    requires |h| == RsiPeriods
    ensures IndicatorsText(h) == [Lit(RsiLabel), Number(50.0), Lit("\n"), Lit("RSI indicates neutral momentum.\n")]
  {
  }

  /** A window without losses is always reported as overbought. */
  lemma RisingWindowIsOverbought(h: seq<StockData>)
    requires |h| >= RsiPeriods + 1
    requires forall i :: 0 <= i < RsiPeriods ==> h[i].price >= h[i + 1].price
    ensures Lit("RSI indicates overbought conditions.\n") in IndicatorsText(h)
  {
    RsiOfRisingWindowIsHundred(h, RsiPeriods);
    assert RsiLines(h)[3] == Lit("RSI indicates overbought conditions.\n");
  }

  // ---------------------------------------------------------------------
  // Analysis

  const BullishMomentum := "Price is above 20-day MA, indicating bullish momentum.\n"
  const BearishMomentum := "Price is below 20-day MA, indicating bearish momentum.\n"

  /** A BigDecimal field that may be null, as StringBuilder appends it. */
  function Optional(x: Option<real>): Piece
  {
    match x
    case Some(v) => Number(v)
    case None => Lit("null")
  }

  /** The moving-average lines of the analysis, from 20 days of history. */
  function MomentumLines(current: StockData, h: seq<StockData>): Text
  {
    if |h| >= LongWindow then
      var ma20 := MovingAverage(h, LongWindow);
      [Lit("20-day Moving Average: $"), Number(ma20), Lit("\n"),
       Lit(if current.price > ma20 then BullishMomentum else BearishMomentum)]
    else []
  }

  /** The lines about the current quote. */
  function QuoteLines(current: StockData): Text
  {
    [Lit("Stock Analysis for "), Field(current.symbol), Lit(":\n"),
     Lit("Current Price: $"), Number(current.price), Lit("\n"),
     Lit("Daily Change: "), Optional(current.change), Lit(" ("), Optional(current.changePercent), Lit("%)\n"),
     Lit("Volume: "), Number(current.volume), Lit("\n"),
     Lit("Day Range: $"), Number(current.low), Lit(" - $"), Number(current.high), Lit("\n")]
  }

  function VolatilityLine(h: seq<StockData>, sqrtPercent: real -> real): Text
  {
    [Lit("Historical Volatility (20-day): "), Number(Volatility(h, sqrtPercent)), Lit("%\n")]
  }

  /** The quote lines, the moving-average lines and the volatility line. */
  function AnalysisText(current: StockData, h: seq<StockData>, sqrtPercent: real -> real): Text
  {
    QuoteLines(current) + MomentumLines(current, h) + VolatilityLine(h, sqrtPercent)
  }

  /** generateAnalysis. */
  method GenerateAnalysis(current: StockData, historical: seq<StockData>, sqrtPercent: real -> real) returns (analysis: Text)
    ensures analysis == AnalysisText(current, historical, sqrtPercent)
  {
    analysis := [Lit("Stock Analysis for "), Field(current.symbol), Lit(":\n")];
    analysis := analysis + [Lit("Current Price: $"), Number(current.price), Lit("\n")];
    analysis := analysis + [Lit("Daily Change: "), Optional(current.change), Lit(" ("),
                            Optional(current.changePercent), Lit("%)\n")];
    analysis := analysis + [Lit("Volume: "), Number(current.volume), Lit("\n")];
    analysis := analysis + [Lit("Day Range: $"), Number(current.low), Lit(" - $"), Number(current.high), Lit("\n")];
    assert analysis == QuoteLines(current);
    var momentum := [];
    if |historical| >= LongWindow {
      var ma20 := CalculateMovingAverage(historical, LongWindow);
      momentum := [Lit("20-day Moving Average: $"), Number(ma20), Lit("\n")];
      if current.price > ma20 {
        momentum := momentum + [Lit(BullishMomentum)];
      } else {
        momentum := momentum + [Lit(BearishMomentum)];
      }
    }
    assert momentum == MomentumLines(current, historical);
    analysis := analysis + momentum;
    var volatility := CalculateVolatility(historical, sqrtPercent);
    analysis := analysis + [Lit("Historical Volatility (20-day): "), Number(volatility), Lit("%\n")];
  }

  /** The momentum line appears only from 20 days of history; it reads
      bullish exactly when the price is strictly above MA20, so a price
      equal to MA20 reads bearish. */
  lemma MomentumLineFollowsMovingAverage(current: StockData, h: seq<StockData>, sqrtPercent: real -> real)
    ensures Lit(BullishMomentum) in AnalysisText(current, h, sqrtPercent) <==> AboveMovingAverage(current, h)
    ensures Lit(BearishMomentum) in AnalysisText(current, h, sqrtPercent) <==> |h| >= LongWindow && !AboveMovingAverage(current, h)
  {
    QuoteLinesHaveNoMomentum(current);
    var momentum, volatility := MomentumLines(current, h), VolatilityLine(h, sqrtPercent);
    assert Lit(BullishMomentum) !in volatility && Lit(BearishMomentum) !in volatility;
    assert Lit(BullishMomentum) in momentum <==> AboveMovingAverage(current, h);
    assert Lit(BearishMomentum) in momentum <==> |h| >= LongWindow && !AboveMovingAverage(current, h);
  }

  lemma QuoteLinesHaveNoMomentum(current: StockData)
    ensures Lit(BullishMomentum) !in QuoteLines(current) && Lit(BearishMomentum) !in QuoteLines(current)
  {
  }
}
