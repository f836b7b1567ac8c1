/**
 * The numeric helpers of the trading prompt: exponential moving average,
 * MACD line, relative strength index, average true range, and the
 * total-return guard. Prices are `real`: floating-point rounding is not
 * modelled.
 */
module StockPromptTemplate {
  import opened Common
  import AlpacaPortfolio

  /** `sum(s)`, added left to right. */
  function Sum(s: seq<real>): real {
    if |s| == 0 then 0.0 else Sum(s[..|s| - 1]) + s[|s| - 1]
  }

  function Abs(x: real): real { if x < 0.0 then -x else x }

  // Small facts of real arithmetic, kept apart so that no large proof context meets them.

  lemma MulNonNeg(x: real, y: real)
    requires x >= 0.0 && y >= 0.0
    ensures x * y >= 0.0
  {}

  lemma DivNonNeg(a: real, b: real)
    requires a >= 0.0 && b > 0.0
    ensures a / b >= 0.0
  {}

  lemma DivBounds(x: real, n: real, lo: real, hi: real)
    requires n > 0.0 && n * lo <= x <= n * hi
    ensures lo <= x / n <= hi
  {}

  lemma ShrinkByAtLeastOne(c: real, x: real)
    requires c > 0.0 && x >= 1.0
    ensures 0.0 < c / x <= c
  {}

  /** A sum of values within [lo, hi] lies within [n * lo, n * hi]. */
  lemma {:induction false} SumBounds(s: seq<real>, lo: real, hi: real)
    requires forall i :: 0 <= i < |s| ==> lo <= s[i] <= hi
    ensures (|s| as real) * lo <= Sum(s) <= (|s| as real) * hi
  {
    if |s| > 0 {
      SumBounds(s[..|s| - 1], lo, hi);
      assert ((|s| - 1) as real) * lo + lo == (|s| as real) * lo;
      assert ((|s| - 1) as real) * hi + hi == (|s| as real) * hi;
    }
  }

  /** A sum of non-negative values is non-negative, and zero exactly when every value is. */
  lemma {:induction false} SumOfNonNegatives(s: seq<real>)
    requires forall i :: 0 <= i < |s| ==> s[i] >= 0.0
    ensures Sum(s) >= 0.0
    ensures Sum(s) == 0.0 <==> forall i :: 0 <= i < |s| ==> s[i] == 0.0
  {
    if |s| > 0 {
      SumOfNonNegatives(s[..|s| - 1]);
      if Sum(s) == 0.0 {
        assert forall i :: 0 <= i < |s| - 1 ==> s[i] == s[..|s| - 1][i];
      }
    }
  }

  // ---------------------------------------------------------------------
  // calculate_ema

  /** `2 / (period + 1)`, the weight of each new price. */
  function Multiplier(period: nat): (k: real)
    requires period >= 1
    ensures 0.0 < k <= 1.0
  {
    2.0 / ((period + 1) as real)
  }

  /** One EMA step: the last value moved toward `price` by the multiplier. */
  function EmaStep(last: real, price: real, period: nat): real
    requires period >= 1
  {
    (price - last) * Multiplier(period) + last
  }

  /**
   * The EMA series: nothing before `period` prices, then the mean of the
   * first `period` prices, then one step per further price.
   */
  function Ema(prices: seq<real>, period: nat): (r: seq<real>)
    requires period >= 1
    ensures |r| == if |prices| < period then 0 else |prices| - period + 1
  {
    if |prices| < period then []
    else if |prices| == period then [Sum(prices) / (period as real)]
    else
      var prev := Ema(prices[..|prices| - 1], period);
      var last := prev[|prev| - 1];
      prev + [EmaStep(last, prices[|prices| - 1], period)]
  }

  /** `calculate_ema`. */
  method CalculateEma(prices: seq<real>, period: nat) returns (r: seq<real>)
    requires period >= 1
    ensures r == Ema(prices, period)
  {
    if |prices| < period {
      return [];
    }
    var sma := Sum(prices[..period]) / (period as real);
    r := [sma];
    var i := period;
    while i < |prices|
      invariant period <= i <= |prices|
      invariant r == Ema(prices[..i], period)
    {
      assert prices[..i + 1][..i] == prices[..i];
      var ema := EmaStep(r[|r| - 1], prices[i], period);
      r := r + [ema];
      i := i + 1;
    }
    assert prices[..i] == prices;
  }

  /** The first EMA value is the simple mean of the first `period` prices. */
  lemma {:induction false} EmaStartsAtMean(prices: seq<real>, period: nat)
    requires period >= 1 && |prices| >= period
    ensures Ema(prices, period)[0] == Sum(prices[..period]) / (period as real)
  {
    if |prices| > period {
      EmaStartsAtMean(prices[..|prices| - 1], period);
      assert prices[..|prices| - 1][..period] == prices[..period];
    } else {
      assert prices[..period] == prices;
    }
  }

  /** A step toward `b` by weight `k` in (0, 1] stays between the bounds of both ends. */
  lemma ConvexStep(a: real, b: real, k: real, lo: real, hi: real)
    requires 0.0 < k <= 1.0 && lo <= a <= hi && lo <= b <= hi
    ensures lo <= (b - a) * k + a <= hi
  {
    var d := if b >= a then b - a else a - b;
    MulNonNeg(d, 1.0 - k);
    MulNonNeg(d, k);
  }

  /** An EMA step between two values within [lo, hi] stays within [lo, hi]. */
  lemma EmaStepBounded(last: real, price: real, period: nat, lo: real, hi: real)
    requires period >= 1 && lo <= last <= hi && lo <= price <= hi
    ensures lo <= EmaStep(last, price, period) <= hi
  {
    ConvexStep(last, price, Multiplier(period), lo, hi);
  }

  /** The mean of values within [lo, hi] lies within [lo, hi]. */
  lemma MeanBounded(s: seq<real>, lo: real, hi: real)
    requires |s| > 0 && forall i :: 0 <= i < |s| ==> lo <= s[i] <= hi
    ensures lo <= Sum(s) / (|s| as real) <= hi
  {
    SumBounds(s, lo, hi);
    DivBounds(Sum(s), |s| as real, lo, hi);
  }

  /** Every EMA value lies within any bounds of the prices (so between their min and max). */
  lemma {:induction false} EmaBounded(prices: seq<real>, period: nat, lo: real, hi: real)
    requires period >= 1
    requires forall i :: 0 <= i < |prices| ==> lo <= prices[i] <= hi
    ensures forall j :: 0 <= j < |Ema(prices, period)| ==> lo <= Ema(prices, period)[j] <= hi
  {
    if |prices| == period {
      MeanBounded(prices, lo, hi);
    } else if |prices| > period {
      var front := prices[..|prices| - 1];
      EmaBounded(front, period, lo, hi);
      var prev := Ema(front, period);
      var next := EmaStep(prev[|prev| - 1], prices[|prices| - 1], period);
      EmaStepBounded(prev[|prev| - 1], prices[|prices| - 1], period, lo, hi);
      var e := Ema(prices, period);
      assert e == prev + [next];
      forall j | 0 <= j < |e|
        ensures lo <= e[j] <= hi
      {
        if j < |prev| {
          assert e[j] == prev[j];
        }
      }
    }
  }

  // ---------------------------------------------------------------------
  // calculate_macd

  /**
   * `calculate_macd`: the fast EMA, shifted by `slow - fast` to line up
   * with the slow one, minus the slow EMA; one value per slow-EMA value.
   * The shifted index always stays inside the fast EMA.
   */
  function Macd(prices: seq<real>, fast: nat, slow: nat): (r: seq<real>)
    requires 1 <= fast <= slow
    ensures |r| == |Ema(prices, slow)|
    ensures |r| == if |prices| < slow then 0 else |prices| - slow + 1
  {
    if |prices| < slow then []
    else
      var fastEma, slowEma := Ema(prices, fast), Ema(prices, slow);
      seq(|slowEma|, i requires 0 <= i < |slowEma| => fastEma[i + (slow - fast)] - slowEma[i])
  }

  /** When the prices stay within [lo, hi], no MACD value exceeds hi - lo in size. */
  lemma MacdBounded(prices: seq<real>, fast: nat, slow: nat, lo: real, hi: real)
    requires 1 <= fast <= slow
    requires forall i :: 0 <= i < |prices| ==> lo <= prices[i] <= hi
    ensures forall j :: 0 <= j < |Macd(prices, fast, slow)| ==> lo - hi <= Macd(prices, fast, slow)[j] <= hi - lo
  {
    EmaBounded(prices, fast, lo, hi);
    EmaBounded(prices, slow, lo, hi);
  }

  // ---------------------------------------------------------------------
  // calculate_rsi

  /** `[prices[i] - prices[i-1] for i in range(1, len(prices))]`. */
  function Changes(prices: seq<real>): (r: seq<real>)
    ensures |r| == if |prices| == 0 then 0 else |prices| - 1
    ensures forall i :: 0 <= i < |r| ==> r[i] + prices[i] == prices[i + 1]
  {
    if |prices| == 0 then []
    else seq(|prices| - 1, i requires 0 <= i < |prices| - 1 => prices[i + 1] - prices[i])
  }

  /** `[max(0, c) for c in window]`. */
  function Gains(window: seq<real>): (r: seq<real>)
    ensures |r| == |window|
    ensures forall i :: 0 <= i < |r| ==> r[i] >= 0.0 && r[i] >= window[i]
  {
    seq(|window|, i requires 0 <= i < |window| => if window[i] > 0.0 then window[i] else 0.0)
  }

  /** `[abs(min(0, c)) for c in window]`. */
  function Losses(window: seq<real>): (r: seq<real>)
    ensures |r| == |window|
    ensures forall i :: 0 <= i < |r| ==> r[i] >= 0.0 && (r[i] == 0.0 <==> window[i] >= 0.0)
  {
    seq(|window|, i requires 0 <= i < |window| => if window[i] < 0.0 then -window[i] else 0.0)
  }

  predicate NoLosses(window: seq<real>) {
    forall i :: 0 <= i < |window| ==> window[i] >= 0.0
  }

  /** `sum(gains) / period`. */
  function AvgGain(window: seq<real>, period: nat): (g: real)
    requires period >= 1
    ensures g >= 0.0
  {
    SumOfNonNegatives(Gains(window));
    DivNonNeg(Sum(Gains(window)), period as real);
    Sum(Gains(window)) / (period as real)
  }

  /** `sum(losses) / period`: zero exactly when the window holds no loss. */
  function AvgLoss(window: seq<real>, period: nat): (l: real)
    requires period >= 1
    ensures l >= 0.0
  {
    SumOfNonNegatives(Losses(window));
    DivNonNeg(Sum(Losses(window)), period as real);
    Sum(Losses(window)) / (period as real)
  }

  /** `100 - 100 / (1 + rs)` with `rs = avg_gain / avg_loss`, or 100 when there is no loss. */
  function RsiOfAverages(avgGain: real, avgLoss: real): real
    requires avgGain >= 0.0 && avgLoss >= 0.0
  {
    if avgLoss == 0.0 then 100.0
    else
      DivNonNeg(avgGain, avgLoss);
      100.0 - 100.0 / (1.0 + avgGain / avgLoss)
  }

  /** The RSI of one window of `period` changes. */
  function RsiOf(window: seq<real>, period: nat): real
    requires period >= 1
  {
    RsiOfAverages(AvgGain(window, period), AvgLoss(window, period))
  }

  /** Every RSI value lies in [0, 100], and is exactly 100 iff the window holds no loss. */
  lemma RsiRange(window: seq<real>, period: nat)
    requires period >= 1
    ensures 0.0 <= RsiOf(window, period) <= 100.0
    ensures RsiOf(window, period) == 100.0 <==> NoLosses(window)
  {
    var losses := Losses(window);
    SumOfNonNegatives(losses);
    var avgGain, avgLoss := AvgGain(window, period), AvgLoss(window, period);
    assert avgLoss == 0.0 <==> Sum(losses) == 0.0;
    if avgLoss != 0.0 {
      DivNonNeg(avgGain, avgLoss);
      ShrinkByAtLeastOne(100.0, 1.0 + avgGain / avgLoss);
    }
  }

  /** The RSI values of the windows of `period` changes that end at or before `n`. */
  function RsiUpTo(changes: seq<real>, period: nat, n: nat): (r: seq<real>)
    requires period >= 1 && n <= |changes|
    ensures |r| == if n < period then 0 else n - period + 1
  {
    if n < period then [] else RsiUpTo(changes, period, n - 1) + [RsiOf(changes[n - period..n], period)]
  }

  /** One more change extends the series by the RSI of the window ending there. */
  lemma RsiUpToStep(changes: seq<real>, period: nat, n: nat)
    requires period >= 1 && period <= n <= |changes|
    ensures RsiUpTo(changes, period, n - 1) <= RsiUpTo(changes, period, n)
    ensures RsiUpTo(changes, period, n)[n - period] == RsiOf(changes[n - period..n], period)
  {
  }

  /** Value `j` of the series is the RSI of the window of changes starting at `j`. */
  lemma {:induction false} RsiUpToAt(changes: seq<real>, period: nat, n: nat, j: nat)
    requires period >= 1 && n <= |changes| && j < |RsiUpTo(changes, period, n)|
    ensures j + period <= n
    ensures RsiUpTo(changes, period, n)[j] == RsiOf(changes[j..j + period], period)
  {
    RsiUpToStep(changes, period, n);
    if j < n - period {
      RsiUpToAt(changes, period, n - 1, j);
    }
  }

  /** The RSI series: one value per window of `period` consecutive price changes. */
  function Rsi(prices: seq<real>, period: nat): (r: seq<real>)
    requires period >= 1
    ensures |r| == if |prices| < period + 1 then 0 else |prices| - period
  {
    if |prices| < period + 1 then [] else RsiUpTo(Changes(prices), period, |prices| - 1)
  }

  /** Every value of the series lies in [0, 100], and is 100 exactly for a window without a loss. */
  lemma RsiSeriesRange(prices: seq<real>, period: nat, j: nat)
    requires period >= 1 && j < |Rsi(prices, period)|
    ensures j + period <= |Changes(prices)|
    ensures Rsi(prices, period)[j] == RsiOf(Changes(prices)[j..j + period], period)
    ensures 0.0 <= Rsi(prices, period)[j] <= 100.0
    ensures Rsi(prices, period)[j] == 100.0 <==> NoLosses(Changes(prices)[j..j + period])
  {
    RsiUpToAt(Changes(prices), period, |prices| - 1, j);
    RsiRange(Changes(prices)[j..j + period], period);
  }

  /** One pass of the `calculate_rsi` loop: the RSI of the window of changes ending at `i`. */
  method NextRsi(changes: seq<real>, period: nat, i: nat) returns (rsi: real)
    requires period >= 1 && period - 1 <= i < |changes|
    ensures RsiUpTo(changes, period, i + 1) == RsiUpTo(changes, period, i) + [rsi]
  {
    var window := changes[i - period + 1..i + 1];
    rsi := RsiOf(window, period);
  }

  /** The loop of `calculate_rsi` over the list of changes. */
  method RsiLoop(changes: seq<real>, period: nat) returns (r: seq<real>)
    requires period >= 1 && period - 1 <= |changes|
    ensures r == RsiUpTo(changes, period, |changes|)
  {
    r := [];
    var i := period - 1;
    while i < |changes|
      invariant period - 1 <= i <= |changes|
      invariant r == RsiUpTo(changes, period, i)
    {
      var rsi := NextRsi(changes, period, i);
      r := r + [rsi];
      i := i + 1;
    }
  }

  /** `calculate_rsi`. */
  method CalculateRsi(prices: seq<real>, period: nat) returns (r: seq<real>)
    requires period >= 1
    ensures r == Rsi(prices, period)
  {
    if |prices| < period + 1 {
      return [];
    }
    var changes := Changes(prices);
    r := RsiLoop(changes, period);
  }

  // ---------------------------------------------------------------------
  // calculate_atr

  /** `max(high - low, abs(high - prev_close), abs(low - prev_close))`. */
  function TrueRange(high: real, low: real, prevClose: real): (r: real)
    ensures r >= high - low && r >= Abs(high - prevClose) && r >= Abs(low - prevClose)
    ensures r == high - low || r == Abs(high - prevClose) || r == Abs(low - prevClose)
    ensures r >= 0.0
  {
    var highLow, highClose, lowClose := high - low, Abs(high - prevClose), Abs(low - prevClose);
    if highLow >= highClose && highLow >= lowClose then highLow
    else if highClose >= lowClose then highClose
    else lowClose
  }

  /** The true range of each bar after the first, against the previous close. */
  function TrueRanges(highs: seq<real>, lows: seq<real>, closes: seq<real>, n: nat): (r: seq<real>)
    requires 1 <= n <= |highs| && n <= |lows| && n - 1 <= |closes|
    ensures |r| == n - 1
    ensures forall i :: 0 <= i < |r| ==> r[i] == TrueRange(highs[i + 1], lows[i + 1], closes[i])
  {
    if n == 1 then []
    else TrueRanges(highs, lows, closes, n - 1) + [TrueRange(highs[n - 1], lows[n - 1], closes[n - 2])]
  }

  /**
   * `calculate_atr`: 0.0 for fewer than `period + 1` bars, otherwise the
   * mean of the last `period` true ranges, which is never negative. The
   * second `return` (fewer true ranges than `period`) cannot be reached.
   */
  method CalculateAtr(highs: seq<real>, lows: seq<real>, closes: seq<real>, period: nat) returns (atr: real)
    requires period >= 1
    requires |highs| >= period + 1 ==> |lows| >= |highs| && |closes| >= |highs| - 1
    ensures |highs| < period + 1 ==> atr == 0.0
    ensures |highs| >= period + 1 ==>
              atr == Sum(TrueRanges(highs, lows, closes, |highs|)[|highs| - 1 - period..]) / (period as real)
    ensures atr >= 0.0
  {
    if |highs| < period + 1 {
      return 0.0;
    }
    var trueRanges: seq<real> := [];
    var i := 1;
    while i < |highs|
      invariant 1 <= i <= |highs|
      invariant trueRanges == TrueRanges(highs, lows, closes, i)
    {
      trueRanges := trueRanges + [TrueRange(highs[i], lows[i], closes[i - 1])];
      i := i + 1;
    }
    if |trueRanges| >= period {
      var last := trueRanges[|trueRanges| - period..];
      assert forall k :: 0 <= k < |last| ==> last[k] >= 0.0;
      SumOfNonNegatives(last);
      DivNonNeg(Sum(last), period as real);
      atr := Sum(last) / (period as real);
    } else {
      assert false;
    }
  }

  // ---------------------------------------------------------------------
  // Total return

  /**
   * `total_return_pct`: the change from `last_equity` in percent, where
   * `last_equity` defaults to the portfolio value; 0 unless it is positive.
   */
  function TotalReturnPct(portfolioValue: real, lastEquity: Option<real>): (r: real)
    ensures lastEquity.GetOr(portfolioValue) <= 0.0 ==> r == 0.0
    ensures lastEquity.None? ==> r == 0.0
    ensures r > 0.0 <==> lastEquity.GetOr(portfolioValue) > 0.0 && portfolioValue > lastEquity.GetOr(portfolioValue)
  {
    var base := lastEquity.GetOr(portfolioValue);
    if base > 0.0 then
      var r := (portfolioValue - base) / base * 100.0;
      assert r > 0.0 <==> portfolioValue > base by {
        assert (portfolioValue - base) / base * base == portfolioValue - base;
      }
      r
    else 0.0
  }

  /**
   * The return the prompt shows for the assessed account: the account
   * dictionary built from the broker has no `last_equity` key, so the
   * figure is 0 for every account.
   */
  function AssessedTotalReturnPct(account: Option<AlpacaPortfolio.AccountInfo>): (r: real)
    ensures r == 0.0
  {
    var portfolioValue := if account.Some? then account.value.portfolioValue else 0.0;
    TotalReturnPct(portfolioValue, None)
  }
}
