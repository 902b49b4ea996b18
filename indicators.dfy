/** The time-series indicator engine of `services/cryptoApi.ts`: simple and
    weighted moving averages, Wilder's RSI, and the enrichment pass that
    attaches them (with the trend and its changes) to a copy of the candles.

    Each `Calculate*` method fills a preallocated array with a loop, as the
    source does, and is proved to produce the closed form given by the
    specification functions next to it. */
module Indicators {
  import opened Types

  // ---------------------------------------------------------------------
  // Simple moving average

  /** Sum of `data[lo..hi]`. */
  function WindowSum(data: seq<real>, lo: nat, hi: nat): real
    requires lo <= hi <= |data|
    decreases hi - lo
  {
    if lo == hi then 0.0 else WindowSum(data, lo, hi - 1) + data[hi - 1]
  }

  /** Sliding the window forward by one drops its first element. */
  lemma {:induction false} WindowSumDropFront(data: seq<real>, lo: nat, hi: nat)
    requires lo < hi <= |data|
    ensures WindowSum(data, lo + 1, hi) == WindowSum(data, lo, hi) - data[lo]
    decreases hi - lo
  {
    if hi > lo + 1 {
      WindowSumDropFront(data, lo, hi - 1);
    }
  }

  /** The SMA entry at index `i`: the mean of the `period` values ending at
      `i`, or the sentinel 0 while the window is not yet full. */
  function SmaAt(data: seq<real>, period: nat, i: nat): real
    requires period >= 1 && i < |data|
  {
    if i + 1 < period then 0.0
    else WindowSum(data, i + 1 - period, i + 1) / (period as real)
  }

  /** `calculateSMA`: one running sum, updated by `sum - data[i-period] + data[i]`. */
  method CalculateSMA(data: seq<real>, period: nat) returns (r: seq<real>)
    requires period >= 1
    ensures |r| == |data|
    ensures forall k :: 0 <= k < |r| ==> r[k] == SmaAt(data, period, k)
  {
    var result := new real[|data|](_ => 0.0);
    if |data| < period {
      return result[..];
    }
    var sum := 0.0;
    var i := 0;
    while i < period
      invariant 0 <= i <= period
      invariant sum == WindowSum(data, 0, i)
    {
      sum := sum + data[i];
      i := i + 1;
    }
    result[period - 1] := sum / (period as real);
    i := period;
    while i < |data|
      invariant period <= i <= |data|
      invariant sum == WindowSum(data, i - period, i)
      invariant forall k :: 0 <= k < i ==> result[k] == SmaAt(data, period, k)
      invariant forall k :: i <= k < |data| ==> result[k] == 0.0
    {
      WindowSumDropFront(data, i - period, i);
      sum := sum - data[i - period] + data[i];
      result[i] := sum / (period as real);
      i := i + 1;
    }
    r := result[..];
  }

  // ---------------------------------------------------------------------
  // Weighted moving average

  /** Sum over `j < n` of `data[i-j] * (period-j)`: the most recent value
      weighs `period`, the oldest of a full window weighs 1. */
  function WeightedSum(data: seq<real>, period: nat, i: nat, n: nat): real
    requires n <= period && n <= i + 1 && i < |data|
  {
    if n == 0 then 0.0
    else WeightedSum(data, period, i, n - 1) + data[i - (n - 1)] * ((period - (n - 1)) as real)
  }

  /** `period * (period + 1) / 2`, the divisor of the weighted average. */
  function WeightTotal(period: nat): real {
    (period * (period + 1)) as real / 2.0
  }

  /** The WMA entry at index `i`, or the sentinel 0 before the window fills. */
  function WmaAt(data: seq<real>, period: nat, i: nat): real
    requires period >= 1 && i < |data|
  {
    if i + 1 < period then 0.0
    else WeightedSum(data, period, i, period) / WeightTotal(period)
  }

  /** `calculateWMA`: a full inner summation per index. */
  method CalculateWMA(data: seq<real>, period: nat) returns (r: seq<real>)
    requires period >= 1
    ensures |r| == |data|
    ensures forall k :: 0 <= k < |r| ==> r[k] == WmaAt(data, period, k)
  {
    var result := new real[|data|](_ => 0.0);
    if |data| < period {
      return result[..];
    }
    var weightSum := (period * (period + 1)) as real / 2.0;
    var i := period - 1;
    while i < |data|
      invariant period - 1 <= i <= |data|
      invariant forall k :: 0 <= k < i ==> result[k] == WmaAt(data, period, k)
      invariant forall k :: i <= k < |data| ==> result[k] == 0.0
    {
      var sum := 0.0;
      var j := 0;
      while j < period
        invariant 0 <= j <= period
        invariant sum == WeightedSum(data, period, i, j)
      {
        sum := sum + data[i - j] * ((period - j) as real);
        j := j + 1;
      }
      result[i] := sum / weightSum;
      i := i + 1;
    }
    r := result[..];
  }

  // ---------------------------------------------------------------------
  // Bounds of the averages

  /** Sum over `j < n` of the weights `period - j`. */
  function Weights(period: nat, n: nat): real
    requires n <= period
  {
    if n == 0 then 0.0 else Weights(period, n - 1) + (period - (n - 1)) as real
  }

  lemma {:induction false} WeightsFull(period: nat, n: nat)
    requires n <= period
    ensures 2.0 * Weights(period, n) == (n * (2 * period - n + 1)) as real
  {
    if n > 0 {
      WeightsFull(period, n - 1);
      assert (n * (2 * period - n + 1)) == (n - 1) * (2 * period - n + 2) + 2 * (period - n + 1);
    }
  }

  lemma MulMono(a: real, b: real, w: real)
    requires a <= b && w >= 0.0
    ensures a * w <= b * w
  {}

  /** A weighted sum of values in `[lo, hi]` lies between `lo` and `hi`
      times the sum of its weights. */
  lemma WeightedSumBounds(data: seq<real>, period: nat, i: nat, n: nat, lo: real, hi: real)
    requires n <= period && n <= i + 1 && i < |data|
    requires forall k :: i + 1 - n <= k <= i ==> lo <= data[k] <= hi
    ensures lo * Weights(period, n) <= WeightedSum(data, period, i, n) <= hi * Weights(period, n)
  {
    WeightedSumLower(data, period, i, n, lo);
    WeightedSumUpper(data, period, i, n, hi);
  }

  /** One step of the lower bound: adding `x * w` with `lo <= x` keeps the
      sum above `lo` times the weights. */
  lemma LowerStep(lo: real, weights: real, sum: real, x: real, w: real)
    requires lo * weights <= sum && lo <= x && w >= 0.0
    ensures lo * (weights + w) <= sum + x * w
  {
    MulMono(lo, x, w);
    assert lo * (weights + w) == lo * weights + lo * w;
  }

  /** One step of the upper bound. */
  lemma UpperStep(hi: real, weights: real, sum: real, x: real, w: real)
    requires sum <= hi * weights && x <= hi && w >= 0.0
    ensures sum + x * w <= hi * (weights + w)
  {
    MulMono(x, hi, w);
    assert hi * (weights + w) == hi * weights + hi * w;
  }

  lemma {:induction false} WeightedSumLower(data: seq<real>, period: nat, i: nat, n: nat, lo: real)
    requires n <= period && n <= i + 1 && i < |data|
    requires forall k :: i + 1 - n <= k <= i ==> lo <= data[k]
    ensures lo * Weights(period, n) <= WeightedSum(data, period, i, n)
  {
    if n > 0 {
      WeightedSumLower(data, period, i, n - 1, lo);
      var w := (period - (n - 1)) as real;
      var x := data[i - (n - 1)];
      LowerStep(lo, Weights(period, n - 1), WeightedSum(data, period, i, n - 1), x, w);
      assert WeightedSum(data, period, i, n) == WeightedSum(data, period, i, n - 1) + x * w;
      assert Weights(period, n) == Weights(period, n - 1) + w;
    }
  }

  lemma {:induction false} WeightedSumUpper(data: seq<real>, period: nat, i: nat, n: nat, hi: real)
    requires n <= period && n <= i + 1 && i < |data|
    requires forall k :: i + 1 - n <= k <= i ==> data[k] <= hi
    ensures WeightedSum(data, period, i, n) <= hi * Weights(period, n)
  {
    if n > 0 {
      WeightedSumUpper(data, period, i, n - 1, hi);
      var w := (period - (n - 1)) as real;
      var x := data[i - (n - 1)];
      UpperStep(hi, Weights(period, n - 1), WeightedSum(data, period, i, n - 1), x, w);
      assert WeightedSum(data, period, i, n) == WeightedSum(data, period, i, n - 1) + x * w;
      assert Weights(period, n) == Weights(period, n - 1) + w;
    }
  }

  lemma DivBounds(s: real, d: real, lo: real, hi: real)
    requires d > 0.0 && lo * d <= s <= hi * d
    ensures lo <= s / d <= hi
  {}

  /** Once its window is full, the WMA lies between the smallest and the
      largest value in the window (so it equals a constant series' value). */
  lemma WmaWithinWindow(data: seq<real>, period: nat, i: nat, lo: real, hi: real)
    requires period >= 1 && period <= i + 1 && i < |data|
    requires forall k :: i + 1 - period <= k <= i ==> lo <= data[k] <= hi
    ensures lo <= WmaAt(data, period, i) <= hi
  {
    WeightedSumBounds(data, period, i, period, lo, hi);
    WeightsFull(period, period);
    assert Weights(period, period) == WeightTotal(period);
    DivBounds(WeightedSum(data, period, i, period), WeightTotal(period), lo, hi);
  }

  lemma {:induction false} WindowSumBounds(data: seq<real>, lo: nat, hi: nat, a: real, b: real)
    requires lo <= hi <= |data|
    requires forall k :: lo <= k < hi ==> a <= data[k] <= b
    ensures a * ((hi - lo) as real) <= WindowSum(data, lo, hi) <= b * ((hi - lo) as real)
    decreases hi - lo
  {
    if lo < hi {
      WindowSumBounds(data, lo, hi - 1, a, b);
      var m := (hi - 1 - lo) as real;
      assert a <= data[hi - 1] <= b;
      assert a * (m + 1.0) == a * m + a && b * (m + 1.0) == b * m + b;
    }
  }

  /** Once its window is full, the SMA lies between the smallest and the
      largest value in the window. */
  lemma SmaWithinWindow(data: seq<real>, period: nat, i: nat, lo: real, hi: real)
    requires period >= 1 && period <= i + 1 && i < |data|
    requires forall k :: i + 1 - period <= k <= i ==> lo <= data[k] <= hi
    ensures lo <= SmaAt(data, period, i) <= hi
  {
    WindowSumBounds(data, i + 1 - period, i + 1, lo, hi);
    DivBounds(WindowSum(data, i + 1 - period, i + 1), period as real, lo, hi);
  }

  // ---------------------------------------------------------------------
  // Relative strength index (Wilder smoothing)

  function Gain(change: real): (g: real)
    ensures g >= 0.0
  {
    if change >= 0.0 then change else 0.0
  }

  function Loss(change: real): (l: real)
    ensures l >= 0.0
  {
    if change < 0.0 then -change else 0.0
  }

  function ChangeAt(data: seq<real>, i: nat): real
    requires 1 <= i < |data|
  {
    data[i] - data[i - 1]
  }

  /** Total gain over the changes at indices `1..k`. */
  function SeedGains(data: seq<real>, k: nat): (s: real)
    requires k < |data|
    ensures s >= 0.0
  {
    if k == 0 then 0.0 else SeedGains(data, k - 1) + Gain(ChangeAt(data, k))
  }

  /** Total loss over the changes at indices `1..k`. */
  function SeedLosses(data: seq<real>, k: nat): (s: real)
    requires k < |data|
    ensures s >= 0.0
  {
    if k == 0 then 0.0 else SeedLosses(data, k - 1) + Loss(ChangeAt(data, k))
  }

  datatype Smoothed = Smoothed(avgGain: real, avgLoss: real)

  /** `(avg * (period - 1) + current) / period`: one Wilder smoothing step. */
  function WilderStep(avg: real, current: real, period: nat): (r: real)
    requires period >= 1
    ensures avg >= 0.0 && current >= 0.0 ==> r >= 0.0
  {
    (avg * (period as real - 1.0) + current) / (period as real)
  }

  /** Wilder's averages after the change at index `i`: the plain mean of the
      first `period` changes at `i == period`, then
      `avg = (avg * (period - 1) + current) / period`. Both stay non-negative. */
  function Smooth(data: seq<real>, period: nat, i: nat): (s: Smoothed)
    requires 1 <= period <= i < |data|
    ensures s.avgGain >= 0.0 && s.avgLoss >= 0.0
    decreases i
  {
    var p := period as real;
    if i == period then Smoothed(SeedGains(data, period) / p, SeedLosses(data, period) / p)
    else
      var prev := Smooth(data, period, i - 1);
      Smoothed(WilderStep(prev.avgGain, Gain(ChangeAt(data, i)), period),
               WilderStep(prev.avgLoss, Loss(ChangeAt(data, i)), period))
  }

  /** One step of the smoothing loop agrees with `Smooth`, and the RSI the
      loop writes is `RsiAt`. */
  lemma SmoothNext(data: seq<real>, period: nat, i: nat, avgGain: real, avgLoss: real, gain: real, loss: real)
    requires 1 <= period < i < |data|
    requires Smooth(data, period, i - 1) == Smoothed(avgGain, avgLoss)
    requires gain == (if data[i] - data[i - 1] >= 0.0 then data[i] - data[i - 1] else 0.0)
    requires loss == (if data[i] - data[i - 1] < 0.0 then -(data[i] - data[i - 1]) else 0.0)
    ensures var g, l := WilderStep(avgGain, gain, period), WilderStep(avgLoss, loss, period);
      && Smooth(data, period, i) == Smoothed(g, l)
      && g >= 0.0 && l >= 0.0
      && RsiAt(data, period, i) == 100.0 - 100.0 / (1.0 + (if l == 0.0 then 100.0 else g / l))
  {}

  /** `100 - 100 / (1 + rs)` with `rs = 100` when the average loss is 0. */
  function RsiOf(s: Smoothed): (r: real)
    requires s.avgGain >= 0.0 && s.avgLoss >= 0.0
    ensures 0.0 <= r < 100.0
    ensures s.avgLoss == 0.0 ==> r == 100.0 - 100.0 / 101.0
    ensures r == 0.0 <==> s.avgGain == 0.0 && s.avgLoss > 0.0
  {
    var rs := if s.avgLoss == 0.0 then 100.0 else s.avgGain / s.avgLoss;
    RsiRange(rs);
    100.0 - 100.0 / (1.0 + rs)
  }

  lemma RsiRange(rs: real)
    requires rs >= 0.0
    ensures 0.0 < 100.0 / (1.0 + rs) <= 100.0
    ensures 100.0 / (1.0 + rs) == 100.0 <==> rs == 0.0
  {
    var q := 100.0 / (1.0 + rs);
    assert q * (1.0 + rs) == 100.0;
  }

  /** The RSI entry at index `i`: the neutral 50 up to and including index
      `period`, then the RSI of the smoothed averages. */
  function RsiAt(data: seq<real>, period: nat, i: nat): real
    requires period >= 1 && i < |data|
  {
    if i <= period then 50.0 else RsiOf(Smooth(data, period, i))
  }

  /** The seed loop of `calculateRSI`: total gain and total loss over the
      changes at indices `1..period` (a zero change counts as a gain). */
  method SeedTotals(data: seq<real>, period: nat) returns (gains: real, losses: real)
    requires period < |data|
    ensures gains == SeedGains(data, period) && losses == SeedLosses(data, period)
  {
    gains, losses := 0.0, 0.0;
    var i := 1;
    while i <= period
      invariant 1 <= i <= period + 1
      invariant gains == SeedGains(data, i - 1) && losses == SeedLosses(data, i - 1)
    {
      var change := data[i] - data[i - 1];
      if change >= 0.0 {
        gains := gains + change;
      } else {
        losses := losses - change;
      }
      i := i + 1;
    }
  }

  /** `calculateRSI`: the seed loop over the first `period` changes, then the
      smoothing loop from index `period + 1`. */
  method CalculateRSI(data: seq<real>, period: nat) returns (r: seq<real>)
    requires period >= 1
    ensures |r| == |data|
    ensures forall k :: 0 <= k < |r| ==> r[k] == RsiAt(data, period, k)
  {
    var rsi := new real[|data|](_ => 50.0);
    if |data| <= period {
      return rsi[..];
    }
    var gains, losses := SeedTotals(data, period);
    var p := period as real;
    var avgGain := gains / p;
    var avgLoss := losses / p;
    var i := period + 1;
    while i < |data|
      invariant period + 1 <= i <= |data|
      invariant Smoothed(avgGain, avgLoss) == Smooth(data, period, i - 1)
      invariant forall k :: 0 <= k < i ==> rsi[k] == RsiAt(data, period, k)
      invariant forall k :: i <= k < |data| ==> rsi[k] == 50.0
    {
      var change := data[i] - data[i - 1];
      var gain := if change >= 0.0 then change else 0.0;
      var loss := if change < 0.0 then -change else 0.0;
      SmoothNext(data, period, i, avgGain, avgLoss, gain, loss);
      avgGain := WilderStep(avgGain, gain, period);
      avgLoss := WilderStep(avgLoss, loss, period);
      var rs := if avgLoss == 0.0 then 100.0 else avgGain / avgLoss;
      rsi[i] := 100.0 - 100.0 / (1.0 + rs);
      i := i + 1;
    }
    r := rsi[..];
  }

  /** Every RSI entry lies in `[0, 100)`: even a series that never falls
      reads `100 - 100/101`, not 100. */
  lemma RsiRangeAll(data: seq<real>, period: nat, i: nat)
    requires period >= 1 && i < |data|
    ensures 0.0 <= RsiAt(data, period, i) < 100.0
  {}

  /** A series that never falls has no losses, so from index `period + 1` on
      its RSI is the zero-loss value `100 - 100/101`. */
  lemma {:induction false} NonFallingSeriesRsi(data: seq<real>, period: nat, i: nat)
    requires period >= 1 && period < i < |data|
    requires forall k :: 1 <= k < |data| ==> data[k - 1] <= data[k]
    ensures RsiAt(data, period, i) == 100.0 - 100.0 / 101.0
  {
    NoLossesSmooth(data, period, i);
  }

  lemma {:induction false} NoLossesSeed(data: seq<real>, k: nat)
    requires k < |data|
    requires forall j :: 1 <= j < |data| ==> data[j - 1] <= data[j]
    ensures SeedLosses(data, k) == 0.0
  {
    if k > 0 {
      NoLossesSeed(data, k - 1);
    }
  }

  lemma {:induction false} NoLossesSmooth(data: seq<real>, period: nat, i: nat)
    requires 1 <= period <= i < |data|
    requires forall k :: 1 <= k < |data| ==> data[k - 1] <= data[k]
    ensures Smooth(data, period, i).avgLoss == 0.0
    decreases i
  {
    if i == period {
      NoLossesSeed(data, period);
    } else {
      NoLossesSmooth(data, period, i - 1);
    }
  }

  /** A strictly falling series has no gains and positive losses, so its RSI
      from index `period + 1` on is exactly 0. */
  lemma {:induction false} FallingSeriesRsiZero(data: seq<real>, period: nat, i: nat)
    requires period >= 1 && period < i < |data|
    requires forall k :: 1 <= k < |data| ==> data[k - 1] > data[k]
    ensures RsiAt(data, period, i) == 0.0
  {
    FallingSmooth(data, period, i);
  }

  lemma {:induction false} FallingSeed(data: seq<real>, k: nat)
    requires k < |data|
    requires forall j :: 1 <= j < |data| ==> data[j - 1] > data[j]
    ensures SeedGains(data, k) == 0.0
    ensures k > 0 ==> SeedLosses(data, k) > 0.0
  {
    if k > 0 {
      FallingSeed(data, k - 1);
    }
  }

  lemma {:induction false} FallingSmooth(data: seq<real>, period: nat, i: nat)
    requires 1 <= period <= i < |data|
    requires forall k :: 1 <= k < |data| ==> data[k - 1] > data[k]
    ensures Smooth(data, period, i).avgGain == 0.0 && Smooth(data, period, i).avgLoss > 0.0
    decreases i
  {
    if i == period {
      FallingSeed(data, period);
    } else {
      FallingSmooth(data, period, i - 1);
      var prev := Smooth(data, period, i - 1);
      var p := period as real;
      assert prev.avgLoss * (p - 1.0) >= 0.0;
    }
  }

  // ---------------------------------------------------------------------
  // Enrichment

  function Closes(data: seq<Candle>): (closes: seq<real>)
    ensures |closes| == |data|
    ensures forall i :: 0 <= i < |data| ==> closes[i] == data[i].close
  {
    seq(|data|, i requires 0 <= i < |data| => data[i].close)
  }

  /** `x > 0 ? x : undefined`: the 0 sentinel (or any non-positive average)
      becomes an absent field. */
  function Defined(x: real): (r: Option<real>)
    ensures r.Some? <==> x > 0.0
    ensures r.Some? ==> r.value == x
  {
    if x > 0.0 then Some(x) else None
  }

  /** `x || 50`: a computed RSI of exactly 0 is replaced by 50. */
  function RsiOrFifty(x: real): (r: real)
    ensures x != 0.0 ==> r == x
    ensures x == 0.0 ==> r == 50.0
  {
    if x != 0.0 then x else 50.0
  }

  /** The candle `i` after the first pass: the averages attached, `wma200`
      an alias of `sma200`. */
  function WithAverages(data: seq<Candle>, i: nat): Candle
    requires i < |data|
  {
    var closes := Closes(data);
    Averaged(data[i], WmaAt(closes, 50, i), WmaAt(closes, 100, i), SmaAt(closes, 200, i))
  }

  /** One candle of the first pass, given the three raw series values. */
  function Averaged(c: Candle, wma50: real, wma100: real, sma200: real): Candle {
    var sma := Defined(sma200);
    c.(wma50 := Defined(wma50), wma100 := Defined(wma100), sma200 := sma, wma200 := sma)
  }

  /** The candle `i` after the second pass: its 14-period RSI attached. */
  function WithRsi(data: seq<Candle>, i: nat): Candle
    requires i < |data|
  {
    WithAverages(data, i).(rsi := Some(RsiOrFifty(RsiAt(Closes(data), 14, i))))
  }

  /** The trend the third pass leaves on a candle: classified when `wma50` is
      truthy, otherwise whatever the copied candle carried. */
  function TrendOf(c: Candle): Option<Trend> {
    if Truthy(c.wma50) then Some(if c.close >= c.wma50.value then Bull else Bear) else c.trend
  }

  /** The change marker from the previous candle's trend to the current one. */
  function ChangeBetween(prev: Option<Trend>, cur: Trend): (r: Option<TrendChange>)
    ensures r == Some(ToBull) <==> prev == Some(Bear) && cur == Bull
    ensures r == Some(ToBear) <==> prev == Some(Bull) && cur == Bear
    ensures r.None? <==> prev.None? || prev == Some(cur)
  {
    match (prev, cur)
    case (Some(Bear), Bull) => Some(ToBull)
    case (Some(Bull), Bear) => Some(ToBear)
    case _ => None
  }

  /** The candle `i` after the third pass, which reads the trend already
      written on candle `i - 1`. */
  function EnrichAt(data: seq<Candle>, i: nat): Candle
    requires i < |data|
  {
    Classified(WithRsi(data, i), if i > 0 then TrendOf(WithAverages(data, i - 1)) else None)
  }

  /** One candle of the third pass, given the trend on the previous candle. */
  function Classified(c: Candle, prevTrend: Option<Trend>): (r: Candle)
    ensures r == c.(trend := r.trend, trendChange := r.trendChange)
    ensures r.trend == TrendOf(c)
  {
    if !Truthy(c.wma50) then c
    else
      var t := TrendOf(c).value;
      var change := ChangeBetween(prevTrend, t);
      c.(trend := Some(t), trendChange := if change.Some? then change else c.trendChange)
  }

  /** Candle `k` of `s` after the third pass, reading candle `k - 1`'s trend
      as that pass leaves it. */
  function ClassifiedAt(s: seq<Candle>, k: nat): Candle
    requires k < |s|
  {
    Classified(s[k], if k > 0 then TrendOf(s[k - 1]) else None)
  }

  /** The result of `enrichWithAverages`, candle by candle. */
  function Enrich(data: seq<Candle>): (r: seq<Candle>)
    ensures |r| == |data|
  {
    seq(|data|, i requires 0 <= i < |data| => EnrichAt(data, i))
  }

  /** `enrichWithAverages`: copy the candles, then three passes over the copy
      (averages, RSI, trend and trend change). */
  method EnrichWithAverages(data: seq<Candle>) returns (r: seq<Candle>)
    ensures r == Enrich(data)
  {
    if |data| == 0 {
      return [];
    }
    var closes := Closes(data);
    var enriched := new Candle[|data|](i requires 0 <= i < |data| => data[i]);

    var wma50 := CalculateWMA(closes, 50);
    var wma100 := CalculateWMA(closes, 100);
    var sma200 := CalculateSMA(closes, 200);
    AttachAverages(data, enriched, wma50, wma100, sma200);

    var rsiValues := CalculateRSI(closes, 14);
    AttachRsi(data, enriched, rsiValues);

    ghost var before := enriched[..];
    AttachTrend(enriched);
    ThirdPassIsEnrichAt(data, before);
    r := enriched[..];
  }

  /** The third pass, run on the candles the second pass left, yields the
      enriched candles. */
  lemma ThirdPassIsEnrichAt(data: seq<Candle>, before: seq<Candle>)
    requires |before| == |data|
    requires forall k :: 0 <= k < |data| ==> before[k] == WithRsi(data, k)
    ensures forall k :: 0 <= k < |data| ==> ClassifiedAt(before, k) == EnrichAt(data, k)
  {
    forall k | 0 <= k < |data|
      ensures ClassifiedAt(before, k) == EnrichAt(data, k)
    {
      if k > 0 {
        assert TrendOf(before[k - 1]) == TrendOf(WithAverages(data, k - 1));
      }
    }
  }

  /** The first pass: `x > 0 ? x : undefined` for each average. */
  method AttachAverages(data: seq<Candle>, enriched: array<Candle>, wma50: seq<real>, wma100: seq<real>, sma200: seq<real>)
    requires enriched.Length == |data| == |wma50| == |wma100| == |sma200|
    requires forall k :: 0 <= k < |data| ==> enriched[k] == data[k]
    requires forall k :: 0 <= k < |data| ==>
      && wma50[k] == WmaAt(Closes(data), 50, k)
      && wma100[k] == WmaAt(Closes(data), 100, k)
      && sma200[k] == SmaAt(Closes(data), 200, k)
    modifies enriched
    ensures forall k :: 0 <= k < |data| ==> enriched[k] == WithAverages(data, k)
  {
    var i := 0;
    while i < |data|
      invariant 0 <= i <= |data|
      invariant forall k :: 0 <= k < i ==> enriched[k] == WithAverages(data, k)
      invariant forall k :: i <= k < |data| ==> enriched[k] == data[k]
    {
      enriched[i] := Averaged(enriched[i], wma50[i], wma100[i], sma200[i]);
      i := i + 1;
    }
  }

  /** The second pass: `rsi = rsiValues[i] || 50`. */
  method AttachRsi(data: seq<Candle>, enriched: array<Candle>, rsiValues: seq<real>)
    requires enriched.Length == |data| == |rsiValues|
    requires forall k :: 0 <= k < |data| ==> enriched[k] == WithAverages(data, k)
    requires forall k :: 0 <= k < |data| ==> rsiValues[k] == RsiAt(Closes(data), 14, k)
    modifies enriched
    ensures forall k :: 0 <= k < |data| ==> enriched[k] == WithRsi(data, k)
  {
    var i := 0;
    while i < |data|
      invariant 0 <= i <= |data|
      invariant forall k :: 0 <= k < i ==> enriched[k] == WithRsi(data, k)
      invariant forall k :: i <= k < |data| ==> enriched[k] == WithAverages(data, k)
    {
      enriched[i] := enriched[i].(rsi := Some(if rsiValues[i] != 0.0 then rsiValues[i] else 50.0));
      i := i + 1;
    }
  }

  /** The third pass: classify the trend where `wma50` is truthy and mark a
      change against the trend already written on the previous candle. */
  method AttachTrend(enriched: array<Candle>)
    modifies enriched
    ensures forall k :: 0 <= k < enriched.Length ==> enriched[k] == ClassifiedAt(old(enriched[..]), k)
  {
    ghost var before := enriched[..];
    var i := 0;
    while i < enriched.Length
      invariant 0 <= i <= enriched.Length
      invariant forall k :: 0 <= k < i ==> enriched[k] == ClassifiedAt(before, k)
      invariant forall k :: i <= k < enriched.Length ==> enriched[k] == before[k]
    {
      var d := enriched[i];
      var ma := d.wma50;
      if Truthy(ma) {
        var trend := if d.close >= ma.value then Bull else Bear;
        d := d.(trend := Some(trend));
        if i > 0 && enriched[i - 1].trend.Some? {
          if enriched[i - 1].trend == Some(Bear) && trend == Bull {
            d := d.(trendChange := Some(ToBull));
          } else if enriched[i - 1].trend == Some(Bull) && trend == Bear {
            d := d.(trendChange := Some(ToBear));
          }
        }
        enriched[i] := d;
      }
      i := i + 1;
    }
  }

  // ---------------------------------------------------------------------
  // Properties of the enriched series

  lemma {:induction false} WindowSumPositive(data: seq<real>, lo: nat, hi: nat)
    requires lo < hi <= |data|
    requires forall k :: lo <= k < hi ==> data[k] > 0.0
    ensures WindowSum(data, lo, hi) > 0.0
  {
    if lo + 1 < hi {
      WindowSumPositive(data, lo, hi - 1);
    } else {
      assert WindowSum(data, lo, hi - 1) == 0.0;
    }
  }

  lemma {:induction false} WeightedSumPositive(data: seq<real>, period: nat, i: nat, n: nat)
    requires 1 <= n <= period && n <= i + 1 && i < |data|
    requires forall k :: i + 1 - n <= k <= i ==> data[k] > 0.0
    ensures WeightedSum(data, period, i, n) > 0.0
  {
    var term := data[i - (n - 1)] * ((period - (n - 1)) as real);
    assert term > 0.0;
    if n > 1 {
      WeightedSumPositive(data, period, i, n - 1);
    } else {
      assert WeightedSum(data, period, i, 0) == 0.0;
    }
  }

  /** The averages on an enriched candle are the series values where positive. */
  lemma EnrichedAverages(data: seq<Candle>, i: nat)
    requires i < |data|
    ensures var c, closes := Enrich(data)[i], Closes(data);
      && c.wma50 == Defined(WmaAt(closes, 50, i)) && c.wma100 == Defined(WmaAt(closes, 100, i))
      && c.sma200 == Defined(SmaAt(closes, 200, i)) && c.wma200 == c.sma200
  {
    assert Enrich(data)[i] == Classified(WithRsi(data, i), if i > 0 then TrendOf(WithAverages(data, i - 1)) else None);
  }

  /** Over positive values a WMA entry is positive exactly once its window is full. */
  lemma WmaPositive(data: seq<real>, period: nat, i: nat)
    requires period >= 1 && i < |data|
    requires forall k :: 0 <= k < |data| ==> data[k] > 0.0
    ensures WmaAt(data, period, i) > 0.0 <==> i + 1 >= period
  {
    if i + 1 >= period {
      WeightedSumPositive(data, period, i, period);
      assert WeightTotal(period) > 0.0;
    }
  }

  /** Over positive values an SMA entry is positive exactly once its window is full. */
  lemma SmaPositive(data: seq<real>, period: nat, i: nat)
    requires period >= 1 && i < |data|
    requires forall k :: 0 <= k < |data| ==> data[k] > 0.0
    ensures SmaAt(data, period, i) > 0.0 <==> i + 1 >= period
  {
    if i + 1 >= period {
      WindowSumPositive(data, i + 1 - period, i + 1);
    }
  }

  /** With positive closes the averages are attached exactly from the index
      where their window fills (49, 99 and 199), and `wma200` mirrors `sma200`. */
  lemma AveragesDefinedAfterWarmup(data: seq<Candle>, i: nat)
    requires PositiveCloses(data) && i < |data|
    ensures Enrich(data)[i].wma50.Some? <==> i >= 49
    ensures Enrich(data)[i].wma100.Some? <==> i >= 99
    ensures Enrich(data)[i].sma200.Some? <==> i >= 199
    ensures Enrich(data)[i].wma200 == Enrich(data)[i].sma200
  {
    var closes := Closes(data);
    EnrichedAverages(data, i);
    WmaPositive(closes, 50, i);
    WmaPositive(closes, 100, i);
    SmaPositive(closes, 200, i);
  }

  /** Every enriched candle keeps its market fields and carries an RSI strictly
      between 0 and 100 (a computed 0 having become 50). */
  lemma EnrichedCandleShape(data: seq<Candle>, i: nat)
    requires i < |data|
    ensures var c := Enrich(data)[i];
      && c.time == data[i].time && c.open == data[i].open && c.high == data[i].high
      && c.low == data[i].low && c.close == data[i].close && c.volume == data[i].volume
      && c.rsi.Some? && 0.0 < c.rsi.value < 100.0
  {
    RsiRangeAll(Closes(data), 14, i);
  }

  /** On freshly fetched candles a trend is set exactly where `wma50` is, and it
      is bullish exactly when the close is at or above that average. */
  lemma TrendFollowsWma50(data: seq<Candle>, i: nat)
    requires AllRaw(data) && i < |data|
    ensures var c := Enrich(data)[i];
      && (c.trend.Some? <==> c.wma50.Some?)
      && (c.trend == Some(Bull) <==> c.wma50.Some? && c.close >= c.wma50.value)
  {
    assert IsRaw(data[i]);
  }

  /** On freshly fetched candles a change marker sits exactly where the trend
      flips between two neighbouring candles, pointing to the new trend. */
  lemma TrendChangeMarksFlips(data: seq<Candle>, i: nat)
    requires AllRaw(data) && i < |data|
    ensures i == 0 ==> Enrich(data)[i].trendChange.None?
    ensures i > 0 ==>
      var prev, c := Enrich(data)[i - 1], Enrich(data)[i];
      && (c.trendChange == Some(ToBull) <==> prev.trend == Some(Bear) && c.trend == Some(Bull))
      && (c.trendChange == Some(ToBear) <==> prev.trend == Some(Bull) && c.trend == Some(Bear))
  {
    assert IsRaw(data[i]);
    var c := WithRsi(data, i);
    assert c.trend == None && c.trendChange == None;
    var prevTrend := if i > 0 then TrendOf(WithAverages(data, i - 1)) else None;
    assert Enrich(data)[i] == Classified(c, prevTrend);
    if i > 0 {
      assert IsRaw(data[i - 1]);
      assert Enrich(data)[i - 1].trend == prevTrend;
    }
  }

  /** Enriching an enriched series changes nothing: every derived field is
      recomputed from the closes, which the passes keep. */
  lemma EnrichIdempotent(data: seq<Candle>)
    ensures Enrich(Enrich(data)) == Enrich(data)
  {
    var e := Enrich(data);
    assert Closes(e) == Closes(data);
    forall i | 0 <= i < |e|
      ensures EnrichAt(e, i) == e[i]
    {
      RsiPassOfEnriched(data, e, i);
      if i > 0 {
        RsiPassOfEnriched(data, e, i - 1);
      }
    }
  }

  /** Re-running the first two passes on an enriched candle recomputes the
      same averages and RSI, and keeps the trend fields the third pass set. */
  lemma RsiPassOfEnriched(data: seq<Candle>, e: seq<Candle>, i: nat)
    requires e == Enrich(data) && Closes(e) == Closes(data) && i < |data|
    ensures WithRsi(e, i) == WithRsi(data, i).(trend := e[i].trend, trendChange := e[i].trendChange)
    ensures TrendOf(WithAverages(e, i)) == TrendOf(WithAverages(data, i))
  {
    assert WithAverages(e, i) == WithAverages(data, i).(rsi := e[i].rsi, trend := e[i].trend, trendChange := e[i].trendChange);
  }

  /** A strictly falling series ends with enriched RSI 50 everywhere: the
      computed 0 past the warm-up is replaced by the `|| 50` fallback. */
  lemma FallingSeriesEnrichedRsi(data: seq<Candle>, i: nat)
    requires forall k :: 1 <= k < |data| ==> data[k - 1].close > data[k].close
    requires i < |data|
    ensures Enrich(data)[i].rsi == Some(50.0)
  {
    if i > 14 {
      FallingSeriesRsiZero(Closes(data), 14, i);
    }
  }
}
