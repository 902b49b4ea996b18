/** Shared data model of the dashboard: candles, signals, alerts and the
    commentary record, with the JavaScript truthiness rules made explicit. */
module Types {

  datatype Option<T> = None | Some(value: T) {
    /** `x ?? d`, and `x || d` where `x` can never be a falsy value */
    function GetOr(default: T): T {
      match this
      case Some(v) => v
      case None => default
    }
  }

  /** `BULL` / `BEAR` of `CandleData.trend`. */
  datatype Trend = Bull | Bear

  /** `TO_BULL` / `TO_BEAR` of `CandleData.trendChange`. */
  datatype TrendChange = ToBull | ToBear

  /** One OHLCV observation plus the optional derived fields the indicator
      engine attaches. `None` stands for an absent (`undefined` or `null`) field. */
  datatype Candle = Candle(
    time: int,
    open: real,
    high: real,
    low: real,
    close: real,
    volume: real,
    wma50: Option<real>,
    wma100: Option<real>,
    sma200: Option<real>,
    wma200: Option<real>,
    rsi: Option<real>,
    trend: Option<Trend>,
    trendChange: Option<TrendChange>)

  /** A candle as the market-data fetch produces it: no derived field set. */
  function RawCandle(time: int, open: real, high: real, low: real, close: real, volume: real): (c: Candle)
    ensures IsRaw(c) && c.close == close && c.time == time
  {
    Candle(time, open, high, low, close, volume, None, None, None, None, None, None, None)
  }

  predicate IsRaw(c: Candle) {
    c.wma50 == None && c.wma100 == None && c.sma200 == None && c.wma200 == None &&
    c.rsi == None && c.trend == None && c.trendChange == None
  }

  predicate AllRaw(data: seq<Candle>) {
    forall i :: 0 <= i < |data| ==> IsRaw(data[i])
  }

  /** Market prices are positive; the percentage returns divide by a close. */
  predicate PositiveCloses(data: seq<Candle>) {
    forall i :: 0 <= i < |data| ==> data[i].close > 0.0
  }

  /** JavaScript truthiness of an optional number (NaN is not modelled). */
  predicate Truthy(x: Option<real>) {
    x.Some? && x.value != 0.0
  }

  /** `x || d` on an optional number: the fallback replaces absent and 0. */
  function OrElse(x: Option<real>, d: real): (r: real)
    ensures Truthy(x) ==> r == x.value
    ensures !Truthy(x) ==> r == d
  {
    if Truthy(x) then x.value else d
  }

  datatype SignalType = Buy | Sell | Neutral

  /** The alert's direction, `'BUY' | 'SELL'`. */
  datatype Side = Long | Short

  datatype AlertCondition = PriceAbove | PriceBelow | CrossAboveMa | CrossBelowMa

  datatype UserAlert = UserAlert(
    id: string,
    symbol: string,
    condition: AlertCondition,
    value: real,
    side: Side,
    isActive: bool)

  /** `Omit<UserAlert, 'id'>`: what the alert form emits. */
  datatype AlertDraft = AlertDraft(
    symbol: string,
    condition: AlertCondition,
    value: real,
    side: Side,
    isActive: bool)

  datatype AlertPerformanceMetrics = AlertPerformanceMetrics(
    alertId: string,
    triggerCount: nat,
    avgReturn4W: real,
    winRate: real)

  datatype Language = PT | EN | DE | ES

  datatype Category = Crypto | Commodity

  datatype Asset = Asset(symbol: string, name: string, category: Category)

  const BTC: string := "BTCUSDT"
  const PAXG: string := "PAXGUSDT"

  const SupportedAssets: seq<Asset> := [
    Asset(BTC, "Bitcoin", Crypto),
    Asset(PAXG, "Gold", Commodity)
  ]

  datatype BtcGoldStatus = Overvalued | Undervalued | Fair

  /** The commentary record after normalisation (`GeminiAnalysis`). */
  datatype GeminiAnalysis = GeminiAnalysis(
    sentiment: string,
    outlook: string,
    advice: string,
    fearGreedScore: real,
    macroPulse: string,
    probRise: real,
    probFall: real,
    probReversal: real,
    exchangeReserves: Option<string>,
    scarcityStage: Option<string>,
    m2Supply: Option<string>,
    inflationAdjustedPrice: Option<real>,
    inflationAdjustedPriceGold: Option<real>,
    inflationIndexUsed: Option<string>,
    inflationRatio: Option<real>,
    totalMinedBtc: Option<string>,
    btcGoldStatus: Option<BtcGoldStatus>,
    btcGoldDescription: Option<string>)

  /** JavaScript truthiness of an optional string: absent and "" are falsy. */
  predicate NonEmpty(s: Option<string>) {
    s.Some? && s.value != ""
  }
}
