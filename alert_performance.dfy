/** The alert backtester: each user alert is replayed over the enriched
    history, and every trigger is scored by the return four candles later. */
module AlertPerformance {
  import opened Types

  /** Candles between a trigger and the price it is scored against. */
  const Lookahead: nat := 4

  /** The history needed before any statistics are produced. */
  const MinHistory: nat := 10

  /** `candle[\`wma${value}\`]`: only 50, 100 and 200 name a field. */
  function MaField(c: Candle, value: real): (r: Option<real>)
    ensures value == 50.0 ==> r == c.wma50
    ensures value == 100.0 ==> r == c.wma100
    ensures value == 200.0 ==> r == c.wma200
    ensures value != 50.0 && value != 100.0 && value != 200.0 ==> r.None?
  {
    if value == 50.0 then c.wma50
    else if value == 100.0 then c.wma100
    else if value == 200.0 then c.wma200
    else None
  }

  /** Whether `alert` fires at the candle `cur` whose predecessor is `prev`:
      price alerts need a strict cross of the level, average alerts need the
      average truthy on both candles and a strict cross of it. */
  predicate Triggered(alert: UserAlert, prev: Candle, cur: Candle) {
    match alert.condition
    case PriceAbove => cur.close > alert.value && prev.close <= alert.value
    case PriceBelow => cur.close < alert.value && prev.close >= alert.value
    case CrossAboveMa =>
      var ma, prevMa := MaField(cur, alert.value), MaField(prev, alert.value);
      Truthy(ma) && cur.close > ma.value && Truthy(prevMa) && prev.close <= prevMa.value
    case CrossBelowMa =>
      var ma, prevMa := MaField(cur, alert.value), MaField(prev, alert.value);
      Truthy(ma) && cur.close < ma.value && Truthy(prevMa) && prev.close >= prevMa.value
  }

  /** The percentage move from `price` to `later`. */
  function PctChange(price: real, later: real): (r: real)
    requires price > 0.0
    ensures r > 0.0 <==> later > price
    ensures r < 0.0 <==> later < price
  {
    ((later - price) / price) * 100.0
  }

  /** A BUY alert wins on a rise, a SELL alert on a fall; a flat move never wins. */
  predicate Wins(side: Side, pct: real) {
    (side == Long && pct > 0.0) || (side == Short && pct < 0.0)
  }

  /** The loop's counters. */
  datatype Tally = Tally(triggers: nat, totalReturn: real, wins: nat)

  /** The counters after scanning the indices `1 .. n-1`. */
  function TallyTo(alert: UserAlert, data: seq<Candle>, n: nat): (t: Tally)
    requires 1 <= n && n + Lookahead <= |data| && PositiveCloses(data)
    ensures t.wins <= t.triggers <= n - 1
    decreases n
  {
    if n == 1 then Tally(0, 0.0, 0)
    else
      var t := TallyTo(alert, data, n - 1);
      var i := n - 1;
      if Triggered(alert, data[i - 1], data[i]) then
        var pct := PctChange(data[i].close, data[i + Lookahead].close);
        Tally(t.triggers + 1, t.totalReturn + pct, if Wins(alert.side, pct) then t.wins + 1 else t.wins)
      else t
  }

  /** The record built from the counters. */
  function MetricsOf(id: string, t: Tally): (m: AlertPerformanceMetrics)
    requires t.wins <= t.triggers
    ensures m.alertId == id && m.triggerCount == t.triggers
    ensures 0.0 <= m.winRate <= 100.0
    ensures t.triggers == 0 ==> m.avgReturn4W == 0.0 && m.winRate == 0.0
    ensures t.triggers > 0 ==> m.avgReturn4W * (t.triggers as real) == t.totalReturn
    ensures m.winRate == 100.0 <==> t.triggers > 0 && t.wins == t.triggers
    ensures t.triggers > 0 ==> m.winRate * (t.triggers as real) == (t.wins as real) * 100.0
  {
    var avg := if t.triggers > 0 then t.totalReturn / t.triggers as real else 0.0;
    var rate := if t.triggers > 0 then (t.wins as real / t.triggers as real) * 100.0 else 0.0;
    WinRateBounds(t.wins, t.triggers);
    AlertPerformanceMetrics(id, t.triggers, avg, rate)
  }

  lemma WinRateBounds(wins: nat, triggers: nat)
    requires wins <= triggers
    ensures triggers > 0 ==> 0.0 <= (wins as real / triggers as real) * 100.0 <= 100.0
    ensures triggers > 0 ==> ((wins as real / triggers as real) * 100.0 == 100.0 <==> wins == triggers)
    ensures triggers > 0 ==> (wins as real / triggers as real) * 100.0 * (triggers as real) == (wins as real) * 100.0
  {
    if triggers > 0 {
      var q := wins as real / triggers as real;
      assert q * (triggers as real) == wins as real;
      assert q <= 1.0;
    }
  }

  /** The record the backtest yields for one alert. */
  function AlertMetrics(alert: UserAlert, data: seq<Candle>): (m: AlertPerformanceMetrics)
    requires |data| >= MinHistory && PositiveCloses(data)
    ensures m.alertId == alert.id && m.triggerCount <= |data| - 5
    ensures 0.0 <= m.winRate <= 100.0
  {
    MetricsOf(alert.id, TallyTo(alert, data, |data| - Lookahead))
  }

  /** `performanceStats`: nothing below ten candles, else one record per alert. */
  function Stats(alerts: seq<UserAlert>, data: seq<Candle>): (r: seq<AlertPerformanceMetrics>)
    requires PositiveCloses(data)
    ensures |data| < MinHistory ==> r == []
    ensures |data| >= MinHistory ==> |r| == |alerts|
    ensures |data| >= MinHistory ==> forall k :: 0 <= k < |r| ==>
      && r[k].alertId == alerts[k].id
      && r[k].triggerCount <= |data| - 5
      && 0.0 <= r[k].winRate <= 100.0
    ensures |data| >= MinHistory ==> forall k :: 0 <= k < |r| ==> r[k] == AlertMetrics(alerts[k], data)
  {
    if |data| < MinHistory then []
    else seq(|alerts|, k requires 0 <= k < |alerts| => AlertMetrics(alerts[k], data))
  }

  /** The replay of one alert: the `for` loop and its three counters. */
  method BacktestAlert(alert: UserAlert, data: seq<Candle>) returns (m: AlertPerformanceMetrics)
    requires |data| >= MinHistory && PositiveCloses(data)
    ensures m == AlertMetrics(alert, data)
  {
    var triggers: nat := 0;
    var totalReturn := 0.0;
    var wins: nat := 0;
    var i := 1;
    while i < |data| - Lookahead
      invariant 1 <= i <= |data| - Lookahead
      invariant Tally(triggers, totalReturn, wins) == TallyTo(alert, data, i)
    {
      var current := data[i];
      var prev := data[i - 1];
      var price := current.close;
      var isTriggered := false;
      if alert.condition == PriceAbove && price > alert.value && prev.close <= alert.value {
        isTriggered := true;
      } else if alert.condition == PriceBelow && price < alert.value && prev.close >= alert.value {
        isTriggered := true;
      } else if alert.condition == CrossAboveMa {
        var ma, prevMa := MaField(current, alert.value), MaField(prev, alert.value);
        if Truthy(ma) && price > ma.value && Truthy(prevMa) && prev.close <= prevMa.value {
          isTriggered := true;
        }
      } else if alert.condition == CrossBelowMa {
        var ma, prevMa := MaField(current, alert.value), MaField(prev, alert.value);
        if Truthy(ma) && price < ma.value && Truthy(prevMa) && prev.close >= prevMa.value {
          isTriggered := true;
        }
      }
      if isTriggered {
        triggers := triggers + 1;
        var priceLater := data[i + Lookahead].close;
        var pctChange := PctChange(price, priceLater);
        totalReturn := totalReturn + pctChange;
        if alert.side == Long && pctChange > 0.0 {
          wins := wins + 1;
        }
        if alert.side == Short && pctChange < 0.0 {
          wins := wins + 1;
        }
      }
      i := i + 1;
    }
    m := AlertPerformanceMetrics(alert.id, triggers,
      if triggers > 0 then totalReturn / triggers as real else 0.0,
      if triggers > 0 then (wins as real / triggers as real) * 100.0 else 0.0);
  }

  /** The `alerts.map` over the replays. */
  method PerformanceStats(alerts: seq<UserAlert>, data: seq<Candle>) returns (stats: seq<AlertPerformanceMetrics>)
    requires PositiveCloses(data)
    ensures stats == Stats(alerts, data)
  {
    if |data| < MinHistory {
      return [];
    }
    stats := [];
    var k := 0;
    while k < |alerts|
      invariant 0 <= k <= |alerts|
      invariant stats == Stats(alerts, data)[..k]
    {
      var m := BacktestAlert(alerts[k], data);
      stats := stats + [m];
      k := k + 1;
    }
  }

  // ---------------------------------------------------------------------
  // Properties of the replay

  /** The alert's symbol and active flag play no part in its statistics. */
  lemma {:induction false} IgnoresSymbolAndActivity(alert: UserAlert, data: seq<Candle>, n: nat, symbol: string, active: bool)
    requires 1 <= n && n + Lookahead <= |data| && PositiveCloses(data)
    ensures TallyTo(alert.(symbol := symbol, isActive := active), data, n) == TallyTo(alert, data, n)
  {
    if n > 1 {
      IgnoresSymbolAndActivity(alert, data, n - 1, symbol, active);
    }
  }

  /** An average alert whose level is not 50, 100 or 200 names no field and
      never fires. */
  lemma {:induction false} UnknownAverageNeverFires(alert: UserAlert, data: seq<Candle>, n: nat)
    requires 1 <= n && n + Lookahead <= |data| && PositiveCloses(data)
    requires alert.condition == CrossAboveMa || alert.condition == CrossBelowMa
    requires alert.value != 50.0 && alert.value != 100.0 && alert.value != 200.0
    ensures TallyTo(alert, data, n).triggers == 0
  {
    if n > 1 {
      UnknownAverageNeverFires(alert, data, n - 1);
    }
  }

  /** A trigger is a strict move across the level: price alerts fire only on
      a close that moved in their direction, and an alert and its opposite
      never fire on the same pair of candles. */
  lemma TriggerDirection(alert: UserAlert, prev: Candle, cur: Candle)
    ensures alert.condition == PriceAbove && Triggered(alert, prev, cur) ==> prev.close < cur.close
    ensures alert.condition == PriceBelow && Triggered(alert, prev, cur) ==> cur.close < prev.close
    ensures !(Triggered(alert.(condition := PriceAbove), prev, cur) &&
              Triggered(alert.(condition := PriceBelow), prev, cur))
    ensures !(Triggered(alert.(condition := CrossAboveMa), prev, cur) &&
              Triggered(alert.(condition := CrossBelowMa), prev, cur))
    ensures alert.condition in {CrossAboveMa, CrossBelowMa} && Triggered(alert, prev, cur) ==>
      alert.value in {50.0, 100.0, 200.0}
  {
  }

  /** A PRICE_ABOVE alert over a history that never closes at or below its
      level never fires: it needs a strict cross from below. */
  lemma {:induction false} NoCrossNoTrigger(alert: UserAlert, data: seq<Candle>, n: nat)
    requires 1 <= n && n + Lookahead <= |data| && PositiveCloses(data)
    requires alert.condition == PriceAbove
    requires forall k :: 0 <= k < |data| ==> data[k].close > alert.value
    ensures TallyTo(alert, data, n).triggers == 0
  {
    if n > 1 {
      NoCrossNoTrigger(alert, data, n - 1);
    }
  }

  /** A BUY alert at 100 over closes that cross 99 to 101 at index 5 and reach
      110 four candles later: one trigger, a 900/101 % return, all wins. */
  lemma CrossAtFiveScenario()
    ensures var alert := UserAlert("a", BTC, PriceAbove, 100.0, Long, true);
      var data := [RawCandle(0, 99.0, 99.0, 99.0, 99.0, 1.0), RawCandle(1, 99.0, 99.0, 99.0, 99.0, 1.0),
                   RawCandle(2, 99.0, 99.0, 99.0, 99.0, 1.0), RawCandle(3, 99.0, 99.0, 99.0, 99.0, 1.0),
                   RawCandle(4, 99.0, 99.0, 99.0, 99.0, 1.0), RawCandle(5, 99.0, 101.0, 99.0, 101.0, 1.0),
                   RawCandle(6, 101.0, 102.0, 101.0, 102.0, 1.0), RawCandle(7, 102.0, 103.0, 102.0, 103.0, 1.0),
                   RawCandle(8, 103.0, 104.0, 103.0, 104.0, 1.0), RawCandle(9, 104.0, 110.0, 104.0, 110.0, 1.0)];
      PositiveCloses(data) && |data| >= MinHistory &&
      AlertMetrics(alert, data) == AlertPerformanceMetrics("a", 1, 900.0 / 101.0, 100.0)
  {
    var alert := UserAlert("a", BTC, PriceAbove, 100.0, Long, true);
    var data := [RawCandle(0, 99.0, 99.0, 99.0, 99.0, 1.0), RawCandle(1, 99.0, 99.0, 99.0, 99.0, 1.0),
                 RawCandle(2, 99.0, 99.0, 99.0, 99.0, 1.0), RawCandle(3, 99.0, 99.0, 99.0, 99.0, 1.0),
                 RawCandle(4, 99.0, 99.0, 99.0, 99.0, 1.0), RawCandle(5, 99.0, 101.0, 99.0, 101.0, 1.0),
                 RawCandle(6, 101.0, 102.0, 101.0, 102.0, 1.0), RawCandle(7, 102.0, 103.0, 102.0, 103.0, 1.0),
                 RawCandle(8, 103.0, 104.0, 103.0, 104.0, 1.0), RawCandle(9, 104.0, 110.0, 104.0, 110.0, 1.0)];
    assert TallyTo(alert, data, 2) == Tally(0, 0.0, 0);
    assert TallyTo(alert, data, 3) == Tally(0, 0.0, 0);
    assert TallyTo(alert, data, 4) == Tally(0, 0.0, 0);
    assert TallyTo(alert, data, 5) == Tally(0, 0.0, 0);
    assert PctChange(101.0, 110.0) == 900.0 / 101.0;
    assert TallyTo(alert, data, 6) == Tally(1, 900.0 / 101.0, 1);
  }
}
