/** The macro valuation panel: the latest candle judged against its
    200-period floor, its 50-period extension and its RSI. */
module MacroValuation {
  import opened Types
  import Indicators

  /** What the panel shows: the loading placeholder, the "calculating" card,
      or the two flags (equilibrium when neither is set). */
  datatype Panel = Placeholder | Calculating | Verdict(isUndervalued: bool, isOverbought: bool)

  /** The readiness test is on absence (`!== undefined`), not truthiness. */
  predicate IsDataReady(c: Candle) {
    c.wma50.Some? && c.wma200.Some? && c.rsi.Some?
  }

  function Valuation(data: seq<Candle>): (r: Panel)
    ensures r == Placeholder <==> |data| == 0
    ensures r == Calculating <==> |data| > 0 && !IsDataReady(data[|data| - 1])
    ensures r.Verdict? ==>
      var c := data[|data| - 1];
      && (r.isUndervalued <==> c.close <= c.wma200.value * 1.03 || c.rsi.value < 32.0)
      && (r.isOverbought <==> c.rsi.value > 72.0 || c.close > c.wma50.value * 1.8)
  {
    if |data| == 0 then Placeholder
    else
      var latest := data[|data| - 1];
      if !IsDataReady(latest) then Calculating
      else
        var isNearFloor := latest.close <= latest.wma200.value * 1.03;
        var isOversold := latest.rsi.value < 32.0;
        var isExtremeRsi := latest.rsi.value > 72.0;
        var isParabolic := latest.close > latest.wma50.value * 1.8;
        Verdict(isNearFloor || isOversold, isExtremeRsi || isParabolic)
  }

  /** The neutral "equilibrium" card. */
  predicate ShowsEquilibrium(p: Panel) {
    p.Verdict? && !p.isUndervalued && !p.isOverbought
  }

  /** Equilibrium is shown exactly when the data is ready and the close lies
      strictly between 1.03 x wma200 and 1.8 x wma50 with RSI in [32, 72]. */
  lemma EquilibriumBand(data: seq<Candle>)
    requires |data| > 0
    ensures var c := data[|data| - 1];
      ShowsEquilibrium(Valuation(data)) <==>
        IsDataReady(c) && c.wma200.value * 1.03 < c.close <= c.wma50.value * 1.8
        && 32.0 <= c.rsi.value <= 72.0
  {
  }

  /** Both cards can show at once: a close near the floor yet far above wma50. */
  lemma BothFlagsPossible()
    ensures Valuation([RawCandle(0, 300.0, 300.0, 300.0, 300.0, 1.0).(
      wma50 := Some(100.0), wma200 := Some(1000.0), rsi := Some(50.0))]) == Verdict(true, true)
  {
  }

  /** A close of 300000 against wma200 205000 is 46 % off the floor band, yet
      an RSI of 25 alone makes it undervalued; nothing is overbought. */
  lemma OversoldScenario()
    ensures Valuation([RawCandle(0, 300000.0, 300000.0, 300000.0, 300000.0, 1.0).(
      wma50 := Some(200000.0), sma200 := Some(205000.0), wma200 := Some(205000.0), rsi := Some(25.0))])
      == Verdict(true, false)
  {
  }

  /** On freshly enriched positive candles the verdict appears exactly once
      200 candles exist; a shorter history stays on "calculating". */
  lemma ReadyAfterTwoHundred(raw: seq<Candle>)
    requires PositiveCloses(raw) && |raw| > 0
    ensures Valuation(Indicators.Enrich(raw)).Verdict? <==> |raw| >= 200
  {
    Indicators.AveragesDefinedAfterWarmup(raw, |raw| - 1);
    Indicators.EnrichedCandleShape(raw, |raw| - 1);
  }
}
