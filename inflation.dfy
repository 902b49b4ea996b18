/** The inflation-adjusted tracker: today's price against the 2021 anchor
    price carried forward by the inflation index the commentary reports. */
module InflationTracker {
  import opened Types

  /** The anchor for the selected asset: the BTC field for BTCUSDT, the gold
      field for PAXGUSDT, nothing for any other symbol or without commentary. */
  function AdjustedPrice(symbol: string, analysis: Option<GeminiAnalysis>): (r: Option<real>)
    ensures analysis.None? || (symbol != BTC && symbol != PAXG) ==> r.None?
    ensures analysis.Some? && symbol == BTC ==> r == analysis.value.inflationAdjustedPrice
    ensures analysis.Some? && symbol == PAXG ==> r == analysis.value.inflationAdjustedPriceGold
  {
    if analysis.None? then None
    else if symbol == BTC then analysis.value.inflationAdjustedPrice
    else if symbol == PAXG then analysis.value.inflationAdjustedPriceGold
    else None
  }

  /** The placeholder, or the comparison card with its percentage gap. */
  datatype TrackerView = Placeholder | Comparison(adjusted: real, differencePct: real, isAbove: bool)

  /** The card: a placeholder unless an index is named and the anchor is
      truthy, so the division below never sees 0. */
  function Tracker(analysis: Option<GeminiAnalysis>, currentPrice: real, symbol: string): (r: TrackerView)
    ensures r.Placeholder? <==>
      analysis.None? || !NonEmpty(analysis.value.inflationIndexUsed) || !Truthy(AdjustedPrice(symbol, analysis))
    ensures r.Comparison? ==>
      && r.adjusted == AdjustedPrice(symbol, analysis).value && r.adjusted != 0.0
      && r.differencePct * r.adjusted == (currentPrice - r.adjusted) * 100.0
      && (r.isAbove <==> r.differencePct > 0.0)
  {
    var adjusted := AdjustedPrice(symbol, analysis);
    if analysis.None? || !NonEmpty(analysis.value.inflationIndexUsed) || !Truthy(adjusted) then Placeholder
    else
      var differencePct := ((currentPrice - adjusted.value) / adjusted.value) * 100.0;
      Comparison(adjusted.value, differencePct, differencePct > 0.0)
  }

  /** Against a positive anchor the card reads "gain" exactly when the price
      is above the anchor, and the gap is 0 exactly at the anchor. */
  lemma GainIffAboveAnchor(analysis: Option<GeminiAnalysis>, currentPrice: real, symbol: string)
    requires Tracker(analysis, currentPrice, symbol).Comparison?
    requires Tracker(analysis, currentPrice, symbol).adjusted > 0.0
    ensures var r := Tracker(analysis, currentPrice, symbol);
      (r.isAbove <==> currentPrice > r.adjusted) && (r.differencePct == 0.0 <==> currentPrice == r.adjusted)
  {
    var r := Tracker(analysis, currentPrice, symbol);
    var q := (currentPrice - r.adjusted) / r.adjusted;
    assert q * r.adjusted == currentPrice - r.adjusted;
    if q > 0.0 {
      assert currentPrice - r.adjusted > 0.0;
    } else if q < 0.0 {
      assert currentPrice - r.adjusted < 0.0;
    }
  }
}
