/** The simplified ("easy") dashboard: the prediction bars, the AI outlook,
    the plain-language recommendation and the inflation-adjusted anchor. */
module SimplifiedDashboard {
  import opened Types
  import Text
  import App
  import InflationTracker

  /** `Math.min(100, Math.max(0, value))` */
  function ClampPrediction(value: real): (r: real)
    ensures 0.0 <= r <= 100.0
    ensures 0.0 <= value <= 100.0 ==> r == value
    ensures value < 0.0 ==> r == 0.0
    ensures value > 100.0 ==> r == 100.0
  {
    if value > 100.0 then 100.0 else if value < 0.0 then 0.0 else value
  }

  /** A reversal bar, recognised in English or Portuguese in any case. */
  predicate IsReversalLabel(caption: string) {
    var l := Text.ToLower(caption);
    Text.Contains(l, "reversal") || Text.Contains(l, "reversão")
  }

  /** `shouldAlert`: a reversal bar whose clamped value exceeds 60. */
  predicate ShouldAlert(caption: string, value: real) {
    IsReversalLabel(caption) && ClampPrediction(value) > 60.0
  }

  /** The alert ignores letter case and fires on a reversal bar exactly when
      the raw value exceeds 60, however far above 100 it goes. */
  lemma ShouldAlertThreshold(caption: string, value: real)
    ensures ShouldAlert(Text.ToLower(caption), value) == ShouldAlert(caption, value)
    ensures IsReversalLabel(caption) ==> (ShouldAlert(caption, value) <==> value > 60.0)
  {
    Text.ToLowerIdempotent(caption);
  }

  datatype Outlook = Reversal | Bullish | Bearish | Sideways

  /** `aiOutlook`: none without commentary; reversal first, then a dominant
      rise or fall above 60, otherwise sideways. */
  function AiOutlook(analysis: Option<GeminiAnalysis>): (r: Option<Outlook>)
    ensures r.None? <==> analysis.None?
    ensures r.Some? ==>
      var a := analysis.value;
      && (r.value == Reversal <==> a.probReversal > 60.0)
      && (r.value == Bullish <==> a.probReversal <= 60.0 && a.probRise > 60.0 && a.probRise > a.probFall)
      && (r.value == Bearish <==>
            a.probReversal <= 60.0 && a.probFall > 60.0 && a.probFall > a.probRise)
  {
    if analysis.None? then None
    else
      var a := analysis.value;
      if a.probReversal > 60.0 then Some(Reversal)
      else if a.probRise > 60.0 && a.probRise > a.probFall then Some(Bullish)
      else if a.probFall > 60.0 && a.probFall > a.probRise then Some(Bearish)
      else Some(Sideways)
  }

  /** The confidence shown beside the outlook: the largest probability. */
  function OutlookConfidence(a: GeminiAnalysis): (r: real)
    ensures r >= a.probRise && r >= a.probFall && r >= a.probReversal
    ensures r == a.probRise || r == a.probFall || r == a.probReversal
  {
    var m := if a.probRise >= a.probFall then a.probRise else a.probFall;
    if m >= a.probReversal then m else a.probReversal
  }

  /** Any outlook other than sideways is shown with a confidence above 60;
      with every probability at most 60 the outlook is sideways. */
  lemma DecidedOutlookIsConfident(a: GeminiAnalysis)
    ensures AiOutlook(Some(a)) != Some(Sideways) ==> OutlookConfidence(a) > 60.0
    ensures OutlookConfidence(a) <= 60.0 ==> AiOutlook(Some(a)) == Some(Sideways)
  {
  }

  datatype Recommendation = RecommendBuy | RecommendSell | RecommendHodl | RecommendNeutral

  /** `getRecommendation` on the latest candle, with `rsi || 50`. */
  function Recommend(data: seq<Candle>): (r: Recommendation)
    ensures |data| == 0 ==> r == RecommendNeutral
    ensures |data| > 0 ==>
      var c := data[|data| - 1];
      var rsi := OrElse(c.rsi, 50.0);
      var cheap := (Truthy(c.sma200) && c.close <= c.sma200.value * 1.05) || rsi < 35.0;
      && (r == RecommendBuy <==> cheap)
      && (r == RecommendSell <==> !cheap && rsi > 70.0)
      && (r == RecommendHodl <==> !cheap && rsi <= 70.0 && c.trend == Some(Bull))
  {
    if |data| == 0 then RecommendNeutral
    else
      var latest := data[|data| - 1];
      var rsi := OrElse(latest.rsi, 50.0);
      var isUndervalued := (Truthy(latest.sma200) && latest.close <= latest.sma200.value * 1.05) || rsi < 35.0;
      var isOverbought := rsi > 70.0;
      if isUndervalued then RecommendBuy
      else if isOverbought then RecommendSell
      else if latest.trend == Some(Bull) then RecommendHodl
      else RecommendNeutral
  }

  /** When the system signal reports a close below a positive sma200, the
      simple view recommends buying too; a missing RSI never sells. */
  lemma RecommendationFollowsFloorSignal(data: seq<Candle>)
    requires |data| > 0
    ensures var c := data[|data| - 1];
      (App.SystemSignalRule(data) == Some(App.MarketSignal(Buy, App.HistoricOpportunity)) && c.sma200.value > 0.0)
      ==> Recommend(data) == RecommendBuy
    ensures !Truthy(data[|data| - 1].rsi) ==> Recommend(data) != RecommendSell
  {
    var c := data[|data| - 1];
    if App.SystemSignalRule(data) == Some(App.MarketSignal(Buy, App.HistoricOpportunity)) && c.sma200.value > 0.0 {
      assert c.sma200.value <= c.sma200.value * 1.05;
    }
  }

  /** The fixed confidence of the headline card: 85 in a bull trend, else 72. */
  function HeadlineConfidence(data: seq<Candle>): (r: real)
    ensures r == 85.0 <==> |data| > 0 && data[|data| - 1].trend == Some(Bull)
    ensures r == 85.0 || r == 72.0
  {
    if |data| > 0 && data[|data| - 1].trend == Some(Bull) then 85.0 else 72.0
  }

  /** The anchor price shown on this view; a missing symbol selects none. */
  function AdjustedPrice(symbol: Option<string>, analysis: Option<GeminiAnalysis>): (r: Option<real>)
    ensures symbol.None? ==> r.None?
    ensures symbol.Some? ==> r == InflationTracker.AdjustedPrice(symbol.value, analysis)
  {
    InflationTracker.AdjustedPrice(symbol.GetOr(""), analysis)
  }
}
