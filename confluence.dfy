/** The trend confluence scorer: five weighted checks on the last two
    candles, summed into a score out of 100. */
module TrendConfluence {
  import opened Types

  datatype CheckId = PriceAbove50 | RsiAbove50 | RsiNotOverbought | GoldenStructure | HigherHigh

  datatype Check = Check(id: CheckId, status: bool, weight: nat)

  datatype Confluence = Confluence(checks: seq<Check>, score: nat, isBullishAlert: bool, rsi: Option<real>)

  /** The score from which the panel raises a bullish alert. */
  const BullishScore: nat := 75

  /** The five checks, in display order, with their weights. */
  function Checks(current: Candle, prev: Candle): (r: seq<Check>)
    ensures |r| == 5
    ensures r[0].id == PriceAbove50 && r[0].weight == 30
    ensures r[1].id == RsiAbove50 && r[1].weight == 20
    ensures r[2].id == RsiNotOverbought && r[2].weight == 15
    ensures r[3].id == GoldenStructure && r[3].weight == 25
    ensures r[4].id == HigherHigh && r[4].weight == 10
    ensures r[0].status <==> Truthy(current.wma50) && current.close > current.wma50.value
    ensures r[1].status <==> Truthy(current.rsi) && current.rsi.value > 50.0
    ensures r[2].status <==> Truthy(current.rsi) && current.rsi.value < 70.0
    ensures r[3].status <==>
      Truthy(current.wma50) && Truthy(current.wma200) && current.wma50.value > current.wma200.value
    ensures r[4].status <==> current.close > prev.close
  {
    [ Check(PriceAbove50, if Truthy(current.wma50) then current.close > current.wma50.value else false, 30),
      Check(RsiAbove50, if Truthy(current.rsi) then current.rsi.value > 50.0 else false, 20),
      Check(RsiNotOverbought, if Truthy(current.rsi) then current.rsi.value < 70.0 else false, 15),
      Check(GoldenStructure,
            if Truthy(current.wma50) && Truthy(current.wma200) then current.wma50.value > current.wma200.value else false,
            25),
      Check(HigherHigh, current.close > prev.close, 10) ]
  }

  /** Total weight of a list of checks. */
  function TotalWeight(checks: seq<Check>): nat {
    if |checks| == 0 then 0 else TotalWeight(checks[..|checks| - 1]) + checks[|checks| - 1].weight
  }

  /** `checks.reduce((acc, c) => acc + (c.status ? c.weight : 0), 0)` */
  function Score(checks: seq<Check>): (s: nat)
    ensures s <= TotalWeight(checks)
    ensures (forall k :: 0 <= k < |checks| ==> checks[k].weight % 5 == 0) ==> s % 5 == 0
    ensures (forall k :: 0 <= k < |checks| ==> checks[k].status) ==> s == TotalWeight(checks)
  {
    if |checks| == 0 then 0
    else
      var last := checks[|checks| - 1];
      Score(checks[..|checks| - 1]) + (if last.status then last.weight else 0)
  }

  /** `confluence`: null below two candles, otherwise the checks on the last
      two, their score and the bullish flag. */
  function ConfluenceOf(data: seq<Candle>): (r: Option<Confluence>)
    ensures r.None? <==> |data| < 2
    ensures r.Some? ==>
      && r.value.checks == Checks(data[|data| - 1], data[|data| - 2])
      && r.value.score == Score(r.value.checks)
      && r.value.score <= 100 && r.value.score % 5 == 0
      && (r.value.isBullishAlert <==> r.value.score >= BullishScore)
      && r.value.rsi == data[|data| - 1].rsi
  {
    if |data| < 2 then None
    else
      var current, prev := data[|data| - 1], data[|data| - 2];
      var checks := Checks(current, prev);
      FiveChecks(checks);
      assert TotalWeight(checks) == 100;
      assert forall k :: 0 <= k < |checks| ==> checks[k].weight % 5 == 0;
      var score := Score(checks);
      Some(Confluence(checks, score, score >= BullishScore, current.rsi))
  }

  /** Extending a prefix by one check adds its weight to the total, and to
      the score when it passes. */
  lemma PrefixStep(c: seq<Check>, n: nat)
    requires n < |c|
    ensures TotalWeight(c[..n + 1]) == TotalWeight(c[..n]) + c[n].weight
    ensures Score(c[..n + 1]) == Score(c[..n]) + (if c[n].status then c[n].weight else 0)
  {
    assert c[..n + 1][..n] == c[..n];
  }

  /** Score and total of a five-check list, position by position. */
  lemma FiveChecks(c: seq<Check>)
    requires |c| == 5
    ensures TotalWeight(c) == c[0].weight + c[1].weight + c[2].weight + c[3].weight + c[4].weight
    ensures Score(c) ==
      (if c[0].status then c[0].weight else 0) + (if c[1].status then c[1].weight else 0)
      + (if c[2].status then c[2].weight else 0) + (if c[3].status then c[3].weight else 0)
      + (if c[4].status then c[4].weight else 0)
  {
    assert c[..0] == [];
    PrefixStep(c, 0);
    PrefixStep(c, 1);
    PrefixStep(c, 2);
    PrefixStep(c, 3);
    PrefixStep(c, 4);
    assert c[..5] == c;
  }

  /** A bullish alert needs the close strictly above a present wma50 and a
      truthy RSI: without either the other weights reach at most 70. */
  lemma BullishNeedsPriceAndRsi(data: seq<Candle>)
    requires ConfluenceOf(data).Some? && ConfluenceOf(data).value.isBullishAlert
    ensures var c := data[|data| - 1];
      Truthy(c.wma50) && c.close > c.wma50.value && Truthy(c.rsi)
  {
    FiveChecks(Checks(data[|data| - 1], data[|data| - 2]));
  }

  /** wma50 100, wma200 90, close 105, RSI 55 after a close of 100: every
      check passes, the score is 100 and the alert is raised. */
  lemma AllChecksScenario()
    ensures var prev := RawCandle(0, 100.0, 100.0, 100.0, 100.0, 1.0);
      var cur := RawCandle(1, 100.0, 105.0, 100.0, 105.0, 1.0).(
        wma50 := Some(100.0), sma200 := Some(90.0), wma200 := Some(90.0), rsi := Some(55.0));
      ConfluenceOf([prev, cur]).Some? && ConfluenceOf([prev, cur]).value.score == 100
      && ConfluenceOf([prev, cur]).value.isBullishAlert
  {
    var prev := RawCandle(0, 100.0, 100.0, 100.0, 100.0, 1.0);
    var cur := RawCandle(1, 100.0, 105.0, 100.0, 105.0, 1.0).(
      wma50 := Some(100.0), sma200 := Some(90.0), wma200 := Some(90.0), rsi := Some(55.0));
    FiveChecks(Checks(cur, prev));
  }
}
