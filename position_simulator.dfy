/** The position simulator: the return since the last time the price touched
    the 200-period floor, applied to a hypothetical long or short stake. */
module PositionSimulator {
  import opened Types
  import Indicators

  /** The history needed before the simulator shows anything. */
  const MinHistory: nat := 52

  /** A candle whose low comes within 5 % above a truthy wma200. */
  predicate TouchesFloor(c: Candle) {
    Truthy(c.wma200) && c.low <= c.wma200.value * 1.05
  }

  /** The last candle touching the floor, searched from the end. */
  function LastFloor(data: seq<Candle>): (r: Option<nat>)
    ensures r.Some? ==> r.value < |data| && TouchesFloor(data[r.value])
    ensures r.Some? ==> forall j :: r.value < j < |data| ==> !TouchesFloor(data[j])
    ensures r.None? ==> forall j :: 0 <= j < |data| ==> !TouchesFloor(data[j])
  {
    if |data| == 0 then None
    else if TouchesFloor(data[|data| - 1]) then Some(|data| - 1)
    else LastFloor(data[..|data| - 1])
  }

  /** The backward `for` loop with `break`; -1 when nothing touches. */
  method LastFloorIndex(data: seq<Candle>) returns (lastFloorIndex: int)
    ensures lastFloorIndex == (if LastFloor(data).Some? then LastFloor(data).value as int else -1)
  {
    lastFloorIndex := -1;
    var i := |data| - 1;
    while i >= 0
      invariant -1 <= i < |data|
      invariant forall j :: i < j < |data| ==> !TouchesFloor(data[j])
      invariant LastFloor(data) == LastFloor(data[..i + 1])
    {
      if TouchesFloor(data[i]) {
        lastFloorIndex := i;
        break;
      }
      assert data[..i + 1][..i] == data[..i];
      i := i - 1;
    }
  }

  datatype FloorStats = FloorStats(floorPrice: real, currentPrice: real, roi: real, weeksAgo: nat)

  /** `stats`: nothing below 52 candles or without a floor touch; otherwise
      the touch candle's close, the latest close and the return between. */
  function Stats(data: seq<Candle>): (r: Option<FloorStats>)
    requires PositiveCloses(data)
    ensures r.Some? <==> |data| >= MinHistory && LastFloor(data).Some?
    ensures r.Some? ==>
      var k := LastFloor(data).value;
      && r.value.floorPrice == data[k].close && r.value.currentPrice == data[|data| - 1].close
      && r.value.weeksAgo == |data| - 1 - k
      && r.value.roi * r.value.floorPrice == (r.value.currentPrice - r.value.floorPrice) * 100.0
      && (r.value.roi > 0.0 <==> r.value.currentPrice > r.value.floorPrice)
      && r.value.roi > -100.0
  {
    if |data| < MinHistory then None
    else
      var floor := LastFloor(data);
      if floor.None? then None
      else
        var floorPrice := data[floor.value].close;
        var currentPrice := data[|data| - 1].close;
        var roi := ((currentPrice - floorPrice) / floorPrice) * 100.0;
        RoiSign(currentPrice, floorPrice);
        RoiAboveTotalLoss(currentPrice, floorPrice);
        Some(FloorStats(floorPrice, currentPrice, roi, |data| - 1 - floor.value))
  }

  lemma RoiSign(current: real, floor: real)
    requires floor > 0.0
    ensures ((current - floor) / floor) * 100.0 > 0.0 <==> current > floor
  {
    var q := (current - floor) / floor;
    assert q * floor == current - floor;
    if q > 0.0 {
      assert current - floor > 0.0;
    }
  }

  /** A positive price can fall by less than 100 %. */
  lemma RoiAboveTotalLoss(current: real, floor: real)
    requires floor > 0.0 && current > 0.0
    ensures ((current - floor) / floor) * 100.0 > -100.0
  {
    var q := (current - floor) / floor;
    assert q * floor == current - floor;
    assert q * floor > -floor;
  }

  /** On freshly enriched positive candles a floor touch can only come from
      index 199 on, where wma200 first exists. */
  lemma FloorNeedsFullAverage(raw: seq<Candle>)
    requires PositiveCloses(raw)
    ensures var floor := LastFloor(Indicators.Enrich(raw));
      floor.Some? ==> floor.value >= 199 && |raw| >= 200
  {
    var floor := LastFloor(Indicators.Enrich(raw));
    if floor.Some? {
      Indicators.AveragesDefinedAfterWarmup(raw, floor.value);
    }
  }

  /** The profit on `investment`: the return for a long stake, its negation
      for a short one. */
  function Pnl(investment: real, side: Side, roi: real): (r: real)
    ensures side == Long ==> r * 100.0 == investment * roi
    ensures side == Short ==> r * 100.0 == -(investment * roi)
  {
    if side == Long then investment * (roi / 100.0) else investment * (-roi / 100.0)
  }

  /** The stake plus its profit: it stays positive as long as the position
      loses less than 100 %, whichever side it is on. */
  function TotalValue(investment: real, side: Side, roi: real): (r: real)
    ensures (r - investment) * 100.0 == (if side == Long then investment * roi else -(investment * roi))
    ensures investment > 0.0 && side == Long && roi > -100.0 ==> r > 0.0
    ensures investment > 0.0 && side == Short && roi < 100.0 ==> r > 0.0
  {
    var pnl := Pnl(investment, side, roi);
    TotalValueSign(investment, side, roi, pnl);
    investment + pnl
  }

  lemma TotalValueSign(investment: real, side: Side, roi: real, pnl: real)
    requires side == Long ==> pnl * 100.0 == investment * roi
    requires side == Short ==> pnl * 100.0 == -(investment * roi)
    ensures investment > 0.0 && side == Long && roi > -100.0 ==> investment + pnl > 0.0
    ensures investment > 0.0 && side == Short && roi < 100.0 ==> investment + pnl > 0.0
  {
    if investment > 0.0 && side == Long && roi > -100.0 {
      assert investment * roi > investment * -100.0;
    }
    if investment > 0.0 && side == Short && roi < 100.0 {
      assert investment * roi < investment * 100.0;
    }
  }

  /** Long and short stakes mirror each other: their profits cancel, so the
      two total values add up to twice the stake. */
  lemma LongShortMirror(investment: real, roi: real)
    ensures Pnl(investment, Long, roi) + Pnl(investment, Short, roi) == 0.0
    ensures TotalValue(investment, Long, roi) + TotalValue(investment, Short, roi) == 2.0 * investment
    ensures investment > 0.0 ==> (Pnl(investment, Long, roi) > 0.0 <==> roi > 0.0)
  {
    assert investment * (-roi / 100.0) == -(investment * (roi / 100.0));
    if investment > 0.0 && roi <= 0.0 {
      assert investment * (roi / 100.0) <= 0.0;
    }
  }

  /** What the card shows. */
  datatype SimulationView = SimulationView(stats: FloorStats, pnl: real, totalValue: real)

  /** A value the investment slider can produce: 100 to 10000 in steps of 100. */
  predicate SliderValue(v: int) {
    100 <= v <= 10000 && v % 100 == 0
  }

  /** The simulator's state: the stake and the side. */
  class Simulator {
    var investment: int
    var side: Side

    predicate Valid()
      reads this
    {
      SliderValue(investment)
    }

    /** $1000, long. */
    constructor ()
      ensures Valid() && investment == 1000 && side == Long
    {
      investment := 1000;
      side := Long;
    }

    method SetInvestment(v: int)
      requires SliderValue(v)
      modifies this`investment
      ensures Valid() && investment == v
    {
      investment := v;
    }

    method SetSide(s: Side)
      modifies this`side
      ensures side == s
    {
      side := s;
    }

    /** The card for `data` under the current stake and side. */
    method Simulate(data: seq<Candle>) returns (view: Option<SimulationView>)
      requires Valid() && PositiveCloses(data)
      ensures view.None? <==> Stats(data).None?
      ensures view.Some? ==>
        && view.value.stats == Stats(data).value
        && view.value.pnl == Pnl(investment as real, side, view.value.stats.roi)
        && view.value.totalValue == TotalValue(investment as real, side, view.value.stats.roi)
      ensures view.Some? && side == Long ==> view.value.totalValue > 0.0
    {
      if |data| < MinHistory {
        return None;
      }
      var lastFloorIndex := LastFloorIndex(data);
      if lastFloorIndex == -1 {
        return None;
      }
      var floorPrice := data[lastFloorIndex].close;
      var currentPrice := data[|data| - 1].close;
      var roi := ((currentPrice - floorPrice) / floorPrice) * 100.0;
      var stats := FloorStats(floorPrice, currentPrice, roi, |data| - 1 - lastFloorIndex);
      var pnl := Pnl(investment as real, side, roi);
      assert stats == Stats(data).value;
      view := Some(SimulationView(stats, pnl, TotalValue(investment as real, side, roi)));
    }
  }
}
