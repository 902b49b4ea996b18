/** The cycle progress card: how far BTC is between two halvings, a fixed
    scarcity reading for gold, and the exchange-reserves colour. */
module CycleProgress {
  import opened Types
  import Text

  /** Estimated April 2028 halving, in epoch milliseconds. */
  const NextHalving: int := 1840000000000
  /** April 2024 halving, in epoch milliseconds. */
  const PrevHalving: int := 1713571200000
  const DayMs: int := 1000 * 60 * 60 * 24

  datatype CycleLabel = HalvingProgress | GoldScarcity | CycleStage

  /** "N days left" for BTC, "P%" otherwise. */
  datatype SubLabel = DaysLeft(days: int) | Percent(value: int)

  datatype CycleStats = CycleStats(progress: real, title: CycleLabel, subLabel: SubLabel)

  /** `Math.min(hi, Math.max(lo, x))` */
  function Clamp(x: real, lo: real, hi: real): (r: real)
    requires lo <= hi
    ensures lo <= r <= hi
    ensures lo <= x <= hi ==> r == x
    ensures x < lo ==> r == lo
    ensures x > hi ==> r == hi
  {
    if x > hi then hi else if x < lo then lo else x
  }

  /** `Math.ceil(a / b)` for a positive divisor. */
  function CeilDiv(a: int, b: int): (r: int)
    requires b > 0
    ensures (r - 1) * b < a <= r * b
  {
    -((-a) / b)
  }

  /** The card's numbers; a missing symbol defaults to BTCUSDT. */
  function Stats(symbol: Option<string>, now: int): (r: CycleStats)
    ensures 0.0 <= r.progress <= 100.0
    ensures symbol.GetOr(BTC) == BTC <==> r.title == HalvingProgress
    ensures symbol.GetOr(BTC) == PAXG <==> r.title == GoldScarcity
    ensures r.title == HalvingProgress ==> r.subLabel.DaysLeft?
    ensures r.title == HalvingProgress ==>
      (r.subLabel.days - 1) * DayMs < NextHalving - now <= r.subLabel.days * DayMs
    ensures r.title == HalvingProgress && PrevHalving <= now <= NextHalving ==>
      r.progress * (NextHalving - PrevHalving) as real == (now - PrevHalving) as real * 100.0
    ensures r.title == GoldScarcity ==> r.progress == 92.0 && r.subLabel == Percent(92)
    ensures r.title == CycleStage ==> r.progress == 50.0 && r.subLabel == Percent(50)
  {
    var sym := symbol.GetOr(BTC);
    if sym == BTC then
      var total := NextHalving - PrevHalving;
      var elapsed := now - PrevHalving;
      var x := (elapsed as real / total as real) * 100.0;
      var progress := Clamp(x, 0.0, 100.0);
      assert PrevHalving <= now <= NextHalving ==> 0.0 <= x <= 100.0 && progress == x;
      CycleStats(progress, HalvingProgress, DaysLeft(CeilDiv(NextHalving - now, DayMs)))
    else if sym == PAXG then CycleStats(92.0, GoldScarcity, Percent(92))
    else CycleStats(50.0, CycleStage, Percent(50))
  }

  /** BTC progress is 0 up to the last halving, 100 from the next one on,
      and never decreases as time passes. */
  lemma HalvingProgressMonotone(now1: int, now2: int)
    requires now1 <= now2
    ensures Stats(Some(BTC), now1).progress <= Stats(Some(BTC), now2).progress
    ensures now1 <= PrevHalving ==> Stats(Some(BTC), now1).progress == 0.0
    ensures now2 >= NextHalving ==> Stats(Some(BTC), now2).progress == 100.0
  {
    var total := (NextHalving - PrevHalving) as real;
    var x1 := ((now1 - PrevHalving) as real / total) * 100.0;
    var x2 := ((now2 - PrevHalving) as real / total) * 100.0;
    assert (now1 - PrevHalving) as real <= (now2 - PrevHalving) as real;
    assert x1 <= x2;
    if now2 >= NextHalving {
      assert (now2 - PrevHalving) as real >= total;
      assert (now2 - PrevHalving) as real / total >= 1.0;
    }
  }

  /** The days left count whole days, rounded up: 0 exactly at the next
      halving, 1 during its last day, negative after it. */
  lemma DaysLeftCountdown(now: int)
    ensures var d := Stats(Some(BTC), now).subLabel.days;
      && (now == NextHalving ==> d == 0)
      && (NextHalving - DayMs <= now < NextHalving ==> d == 1)
      && (now > NextHalving ==> d <= 0)
      && (d <= 0 <==> now >= NextHalving)
  {
  }

  datatype ReservesColor = Red | Blue | Green | Orange

  /** Rank of the first matching phrase group in the lower-cased reserves
      description: extreme scarcity, then low, then high. */
  function ReservesColorOf(reserves: Option<string>): (r: ReservesColor)
    ensures !NonEmpty(reserves) ==> r == Blue
    ensures NonEmpty(reserves) ==>
      var s := Text.ToLower(reserves.value);
      && (r == Red <==> IsExtreme(s))
      && (r == Blue <==> !IsExtreme(s) && IsLow(s))
      && (r == Green <==> !IsExtreme(s) && !IsLow(s) && IsHigh(s))
      && (r == Orange <==> !IsExtreme(s) && !IsLow(s) && !IsHigh(s))
  {
    if !NonEmpty(reserves) then Blue
    else
      var s := Text.ToLower(reserves.value);
      if IsExtreme(s) then Red
      else if IsLow(s) then Blue
      else if IsHigh(s) then Green
      else Orange
  }

  predicate IsExtreme(s: string) {
    Text.Contains(s, "extremamente baixo") || Text.Contains(s, "extremely low")
    || Text.Contains(s, "extremo") || Text.Contains(s, "critically")
  }

  predicate IsLow(s: string) {
    Text.Contains(s, "baixo") || Text.Contains(s, "low") || Text.Contains(s, "niedrig") || Text.Contains(s, "bajo")
  }

  predicate IsHigh(s: string) {
    Text.Contains(s, "alto") || Text.Contains(s, "high") || Text.Contains(s, "hoch")
  }

  /** The colour does not depend on letter case. */
  lemma ReservesColorIgnoresCase(s: string)
    ensures ReservesColorOf(Some(Text.ToLower(s))) == ReservesColorOf(Some(s))
  {
    Text.ToLowerIdempotent(s);
  }

  /** "extremamente baixo" also matches the low group's "baixo": the order of
      the tests is what makes it red. */
  lemma ExtremeShadowsLow(s: string)
    requires Text.Contains(Text.ToLower(s), "extremamente baixo")
    ensures IsLow(Text.ToLower(s))
    ensures ReservesColorOf(Some(s)) == Red
  {
    var t := "extremamente baixo";
    assert t[13..18] == "baixo";
    assert Text.OccursAt(t, "baixo", 13);
    Text.ContainsTransitive(Text.ToLower(s), t, "baixo");
  }
}
