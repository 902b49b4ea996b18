/** The chart section: candles become timeline points, and a brush window
    of at most 150 points selects what the main chart shows. */
module ChartSection {
  import opened Types
  import Indicators

  /** How many points the brush shows after a reset. */
  const BrushWidth: nat := 150

  /** One row of `fullTimelineData`. */
  datatype TimelinePoint = TimelinePoint(
    date: int,
    open: real,
    high: real,
    low: real,
    close: real,
    volume: real,
    wma50: Option<real>,
    wma100: Option<real>,
    wma200: Option<real>,
    rsi: Option<real>,
    candleBody: (real, real),
    candleWick: (real, real),
    changeMarker: Option<real>,
    changeType: Option<TrendChange>)

  /** One candle as a point: the marker sits on the close where the trend changed. */
  function Point(d: Candle): (p: TimelinePoint)
    ensures p.date == d.time && p.open == d.open && p.high == d.high && p.low == d.low
    ensures p.close == d.close && p.volume == d.volume
    ensures p.wma50 == d.wma50 && p.wma100 == d.wma100 && p.wma200 == d.wma200 && p.rsi == d.rsi
    ensures p.candleBody == (d.open, d.close) && p.candleWick == (d.low, d.high)
    ensures p.changeMarker.Some? <==> d.trendChange.Some?
    ensures p.changeMarker.Some? ==> p.changeMarker.value == d.close
    ensures p.changeType == d.trendChange
  {
    TimelinePoint(d.time, d.open, d.high, d.low, d.close, d.volume, d.wma50, d.wma100, d.wma200, d.rsi,
      (d.open, d.close), (d.low, d.high), if d.trendChange.Some? then Some(d.close) else None, d.trendChange)
  }

  /** `data.map(...)`: one point per candle, in order. */
  function Timeline(data: seq<Candle>): (r: seq<TimelinePoint>)
    ensures |r| == |data|
    ensures forall i :: 0 <= i < |data| ==> r[i] == Point(data[i])
  {
    seq(|data|, i requires 0 <= i < |data| => Point(data[i]))
  }

  /** On freshly enriched candles the markers sit exactly on the candles
      where the trend flips between two defined values. */
  lemma MarkersOnFlips(raw: seq<Candle>, i: nat)
    requires AllRaw(raw) && 0 < i < |raw|
    ensures var e := Indicators.Enrich(raw);
      Timeline(e)[i].changeMarker.Some? <==>
        e[i - 1].trend.Some? && e[i].trend.Some? && e[i - 1].trend != e[i].trend
  {
    Indicators.TrendChangeMarksFlips(raw, i);
  }

  /** JavaScript `Array.prototype.slice(start, end)`: negative positions
      count from the end, and both are clamped to the array. */
  function JsSlice<T>(s: seq<T>, start: int, end: int): (r: seq<T>)
    ensures 0 <= start <= end <= |s| ==> r == s[start..end]
    ensures |r| <= |s|
  {
    var n := |s|;
    var lo := if start < 0 then (if n + start > 0 then n + start else 0) else (if start < n then start else n);
    var hi := if end < 0 then (if n + end > 0 then n + end else 0) else (if end < n then end else n);
    if lo >= hi then [] else s[lo..hi]
  }

  /** The brush's start and end indices (both inclusive). */
  datatype Brush = Brush(start: int, end: int)

  /** The reset effect: the last 150 points, or all of them. */
  function ResetBrush(n: nat): (b: Brush)
    requires n > 0
    ensures 0 <= b.start <= b.end == n - 1
    ensures b.end - b.start + 1 == (if n < BrushWidth then n else BrushWidth)
  {
    Brush(if n > BrushWidth then n - BrushWidth else 0, n - 1)
  }

  /** `visibleData`: the brushed points, nothing for an empty timeline. */
  function Visible(timeline: seq<TimelinePoint>, brush: Brush): (r: seq<TimelinePoint>)
    ensures |timeline| == 0 ==> r == []
    ensures 0 <= brush.start <= brush.end < |timeline| ==> r == timeline[brush.start..brush.end + 1]
    ensures |r| <= |timeline|
  {
    if |timeline| == 0 then [] else JsSlice(timeline, brush.start, brush.end + 1)
  }

  /** After a reset the chart shows the last min(n, 150) points, ending with
      the latest one. */
  lemma VisibleAfterReset(timeline: seq<TimelinePoint>)
    requires |timeline| > 0
    ensures var v := Visible(timeline, ResetBrush(|timeline|));
      && |v| == (if |timeline| < BrushWidth then |timeline| else BrushWidth)
      && v == timeline[|timeline| - |v|..]
      && v[|v| - 1] == timeline[|timeline| - 1]
  {
  }

  /** `{ start: e.startIndex || 0, end: e.endIndex || 0 }` */
  function BrushFromChange(startIndex: Option<int>, endIndex: Option<int>): (b: Brush)
    ensures b.start == (if startIndex.Some? then startIndex.value else 0)
    ensures b.end == (if endIndex.Some? then endIndex.value else 0)
  {
    Brush(startIndex.GetOr(0), endIndex.GetOr(0))
  }

  /** A change event without an end index leaves at most the first point. */
  lemma MissingEndShowsOnePoint(timeline: seq<TimelinePoint>, startIndex: Option<int>)
    requires |timeline| > 0
    requires startIndex.None? || startIndex.value >= 0
    ensures |Visible(timeline, BrushFromChange(startIndex, None))| <= 1
  {
  }

  datatype IntervalLabel = Day | Week | Month

  /** The tooltip's interval label: anything but "1d" and "1w" reads month. */
  function IntervalLabelOf(interval: string): (r: IntervalLabel)
    ensures r == Day <==> interval == "1d"
    ensures r == Week <==> interval == "1w"
  {
    if interval == "1d" then Day else if interval == "1w" then Week else Month
  }

  datatype CandleColour = Green | Red

  /** A candle is green when it closed at or above its open. */
  function CandleColourOf(p: TimelinePoint): (c: CandleColour)
    ensures c == Green <==> p.close >= p.open
  {
    if p.close >= p.open then Green else Red
  }

  /** The text `formatPrice` produces: dashes for a falsy value, otherwise the
      value with no decimals above 1000 and two decimals up to it. */
  datatype PriceText = Dashes | Digits(value: real, fractionDigits: nat)

  function FormatPrice(val: real): (r: PriceText)
    ensures r == Dashes <==> val == 0.0
    ensures r.Digits? ==> r.value == val && (r.fractionDigits == 0 <==> val > 1000.0)
  {
    if val == 0.0 then Dashes else Digits(val, if val > 1000.0 then 0 else 2)
  }

  /** The chart's state: the timeline of the last render, the symbol, and
      the brush indices. */
  class ChartView {
    var timeline: seq<TimelinePoint>
    var symbol: string
    var brush: Brush

    constructor (symbol: string)
      ensures timeline == [] && this.symbol == symbol && brush == Brush(0, 0)
    {
      timeline := [];
      this.symbol := symbol;
      brush := Brush(0, 0);
    }

    /** A render with new data and symbol. The reset effect runs only when
        the timeline length or the symbol changed, and only on a non-empty
        timeline. */
    method Render(data: seq<Candle>, newSymbol: string)
      modifies this
      ensures timeline == Timeline(data) && symbol == newSymbol
      ensures (|data| != |old(timeline)| || newSymbol != old(symbol)) && |data| > 0 ==>
        brush == ResetBrush(|data|)
      ensures !((|data| != |old(timeline)| || newSymbol != old(symbol)) && |data| > 0) ==>
        brush == old(brush)
    {
      var changed := |data| != |timeline| || newSymbol != symbol;
      timeline := Timeline(data);
      symbol := newSymbol;
      if changed && |timeline| > 0 {
        brush := ResetBrush(|timeline|);
      }
    }

    /** The Brush `onChange` handler. */
    method BrushChanged(startIndex: Option<int>, endIndex: Option<int>)
      modifies this`brush
      ensures brush == BrushFromChange(startIndex, endIndex)
    {
      brush := BrushFromChange(startIndex, endIndex);
    }

    /** The points the main chart shows: the inclusive brushed range when
        the brush lies within the timeline. */
    function VisibleData(): (r: seq<TimelinePoint>)
      reads this
      ensures 0 <= brush.start <= brush.end < |timeline| ==> r == timeline[brush.start..brush.end + 1]
      ensures |r| <= |timeline|
    {
      Visible(timeline, brush)
    }
  }
}
