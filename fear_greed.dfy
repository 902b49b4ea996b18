/** The fear and greed gauge: a band label, the needle angle and five tick
    marks for a score on the 0..100 scale. */
module FearGreedGauge {

  datatype Band = ExtremeFear | Fear | NeutralBand | Greed | ExtremeGreed

  /** Position of a band from fear to greed. */
  function Rank(b: Band): nat {
    match b
    case ExtremeFear => 0
    case Fear => 1
    case NeutralBand => 2
    case Greed => 3
    case ExtremeGreed => 4
  }

  /** `getLabel`: upper bounds 25, 45, 55 and 75, each inclusive. */
  function Label(score: real): (b: Band)
    ensures b == ExtremeFear <==> score <= 25.0
    ensures b == ExtremeGreed <==> score > 75.0
    ensures b == NeutralBand <==> 45.0 < score <= 55.0
  {
    if score <= 25.0 then ExtremeFear
    else if score <= 45.0 then Fear
    else if score <= 55.0 then NeutralBand
    else if score <= 75.0 then Greed
    else ExtremeGreed
  }

  /** A higher score never gets a more fearful band. */
  lemma LabelMonotone(s1: real, s2: real)
    requires s1 <= s2
    ensures Rank(Label(s1)) <= Rank(Label(s2))
  {
  }

  /** The needle angle in degrees. */
  function Rotation(score: real): (r: real)
    ensures score == 0.0 ==> r == -90.0
    ensures score == 50.0 ==> r == 0.0
    ensures score == 100.0 ==> r == 90.0
  {
    (score / 100.0) * 180.0 - 90.0
  }

  /** The needle turns with the score and stays on the dial for scores on
      the 0..100 scale. */
  lemma RotationMonotone(s1: real, s2: real)
    requires s1 < s2
    ensures Rotation(s1) < Rotation(s2)
    ensures 0.0 <= s1 <= 100.0 ==> -90.0 <= Rotation(s1) <= 90.0
  {
    assert s1 / 100.0 < s2 / 100.0;
  }

  const TickMarks: seq<real> := [0.0, 25.0, 50.0, 75.0, 100.0]

  /** Which tick marks are lit: those at or below the score. */
  function LitTicks(score: real): (r: seq<bool>)
    ensures |r| == |TickMarks|
    ensures forall k :: 0 <= k < |r| ==> (r[k] <==> score >= TickMarks[k])
  {
    seq(|TickMarks|, k requires 0 <= k < |TickMarks| => score >= TickMarks[k])
  }

  /** The lit marks form a prefix: a lit mark has every lower mark lit. */
  lemma LitTicksArePrefix(score: real, j: nat, k: nat)
    requires j <= k < |TickMarks|
    requires LitTicks(score)[k]
    ensures LitTicks(score)[j]
  {
  }

  datatype Header = Header(title: HeaderTitle, caption: HeaderCaption)
  datatype HeaderTitle = TechSentiment | MarketSentiment
  datatype HeaderCaption = CalculatedIndicators | AiSync

  /** While the commentary loads the gauge reads "technical sentiment, from
      indicators"; afterwards "market sentiment, AI sync". */
  function HeaderFor(isAILoading: bool): (h: Header)
    ensures h.title == TechSentiment <==> isAILoading
    ensures h.caption == CalculatedIndicators <==> isAILoading
  {
    if isAILoading then Header(TechSentiment, CalculatedIndicators) else Header(MarketSentiment, AiSync)
  }
}
