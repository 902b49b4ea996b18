/** The commentary service's own logic: the API-key guard and the
    normalisation of the four scores in the parsed reply. The request to the
    language model and the parsing of its JSON are not part of this model;
    their outcome is a parameter. */
module GeminiService {
  import opened Types

  /** `Math.round`: halves round up. */
  function Round(x: real): (r: int)
    ensures (r as real) - 0.5 <= x < (r as real) + 0.5
  {
    (x + 0.5).Floor
  }

  /** `normalize`: a non-number (`None`) becomes 0; a value in (0, 1] is read
      as a fraction and scaled to a percentage; anything else is rounded. */
  function Normalize(v: Option<real>): (r: int)
    ensures v.None? ==> r == 0
    ensures v.Some? && 0.0 < v.value <= 1.0 ==> r == Round(v.value * 100.0)
    ensures v.Some? && !(0.0 < v.value <= 1.0) ==> r == Round(v.value)
  {
    match v
    case None => 0
    case Some(n) => if 0.0 < n && n <= 1.0 then Round(n * 100.0) else Round(n)
  }

  /** Scores given on the 0..100 scale, as fractions or as percentages, stay
      on it; 0 stays 0 and integers above 1 are kept. */
  lemma NormalizeRange(n: real)
    ensures 0.0 <= n <= 100.0 ==> 0 <= Normalize(Some(n)) <= 100
    ensures Normalize(Some(0.0)) == 0
    ensures n.Floor as real == n && n > 1.0 ==> Normalize(Some(n)) == n.Floor
  {
    if 0.0 < n <= 1.0 {
      RoundBounds(n * 100.0, 0, 100);
    } else if 0.0 <= n <= 100.0 {
      RoundBounds(n, 0, 100);
    }
  }

  /** Rounding keeps a value between two integer bounds. */
  lemma RoundBounds(x: real, lo: int, hi: int)
    requires lo as real <= x <= hi as real
    ensures lo <= Round(x) <= hi
  {
  }

  /** A reply of 1 means 100 %, while 0.01 means 1 %, and normalising that 1
      again would give 100: the rule is not idempotent. */
  lemma NormalizeAmbiguity()
    ensures Normalize(Some(1.0)) == 100
    ensures Normalize(Some(0.01)) == 1
    ensures Normalize(Some(Normalize(Some(0.01)) as real)) == 100
  {
    assert Round(100.0) == 100;
    assert Round(1.0) == 1;
  }

  /** The reply as parsed, before normalisation: the four scores are
      whatever `parseFloat` makes of them (`None` for NaN). */
  datatype ParsedReply = ParsedReply(
    sentiment: string,
    outlook: string,
    advice: string,
    fearGreedScore: Option<real>,
    macroPulse: string,
    probRise: Option<real>,
    probFall: Option<real>,
    probReversal: Option<real>,
    exchangeReserves: Option<string>,
    scarcityStage: Option<string>,
    m2Supply: Option<string>,
    inflationAdjustedPrice: Option<real>,
    inflationAdjustedPriceGold: Option<real>,
    inflationIndexUsed: Option<string>,
    inflationRatio: Option<real>,
    totalMinedBtc: Option<string>,
    btcGoldStatus: Option<BtcGoldStatus>,
    btcGoldDescription: Option<string>)

  /** `{...parsed, probRise: normalize(..), ...}` */
  function Normalized(p: ParsedReply): (a: GeminiAnalysis)
    ensures a.probRise == Normalize(p.probRise) as real && a.probFall == Normalize(p.probFall) as real
    ensures a.probReversal == Normalize(p.probReversal) as real
    ensures a.fearGreedScore == Normalize(p.fearGreedScore) as real
    ensures a.sentiment == p.sentiment && a.outlook == p.outlook && a.advice == p.advice
    ensures a.macroPulse == p.macroPulse && a.exchangeReserves == p.exchangeReserves
    ensures a.scarcityStage == p.scarcityStage && a.m2Supply == p.m2Supply
    ensures a.inflationAdjustedPrice == p.inflationAdjustedPrice
    ensures a.inflationAdjustedPriceGold == p.inflationAdjustedPriceGold
    ensures a.inflationIndexUsed == p.inflationIndexUsed && a.inflationRatio == p.inflationRatio
    ensures a.totalMinedBtc == p.totalMinedBtc
    ensures a.btcGoldStatus == p.btcGoldStatus && a.btcGoldDescription == p.btcGoldDescription
  {
    GeminiAnalysis(p.sentiment, p.outlook, p.advice, Normalize(p.fearGreedScore) as real, p.macroPulse,
      Normalize(p.probRise) as real, Normalize(p.probFall) as real, Normalize(p.probReversal) as real,
      p.exchangeReserves, p.scarcityStage, p.m2Supply, p.inflationAdjustedPrice, p.inflationAdjustedPriceGold,
      p.inflationIndexUsed, p.inflationRatio, p.totalMinedBtc, p.btcGoldStatus, p.btcGoldDescription)
  }

  /** Two replies agree on every field other than the four scores. */
  predicate SameNonScores(p: ParsedReply, q: ParsedReply) {
    && p.sentiment == q.sentiment && p.outlook == q.outlook && p.advice == q.advice
    && p.macroPulse == q.macroPulse && p.exchangeReserves == q.exchangeReserves
    && p.scarcityStage == q.scarcityStage && p.m2Supply == q.m2Supply
    && p.inflationAdjustedPrice == q.inflationAdjustedPrice
    && p.inflationAdjustedPriceGold == q.inflationAdjustedPriceGold
    && p.inflationIndexUsed == q.inflationIndexUsed && p.inflationRatio == q.inflationRatio
    && p.totalMinedBtc == q.totalMinedBtc
    && p.btcGoldStatus == q.btcGoldStatus && p.btcGoldDescription == q.btcGoldDescription
  }

  /** Two replies normalise alike exactly when they agree on every field
      other than the scores and their scores normalise alike: raw scores such
      as 0.5 and 50 become indistinguishable, nothing else does. */
  lemma NormalizedAlike(p: ParsedReply, q: ParsedReply)
    ensures Normalized(p) == Normalized(q) <==>
      && SameNonScores(p, q)
      && Normalize(p.fearGreedScore) == Normalize(q.fearGreedScore)
      && Normalize(p.probRise) == Normalize(q.probRise)
      && Normalize(p.probFall) == Normalize(q.probFall)
      && Normalize(p.probReversal) == Normalize(q.probReversal)
  {
    var a, b := Normalized(p), Normalized(q);
    if a == b {
      assert a.fearGreedScore == b.fearGreedScore && a.probRise == b.probRise;
      assert a.probFall == b.probFall && a.probReversal == b.probReversal;
    }
  }

  /** The API key guard: absent, empty or the text "undefined". */
  predicate HasApiKey(apiKey: Option<string>) {
    NonEmpty(apiKey) && apiKey.value != "undefined"
  }

  /** `getMarketAnalysis`: null without a usable key, null when the call or
      the parse throws (`reply == None`), otherwise the normalised reply. */
  function MarketAnalysis(apiKey: Option<string>, reply: Option<ParsedReply>): (r: Option<GeminiAnalysis>)
    ensures r.Some? <==> HasApiKey(apiKey) && reply.Some?
    ensures r.Some? ==> r.value == Normalized(reply.value)
  {
    if !HasApiKey(apiKey) then None
    else if reply.None? then None
    else Some(Normalized(reply.value))
  }

  /** Every score of a reply whose raw scores lie on the 0..100 scale ends
      up on that scale. */
  lemma ScoresOnScale(p: ParsedReply)
    requires forall v :: v in [p.probRise, p.probFall, p.probReversal, p.fearGreedScore] && v.Some? ==>
      0.0 <= v.value <= 100.0
    ensures var a := Normalized(p);
      && 0.0 <= a.probRise <= 100.0 && 0.0 <= a.probFall <= 100.0
      && 0.0 <= a.probReversal <= 100.0 && 0.0 <= a.fearGreedScore <= 100.0
  {
    if p.probRise.Some? { NormalizeRange(p.probRise.value); }
    if p.probFall.Some? { NormalizeRange(p.probFall.value); }
    if p.probReversal.Some? { NormalizeRange(p.probReversal.value); }
    if p.fearGreedScore.Some? { NormalizeRange(p.fearGreedScore.value); }
  }
}
