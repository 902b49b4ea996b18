/** The dashboard shell: the system signal classifier, the displayed price,
    the asset lookup, the AI-commentary cache and request guard, and the
    user's alert list. Messages and reasons are translated strings; the model
    keeps the rule that produced them. */
module App {
  import opened Types
  import Indicators

  /** `AI_CACHE_TTL`: fifteen minutes in milliseconds. */
  const AiCacheTtl: int := 15 * 60 * 1000

  /** Which branch of the classifier produced the signal. */
  datatype SignalRule =
    | AwaitingData         // the initial "Analisando..." state
    | HistoricOpportunity  // close below the 200 average
    | SupportConfirmed     // close recovered above the 200 average
    | BearPhase            // close below the 50 average
    | Uptrend              // close at or above the 50 average

  datatype MarketSignal = MarketSignal(kind: SignalType, rule: SignalRule)

  const InitialSignal: MarketSignal := MarketSignal(Neutral, AwaitingData)

  // ---------------------------------------------------------------------
  // processSystemSignal

  /** The signal `processSystemSignal` sets for `data`, or `None` when it
      returns without setting one (no data, or no rule fires). The rules are
      tried in order: below sma200, recovery over sma200, then wma50. */
  function SystemSignalRule(data: seq<Candle>): (r: Option<MarketSignal>)
    ensures |data| == 0 ==> r.None?
    ensures |data| > 0 ==>
      var latest := data[|data| - 1];
      var prev := if |data| > 1 then data[|data| - 2] else latest;
      && (r.Some? && r.value.kind == Sell ==>
            Truthy(latest.wma50) && latest.close < latest.wma50.value
            && (!Truthy(latest.sma200) || latest.sma200.value <= latest.close))
      && (r.Some? && r.value.kind == Buy ==>
            (Truthy(latest.sma200) && (latest.close < latest.sma200.value || prev.close < latest.sma200.value))
            || (Truthy(latest.wma50) && latest.close >= latest.wma50.value))
      && (r.None? <==>
            !Truthy(latest.wma50)
            && (!Truthy(latest.sma200)
                || (latest.close >= latest.sma200.value && prev.close >= latest.sma200.value)))
    ensures r.Some? ==> r.value.kind != Neutral
    ensures r == Some(MarketSignal(Buy, SupportConfirmed)) ==> |data| >= 2
    // The cascade: each guard, tried in order, fixes the result.
    ensures |data| > 0 ==>
      var latest := data[|data| - 1];
      var prev := if |data| > 1 then data[|data| - 2] else latest;
      var floorRule := Truthy(latest.sma200) && latest.close < latest.sma200.value;
      var recovery := Truthy(latest.sma200) && prev.close < latest.sma200.value && latest.close >= latest.sma200.value;
      && (floorRule ==> r == Some(MarketSignal(Buy, HistoricOpportunity)))
      && (recovery ==> r == Some(MarketSignal(Buy, SupportConfirmed)))
      && (!floorRule && !recovery && Truthy(latest.wma50) && latest.close < latest.wma50.value ==>
            r == Some(MarketSignal(Sell, BearPhase)))
      && (!floorRule && !recovery && Truthy(latest.wma50) && latest.close >= latest.wma50.value ==>
            r == Some(MarketSignal(Buy, Uptrend)))
  {
    if |data| == 0 then None
    else
      var latest := data[|data| - 1];
      var prev := if |data| > 1 then data[|data| - 2] else latest;
      if Truthy(latest.sma200) && latest.close < latest.sma200.value then
        Some(MarketSignal(Buy, HistoricOpportunity))
      else if Truthy(latest.sma200) && prev.close < latest.sma200.value && latest.close >= latest.sma200.value then
        Some(MarketSignal(Buy, SupportConfirmed))
      else if Truthy(latest.wma50) then
        if latest.close < latest.wma50.value then Some(MarketSignal(Sell, BearPhase))
        else Some(MarketSignal(Buy, Uptrend))
      else None
  }

  /** A close under a present sma200 gives BUY whatever wma50 says: the
      200 rule returns before the 50 rule is examined. */
  lemma BelowSma200Preempts(data: seq<Candle>, wma50: Option<real>)
    requires |data| > 0
    requires Truthy(data[|data| - 1].sma200) && data[|data| - 1].close < data[|data| - 1].sma200.value
    ensures SystemSignalRule(data) == Some(MarketSignal(Buy, HistoricOpportunity))
    ensures SystemSignalRule(data[|data| - 1 := data[|data| - 1].(wma50 := wma50)]) == SystemSignalRule(data)
  {
    var d := data[|data| - 1 := data[|data| - 1].(wma50 := wma50)];
    assert d[|d| - 1].sma200 == data[|data| - 1].sma200;
  }

  /** Fewer than 50 freshly enriched candles leave the initial NEUTRAL signal
      in place: neither wma50 nor sma200 exists yet. */
  lemma WarmupKeepsNeutral(raw: seq<Candle>)
    requires PositiveCloses(raw) && |raw| < 50
    ensures SystemSignalRule(Indicators.Enrich(raw)).None?
  {
    if |raw| > 0 {
      Indicators.AveragesDefinedAfterWarmup(raw, |raw| - 1);
    }
  }

  // ---------------------------------------------------------------------
  // activePriceDisplay and currentAsset

  /** The last candle's close, or 0 without data. */
  function ActivePrice(data: seq<Candle>): (r: real)
    ensures |data| == 0 ==> r == 0.0
    ensures |data| > 0 ==> r == data[|data| - 1].close
  {
    if |data| > 0 then data[|data| - 1].close else 0.0
  }

  /** Enrichment does not move the displayed price. */
  lemma ActivePriceAfterEnrich(raw: seq<Candle>)
    ensures ActivePrice(Indicators.Enrich(raw)) == ActivePrice(raw)
  {
    if |raw| > 0 {
      Indicators.EnrichedCandleShape(raw, |raw| - 1);
    }
  }

  /** The first supported asset with that symbol, otherwise the first one. */
  function FindAsset(assets: seq<Asset>, symbol: string): (r: Option<Asset>)
    ensures r.Some? ==> r.value in assets && r.value.symbol == symbol
    ensures r.Some? ==> exists k :: 0 <= k < |assets| && assets[k] == r.value &&
                                    (forall j :: 0 <= j < k ==> assets[j].symbol != symbol)
    ensures r.None? ==> forall a :: a in assets ==> a.symbol != symbol
  {
    if |assets| == 0 then None
    else if assets[0].symbol == symbol then Some(assets[0])
    else FindAsset(assets[1..], symbol)
  }

  function CurrentAsset(symbol: string): (r: Asset)
    ensures r in SupportedAssets
    ensures r.symbol == symbol || (r == SupportedAssets[0] && symbol != BTC && symbol != PAXG)
  {
    FindAsset(SupportedAssets, symbol).GetOr(SupportedAssets[0])
  }

  // ---------------------------------------------------------------------
  // The AI-commentary cache and request guard of triggerAIAnalysis

  /** `alpha_v2_res_${symbol}_${lang}` */
  datatype CacheKey = CacheKey(symbol: string, lang: Language)

  datatype CacheEntry = CacheEntry(data: GeminiAnalysis, timestamp: int)

  /** The cached commentary, if an entry exists and is younger than the TTL. */
  function CacheHit(cache: map<CacheKey, CacheEntry>, key: CacheKey, now: int): (r: Option<GeminiAnalysis>)
    ensures r.Some? <==> key in cache && now - cache[key].timestamp < AiCacheTtl
    ensures r.Some? ==> r.value == cache[key].data
  {
    if key in cache && now - cache[key].timestamp < AiCacheTtl then Some(cache[key].data) else None
  }

  /** The arguments of `getMarketAnalysis`. */
  datatype AiRequest = AiRequest(
    price: real,
    wma50: real,
    sma200: real,
    rsi: real,
    symbol: string,
    isGold: bool,
    lang: Language)

  /** The request sent on a cache miss: only when the latest candle has a
      truthy sma200, with `wma50 || price` and `rsi || 50`. */
  function RequestFor(data: seq<Candle>, price: real, symbol: string, lang: Language): (r: Option<AiRequest>)
    ensures r.Some? <==> |data| > 0 && Truthy(data[|data| - 1].sma200)
    ensures r.Some? ==>
      var latest := data[|data| - 1];
      && r.value.price == price && r.value.sma200 == latest.sma200.value
      && r.value.wma50 == (if Truthy(latest.wma50) then latest.wma50.value else price)
      && r.value.rsi == (if Truthy(latest.rsi) then latest.rsi.value else 50.0)
      && r.value.symbol == symbol && r.value.lang == lang
      && (r.value.isGold <==> symbol == PAXG)
  {
    if |data| == 0 || !Truthy(data[|data| - 1].sma200) then None
    else
      var latest := data[|data| - 1];
      Some(AiRequest(price, OrElse(latest.wma50, price), latest.sma200.value, OrElse(latest.rsi, 50.0),
                     symbol, CurrentAsset(symbol).category == Commodity, lang))
  }

  /** On freshly enriched, positive candles a request goes out exactly when
      there are at least 200 of them, and always carries an RSI in (0, 100). */
  lemma RequestNeedsFullHistory(raw: seq<Candle>, price: real, symbol: string, lang: Language)
    requires PositiveCloses(raw)
    ensures RequestFor(Indicators.Enrich(raw), price, symbol, lang).Some? <==> |raw| >= 200
    ensures var r := RequestFor(Indicators.Enrich(raw), price, symbol, lang);
      r.Some? ==> 0.0 < r.value.rsi < 100.0
  {
    if |raw| > 0 {
      Indicators.AveragesDefinedAfterWarmup(raw, |raw| - 1);
      Indicators.EnrichedCandleShape(raw, |raw| - 1);
    }
  }

  // ---------------------------------------------------------------------
  // The alert list

  /** `{...a, id}`: a form draft with its identifier. */
  function WithId(draft: AlertDraft, id: string): (r: UserAlert)
    ensures r.id == id && r.symbol == draft.symbol && r.condition == draft.condition
    ensures r.value == draft.value && r.side == draft.side && r.isActive == draft.isActive
  {
    UserAlert(id, draft.symbol, draft.condition, draft.value, draft.side, draft.isActive)
  }

  /** `alerts.filter(x => x.id !== id)` */
  function RemoveId(alerts: seq<UserAlert>, id: string): (r: seq<UserAlert>)
    ensures forall a :: a in r <==> a in alerts && a.id != id
    ensures |r| <= |alerts|
  {
    if |alerts| == 0 then []
    else if alerts[0].id == id then RemoveId(alerts[1..], id)
    else [alerts[0]] + RemoveId(alerts[1..], id)
  }

  predicate NoAlertWithId(alerts: seq<UserAlert>, id: string) {
    forall a :: a in alerts ==> a.id != id
  }

  /** Deleting works alert by alert, so the survivors keep their order. */
  lemma {:induction false} RemoveIdConcat(xs: seq<UserAlert>, ys: seq<UserAlert>, id: string)
    ensures RemoveId(xs + ys, id) == RemoveId(xs, id) + RemoveId(ys, id)
  {
    if |xs| > 0 {
      var rest := xs[1..] + ys;
      assert (xs + ys)[0] == xs[0] && (xs + ys)[1..] == rest;
      RemoveIdConcat(xs[1..], ys, id);
      if xs[0].id == id {
        assert RemoveId(xs + ys, id) == RemoveId(rest, id);
        assert RemoveId(xs, id) == RemoveId(xs[1..], id);
      } else {
        assert RemoveId(xs + ys, id) == [xs[0]] + RemoveId(rest, id);
        assert RemoveId(xs, id) == [xs[0]] + RemoveId(xs[1..], id);
      }
    } else {
      assert xs + ys == ys;
    }
  }

  /** Deleting an id nobody carries leaves the list as it was. */
  lemma {:induction false} RemoveAbsentId(alerts: seq<UserAlert>, id: string)
    requires NoAlertWithId(alerts, id)
    ensures RemoveId(alerts, id) == alerts
  {
    if |alerts| > 0 {
      assert alerts[0] in alerts;
      assert forall a :: a in alerts[1..] ==> a in alerts;
      RemoveAbsentId(alerts[1..], id);
      assert [alerts[0]] + alerts[1..] == alerts;
    }
  }

  /** Adding an alert under a fresh id and deleting that id restores the list. */
  lemma AddThenDelete(alerts: seq<UserAlert>, draft: AlertDraft, id: string)
    requires NoAlertWithId(alerts, id)
    ensures RemoveId(alerts + [WithId(draft, id)], id) == alerts
  {
    RemoveIdConcat(alerts, [WithId(draft, id)], id);
    RemoveAbsentId(alerts, id);
    assert RemoveId([WithId(draft, id)], id) == [];
  }

  /** Deleting twice is deleting once. */
  lemma RemoveIdIdempotent(alerts: seq<UserAlert>, id: string)
    ensures RemoveId(RemoveId(alerts, id), id) == RemoveId(alerts, id)
  {
    RemoveAbsentId(RemoveId(alerts, id), id);
  }

  // ---------------------------------------------------------------------
  // The component state

  /** The state `App` keeps for these operations. `aiCache` stands for the
      cache entries in the browser's storage. */
  class Dashboard {
    var currentSymbol: string
    var lang: Language
    var systemSignal: MarketSignal
    var activeAlerts: seq<UserAlert>
    var analysis: Option<GeminiAnalysis>
    var aiCache: map<CacheKey, CacheEntry>

    /** The initial state: BTCUSDT, the stored language, NEUTRAL, no alerts
        and no commentary. */
    constructor (lang: Language, storedCache: map<CacheKey, CacheEntry>)
      ensures currentSymbol == BTC && this.lang == lang
      ensures systemSignal == InitialSignal && activeAlerts == [] && analysis.None?
      ensures aiCache == storedCache
    {
      currentSymbol := BTC;
      this.lang := lang;
      systemSignal := InitialSignal;
      activeAlerts := [];
      analysis := None;
      aiCache := storedCache;
    }

    /** `processSystemSignal`: set the rule's signal, or keep the current one. */
    method ProcessSystemSignal(data: seq<Candle>)
      modifies this`systemSignal
      ensures SystemSignalRule(data).Some? ==> systemSignal == SystemSignalRule(data).value
      ensures SystemSignalRule(data).None? ==> systemSignal == old(systemSignal)
    {
      var rule := SystemSignalRule(data);
      if rule.Some? {
        systemSignal := rule.value;
      }
    }

    /** `onAddAlert`: append the draft under the caller's fresh id. */
    method AddAlert(draft: AlertDraft, id: string)
      modifies this`activeAlerts
      ensures activeAlerts == old(activeAlerts) + [WithId(draft, id)]
    {
      activeAlerts := activeAlerts + [WithId(draft, id)];
    }

    /** `onDeleteAlert`: drop every alert with that id. */
    method DeleteAlert(id: string)
      modifies this`activeAlerts
      ensures activeAlerts == RemoveId(old(activeAlerts), id)
    {
      activeAlerts := RemoveId(activeAlerts, id);
    }

    /** `triggerAIAnalysis`. A fresh cache entry is shown without a request;
        otherwise the request (if the guard lets one out) is returned, and a
        non-null `reply` is shown and stored with timestamp `doneAt`. A null
        reply stands for both a null result and a thrown error. */
    method TriggerAIAnalysis(data: seq<Candle>, price: real, now: int, reply: Option<GeminiAnalysis>, doneAt: int)
      returns (sent: Option<AiRequest>)
      modifies this`analysis, this`aiCache
      ensures var key := CacheKey(currentSymbol, lang);
        && (CacheHit(old(aiCache), key, now).Some? ==>
              sent.None? && analysis == CacheHit(old(aiCache), key, now) && aiCache == old(aiCache))
        && (CacheHit(old(aiCache), key, now).None? ==>
              && sent == RequestFor(data, price, currentSymbol, lang)
              && (sent.Some? && reply.Some? ==>
                    analysis == reply && aiCache == old(aiCache)[key := CacheEntry(reply.value, doneAt)])
              && (sent.None? || reply.None? ==>
                    analysis == old(analysis) && aiCache == old(aiCache)))
    {
      var key := CacheKey(currentSymbol, lang);
      var hit := CacheHit(aiCache, key, now);
      if hit.Some? {
        analysis := hit;
        return None;
      }
      sent := RequestFor(data, price, currentSymbol, lang);
      if sent.Some? && reply.Some? {
        analysis := reply;
        aiCache := aiCache[key := CacheEntry(reply.value, doneAt)];
      }
    }
  }
}
