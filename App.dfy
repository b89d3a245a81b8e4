/**
 * The application's state and its handlers: the tracked assets and their
 * records, the single current advice, the search suggestions, the alert
 * dialog, the alert store and the rate-limit cooldown gate. Every network
 * answer, clock reading and generated id is a parameter; a periodic timer
 * firing is a call of the matching tick method.
 */
module App {
  import opened Wrappers
  import opened Types
  import opened Seqs
  import opened JsText
  import opened Alerts
  import opened Cooldown
  import opened CryptoService
  import opened GeminiService
  import opened AdvicePolicy

  /** The advice shown when the model is not configured. */
  const AI_DISABLED_MESSAGE := "El Asesor IA está deshabilitado ya que la clave API no está configurada."
  const AI_DISABLED_DETAIL :=
    "Por favor, asegúrate de que la variable de entorno API_KEY esté correctamente configurada para habilitar las funciones de análisis con IA."

  /** The advice shown when an asset lacks fresh data or a price history; it names the asset. */
  function NoDataMessage(name: string): string {
    NO_DATA_HEAD + name + NO_DATA_TAIL
  }

  const NO_DATA_HEAD := "No hay suficientes datos de mercado o históricos actualizados para "
  const NO_DATA_TAIL := " para generar un consejo. Intenta de nuevo en unos momentos."

  /**
   * The record a refresh starts from for an asset never fetched before. An
   * empty `initialSymbol` or `initialName` stands for an argument not given.
   */
  function Placeholder(id: string, initialSymbol: string, initialName: string): (r: CryptoCurrency)
    ensures r.id == id && r.lastUpdated == None && r.priceHistory == []
    ensures r.name == (if initialName != "" then initialName else id)
    ensures r.symbol == (if initialSymbol != "" then initialSymbol else ToUpper(id))
    ensures r.tradingViewSymbol == ToUpper(if initialSymbol != "" then initialSymbol else id) + "USD"
    ensures EndsWith(r.tradingViewSymbol, "USD")
    ensures r.currentPrice == 0.0 && r.priceChange24hPercent == 0.0 && r.volume24h == 0.0 && r.marketCap == 0.0
  {
    var symbol := if initialSymbol != "" then initialSymbol else ToUpper(id);
    var chartSymbol := ToUpper(if initialSymbol != "" then initialSymbol else id) + "USD";
    assert chartSymbol[|chartSymbol| - 3..] == "USD";
    CryptoCurrency(id, if initialName != "" then initialName else id, symbol, chartSymbol,
                   0.0, 0.0, [], 0.0, 0.0, None)
  }

  predicate EndsWith(s: string, suffix: string) {
    |suffix| <= |s| && s[|s| - |suffix|..] == suffix
  }

  /** The advice with id `adviceId` about `crypto`, made at `now` from the model's answer `result`. */
  function AdviceFromReply(adviceId: string, crypto: CryptoCurrency, result: AdviceResult, now: int): Advice {
    Advice(adviceId, crypto, result.adviceType, result.adviceText, result.detailedMessage, now, result.rawGeminiResponse)
  }

  /**
   * The advice a request for `crypto` shows, with id `adviceId`, made at
   * `now`: the "disabled" notice without a model, the "no data" notice for an
   * asset without fresh data or history, otherwise what the model's `reply` gives.
   */
  function FetchedAdvice(crypto: CryptoCurrency, aiAvailable: bool, reply: GeminiReply, adviceId: string, now: int)
    : (r: Advice)
    ensures r.id == adviceId && r.crypto == crypto && r.timestamp == now
    ensures !aiAvailable ==>
      r == Advice(adviceId, crypto, Info, AI_DISABLED_MESSAGE, Some(AI_DISABLED_DETAIL), now, None)
    ensures aiAvailable && (!IsSet(crypto.lastUpdated) || crypto.priceHistory == []) ==>
      r == Advice(adviceId, crypto, Info, NoDataMessage(crypto.name), None, now, None)
    ensures aiAvailable && IsSet(crypto.lastUpdated) && crypto.priceHistory != [] ==>
      r == AdviceFromReply(adviceId, crypto, ReplyAdvice(crypto.name, reply), now)
  {
    if !aiAvailable then Advice(adviceId, crypto, Info, AI_DISABLED_MESSAGE, Some(AI_DISABLED_DETAIL), now, None)
    else if !IsSet(crypto.lastUpdated) || crypto.priceHistory == [] then
      Advice(adviceId, crypto, Info, NoDataMessage(crypto.name), None, now, None)
    else AdviceFromReply(adviceId, crypto, ReplyAdvice(crypto.name, reply), now)
  }

  /** The renewal rule applied to asset `id` of a tracked-asset map, loading set and advice list. */
  predicate AdviceWanted(data: map<string, CryptoCurrency>, loading: set<string>, aiAvailable: bool,
                         advices: seq<Advice>, id: string, now: int) {
    ShouldRequestAdvice(if id in data then Some(data[id]) else None, id in loading, aiAvailable, advices, id, now)
  }

  /** The renewal rule as a test on asset ids. */
  function WantedBy(data: map<string, CryptoCurrency>, loading: set<string>, aiAvailable: bool,
                    advices: seq<Advice>, now: int): string -> bool {
    id => AdviceWanted(data, loading, aiAvailable, advices, id, now)
  }

  /**
   * The advice after one run of the periodic check over the assets `ids`,
   * every decision taken on the state the run started from. Each request
   * replaces the advice wholesale, so the advice of the last asset due is what
   * remains; with no asset due the advice is as it was.
   */
  function AdviceTickOutcome(ids: seq<string>, data: map<string, CryptoCurrency>, loading: set<string>,
                             aiAvailable: bool, advices: seq<Advice>, replies: string -> GeminiReply,
                             adviceIds: string -> string, now: int): (r: seq<Advice>)
    ensures (forall j :: 0 <= j < |ids| ==> !AdviceWanted(data, loading, aiAvailable, advices, ids[j], now)) ==>
      r == advices
    ensures (exists j :: 0 <= j < |ids| && AdviceWanted(data, loading, aiAvailable, advices, ids[j], now)) ==>
      && |r| == 1 && r[0].timestamp == now
      && exists j :: 0 <= j < |ids| && AdviceWanted(data, loading, aiAvailable, advices, ids[j], now)
           && r[0] == FetchedAdvice(data[ids[j]], aiAvailable, replies(ids[j]), adviceIds(ids[j]), now)
           && forall m :: j < m < |ids| ==> !AdviceWanted(data, loading, aiAvailable, advices, ids[m], now)
  {
    match FindLast(ids, WantedBy(data, loading, aiAvailable, advices, now))
    case None => advices
    case Some(j) => [FetchedAdvice(data[ids[j]], aiAvailable, replies(ids[j]), adviceIds(ids[j]), now)]
  }

  /** Checking one more asset: if it is due, its advice replaces whatever the earlier assets left. */
  lemma {:induction false} AdviceTickOutcomeSnoc(ids: seq<string>, id: string, data: map<string, CryptoCurrency>,
                                                 loading: set<string>, aiAvailable: bool, advices: seq<Advice>,
                                                 replies: string -> GeminiReply, adviceIds: string -> string, now: int)
    ensures AdviceTickOutcome(ids + [id], data, loading, aiAvailable, advices, replies, adviceIds, now) ==
      if AdviceWanted(data, loading, aiAvailable, advices, id, now)
      then [FetchedAdvice(data[id], aiAvailable, replies(id), adviceIds(id), now)]
      else AdviceTickOutcome(ids, data, loading, aiAvailable, advices, replies, adviceIds, now)
  {
    var s := ids + [id];
    assert s[|s| - 1] == id && s[..|s| - 1] == ids;
  }

  /** A quote answered with 429 Too Many Requests. */
  predicate Throttled(quote: Http<MarketData>) {
    quote.Response? && quote.status == TOO_MANY_REQUESTS
  }

  class Dashboard {
    var selectedCryptoIds: seq<string>
    var cryptoData: map<string, CryptoCurrency>
    var advices: seq<Advice>
    var loadingData: set<string>
    var loadingAdvice: set<string>
    var aiAvailable: bool
    var suggestions: seq<SearchResult>
    var showSuggestions: bool
    /** The asset the alert dialog is open for, if it is open. */
    var alertModalFor: Option<CryptoCurrency>
    const store: AlertStore
    const gate: CooldownGate

    /** The store and the gate keep their own invariants, and advice is always replaced wholesale: at most one is current. */
    ghost predicate Valid()
      reads this, store, gate
    {
      store.Valid() && gate.Valid() && |advices| <= 1
    }

    /** The initial state; the model is available exactly when an API key is configured. */
    constructor (apiKeyConfigured: bool)
      ensures Valid() && fresh(store) && fresh(gate)
      ensures selectedCryptoIds == [] && cryptoData == map[] && advices == []
      ensures loadingData == {} && loadingAdvice == {} && aiAvailable == apiKeyConfigured
      ensures suggestions == [] && !showSuggestions && alertModalFor == None
      ensures store.alerts == [] && store.queue == [] && !gate.limited && gate.endTimestamp == None
    {
      selectedCryptoIds := [];
      cryptoData := map[];
      advices := [];
      loadingData := {};
      loadingAdvice := {};
      aiAvailable := apiKeyConfigured;
      suggestions := [];
      showSuggestions := false;
      alertModalFor := None;
      store := new AlertStore();
      gate := new CooldownGate();
    }

    /** The record a refresh of `id` starts from: the stored one, else a placeholder. */
    function BaseRecord(id: string, initialSymbol: string, initialName: string): CryptoCurrency
      reads this
    {
      if id in cryptoData then cryptoData[id] else Placeholder(id, initialSymbol, initialName)
    }

    /** The alerts of asset `cryptoId` were evaluated at `price` between the two states. */
    twostate predicate AlertsEvaluated(cryptoId: string, price: real, now: int)
      reads this, store
    {
      && store.alerts == Evaluate(old(store.alerts), cryptoId, price, now)
      && store.queue == EnqueueAll(old(store.queue), Firing(old(store.alerts), cryptoId, price), now)
    }

    /**
     * What a refresh of asset `id` from record `base` did, given the quote and
     * history answers: a 429 starts the cooldown and stores nothing; a good
     * quote stores the fresh record and evaluates its alerts at the new price;
     * any other answer stores `base` again, and counts as fresh when `base`
     * already carried a timestamp.
     */
    twostate predicate Refreshed(id: string, base: CryptoCurrency, quote: Http<MarketData>,
                                 history: Http<Option<seq<(int, real)>>>, now: int,
                                 new r: Result<Option<CryptoCurrency>, RateLimitError>)
      reads this, store, gate
    {
      && (r.Failure? <==> quote.Response? && quote.status == TOO_MANY_REQUESTS)
      && (r.Failure? ==>
            && r.error == DetailsRateLimited(NameForError(base))
            && gate.limited && gate.endTimestamp == Some(now + COOLDOWN_MS)
            && cryptoData == old(cryptoData)
            && store.alerts == old(store.alerts) && store.queue == old(store.queue))
      && (r.Success? ==>
            gate.limited == old(gate.limited) && gate.endTimestamp == old(gate.endTimestamp))
      && (QuoteSucceeded(quote) && now != 0 ==>
            && r.Success? && r.value.Some?
            && var u := r.value.value;
            && u == Merged(base, quote.body, history, now)
            && cryptoData == old(cryptoData)[id := u]
            && AlertsEvaluated(base.id, u.currentPrice, now))
      && (r.Success? && !(QuoteSucceeded(quote) && now != 0) ==>
            && cryptoData == old(cryptoData)[id := base]
            && (if !QuoteSucceeded(quote) && IsSet(base.lastUpdated)
                then r.value == Some(base) && AlertsEvaluated(base.id, base.currentPrice, now)
                else r.value == None && store.alerts == old(store.alerts) && store.queue == old(store.queue)))
    }

    /** The part of a data refresh after the rate-limit guard: fetch from `base`, store, evaluate alerts. */
    method Refresh(id: string, base: CryptoCurrency, quote: Http<MarketData>,
                   history: Http<Option<seq<(int, real)>>>, now: int)
      returns (r: Result<Option<CryptoCurrency>, RateLimitError>)
      requires Valid()
      modifies this`cryptoData, this`loadingData, store, gate
      ensures Valid()
      ensures Refreshed(id, base, quote, history, now, r)
      ensures loadingData == old(loadingData) - {id}
      ensures gate.display == old(gate.display)
    {
      loadingData := loadingData + {id};
      var fetched := FetchCryptoDataWithDetails(base, quote, history, now);
      match fetched {
        case Failure(e) =>
          gate.Activate(now);
          r := Failure(e);
        case Success(u) =>
          if IsSet(u.lastUpdated) {
            cryptoData := cryptoData[id := u];
            store.CheckAndTriggerAlerts(u, now);
            r := Success(Some(u));
          } else {
            cryptoData := cryptoData[id := base.(name := u.name, symbol := u.symbol)];
            r := Success(None);
          }
      }
      loadingData := loadingData - {id};
    }

    /**
     * Refreshes asset `id`. While the cooldown is on it returns the stored
     * record, if any, and requests nothing; otherwise it refreshes from the
     * stored record or a placeholder.
     */
    method UpdateCryptoData(id: string, initialSymbol: string, initialName: string, quote: Http<MarketData>,
                            history: Http<Option<seq<(int, real)>>>, now: int)
      returns (r: Result<Option<CryptoCurrency>, RateLimitError>)
      requires Valid()
      modifies this`cryptoData, this`loadingData, store, gate
      ensures Valid()
      ensures old(gate.limited) ==>
        && r == Success(if id in old(cryptoData) then Some(old(cryptoData)[id]) else None)
        && unchanged(this) && unchanged(store) && unchanged(gate)
      ensures !old(gate.limited) ==>
        && Refreshed(id, old(BaseRecord(id, initialSymbol, initialName)), quote, history, now, r)
        && loadingData == old(loadingData) - {id}
    {
      if gate.limited {
        r := Success(if id in cryptoData then Some(cryptoData[id]) else None);
        return;
      }
      var base := BaseRecord(id, initialSymbol, initialName);
      r := Refresh(id, base, quote, history, now);
    }

    /**
     * The periodic data refresh. While the cooldown is on it does nothing.
     * Otherwise it refreshes every selected asset that has a record and is not
     * loading, from the records as they were when the tick started; the
     * cooldown is not tested again between assets, so a 429 for one asset
     * does not stop the requests for the next. `quotes` and `histories` are the
     * answers the requests for each asset get.
     */
    method DataTick(quotes: string -> Http<MarketData>, histories: string -> Http<Option<seq<(int, real)>>>, now: int)
      requires Valid()
      modifies this`cryptoData, this`loadingData, store, gate
      ensures Valid()
      ensures old(gate.limited) ==> unchanged(this) && unchanged(store) && unchanged(gate)
      ensures cryptoData.Keys == old(cryptoData).Keys
      ensures loadingData == old(loadingData)
      ensures !old(gate.limited) ==> forall k ::
        k in old(selectedCryptoIds) && k in old(cryptoData) && k !in old(loadingData) &&
        QuoteSucceeded(quotes(k)) && now != 0 ==>
          cryptoData[k] == Merged(old(cryptoData)[k], quotes(k).body, histories(k), now)
      ensures forall k ::
        (k in old(cryptoData) &&
         !(k in old(selectedCryptoIds) && k !in old(loadingData) && QuoteSucceeded(quotes(k)) && now != 0)) ==>
          cryptoData[k] == old(cryptoData)[k]
      ensures !old(gate.limited) ==>
        && gate.display == old(gate.display)
        && if exists k :: k in old(selectedCryptoIds) && k in old(cryptoData) && k !in old(loadingData) && Throttled(quotes(k))
           then gate.limited && gate.endTimestamp == Some(now + COOLDOWN_MS)
           else !gate.limited && gate.endTimestamp == old(gate.endTimestamp)
    {
      if gate.limited {
        return;
      }
      var ids, snapshot, loading := selectedCryptoIds, cryptoData, loadingData;
      ghost var display, throttled := gate.display, false;
      for i := 0 to |ids|
        invariant Valid()
        invariant loadingData == loading
        invariant cryptoData.Keys == snapshot.Keys
        invariant forall k :: k in snapshot && k !in ids ==> cryptoData[k] == snapshot[k]
        invariant forall k :: k in snapshot && (k in loading || !QuoteSucceeded(quotes(k)) || now == 0) ==>
          cryptoData[k] == snapshot[k]
        invariant forall j :: (0 <= j < i && ids[j] in snapshot && ids[j] !in loading &&
                               QuoteSucceeded(quotes(ids[j])) && now != 0) ==>
            cryptoData[ids[j]] == Merged(snapshot[ids[j]], quotes(ids[j]).body, histories(ids[j]), now)
        invariant gate.display == display
        invariant throttled <==> exists j :: 0 <= j < i && ids[j] in snapshot && ids[j] !in loading && Throttled(quotes(ids[j]))
        invariant throttled ==> gate.limited && gate.endTimestamp == Some(now + COOLDOWN_MS)
        invariant !throttled ==> !gate.limited
      {
        var id := ids[i];
        DataTickStep(id, snapshot, loading, quotes(id), histories(id), now);
        throttled := throttled || (id in snapshot && id !in loading && Throttled(quotes(id)));
      }
      assert forall k :: k in ids ==> exists j :: 0 <= j < |ids| && ids[j] == k;
    }

    /**
     * One asset of the data tick: refreshes `id` from the record the tick
     * started with, when it had one and was not loading; otherwise nothing happens.
     */
    method DataTickStep(id: string, snapshot: map<string, CryptoCurrency>, loading: set<string>,
                        quote: Http<MarketData>, history: Http<Option<seq<(int, real)>>>, now: int)
      requires Valid()
      requires loadingData == loading && cryptoData.Keys == snapshot.Keys
      requires id in snapshot && Throttled(quote) ==> cryptoData[id] == snapshot[id]
      modifies this`cryptoData, this`loadingData, store, gate
      ensures Valid()
      ensures loadingData == loading && cryptoData.Keys == snapshot.Keys
      ensures forall k :: k in old(cryptoData) && k != id ==> cryptoData[k] == old(cryptoData)[k]
      ensures id in snapshot && id !in loading && QuoteSucceeded(quote) && now != 0 ==>
        cryptoData[id] == Merged(snapshot[id], quote.body, history, now)
      ensures id in snapshot && id !in loading && !(QuoteSucceeded(quote) && now != 0) ==> cryptoData[id] == snapshot[id]
      ensures !(id in snapshot && id !in loading) ==> cryptoData == old(cryptoData)
      ensures gate.display == old(gate.display)
      ensures id in snapshot && id !in loading && Throttled(quote) ==>
        gate.limited && gate.endTimestamp == Some(now + COOLDOWN_MS)
      ensures !(id in snapshot && id !in loading && Throttled(quote)) ==>
        gate.limited == old(gate.limited) && gate.endTimestamp == old(gate.endTimestamp)
      ensures id in snapshot && id !in loading && QuoteSucceeded(quote) && now != 0 ==>
        AlertsEvaluated(snapshot[id].id, quote.body.currentPriceUsd.value, now)
      ensures id in snapshot && id !in loading && !QuoteSucceeded(quote) && !Throttled(quote) &&
              IsSet(snapshot[id].lastUpdated) ==>
        AlertsEvaluated(snapshot[id].id, snapshot[id].currentPrice, now)
      ensures !(id in snapshot && id !in loading) || Throttled(quote) ||
              (QuoteSucceeded(quote) && now == 0) ||
              (!QuoteSucceeded(quote) && !IsSet(snapshot[id].lastUpdated)) ==>
        store.alerts == old(store.alerts) && store.queue == old(store.queue)
    {
      if id in snapshot && id !in loading {
        var _ := Refresh(id, snapshot[id], quote, history, now);
      }
    }

    /**
     * Fetches advice for `crypto` and makes it the only current advice. It is
     * an INFO notice when the model is unavailable or the asset lacks fresh
     * data or a price history; otherwise the model's parsed answer.
     */
    method FetchAdviceForCrypto(crypto: CryptoCurrency, reply: GeminiReply, adviceId: string, now: int)
      requires Valid()
      modifies this`advices, this`loadingAdvice
      ensures Valid()
      ensures advices == [FetchedAdvice(crypto, aiAvailable, reply, adviceId, now)]
      ensures loadingAdvice == old(loadingAdvice) - (if aiAvailable && IsSet(crypto.lastUpdated) && crypto.priceHistory != [] then {crypto.id} else {})
    {
      if !aiAvailable {
        advices := [Advice(adviceId, crypto, Info, AI_DISABLED_MESSAGE, Some(AI_DISABLED_DETAIL), now, None)];
      } else if !IsSet(crypto.lastUpdated) || |crypto.priceHistory| == 0 {
        advices := [Advice(adviceId, crypto, Info, NoDataMessage(crypto.name), None, now, None)];
      } else {
        AskModel(crypto, reply, adviceId, now);
      }
    }

    /** Asks the model about `crypto`, with the asset flagged as loading advice meanwhile, and shows the answer. */
    method AskModel(crypto: CryptoCurrency, reply: GeminiReply, adviceId: string, now: int)
      requires aiAvailable
      modifies this`advices, this`loadingAdvice
      ensures advices == [AdviceFromReply(adviceId, crypto, ReplyAdvice(crypto.name, reply), now)]
      ensures loadingAdvice == old(loadingAdvice) - {crypto.id}
    {
      ghost var before := loadingAdvice;
      loadingAdvice := loadingAdvice + {crypto.id};
      var result := GetInvestmentAdvice(crypto, aiAvailable, reply);
      assert result == ReplyAdvice(crypto.name, reply);
      advices := [AdviceFromReply(adviceId, crypto, result, now)];
      loadingAdvice := loadingAdvice - {crypto.id};
      assert loadingAdvice == before - {crypto.id};
    }

    /**
     * The periodic advice check: for each selected asset, requests new advice
     * when the renewal rule says so, judged on the records, loading flags and
     * advice as they were when the tick started. `replies` and `adviceIds` are
     * the model's answer and the new advice's id for each asset.
     */
    method AdviceTick(replies: string -> GeminiReply, adviceIds: string -> string, now: int)
      requires Valid()
      modifies this`advices, this`loadingAdvice
      ensures Valid()
      ensures advices ==
        AdviceTickOutcome(old(selectedCryptoIds), old(cryptoData), old(loadingAdvice), aiAvailable, old(advices),
                          replies, adviceIds, now)
      ensures loadingAdvice <= old(loadingAdvice)
    {
      var ids, snapshot, loading, current := selectedCryptoIds, cryptoData, loadingAdvice, advices;
      for i := 0 to |ids|
        invariant Valid()
        invariant advices == AdviceTickOutcome(ids[..i], snapshot, loading, aiAvailable, current, replies, adviceIds, now)
        invariant loadingAdvice <= loading
      {
        var id := ids[i];
        assert ids[..i + 1] == ids[..i] + [id];
        AdviceTickOutcomeSnoc(ids[..i], id, snapshot, loading, aiAvailable, current, replies, adviceIds, now);
        if AdviceWanted(snapshot, loading, aiAvailable, current, id, now) {
          assert id in snapshot && id !in loading;
          FetchAdviceForCrypto(snapshot[id], replies(id), adviceIds(id), now);
        }
      }
      assert ids[..|ids|] == ids;
    }

    /**
     * One run of the suggestion lookup for the settled query. A trimmed query
     * of two or more characters outside the cooldown shows the suggestion list
     * and fills it from the search answer, a 429 starting the cooldown and
     * emptying it; any other query, or any query during the cooldown, empties
     * and hides the list without a request.
     */
    method RefreshSuggestions(query: string, resp: Http<Option<seq<Coin>>>, now: int)
      requires Valid()
      modifies this`suggestions, this`showSuggestions, gate
      ensures Valid()
      ensures old(gate.limited) || |Trim(query)| < MIN_QUERY_LENGTH ==>
        suggestions == [] && !showSuggestions && unchanged(gate)
      ensures !old(gate.limited) && |Trim(query)| >= MIN_QUERY_LENGTH ==>
        && showSuggestions
        && (resp.Response? && resp.status == TOO_MANY_REQUESTS ==>
              && suggestions == [] && gate.limited && gate.endTimestamp == Some(now + COOLDOWN_MS)
              && gate.display == old(gate.display))
        && (!(resp.Response? && resp.status == TOO_MANY_REQUESTS) ==>
              suggestions == FetchSuggestions(query, resp).value && unchanged(gate))
    {
      var settled := Trim(query);
      if |settled| > 1 && !gate.limited {
        showSuggestions := true;
        var found := FetchSuggestions(query, resp);
        match found
        case Success(list) =>
          suggestions := list;
        case Failure(_) =>
          gate.Activate(now);
          suggestions := [];
      } else {
        suggestions := [];
        showSuggestions := false;
      }
    }

    /** Opens the alert dialog for `crypto`. */
    method OpenAlertModal(crypto: CryptoCurrency)
      modifies this`alertModalFor
      ensures alertModalFor == Some(crypto)
    {
      alertModalFor := Some(crypto);
    }

    /** Closes the alert dialog. */
    method CloseAlertModal()
      modifies this`alertModalFor
      ensures alertModalFor == None
    {
      alertModalFor := None;
    }

    /**
     * Accepts the dialog's alert: with the dialog open for an asset, appends an
     * active alert for that asset with the given target and condition, created
     * `now` with id `alertId`, and closes the dialog; with no dialog open, does nothing.
     */
    method SetAlert(targetPrice: real, condition: AlertConditionType, alertId: string, now: int)
      requires Valid()
      modifies this`alertModalFor, store
      ensures Valid()
      ensures old(alertModalFor).None? ==> unchanged(this) && unchanged(store)
      ensures old(alertModalFor).Some? ==>
        var c := old(alertModalFor).value;
        && store.alerts == old(store.alerts) + [CryptoAlert(alertId, c.id, c.name, c.symbol, targetPrice, condition, now, true, None)]
        && store.queue == old(store.queue)
        && alertModalFor == None
    {
      if alertModalFor.None? {
        return;
      }
      var c := alertModalFor.value;
      store.AddAlert(CryptoAlert(alertId, c.id, c.name, c.symbol, targetPrice, condition, now, true, None));
      alertModalFor := None;
    }

    /** The alerts listed for the asset on display (the first selected one): its active alerts, in list order. */
    function ActiveAlertsForCurrentCrypto(): (r: seq<CryptoAlert>)
      reads this, store
      ensures selectedCryptoIds == [] ==> r == []
      ensures selectedCryptoIds != [] ==>
        forall x :: x in r <==> x in store.alerts && x.cryptoId == selectedCryptoIds[0] && x.isActive
    {
      if selectedCryptoIds == [] then [] else Filter(store.alerts, ActiveFor(selectedCryptoIds[0]))
    }
  }
}
