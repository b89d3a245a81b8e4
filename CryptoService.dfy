/**
 * The market-data client: coin suggestions for a typed query, the best search
 * hit, and the refresh of one asset's record from a quote and a price
 * history. Each HTTP exchange is an input of type `Http`, so the functions
 * here decide what the client does with every possible answer.
 */
module CryptoService {
  import opened Wrappers
  import opened Types
  import opened Seqs
  import opened JsText

  /**
   * The outcome of one HTTP request: either the request or the decoding of its
   * JSON body threw (`NetworkError`), or a response arrived with a status and
   * the decoded body.
   */
  datatype Http<T> = NetworkError | Response(status: int, body: T)

  /** `response.ok`: a 2xx status. */
  predicate IsOk(status: int) {
    200 <= status <= 299
  }

  /** HTTP 429 "Too Many Requests" (section 4 of RFC 6585). */
  const TOO_MANY_REQUESTS := 429

  /** The two ways a request is refused for rate limiting; the asset's name is part of the second message. */
  datatype RateLimitError = SuggestionsRateLimited | DetailsRateLimited(assetName: string)

  /** One entry of the search endpoint's `coins` array. */
  datatype Coin = Coin(id: string, name: string, symbol: string, thumb: Option<string>)

  /** One suggestion offered to the user. */
  datatype SearchResult = SearchResult(id: string, name: string, symbol: string, thumb: Option<string>)

  /** At most this many suggestions are offered. */
  const SUGGESTION_LIMIT := 7

  /** Queries shorter than this, once trimmed, are not sent. */
  const MIN_QUERY_LENGTH := 2

  function ToSuggestion(c: Coin): SearchResult {
    SearchResult(c.id, c.name, ToUpper(c.symbol), c.thumb)
  }

  /** The suggestions built from the first seven coins of a search answer. */
  function Suggestions(coins: seq<Coin>): seq<SearchResult> {
    seq(Min(|coins|, SUGGESTION_LIMIT), i requires 0 <= i < Min(|coins|, SUGGESTION_LIMIT) => ToSuggestion(coins[i]))
  }

  /** The search request got an answer with a usable `coins` array. */
  predicate SearchAnswered(resp: Http<Option<seq<Coin>>>) {
    resp.Response? && IsOk(resp.status) && resp.body.Some?
  }

  /**
   * Suggestions for `query`. `resp` is the search endpoint's outcome, with a
   * `None` body when the answer has no `coins` field. A 429 is the only
   * outcome that is reported as an error; every other failure gives no suggestions.
   */
  function FetchSuggestions(query: string, resp: Http<Option<seq<Coin>>>): (r: Result<seq<SearchResult>, RateLimitError>)
    ensures |Trim(query)| < MIN_QUERY_LENGTH ==> r == Success([])
    ensures r.Failure? <==> |Trim(query)| >= MIN_QUERY_LENGTH && resp.Response? && resp.status == TOO_MANY_REQUESTS
    ensures r.Failure? ==> r.error == SuggestionsRateLimited
    ensures r.Success? && !SearchAnswered(resp) ==> r.value == []
    ensures r.Success? ==> |r.value| <= SUGGESTION_LIMIT
    ensures |Trim(query)| >= MIN_QUERY_LENGTH && SearchAnswered(resp) ==>
      var coins := resp.body.value;
      && r.Success?
      && |r.value| == Min(|coins|, SUGGESTION_LIMIT)
      && forall i :: 0 <= i < |r.value| ==>
           r.value[i].id == coins[i].id && r.value[i].name == coins[i].name &&
           r.value[i].symbol == ToUpper(coins[i].symbol) && r.value[i].thumb == coins[i].thumb
  {
    if |Trim(query)| < MIN_QUERY_LENGTH then Success([])
    else match resp
      case NetworkError => Success([])
      case Response(status, body) =>
        if !IsOk(status) then
          if status == TOO_MANY_REQUESTS then Failure(SuggestionsRateLimited) else Success([])
        else match body
          case None => Success([])
          case Some(coins) => Success(Suggestions(coins))
  }

  /** The suggestion's symbol equals the query, ignoring case. */
  function SymbolIs(query: string): SearchResult -> bool {
    (s: SearchResult) => ToLower(s.symbol) == ToLower(query)
  }

  /** The suggestion's name equals the query, ignoring case. */
  function NameIs(query: string): SearchResult -> bool {
    (s: SearchResult) => ToLower(s.name) == ToLower(query)
  }

  /** `list[i]` is the first element of `list` satisfying `p`. */
  predicate FirstWith(list: seq<SearchResult>, p: SearchResult -> bool, i: int) {
    0 <= i < |list| && p(list[i]) && forall j :: 0 <= j < i ==> !p(list[j])
  }

  /**
   * The hit chosen among the suggestions: the first whose symbol equals the
   * query, else the first whose name equals it, else the first suggestion.
   */
  function BestMatch(query: string, list: seq<SearchResult>): (r: Option<SearchResult>)
    ensures r.None? <==> list == []
    ensures r.Some? ==> r.value in list
    ensures forall i :: FirstWith(list, SymbolIs(query), i) ==> r == Some(list[i])
    ensures (forall i :: 0 <= i < |list| ==> !SymbolIs(query)(list[i])) ==>
      forall i :: FirstWith(list, NameIs(query), i) ==> r == Some(list[i])
    ensures (forall i :: 0 <= i < |list| ==> !SymbolIs(query)(list[i]) && !NameIs(query)(list[i])) && list != [] ==>
      r == Some(list[0])
  {
    if list == [] then None
    else match FindFirst(list, SymbolIs(query))
      case Some(i) => Some(list[i])
      case None =>
        match FindFirst(list, NameIs(query))
        case Some(j) => Some(list[j])
        case None => Some(list[0])
  }

  /**
   * The search behind the search button: no hit for a blank query, the rate
   * limit passed on, otherwise the best match among the suggestions (compared
   * against the query as typed, not trimmed).
   */
  function SearchCoinGecko(query: string, resp: Http<Option<seq<Coin>>>): (r: Result<Option<SearchResult>, RateLimitError>)
    ensures |Trim(query)| < MIN_QUERY_LENGTH ==> r == Success(None)
    ensures r.Failure? <==> FetchSuggestions(query, resp).Failure?
    ensures r.Success? ==> (r.value.None? <==> FetchSuggestions(query, resp).value == [])
    ensures r.Success? && r.value.Some? ==> r.value.value in FetchSuggestions(query, resp).value
    ensures Trim(query) != [] && r.Success? ==> r.value == BestMatch(query, FetchSuggestions(query, resp).value)
  {
    if Trim(query) == [] then Success(None)
    else match FetchSuggestions(query, resp)
      case Failure(e) => Failure(e)
      case Success(list) => Success(BestMatch(query, list))
  }

  /** `Math.floor(ms / 1000)`: a millisecond timestamp in whole seconds. */
  function MsToSeconds(ms: int): (r: int)
    ensures r * 1000 <= ms < (r + 1) * 1000
  {
    ms / 1000
  }

  /** The price points of a history answer, `[milliseconds, price]` pairs, in seconds and in the same order. */
  function ToPriceHistory(prices: seq<(int, real)>): (r: seq<PriceDataPoint>)
    ensures |r| == |prices|
    ensures forall i :: 0 <= i < |r| ==>
      r[i].price == prices[i].1 && r[i].timestamp * 1000 <= prices[i].0 < (r[i].timestamp + 1) * 1000
  {
    seq(|prices|, i requires 0 <= i < |prices| => PriceDataPoint(MsToSeconds(prices[i].0), prices[i].1))
  }

  /** Conversion to seconds keeps chronological order. */
  lemma {:induction false} HistoryKeepsOrder(prices: seq<(int, real)>)
    requires forall i, j :: 0 <= i < j < |prices| ==> prices[i].0 <= prices[j].0
    ensures var h := ToPriceHistory(prices);
      forall i, j :: 0 <= i < j < |h| ==> h[i].timestamp <= h[j].timestamp
  {
    var h := ToPriceHistory(prices);
    forall i, j | 0 <= i < j < |h| ensures h[i].timestamp <= h[j].timestamp {
      assert h[i].timestamp * 1000 <= prices[i].0 <= prices[j].0 < (h[j].timestamp + 1) * 1000;
    }
  }

  /** The history the record gets after a successful quote: the converted prices, or none if they could not be fetched. */
  function HistoryOf(history: Http<Option<seq<(int, real)>>>): seq<PriceDataPoint> {
    match history
    case Response(status, Some(prices)) =>
      if IsOk(status) && |prices| > 0 then ToPriceHistory(prices) else []
    case _ => []
  }

  /**
   * The `market_data` fields read from a quote. The current price is `None`
   * when it is missing or not a number (the source tests its type); each of
   * the other three is `None` only when it is null or undefined (the source
   * falls back with `??`), and a value present is taken to be a number.
   */
  datatype MarketData = MarketData(
    currentPriceUsd: Option<real>,
    priceChangePercentage24h: Option<real>,
    marketCapUsd: Option<real>,
    totalVolumeUsd: Option<real>)

  /** The quote request answered with a usable current price. */
  predicate QuoteSucceeded(quote: Http<MarketData>) {
    quote.Response? && IsOk(quote.status) && quote.body.currentPriceUsd.Some?
  }

  /** The name an error message uses for an asset: its name, or its id when the name is empty. */
  function NameForError(c: CryptoCurrency): string {
    if c.name != "" then c.name else c.id
  }

  /**
   * The record a good quote makes of `crypto`: the new price, each optional
   * figure replaced only when present, the history replaced (empty when it
   * could not be fetched), stamped at `now`; id, name and symbols kept.
   */
  function Merged(crypto: CryptoCurrency, md: MarketData, history: Http<Option<seq<(int, real)>>>, now: int)
    : (u: CryptoCurrency)
    requires md.currentPriceUsd.Some?
    ensures u.id == crypto.id && u.name == crypto.name && u.symbol == crypto.symbol
    ensures u.tradingViewSymbol == crypto.tradingViewSymbol
    ensures u.currentPrice == md.currentPriceUsd.value
    ensures u.priceChange24hPercent ==
      (if md.priceChangePercentage24h.Some? then md.priceChangePercentage24h.value else crypto.priceChange24hPercent)
    ensures u.marketCap == (if md.marketCapUsd.Some? then md.marketCapUsd.value else crypto.marketCap)
    ensures u.volume24h == (if md.totalVolumeUsd.Some? then md.totalVolumeUsd.value else crypto.volume24h)
    ensures u.priceHistory == HistoryOf(history)
    ensures u.lastUpdated == Some(now)
  {
    crypto.(currentPrice := md.currentPriceUsd.value,
            priceChange24hPercent := md.priceChangePercentage24h.GetOr(crypto.priceChange24hPercent),
            marketCap := md.marketCapUsd.GetOr(crypto.marketCap),
            volume24h := md.totalVolumeUsd.GetOr(crypto.volume24h),
            priceHistory := HistoryOf(history),
            lastUpdated := Some(now))
  }

  /**
   * Refreshes `crypto` from a quote and a price history answer, at time `now`.
   * A 429 on the quote is an error; every other failed quote returns the
   * record unchanged. A good quote replaces the price, the optional market
   * figures when present, the whole history, and stamps the record.
   */
  method FetchCryptoDataWithDetails(crypto: CryptoCurrency, quote: Http<MarketData>,
                                    history: Http<Option<seq<(int, real)>>>, now: int)
    returns (r: Result<CryptoCurrency, RateLimitError>)
    ensures r.Failure? <==> quote.Response? && quote.status == TOO_MANY_REQUESTS
    ensures r.Failure? ==> r.error == DetailsRateLimited(NameForError(crypto))
    ensures r.Success? && !QuoteSucceeded(quote) ==> r.value == crypto
    ensures QuoteSucceeded(quote) ==> r == Success(Merged(crypto, quote.body, history, now))
  {
    var succeeded := false;
    var updated := crypto;
    if quote.NetworkError? {
      return Success(crypto);
    }
    if !IsOk(quote.status) {
      if quote.status == TOO_MANY_REQUESTS {
        return Failure(DetailsRateLimited(NameForError(crypto)));
      }
      return Success(crypto);
    }
    var md := quote.body;
    if md.currentPriceUsd.None? {
      return Success(crypto);
    }
    updated := updated.(currentPrice := md.currentPriceUsd.value);
    updated := updated.(priceChange24hPercent := md.priceChangePercentage24h.GetOr(updated.priceChange24hPercent));
    updated := updated.(marketCap := md.marketCapUsd.GetOr(updated.marketCap));
    updated := updated.(volume24h := md.totalVolumeUsd.GetOr(updated.volume24h));
    succeeded := true;

    updated := updated.(priceHistory := []);
    if history.Response? && IsOk(history.status) && history.body.Some? && |history.body.value| > 0 {
      updated := updated.(priceHistory := ToPriceHistory(history.body.value));
    }

    if succeeded {
      updated := updated.(lastUpdated := Some(now));
    }
    return Success(updated);
  }
}
