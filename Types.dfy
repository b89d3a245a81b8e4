/** The records of the application: assets, price points, advice and price alerts. */
module Types {
  import opened Wrappers

  /** One sample of an asset's price history; `timestamp` is in Unix seconds. */
  datatype PriceDataPoint = PriceDataPoint(timestamp: int, price: real)

  /** A tracked cryptocurrency and its market snapshot; `lastUpdated` is in milliseconds. */
  datatype CryptoCurrency = CryptoCurrency(
    id: string,
    name: string,
    symbol: string,
    tradingViewSymbol: string,
    currentPrice: real,
    priceChange24hPercent: real,
    priceHistory: seq<PriceDataPoint>,
    volume24h: real,
    marketCap: real,
    lastUpdated: Option<int>)

  /** The recommendation kinds: COMPRAR, VENDER, MANTENER and INFO. */
  datatype AdviceType = Buy | Sell | Hold | Info

  /** A recommendation together with the asset snapshot it was computed from; `timestamp` is in milliseconds. */
  datatype Advice = Advice(
    id: string,
    crypto: CryptoCurrency,
    adviceType: AdviceType,
    message: string,
    detailedMessage: Option<string>,
    timestamp: int,
    rawGeminiResponse: Option<string>)

  /** "The price falls to or below the target" and "the price rises to or above the target". */
  datatype AlertConditionType = PriceDropsTo | PriceRisesTo

  /** A user-defined price alert; `createdAt` and `triggeredAt` are in milliseconds. */
  datatype CryptoAlert = CryptoAlert(
    id: string,
    cryptoId: string,
    cryptoName: string,
    cryptoSymbol: string,
    targetPrice: real,
    condition: AlertConditionType,
    createdAt: int,
    isActive: bool,
    triggeredAt: Option<int>)

  /** JavaScript truthiness of an optional numeric timestamp: present and not zero. */
  predicate IsSet(t: Option<int>) {
    t.Some? && t.value != 0
  }
}
