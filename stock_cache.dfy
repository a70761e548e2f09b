/**
 * The quote cache of the finance service: the state `initializeStockData`
 * creates and the `updateBasePrice` hook that changes it in place.
 *
 * Each entry's `volume` and `marketCap` are random draws and are not part of
 * this model; `lastUpdate` is the clock reading passed in as `now`.
 */
module StockCache {

  /** A row of the seed table: base price, display name, daily volatility. */
  datatype Seed = Seed(basePrice: real, name: string, volatility: real)

  /** A cached quote. */
  datatype CachedQuote = CachedQuote(
    symbol: string,
    shortName: string,
    basePrice: real,
    volatility: real,
    price: real,
    change: real,
    changePercent: real,
    currency: string,
    lastUpdate: int)

  /** The stocks and indices the cache starts with. */
  const SeedData: map<string, Seed> := map[
    "AAPL" := Seed(175.50, "Apple Inc.", 0.025),
    "GOOGL" := Seed(142.80, "Alphabet Inc.", 0.030),
    "GOOG" := Seed(144.30, "Alphabet Inc. Class C", 0.030),
    "MSFT" := Seed(338.25, "Microsoft Corporation", 0.022),
    "AMZN" := Seed(154.75, "Amazon.com Inc.", 0.035),
    "TSLA" := Seed(238.50, "Tesla Inc.", 0.050),
    "META" := Seed(325.20, "Meta Platforms Inc.", 0.040),
    "NFLX" := Seed(445.80, "Netflix Inc.", 0.038),
    "NVDA" := Seed(485.60, "NVIDIA Corporation", 0.045),
    "CRM" := Seed(245.30, "Salesforce Inc.", 0.032),
    "ADBE" := Seed(562.80, "Adobe Inc.", 0.028),
    "ORCL" := Seed(118.45, "Oracle Corporation", 0.025),
    "SAP" := Seed(145.20, "SAP SE", 0.028),
    "NOW" := Seed(678.90, "ServiceNow Inc.", 0.035),
    "SNOW" := Seed(186.75, "Snowflake Inc.", 0.045),
    "PLTR" := Seed(16.84, "Palantir Technologies Inc.", 0.055),
    "IBM" := Seed(165.30, "International Business Machines Corp.", 0.025),
    "INTC" := Seed(43.85, "Intel Corporation", 0.035),
    "AMD" := Seed(118.60, "Advanced Micro Devices Inc.", 0.040),
    "PYPL" := Seed(62.45, "PayPal Holdings Inc.", 0.038),
    "SQ" := Seed(78.90, "Block Inc.", 0.045),
    "SHOP" := Seed(65.20, "Shopify Inc.", 0.050),
    "UBER" := Seed(58.30, "Uber Technologies Inc.", 0.042),
    "LYFT" := Seed(14.75, "Lyft Inc.", 0.048),
    "JPM" := Seed(168.45, "JPMorgan Chase & Co.", 0.025),
    "BAC" := Seed(34.85, "Bank of America Corp.", 0.030),
    "WFC" := Seed(48.75, "Wells Fargo & Co.", 0.028),
    "GS" := Seed(385.20, "Goldman Sachs Group Inc.", 0.035),
    "MS" := Seed(88.65, "Morgan Stanley", 0.032),
    "C" := Seed(48.90, "Citigroup Inc.", 0.035),
    "USB" := Seed(42.30, "U.S. Bancorp", 0.028),
    "PNC" := Seed(155.60, "PNC Financial Services Group Inc.", 0.030),
    "V" := Seed(258.70, "Visa Inc.", 0.022),
    "MA" := Seed(418.50, "Mastercard Incorporated", 0.024),
    "AXP" := Seed(178.40, "American Express Company", 0.028),
    "JNJ" := Seed(162.85, "Johnson & Johnson", 0.020),
    "PFE" := Seed(29.45, "Pfizer Inc.", 0.028),
    "UNH" := Seed(548.90, "UnitedHealth Group Inc.", 0.022),
    "ABBV" := Seed(154.20, "AbbVie Inc.", 0.025),
    "MRK" := Seed(108.75, "Merck & Co. Inc.", 0.024),
    "BMY" := Seed(52.30, "Bristol-Myers Squibb Company", 0.026),
    "LLY" := Seed(598.40, "Eli Lilly and Company", 0.028),
    "KO" := Seed(59.85, "Coca-Cola Company", 0.018),
    "PEP" := Seed(174.60, "PepsiCo Inc.", 0.020),
    "WMT" := Seed(165.20, "Walmart Inc.", 0.022),
    "TGT" := Seed(128.45, "Target Corporation", 0.030),
    "COST" := Seed(785.60, "Costco Wholesale Corporation", 0.025),
    "HD" := Seed(378.90, "Home Depot Inc.", 0.024),
    "LOW" := Seed(235.40, "Lowe's Companies Inc.", 0.026),
    "DIS" := Seed(96.75, "Walt Disney Company", 0.035),
    "CMCSA" := Seed(43.20, "Comcast Corporation", 0.025),
    "VZ" := Seed(40.85, "Verizon Communications Inc.", 0.022),
    "T" := Seed(15.95, "AT&T Inc.", 0.028),
    "XOM" := Seed(105.80, "Exxon Mobil Corporation", 0.035),
    "CVX" := Seed(158.40, "Chevron Corporation", 0.032),
    "COP" := Seed(116.30, "ConocoPhillips", 0.038),
    "BA" := Seed(218.50, "Boeing Company", 0.042),
    "CAT" := Seed(298.75, "Caterpillar Inc.", 0.030),
    "GE" := Seed(125.40, "General Electric Company", 0.035),
    "F" := Seed(12.85, "Ford Motor Company", 0.040),
    "GM" := Seed(37.20, "General Motors Company", 0.038),
    "RIVN" := Seed(18.45, "Rivian Automotive Inc.", 0.065),
    "LCID" := Seed(3.68, "Lucid Group Inc.", 0.070),
    "COIN" := Seed(158.70, "Coinbase Global Inc.", 0.060),
    "MSTR" := Seed(1485.30, "MicroStrategy Incorporated", 0.080),
    "GME" := Seed(18.95, "GameStop Corp.", 0.085),
    "AMC" := Seed(4.82, "AMC Entertainment Holdings Inc.", 0.090),
    "%5EGSPC" := Seed(4785.60, "S&P 500", 0.015),
    "%5EDJI" := Seed(37640.20, "Dow Jones Industrial Average", 0.018),
    "%5EIXIC" := Seed(14850.80, "NASDAQ Composite", 0.020),
    "%5EVIX" := Seed(18.45, "CBOE Volatility Index", 0.150)
  ]

  /** The entry `initializeStockData` writes for one seed row: priced at its base, unchanged for the day. */
  function Initial(symbol: string, seed: Seed, now: int): (q: CachedQuote)
    ensures q.symbol == symbol && q.shortName == seed.name
    ensures q.price == q.basePrice == seed.basePrice && q.volatility == seed.volatility
    ensures q.change == 0.0 && q.changePercent == 0.0
  {
    CachedQuote(symbol, seed.name, seed.basePrice, seed.volatility, seed.basePrice, 0.0, 0.0, "USD", now)
  }

  /** A cache in which every row of `table` sits at its base price with no change. */
  ghost predicate AtBase(cache: map<string, CachedQuote>, table: map<string, Seed>, now: int)
  {
    forall symbol :: symbol in table ==> symbol in cache && cache[symbol] == Initial(symbol, table[symbol], now)
  }

  /** The cache after `updateBasePrice(symbol, newBasePrice)`. */
  function BasePriceUpdated(cache: map<string, CachedQuote>, symbol: string, newBasePrice: real): (r: map<string, CachedQuote>)
    ensures r.Keys == cache.Keys
    ensures forall s :: s in cache && s != symbol ==> r[s] == cache[s]
    ensures symbol in cache ==> r[symbol].basePrice == newBasePrice
    ensures symbol in cache ==> r[symbol].(basePrice := cache[symbol].basePrice) == cache[symbol]
    ensures symbol !in cache ==> r == cache
  {
    if symbol in cache then cache[symbol := cache[symbol].(basePrice := newBasePrice)] else cache
  }

  /** Only the last of two base-price updates of a symbol is visible. */
  lemma BasePriceUpdatedTwice(cache: map<string, CachedQuote>, symbol: string, p: real, q: real)
    ensures BasePriceUpdated(BasePriceUpdated(cache, symbol, p), symbol, q) == BasePriceUpdated(cache, symbol, q)
  {
    if symbol in cache {
      var once := BasePriceUpdated(cache, symbol, p);
      assert once[symbol].(basePrice := q) == cache[symbol].(basePrice := q);
    }
  }

  /** Updates of different symbols commute. */
  lemma BasePriceUpdatesCommute(cache: map<string, CachedQuote>, s: string, p: real, t: string, q: real)
    requires s != t
    ensures BasePriceUpdated(BasePriceUpdated(cache, s, p), t, q) == BasePriceUpdated(BasePriceUpdated(cache, t, q), s, p)
  {
  }

  /** A base-price update leaves every entry's current price, change and percentage as they were. */
  lemma BasePriceUpdateKeepsQuote(cache: map<string, CachedQuote>, symbol: string, newBasePrice: real)
    ensures var r := BasePriceUpdated(cache, symbol, newBasePrice);
            forall s :: s in r ==> r[s].price == cache[s].price && r[s].change == cache[s].change
                                   && r[s].changePercent == cache[s].changePercent
  {
  }

  /** The service object's cache. */
  class FinanceApi {
    var stockCache: map<string, CachedQuote>

    /** The constructor: an empty cache, then `initializeStockData`. */
    constructor(now: int)
      ensures stockCache.Keys == SeedData.Keys
      ensures AtBase(stockCache, SeedData, now)
    {
      stockCache := map[];
      new;
      InitializeStockData(now);
    }

    /** `initializeStockData`: writes the initial entry of every seed row, leaving other entries alone. */
    method InitializeStockData(now: int)
      modifies this
      ensures stockCache.Keys == old(stockCache.Keys) + SeedData.Keys
      ensures AtBase(stockCache, SeedData, now)
      ensures forall s :: s in old(stockCache) && s !in SeedData ==> stockCache[s] == old(stockCache[s])
    {
      Load(SeedData, now);
    }

    /** The loop of `initializeStockData` over the rows of `table`. */
    method Load(table: map<string, Seed>, now: int)
      modifies this
      ensures stockCache.Keys == old(stockCache.Keys) + table.Keys
      ensures AtBase(stockCache, table, now)
      ensures forall s :: s in old(stockCache) && s !in table ==> stockCache[s] == old(stockCache[s])
    {
      var remaining := table.Keys;
      while remaining != {}
        invariant remaining <= table.Keys
        invariant forall s :: s in stockCache <==> s in old(stockCache) || (s in table && s !in remaining)
        invariant forall s :: s in table && s !in remaining ==> stockCache[s] == Initial(s, table[s], now)
        invariant forall s :: s in old(stockCache) && s !in table ==> stockCache[s] == old(stockCache[s])
        decreases |remaining|
      {
        var symbol :| symbol in remaining;
        var data := table[symbol];
        var entry := CachedQuote(symbol, data.name, data.basePrice, data.volatility, data.basePrice, 0.0, 0.0, "USD", now);
        assert entry == Initial(symbol, data, now);
        stockCache := stockCache[symbol := entry];
        remaining := remaining - {symbol};
      }
    }

    /** `updateBasePrice`: a known symbol gets the new base price; an unknown one changes nothing. */
    method UpdateBasePrice(symbol: string, newBasePrice: real)
      modifies this
      ensures stockCache == BasePriceUpdated(old(stockCache), symbol, newBasePrice)
    {
      if symbol in stockCache {
        var cached := stockCache[symbol];
        cached := cached.(basePrice := newBasePrice);
        stockCache := stockCache[symbol := cached];
      }
    }
  }
}
