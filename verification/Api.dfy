/**
 * The service layer (`APIService`): the response cache with a time to
 * live, the competitor table, the records the application works with,
 * the mappings from the Financial Modeling Prep responses to those
 * records, the choice between a response and demo data, and the demo data
 * generators themselves.
 *
 * The network is not modelled: a request's outcome is a parameter,
 * `None` when the request failed or did not return an array and
 * `Some(list)` for the parsed array. `Date.now()` is a parameter too.
 */
module Api {
  import opened Numbers
  import opened Wrappers
  import Config

  // ---------------------------------------------------------------------
  // Response cache
  // ---------------------------------------------------------------------

  /** A cached response and the time (milliseconds) it was stored. */
  datatype CacheEntry<T> = CacheEntry(data: T, timestamp: int)

  /** An entry for `key` exists and is younger than `duration` at time `now`. */
  predicate IsFresh<T>(entries: map<string, CacheEntry<T>>, key: string, now: int, duration: int)
  {
    key in entries && now - entries[key].timestamp < duration
  }

  /**
   * The string-keyed cache shared by all requests. `GetCached` is
   * `getCached`: a fresh entry is answered without calling the fetch
   * function; otherwise the fetched data is stored with the time the
   * fetch completed.
   */
  class ResponseCache<T> {
    var entries: map<string, CacheEntry<T>>

    constructor ()
      ensures entries == map[]
    {
      entries := map[];
    }

    /**
     * `now` is the time of the freshness test and `completedAt` the time
     * read again after the fetch; `fetched` is what the fetch function
     * would return, and `fetchUsed` tells whether it was called.
     */
    method GetCached(key: string, fetched: T, now: int, completedAt: int, duration: int)
      returns (data: T, fetchUsed: bool)
      modifies this
      ensures fetchUsed <==> !IsFresh(old(entries), key, now, duration)
      ensures !fetchUsed ==> data == old(entries)[key].data && entries == old(entries)
      ensures fetchUsed ==> data == fetched && entries == old(entries)[key := CacheEntry(fetched, completedAt)]
      ensures forall k :: k != key ==> (k in entries <==> k in old(entries))
      ensures forall k :: k != key && k in entries ==> entries[k] == old(entries)[k]
    {
      if key in entries && now - entries[key].timestamp < duration {
        return entries[key].data, false;
      }
      data := fetched;
      entries := entries[key := CacheEntry(data, completedAt)];
      fetchUsed := true;
    }
  }

  /**
   * After a miss stores `data` at time `t0`, a call at time `now` is
   * answered from the cache with that same data exactly when
   * now - t0 < duration.
   */
  lemma StoredEntryServedWithinDuration<T>(entries: map<string, CacheEntry<T>>, key: string, data: T,
                                           t0: int, now: int, duration: int)
    ensures IsFresh(entries[key := CacheEntry(data, t0)], key, now, duration) <==> now - t0 < duration
    ensures entries[key := CacheEntry(data, t0)][key].data == data
  {
  }

  /** With the default duration of five minutes, a stored entry is served for 300000 ms and no longer. */
  lemma DefaultDurationIsFiveMinutes<T>(entries: map<string, CacheEntry<T>>, key: string, data: T, t0: int, now: int)
    ensures Config.CACHE_DURATION == 300000
    ensures IsFresh(entries[key := CacheEntry(data, t0)], key, now, Config.CACHE_DURATION) <==> now < t0 + 300000
  {
  }

  /** Storing under one key never changes the freshness of another key. */
  lemma StoreKeepsOtherKeys<T>(entries: map<string, CacheEntry<T>>, key: string, other: string, entry: CacheEntry<T>,
                               now: int, duration: int)
    requires other != key
    ensures IsFresh(entries[key := entry], other, now, duration) <==> IsFresh(entries, other, now, duration)
  {
  }

  // ---------------------------------------------------------------------
  // Competitors
  // ---------------------------------------------------------------------

  /** `getCompetitors`: the peers listed for the symbol, or none. */
  function Competitors(symbol: string): (r: seq<string>)
    ensures symbol in Config.COMPETITOR_MAP ==> r == Config.COMPETITOR_MAP[symbol]
    ensures r == [] <==> symbol !in Config.COMPETITOR_MAP
    ensures |r| <= 3
    ensures symbol !in r
  {
    if symbol in Config.COMPETITOR_MAP then Config.COMPETITOR_MAP[symbol] else []
  }

  // ---------------------------------------------------------------------
  // Records
  // ---------------------------------------------------------------------

  datatype Quote = Quote(
    symbol: string,
    name: string,
    price: real,
    change: real,
    changePercent: real,
    dayHigh: real,
    dayLow: real,
    yearHigh: real,
    yearLow: real,
    marketCap: real,
    volume: real,
    avgVolume: real,
    pe: real,
    eps: real)

  /** An annual income statement; the three ratios are percentages. */
  datatype IncomeStatement = IncomeStatement(
    date: string,
    revenue: real,
    costOfRevenue: real,
    grossProfit: real,
    grossProfitRatio: real,
    operatingExpenses: real,
    operatingIncome: real,
    operatingIncomeRatio: real,
    ebitda: real,
    ebitdaRatio: real,
    netIncome: real,
    eps: real)

  datatype BalanceSheet = BalanceSheet(
    date: string,
    cashAndEquivalents: real,
    inventory: real,
    currentAssets: real,
    totalAssets: real,
    currentLiabilities: real,
    totalDebt: real,
    totalEquity: real,
    currentRatio: real)

  datatype CashFlow = CashFlow(
    date: string,
    operatingCashFlow: real,
    capex: real,
    freeCashFlow: real,
    stockBasedCompensation: real)

  // The records as the data provider sends them (only the fields read).

  datatype FmpQuote = FmpQuote(
    symbol: string,
    name: string,
    price: real,
    change: real,
    changesPercentage: real,
    dayHigh: real,
    dayLow: real,
    yearHigh: real,
    yearLow: real,
    marketCap: real,
    volume: real,
    avgVolume: real,
    pe: real,
    eps: real)

  /** The provider's ratios are fractions (0.25 means 25%). */
  datatype FmpIncomeStatement = FmpIncomeStatement(
    date: string,
    revenue: real,
    costOfRevenue: real,
    grossProfit: real,
    grossProfitRatio: real,
    operatingExpenses: real,
    operatingIncome: real,
    operatingIncomeRatio: real,
    ebitda: real,
    ebitdaratio: real,
    netIncome: real,
    eps: real)

  datatype FmpBalanceSheet = FmpBalanceSheet(
    date: string,
    cashAndCashEquivalents: real,
    inventory: real,
    totalCurrentAssets: real,
    totalAssets: real,
    totalCurrentLiabilities: real,
    totalDebt: real,
    totalStockholdersEquity: real)

  /** Stock-based compensation may be missing from the provider's record. */
  datatype FmpCashFlow = FmpCashFlow(
    date: string,
    operatingCashFlow: real,
    capitalExpenditure: real,
    freeCashFlow: real,
    stockBasedCompensation: Option<real>)

  // ---------------------------------------------------------------------
  // Record mappings
  // ---------------------------------------------------------------------

  /** The quote mapping renames `changesPercentage` and copies every other field. */
  function MapQuote(q: FmpQuote): (r: Quote)
    ensures r.changePercent == q.changesPercentage
    ensures r == Quote(q.symbol, q.name, q.price, q.change, q.changesPercentage, q.dayHigh, q.dayLow,
                       q.yearHigh, q.yearLow, q.marketCap, q.volume, q.avgVolume, q.pe, q.eps)
  {
    Quote(symbol := q.symbol, name := q.name, price := q.price, change := q.change,
          changePercent := q.changesPercentage, dayHigh := q.dayHigh, dayLow := q.dayLow,
          yearHigh := q.yearHigh, yearLow := q.yearLow, marketCap := q.marketCap,
          volume := q.volume, avgVolume := q.avgVolume, pe := q.pe, eps := q.eps)
  }

  /** The income mapping turns the three fractional ratios into percentages. */
  function MapIncomeStatement(s: FmpIncomeStatement): (r: IncomeStatement)
    ensures r.grossProfitRatio / 100.0 == s.grossProfitRatio
    ensures r.operatingIncomeRatio / 100.0 == s.operatingIncomeRatio
    ensures r.ebitdaRatio / 100.0 == s.ebitdaratio
    ensures r.date == s.date && r.revenue == s.revenue && r.operatingIncome == s.operatingIncome
    ensures r.costOfRevenue == s.costOfRevenue && r.grossProfit == s.grossProfit
    ensures r.operatingExpenses == s.operatingExpenses && r.ebitda == s.ebitda
    ensures r.netIncome == s.netIncome && r.eps == s.eps
  {
    IncomeStatement(
      date := s.date,
      revenue := s.revenue,
      costOfRevenue := s.costOfRevenue,
      grossProfit := s.grossProfit,
      grossProfitRatio := s.grossProfitRatio * 100.0,
      operatingExpenses := s.operatingExpenses,
      operatingIncome := s.operatingIncome,
      operatingIncomeRatio := s.operatingIncomeRatio * 100.0,
      ebitda := s.ebitda,
      ebitdaRatio := s.ebitdaratio * 100.0,
      netIncome := s.netIncome,
      eps := s.eps)
  }

  /** The balance-sheet mapping derives the current ratio and renames the other fields. */
  function MapBalanceSheet(s: FmpBalanceSheet): (r: BalanceSheet)
    requires s.totalCurrentLiabilities != 0.0
    ensures r.currentRatio * r.currentLiabilities == r.currentAssets
    ensures r.date == s.date && r.cashAndEquivalents == s.cashAndCashEquivalents && r.inventory == s.inventory
    ensures r.currentAssets == s.totalCurrentAssets && r.totalAssets == s.totalAssets
    ensures r.currentLiabilities == s.totalCurrentLiabilities && r.totalDebt == s.totalDebt
    ensures r.totalEquity == s.totalStockholdersEquity
  {
    BalanceSheet(
      date := s.date,
      cashAndEquivalents := s.cashAndCashEquivalents,
      inventory := s.inventory,
      currentAssets := s.totalCurrentAssets,
      totalAssets := s.totalAssets,
      currentLiabilities := s.totalCurrentLiabilities,
      totalDebt := s.totalDebt,
      totalEquity := s.totalStockholdersEquity,
      currentRatio := s.totalCurrentAssets / s.totalCurrentLiabilities)
  }

  /** The cash-flow mapping renames `capitalExpenditure` and reads a missing SBC as 0. */
  function MapCashFlow(s: FmpCashFlow): (r: CashFlow)
    ensures s.stockBasedCompensation.None? ==> r.stockBasedCompensation == 0.0
    ensures s.stockBasedCompensation.Some? ==> r.stockBasedCompensation == s.stockBasedCompensation.value
    ensures r.date == s.date && r.operatingCashFlow == s.operatingCashFlow
    ensures r.capex == s.capitalExpenditure && r.freeCashFlow == s.freeCashFlow
  {
    CashFlow(
      date := s.date,
      operatingCashFlow := s.operatingCashFlow,
      capex := s.capitalExpenditure,
      freeCashFlow := s.freeCashFlow,
      stockBasedCompensation := match s.stockBasedCompensation case Some(v) => v case None => 0.0)
  }

  /** The quote and income mappings lose nothing: different provider records map to different records. */
  lemma MappingsInjective(q1: FmpQuote, q2: FmpQuote, s1: FmpIncomeStatement, s2: FmpIncomeStatement)
    ensures MapQuote(q1) == MapQuote(q2) ==> q1 == q2
    ensures MapIncomeStatement(s1) == MapIncomeStatement(s2) ==> s1 == s2
  {
    if MapIncomeStatement(s1) == MapIncomeStatement(s2) {
      assert s1.grossProfitRatio == MapIncomeStatement(s1).grossProfitRatio / 100.0;
      assert s2.grossProfitRatio == MapIncomeStatement(s2).grossProfitRatio / 100.0;
    }
  }

  /** The balance-sheet mapping loses nothing either: the derived current ratio is the only added field. */
  lemma MapBalanceSheetInjective(s1: FmpBalanceSheet, s2: FmpBalanceSheet)
    requires s1.totalCurrentLiabilities != 0.0 && s2.totalCurrentLiabilities != 0.0
    ensures MapBalanceSheet(s1) == MapBalanceSheet(s2) ==> s1 == s2
  {
  }

  /**
   * The cash-flow mapping reads a missing SBC and a reported SBC of 0 alike,
   * so two records that differ only there map to the same statement.
   */
  lemma MapCashFlowMergesMissingAndZero(s: FmpCashFlow)
    ensures MapCashFlow(s.(stockBasedCompensation := None)) == MapCashFlow(s.(stockBasedCompensation := Some(0.0)))
    ensures s.(stockBasedCompensation := None) != s.(stockBasedCompensation := Some(0.0))
  {
  }

  // ---------------------------------------------------------------------
  // Response or demo data
  // ---------------------------------------------------------------------

  /** `fetchStockQuote`: the first quote of a non-empty response, else the demo quote. */
  function FetchStockQuote(symbol: string, response: Option<seq<FmpQuote>>): (r: Quote)
    ensures response.Some? && |response.value| > 0 ==> r == MapQuote(response.value[0])
    ensures response.None? || |response.value| == 0 ==> r == MockQuote(symbol)
  {
    if response.Some? && |response.value| > 0 then MapQuote(response.value[0]) else MockQuote(symbol)
  }

  /** `fetchIncomeStatement`: every statement of a non-empty response mapped in order, else the demo statements. */
  function FetchIncomeStatement(symbol: string, response: Option<seq<FmpIncomeStatement>>): (r: seq<IncomeStatement>)
    ensures response.Some? && |response.value| > 0 ==>
              |r| == |response.value| && forall i :: 0 <= i < |r| ==> r[i] == MapIncomeStatement(response.value[i])
    ensures response.None? || |response.value| == 0 ==> r == MockIncomeStatement(symbol)
    ensures |r| > 0
  {
    if response.Some? && |response.value| > 0 then
      var data := response.value;
      seq(|data|, i requires 0 <= i < |data| => MapIncomeStatement(data[i]))
    else MockIncomeStatement(symbol)
  }

  /** `fetchBalanceSheet`: the mapped statements of a non-empty response, else the demo statements. */
  function FetchBalanceSheet(symbol: string, response: Option<seq<FmpBalanceSheet>>): (r: seq<BalanceSheet>)
    requires response.Some? ==> forall i :: 0 <= i < |response.value| ==> response.value[i].totalCurrentLiabilities != 0.0
    ensures response.Some? && |response.value| > 0 ==>
              |r| == |response.value| && forall i :: 0 <= i < |r| ==> r[i] == MapBalanceSheet(response.value[i])
    ensures response.None? || |response.value| == 0 ==> r == MockBalanceSheet(symbol)
    ensures |r| > 0
  {
    if response.Some? && |response.value| > 0 then
      var data := response.value;
      seq(|data|, i requires 0 <= i < |data| => MapBalanceSheet(data[i]))
    else MockBalanceSheet(symbol)
  }

  /** `fetchCashFlow`: the mapped statements of a non-empty response, else the demo statements. */
  function FetchCashFlow(symbol: string, response: Option<seq<FmpCashFlow>>): (r: seq<CashFlow>)
    ensures response.Some? && |response.value| > 0 ==>
              |r| == |response.value| && forall i :: 0 <= i < |r| ==> r[i] == MapCashFlow(response.value[i])
    ensures response.None? || |response.value| == 0 ==> r == MockCashFlow(symbol)
    ensures |r| > 0
  {
    if response.Some? && |response.value| > 0 then
      var data := response.value;
      seq(|data|, i requires 0 <= i < |data| => MapCashFlow(data[i]))
    else MockCashFlow(symbol)
  }

  // ---------------------------------------------------------------------
  // Demo data
  // ---------------------------------------------------------------------

  datatype MockPrice = MockPrice(price: real, name: string, pe: real, marketCap: real)

  /** The demo quotes of the five known tickers. */
  const MOCK_PRICES: map<string, MockPrice> := map[
    "GRMN" := MockPrice(195.50, "Garmin Ltd.", 22.5, 37.5e9),
    "AAPL" := MockPrice(189.50, "Apple Inc.", 28.5, 2.9e12),
    "COST" := MockPrice(899.50, "Costco Wholesale", 45.2, 398e9),
    "MSFT" := MockPrice(378.00, "Microsoft Corporation", 35.1, 2.8e12),
    "NVDA" := MockPrice(560.00, "NVIDIA Corporation", 45.0, 1.4e12)
  ]

  /** The demo entry of a symbol: its table entry, or price 100, P/E 20 and a 10e9 market cap under its own name. */
  function MockPriceFor(symbol: string): (m: MockPrice)
    ensures symbol in MOCK_PRICES ==> m == MOCK_PRICES[symbol]
    ensures symbol !in MOCK_PRICES ==> m == MockPrice(100.0, symbol, 20.0, 10e9)
    ensures m.price > 0.0 && m.pe > 0.0
  {
    if symbol in MOCK_PRICES then MOCK_PRICES[symbol] else MockPrice(100.0, symbol, 20.0, 10e9)
  }

  /** `getMockQuote`: a quote derived from the demo price by fixed proportions. */
  function MockQuote(symbol: string): (q: Quote)
    ensures q.symbol == symbol
    ensures symbol !in MOCK_PRICES ==> q.price == 100.0 && q.pe == 20.0 && q.marketCap == 10e9 && q.name == symbol
    ensures q.eps * q.pe == q.price
  {
    var mock := MockPriceFor(symbol);
    Quote(
      symbol := symbol,
      name := mock.name,
      price := mock.price,
      change := mock.price * 0.012,
      changePercent := 1.2,
      dayHigh := mock.price * 1.015,
      dayLow := mock.price * 0.995,
      yearHigh := mock.price * 1.25,
      yearLow := mock.price * 0.68,
      marketCap := mock.marketCap,
      volume := 850000.0,
      avgVolume := 980000.0,
      pe := mock.pe,
      eps := mock.price / mock.pe)
  }

  /** Every demo price lies strictly inside its day range and its 52-week range. */
  lemma MockQuoteRanges(symbol: string)
    ensures MockQuote(symbol).price > 0.0
    ensures MockQuote(symbol).dayLow < MockQuote(symbol).price < MockQuote(symbol).dayHigh
    ensures MockQuote(symbol).yearLow < MockQuote(symbol).price < MockQuote(symbol).yearHigh
  {
  }

  /** The five fiscal years of the demo statements, newest first. */
  const MOCK_YEARS: seq<string> := ["2023", "2022", "2021", "2020", "2019"]

  /** Year-end date of the i-th demo year. */
  function MockDate(i: nat): string
    requires i < |MOCK_YEARS|
  {
    MOCK_YEARS[i] + "-12-31"
  }

  /** Demo revenue i years back: 6.3e9 deflated by 15% per year (x^-i written as 1 / x^i). */
  function MockRevenue(i: nat): (r: real)
    ensures r > 0.0
  {
    PowPositive(1.15, i);
    6.3e9 / Pow(1.15, i)
  }

  function MockIncomeRecord(i: nat): IncomeStatement
    requires i < |MOCK_YEARS|
  {
    var revenue := MockRevenue(i);
    IncomeStatement(
      date := MockDate(i),
      revenue := revenue,
      costOfRevenue := revenue * 0.38,
      grossProfit := revenue * 0.62,
      grossProfitRatio := 62.0,
      operatingExpenses := revenue * 0.37,
      operatingIncome := revenue * 0.25,
      operatingIncomeRatio := 25.0,
      ebitda := revenue * 0.28,
      ebitdaRatio := 28.0,
      netIncome := revenue * 0.20,
      eps := (revenue * 0.20) / 192.5e6)
  }

  /** `getMockIncomeStatement`: five statements, newest first; the symbol is ignored. */
  function MockIncomeStatement(symbol: string): (r: seq<IncomeStatement>)
    ensures |r| == 5
    ensures forall i :: 0 <= i < 5 ==> r[i].date == MOCK_YEARS[i] + "-12-31"
    ensures forall i :: 0 <= i < 5 ==> r[i].costOfRevenue + r[i].grossProfit == r[i].revenue
    ensures forall i :: 0 <= i < 5 ==> r[i].operatingIncome == r[i].revenue * (r[i].operatingIncomeRatio / 100.0)
  {
    seq(5, i requires 0 <= i < 5 => MockIncomeRecord(i))
  }

  /** Demo revenue falls strictly from the newest year to the oldest. */
  lemma MockRevenueDecreasing(symbol: string, i: nat, j: nat)
    requires i < j < 5
    ensures 0.0 < MockIncomeStatement(symbol)[j].revenue < MockIncomeStatement(symbol)[i].revenue
  {
    PowMonotone(1.15, i, j);
    DivideByLarger(6.3e9, Pow(1.15, i), Pow(1.15, j));
  }

  /** Demo total assets i years back: 8e9 deflated by 10% per year. */
  function MockAssets(i: nat): (r: real)
    ensures r > 0.0
  {
    PowPositive(1.1, i);
    8e9 / Pow(1.1, i)
  }

  function MockBalanceRecord(i: nat): BalanceSheet
    requires i < |MOCK_YEARS|
  {
    var assets := MockAssets(i);
    assert (assets * 0.75) / (assets * 0.25) == 3.0;
    BalanceSheet(
      date := MockDate(i),
      cashAndEquivalents := assets * 0.44,
      inventory := assets * 0.13,
      currentAssets := assets * 0.75,
      totalAssets := assets,
      currentLiabilities := assets * 0.25,
      totalDebt := 0.0,
      totalEquity := assets * 0.75,
      currentRatio := 3.0)
  }

  /** `getMockBalanceSheet`: five debt-free balance sheets whose stated current ratio is the true one. */
  function MockBalanceSheet(symbol: string): (r: seq<BalanceSheet>)
    ensures |r| == 5
    ensures forall i :: 0 <= i < 5 ==> r[i].date == MOCK_YEARS[i] + "-12-31"
    ensures forall i :: 0 <= i < 5 ==>
              r[i].totalDebt == 0.0 && r[i].totalEquity == r[i].currentAssets &&
              r[i].currentLiabilities > 0.0 && r[i].currentAssets / r[i].currentLiabilities == r[i].currentRatio == 3.0
  {
    seq(5, i requires 0 <= i < 5 => MockBalanceRecord(i))
  }

  /** Demo operating cash flow i years back: 1.5e9 deflated by 12% per year. */
  function MockOperatingCashFlow(i: nat): (r: real)
    ensures r > 0.0
  {
    PowPositive(1.12, i);
    1.5e9 / Pow(1.12, i)
  }

  function MockCashFlowRecord(i: nat): CashFlow
    requires i < |MOCK_YEARS|
  {
    var ocf := MockOperatingCashFlow(i);
    CashFlow(
      date := MockDate(i),
      operatingCashFlow := ocf,
      capex := ocf * 0.15,
      freeCashFlow := ocf * 0.85,
      stockBasedCompensation := ocf * 0.02)
  }

  /** `getMockCashFlow`: five statements whose free cash flow is operating cash flow less capex. */
  function MockCashFlow(symbol: string): (r: seq<CashFlow>)
    ensures |r| == 5
    ensures forall i :: 0 <= i < 5 ==> r[i].date == MOCK_YEARS[i] + "-12-31"
    ensures forall i :: 0 <= i < 5 ==> r[i].freeCashFlow == r[i].operatingCashFlow - r[i].capex
  {
    seq(5, i requires 0 <= i < 5 => MockCashFlowRecord(i))
  }
}
