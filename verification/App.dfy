/**
 * The application object (`App`): the stock under analysis with the
 * metrics derived from its statements, the watchlist and its three
 * operations, the overview verdict, and the buy prices and label of the
 * valuation panel.
 *
 * The page itself (DOM, charts, alerts), persistence in local storage and
 * the network are not modelled; the clock (`new Date()`) and the slider
 * positions are parameters.
 */
module App {
  import opened Numbers
  import opened Wrappers
  import Api
  import Calculations

  // ---------------------------------------------------------------------
  // State
  // ---------------------------------------------------------------------

  /** One ROIC value per fiscal year. */
  datatype RoicPoint = RoicPoint(year: string, roic: real)

  /** What `calculateMetrics` stores on the current stock. */
  datatype Metrics = Metrics(
    avgRoic: real,
    revenueGrowth: real,
    inventoryGrowth: real,
    marginChange: real,
    dcfResult: Calculations.DcfResult,
    mos: real,
    redFlags: seq<Calculations.RedFlag>,
    score: Calculations.Score,
    debtToEquity: real,
    currentRatio: real,
    fcf: real)

  /** The stock under analysis; statements are newest first. The company profile is not modelled. */
  datatype CurrentStock = CurrentStock(
    symbol: string,
    quote: Api.Quote,
    incomeStmt: seq<Api.IncomeStatement>,
    balanceSheet: seq<Api.BalanceSheet>,
    cashFlow: seq<Api.CashFlow>,
    roicData: seq<RoicPoint>,
    metrics: Option<Metrics>)

  datatype WatchlistEntry = WatchlistEntry(
    symbol: string,
    name: string,
    price: real,
    targetPrice: real,
    mos: real,
    score: int,
    addedDate: string)

  // ---------------------------------------------------------------------
  // Watchlist rules
  // ---------------------------------------------------------------------

  /** Some entry of the list has this symbol. */
  predicate HasSymbol(watchlist: seq<WatchlistEntry>, symbol: string)
  {
    exists i :: 0 <= i < |watchlist| && watchlist[i].symbol == symbol
  }

  /** No symbol appears twice. */
  predicate DistinctSymbols(watchlist: seq<WatchlistEntry>)
  {
    forall i, j :: 0 <= i < j < |watchlist| ==> watchlist[i].symbol != watchlist[j].symbol
  }

  /** The `filter` of `removeFromWatchlist`: the entries whose symbol differs, in their order. */
  function Without(watchlist: seq<WatchlistEntry>, symbol: string): (r: seq<WatchlistEntry>)
    ensures forall e :: e in r <==> e in watchlist && e.symbol != symbol
    ensures !HasSymbol(r, symbol)
    ensures |r| <= |watchlist|
  {
    if |watchlist| == 0 then []
    else (if watchlist[0].symbol != symbol then [watchlist[0]] else []) + Without(watchlist[1..], symbol)
  }

  /** Filtering distributes over concatenation, so relative order is kept. */
  lemma {:induction false} WithoutDistributes(a: seq<WatchlistEntry>, b: seq<WatchlistEntry>, symbol: string)
    ensures Without(a + b, symbol) == Without(a, symbol) + Without(b, symbol)
  {
    if |a| > 0 {
      var head := if a[0].symbol != symbol then [a[0]] else [];
      assert (a + b)[0] == a[0];
      assert (a + b)[1..] == a[1..] + b;
      assert Without(a + b, symbol) == head + Without(a[1..] + b, symbol);
      assert Without(a, symbol) == head + Without(a[1..], symbol);
      WithoutDistributes(a[1..], b, symbol);
      ConcatAssociative(head, Without(a[1..], symbol), Without(b, symbol));
    } else {
      assert a + b == b;
    }
  }

  lemma ConcatAssociative(x: seq<WatchlistEntry>, y: seq<WatchlistEntry>, z: seq<WatchlistEntry>)
    ensures x + (y + z) == (x + y) + z
  {
  }

  /** Removing a symbol that is not listed changes nothing. */
  lemma {:induction false} WithoutAbsentSymbol(watchlist: seq<WatchlistEntry>, symbol: string)
    requires !HasSymbol(watchlist, symbol)
    ensures Without(watchlist, symbol) == watchlist
  {
    if |watchlist| > 0 {
      WithoutAbsentSymbol(watchlist[1..], symbol);
      assert watchlist[0].symbol != symbol;
      assert [watchlist[0]] + watchlist[1..] == watchlist;
    }
  }

  /** Removing keeps symbols distinct. */
  lemma {:induction false} WithoutKeepsDistinct(watchlist: seq<WatchlistEntry>, symbol: string)
    requires DistinctSymbols(watchlist)
    ensures DistinctSymbols(Without(watchlist, symbol))
  {
    if |watchlist| > 0 {
      var rest := watchlist[1..];
      assert DistinctSymbols(rest) by {
        forall i, j | 0 <= i < j < |rest|
          ensures rest[i].symbol != rest[j].symbol
        {
          assert rest[i] == watchlist[i + 1] && rest[j] == watchlist[j + 1];
        }
      }
      WithoutKeepsDistinct(rest, symbol);
      var tail := Without(rest, symbol);
      if watchlist[0].symbol != symbol {
        var r := [watchlist[0]] + tail;
        forall i, j | 0 <= i < j < |r|
          ensures r[i].symbol != r[j].symbol
        {
          if i == 0 {
            assert r[j] == tail[j - 1] && r[j] in rest;
            var k :| 0 <= k < |rest| && rest[k] == r[j];
            assert watchlist[k + 1] == r[j];
          } else {
            assert r[i] == tail[i - 1] && r[j] == tail[j - 1];
          }
        }
        assert Without(watchlist, symbol) == r;
      } else {
        assert Without(watchlist, symbol) == tail;
      }
    }
  }

  /** Appending an entry whose symbol is not listed keeps symbols distinct and lists it. */
  lemma AppendKeepsDistinct(watchlist: seq<WatchlistEntry>, entry: WatchlistEntry)
    requires DistinctSymbols(watchlist) && !HasSymbol(watchlist, entry.symbol)
    ensures DistinctSymbols(watchlist + [entry])
    ensures HasSymbol(watchlist + [entry], entry.symbol)
  {
    var w := watchlist + [entry];
    assert w[|watchlist|] == entry;
    forall i, j | 0 <= i < j < |w|
      ensures w[i].symbol != w[j].symbol
    {
      assert w[i] == watchlist[i];
      if j < |watchlist| {
        assert w[j] == watchlist[j];
      }
    }
  }

  // ---------------------------------------------------------------------
  // Metric derivation
  // ---------------------------------------------------------------------

  /** The tax rate `calculateMetrics` assumes, in percent. */
  const ASSUMED_TAX_RATE: real := 21.0

  /** `substring(0, 4)`: the first four characters, or the whole string when shorter. */
  function YearOf(date: string): (r: string)
    ensures |r| <= 4 && r <= date
    ensures |date| >= 4 ==> |r| == 4
    ensures |date| < 4 ==> r == date
  {
    if |date| >= 4 then date[..4] else date
  }

  /** The ROIC of statement i with the balance sheet of the same index, at the assumed tax rate. */
  function YearRoic(stmt: Api.IncomeStatement, bs: Api.BalanceSheet): real
  {
    Calculations.CalculateRoic(stmt.operatingIncome, ASSUMED_TAX_RATE, bs.totalEquity, bs.totalDebt, bs.cashAndEquivalents)
  }

  /** The per-year ROIC series: one point per income statement, paired by index with the balance sheets. */
  function RoicSeries(incomeStmt: seq<Api.IncomeStatement>, balanceSheet: seq<Api.BalanceSheet>): (r: seq<RoicPoint>)
    requires |balanceSheet| >= |incomeStmt|
    ensures |r| == |incomeStmt|
    ensures forall i :: 0 <= i < |r| ==>
              r[i].year == YearOf(incomeStmt[i].date) && r[i].roic == YearRoic(incomeStmt[i], balanceSheet[i])
  {
    seq(|incomeStmt|, i requires 0 <= i < |incomeStmt| => RoicPoint(YearOf(incomeStmt[i].date), YearRoic(incomeStmt[i], balanceSheet[i])))
  }

  /** The ROIC values of a series. */
  function RoicValues(roicData: seq<RoicPoint>): (r: seq<real>)
    ensures |r| == |roicData| && forall i :: 0 <= i < |r| ==> r[i] == roicData[i].roic
  {
    seq(|roicData|, i requires 0 <= i < |roicData| => roicData[i].roic)
  }

  /** The `reduce` sum of the ROIC values divided by their count. */
  function AverageRoic(roicData: seq<RoicPoint>): real
    requires |roicData| > 0
  {
    Sum(RoicValues(roicData)) / (|roicData| as real)
  }

  /** The average lies between the smallest and the largest bound of the yearly values. */
  lemma AverageRoicBounds(roicData: seq<RoicPoint>, lo: real, hi: real)
    requires |roicData| > 0
    requires forall i :: 0 <= i < |roicData| ==> lo <= roicData[i].roic <= hi
    ensures lo <= AverageRoic(roicData) <= hi
  {
    var values := RoicValues(roicData);
    SumBounds(values, lo, hi);
    var n := |roicData| as real;
    var avg := AverageRoic(roicData);
    assert avg * n == Sum(values);
    if avg < lo {
      assert false;
    }
    if avg > hi {
      assert false;
    }
  }

  /** Year-over-year revenue growth of the two newest statements; 0 with fewer than two. */
  function RevenueGrowth(incomeStmt: seq<Api.IncomeStatement>): (r: real)
    ensures |incomeStmt| < 2 ==> r == 0.0
    ensures |incomeStmt| >= 2 && incomeStmt[1].revenue == 0.0 ==> r == 0.0
    ensures |incomeStmt| >= 2 && incomeStmt[1].revenue != 0.0 ==>
              incomeStmt[0].revenue == incomeStmt[1].revenue * (1.0 + r / 100.0)
  {
    if |incomeStmt| > 1 then Calculations.CalculateGrowthRate(incomeStmt[1].revenue, incomeStmt[0].revenue) else 0.0
  }

  /** Year-over-year inventory growth of the two newest balance sheets; 0 with fewer than two. */
  function InventoryGrowth(balanceSheet: seq<Api.BalanceSheet>): (r: real)
    ensures |balanceSheet| < 2 ==> r == 0.0
    ensures |balanceSheet| >= 2 && balanceSheet[1].inventory == 0.0 ==> r == 0.0
    ensures |balanceSheet| >= 2 && balanceSheet[1].inventory != 0.0 ==>
              balanceSheet[0].inventory == balanceSheet[1].inventory * (1.0 + r / 100.0)
  {
    if |balanceSheet| > 1 then Calculations.CalculateGrowthRate(balanceSheet[1].inventory, balanceSheet[0].inventory) else 0.0
  }

  /** Change of the operating margin between the two newest statements, in points; 0 with fewer than two. */
  function MarginChange(incomeStmt: seq<Api.IncomeStatement>): (r: real)
    ensures |incomeStmt| < 2 ==> r == 0.0
    ensures |incomeStmt| >= 2 ==> incomeStmt[1].operatingIncomeRatio + r == incomeStmt[0].operatingIncomeRatio
  {
    if |incomeStmt| > 1 then incomeStmt[0].operatingIncomeRatio - incomeStmt[1].operatingIncomeRatio else 0.0
  }

  /** `Math.min(revenueGrowth, 15)`: the growth the valuation is allowed to assume. */
  function ConservativeGrowth(revenueGrowth: real): (r: real)
    ensures r <= 15.0 && r <= revenueGrowth
    ensures r == revenueGrowth || r == 15.0
  {
    if revenueGrowth < 15.0 then revenueGrowth else 15.0
  }

  /** The inputs `calculateMetrics` reads are present and its divisions are defined. */
  predicate MetricsDefined(stock: CurrentStock)
  {
    |stock.incomeStmt| > 0 &&
    |stock.balanceSheet| >= |stock.incomeStmt| &&
    |stock.cashFlow| > 0 &&
    stock.incomeStmt[0].revenue != 0.0 &&
    stock.quote.price != 0.0 && stock.quote.pe != 0.0 &&
    stock.balanceSheet[0].totalEquity != 0.0
  }

  /** The valuation assumptions of `calculateMetrics`: fixed tax, terminal growth and discount rate. */
  function MetricsDcfParams(stock: CurrentStock): (p: Calculations.DcfParams)
    requires MetricsDefined(stock)
    ensures Calculations.DcfDefined(p)
    ensures p.revenueGrowth == ConservativeGrowth(RevenueGrowth(stock.incomeStmt)) && p.revenueGrowth <= 15.0
    ensures p.currentRevenue == stock.incomeStmt[0].revenue
    ensures p.operatingMargin == stock.incomeStmt[0].operatingIncomeRatio
    ensures p.capexPercent * stock.incomeStmt[0].revenue == Abs(stock.cashFlow[0].capex) * 100.0
    ensures p.sharesOutstanding * (stock.quote.price / stock.quote.pe) == stock.balanceSheet[0].totalEquity
    ensures p.cash == stock.balanceSheet[0].cashAndEquivalents && p.debt == stock.balanceSheet[0].totalDebt
    ensures p.taxRate == 21.0 && p.terminalGrowth == 2.5 && p.discountRate == 10.0
  {
    var latest := stock.incomeStmt[0];
    var latestBS := stock.balanceSheet[0];
    var latestCF := stock.cashFlow[0];
    var shares := latestBS.totalEquity / (stock.quote.price / stock.quote.pe);
    assert shares * (stock.quote.price / stock.quote.pe) == latestBS.totalEquity;
    Calculations.DcfParams(
      currentRevenue := latest.revenue,
      revenueGrowth := ConservativeGrowth(RevenueGrowth(stock.incomeStmt)),
      operatingMargin := latest.operatingIncomeRatio,
      taxRate := ASSUMED_TAX_RATE,
      capexPercent := (Abs(latestCF.capex) / latest.revenue) * 100.0,
      terminalGrowth := 2.5,
      discountRate := 10.0,
      sharesOutstanding := shares,
      cash := latestBS.cashAndEquivalents,
      debt := latestBS.totalDebt)
  }

  /** The red-flag inputs: the two growth rates, the newest SBC and revenue, and the margin change. */
  function MetricsRedFlagInput(stock: CurrentStock): (d: Calculations.RedFlagInput)
    requires MetricsDefined(stock)
    ensures d.revenue == stock.incomeStmt[0].revenue && d.revenue != 0.0
    ensures d.inventoryGrowth == InventoryGrowth(stock.balanceSheet)
    ensures d.revenueGrowth == RevenueGrowth(stock.incomeStmt)
    ensures d.sbc == stock.cashFlow[0].stockBasedCompensation
    ensures d.marginChange == MarginChange(stock.incomeStmt)
  {
    Calculations.RedFlagInput(
      inventoryGrowth := InventoryGrowth(stock.balanceSheet),
      revenueGrowth := RevenueGrowth(stock.incomeStmt),
      sbc := stock.cashFlow[0].stockBasedCompensation,
      revenue := stock.incomeStmt[0].revenue,
      marginChange := MarginChange(stock.incomeStmt))
  }

  /** The score inputs; interest coverage, moat and management are fixed placeholders. */
  function MetricsScoreInput(stock: CurrentStock, avgRoic: real, mos: real, redFlags: seq<Calculations.RedFlag>)
    : (m: Calculations.ScoreInput)
    requires MetricsDefined(stock)
    ensures m.interestCoverage == 10.0 && m.moatStrength == "Moderate" && m.managementQuality == "A"
    ensures m.roic == avgRoic && m.mos == mos && m.redFlags == Some(redFlags)
    ensures m.currentRatio == stock.balanceSheet[0].currentRatio
    ensures m.debtToEquity * stock.balanceSheet[0].totalEquity == stock.balanceSheet[0].totalDebt
    ensures m.operatingMargin == stock.incomeStmt[0].operatingIncomeRatio
  {
    var latestBS := stock.balanceSheet[0];
    Calculations.ScoreInput(
      currentRatio := latestBS.currentRatio,
      debtToEquity := latestBS.totalDebt / latestBS.totalEquity,
      interestCoverage := 10.0,
      operatingMargin := stock.incomeStmt[0].operatingIncomeRatio,
      roic := avgRoic,
      mos := mos,
      redFlags := Some(redFlags),
      moatStrength := "Moderate",
      managementQuality := "A")
  }

  /** The placeholders give 10 moat points and 4 management points, and the interest-coverage bonus. */
  lemma MetricsScorePlaceholders(stock: CurrentStock, avgRoic: real, mos: real, redFlags: seq<Calculations.RedFlag>)
    requires MetricsDefined(stock)
    ensures Calculations.ScoreBreakdown(MetricsScoreInput(stock, avgRoic, mos, redFlags)).qualitative == 14
    ensures MetricsScoreInput(stock, avgRoic, mos, redFlags).interestCoverage > 5.0
  {
    assert "Moderate" != "Wide";
  }

  /**
   * The metrics `calculateMetrics` derives from a stock whose red flags
   * are `redFlags`: the average ROIC, the three year-over-year changes,
   * the valuation at the fixed assumptions, the margin of safety at the
   * quoted price, the score, and three figures of the newest statements.
   */
  function MetricsFor(stock: CurrentStock, redFlags: seq<Calculations.RedFlag>): (m: Metrics)
    requires MetricsDefined(stock)
    ensures m.revenueGrowth == RevenueGrowth(stock.incomeStmt) && m.marginChange == MarginChange(stock.incomeStmt)
    ensures m.inventoryGrowth == InventoryGrowth(stock.balanceSheet)
    ensures m.redFlags == redFlags
    ensures m.debtToEquity * stock.balanceSheet[0].totalEquity == stock.balanceSheet[0].totalDebt
    ensures m.currentRatio == stock.balanceSheet[0].currentRatio && m.fcf == stock.cashFlow[0].freeCashFlow
    ensures m.avgRoic == AverageRoic(RoicSeries(stock.incomeStmt, stock.balanceSheet))
    ensures m.dcfResult == Calculations.Dcf(MetricsDcfParams(stock))
    ensures m.mos == Calculations.CalculateMos(m.dcfResult.intrinsicValue, stock.quote.price)
    ensures m.score == Calculations.MoneyTalksScore(MetricsScoreInput(stock, m.avgRoic, m.mos, redFlags))
    ensures m.score.verdict == Calculations.VerdictFor(m.score.totalScore)
  {
    var latestBS := stock.balanceSheet[0];
    var avgRoic := AverageRoic(RoicSeries(stock.incomeStmt, stock.balanceSheet));
    var dcfResult := Calculations.Dcf(MetricsDcfParams(stock));
    var mos := Calculations.CalculateMos(dcfResult.intrinsicValue, stock.quote.price);
    var scoreInput := MetricsScoreInput(stock, avgRoic, mos, redFlags);
    Calculations.VerdictOfRawEqualsVerdictOfTotal(scoreInput);
    Metrics(
      avgRoic := avgRoic,
      revenueGrowth := RevenueGrowth(stock.incomeStmt),
      inventoryGrowth := InventoryGrowth(stock.balanceSheet),
      marginChange := MarginChange(stock.incomeStmt),
      dcfResult := dcfResult,
      mos := mos,
      redFlags := redFlags,
      score := Calculations.MoneyTalksScore(scoreInput),
      debtToEquity := latestBS.totalDebt / latestBS.totalEquity,
      currentRatio := latestBS.currentRatio,
      fcf := stock.cashFlow[0].freeCashFlow)
  }

  // ---------------------------------------------------------------------
  // Overview verdict and valuation panel
  // ---------------------------------------------------------------------

  datatype OverviewVerdict = StrongBuy | Buy | Hold | SellAvoid

  /** Position of a verdict from worst (0) to best (3). */
  function VerdictRank(v: OverviewVerdict): nat
  {
    match v
    case SellAvoid => 0
    case Hold => 1
    case Buy => 2
    case StrongBuy => 3
  }

  /** The `displayOverview` verdict from the total score and the margin of safety. */
  function OverviewVerdictFor(totalScore: int, mos: real): (v: OverviewVerdict)
    ensures v == StrongBuy <==> totalScore >= 80 && mos >= 30.0
    ensures v == Buy <==> !(totalScore >= 80 && mos >= 30.0) && totalScore >= 60 && mos >= 15.0
    ensures v == Hold <==> !(totalScore >= 60 && mos >= 15.0) && (totalScore >= 40 || mos >= 0.0)
    ensures v == SellAvoid <==> totalScore < 40 && mos < 0.0
  {
    if totalScore >= 80 && mos >= 30.0 then StrongBuy
    else if totalScore >= 60 && mos >= 15.0 then Buy
    else if totalScore >= 40 || mos >= 0.0 then Hold
    else SellAvoid
  }

  /** A better score and a larger margin of safety never give a worse verdict. */
  lemma OverviewVerdictMonotone(s1: int, m1: real, s2: int, m2: real)
    requires s1 <= s2 && m1 <= m2
    ensures VerdictRank(OverviewVerdictFor(s1, m1)) <= VerdictRank(OverviewVerdictFor(s2, m2))
  {
  }

  datatype MosLabel = BuyZone | FairValue | Overvalued

  /** The label of the valuation panel: buy zone from 30%, fair value from 15%. */
  function MosLabelFor(mos: real): (l: MosLabel)
    ensures l == BuyZone <==> mos >= 30.0
    ensures l == FairValue <==> 15.0 <= mos < 30.0
    ensures l == Overvalued <==> mos < 15.0
  {
    if mos >= 30.0 then BuyZone else if mos >= 15.0 then FairValue else Overvalued
  }

  /** The slider positions of the valuation panel (percentages). */
  datatype Sliders = Sliders(
    revenueGrowth: real,
    terminalGrowth: real,
    operatingMargin: real,
    discountRate: real,
    taxRate: real,
    capexPercent: real)

  /** What the panel shows: the valuation, the margin of safety, the two buy prices and the label. */
  datatype DcfPanel = DcfPanel(
    dcfResult: Calculations.DcfResult,
    mos: real,
    buyPrice: real,
    strongBuyPrice: real,
    mosLabel: MosLabel)

  /** `quote.pe || 20`: a zero P/E falls back to 20. */
  function PeOrDefault(pe: real): (r: real)
    ensures r != 0.0
    ensures pe == 0.0 ==> r == 20.0
    ensures pe != 0.0 ==> r == pe
  {
    if pe == 0.0 then 20.0 else pe
  }

  /** The panel's valuation assumptions: the sliders, the newest statements and the share estimate. */
  function PanelParams(stock: CurrentStock, s: Sliders): Calculations.DcfParams
    requires |stock.incomeStmt| > 0 && |stock.balanceSheet| > 0 && stock.quote.price != 0.0
  {
    var latestBS := stock.balanceSheet[0];
    Calculations.DcfParams(
      currentRevenue := stock.incomeStmt[0].revenue,
      revenueGrowth := s.revenueGrowth,
      operatingMargin := s.operatingMargin,
      taxRate := s.taxRate,
      capexPercent := s.capexPercent,
      terminalGrowth := s.terminalGrowth,
      discountRate := s.discountRate,
      sharesOutstanding := latestBS.totalEquity / (stock.quote.price / PeOrDefault(stock.quote.pe)),
      cash := latestBS.cashAndEquivalents,
      debt := latestBS.totalDebt)
  }

  /**
   * `updateDCF`: the buy price is 70% and the strong-buy price 50% of the
   * intrinsic value; for a positive intrinsic value the label is "buy
   * zone" exactly when the price is at or below the buy price.
   */
  function UpdateDcf(stock: CurrentStock, s: Sliders): (panel: DcfPanel)
    requires |stock.incomeStmt| > 0 && |stock.balanceSheet| > 0 && stock.quote.price != 0.0
    requires Calculations.DcfDefined(PanelParams(stock, s))
    ensures panel.dcfResult == Calculations.Dcf(PanelParams(stock, s))
    ensures panel.mos == Calculations.CalculateMos(panel.dcfResult.intrinsicValue, stock.quote.price)
    ensures panel.buyPrice == panel.dcfResult.intrinsicValue * 0.7
    ensures panel.strongBuyPrice == panel.dcfResult.intrinsicValue * 0.5
    ensures panel.mosLabel == MosLabelFor(panel.mos)
    ensures panel.dcfResult.intrinsicValue >= 0.0 ==>
              panel.strongBuyPrice <= panel.buyPrice <= panel.dcfResult.intrinsicValue
    ensures panel.dcfResult.intrinsicValue > 0.0 ==>
              (panel.mosLabel == BuyZone <==> stock.quote.price <= panel.buyPrice)
  {
    var dcfResult := Calculations.Dcf(PanelParams(stock, s));
    var iv := dcfResult.intrinsicValue;
    var mos := Calculations.CalculateMos(iv, stock.quote.price);
    BuyZoneIffAtMostBuyPrice(iv, stock.quote.price);
    DcfPanel(dcfResult, mos, iv * 0.7, iv * 0.5, MosLabelFor(mos))
  }

  /** For a positive intrinsic value, a margin of safety of at least 30% means a price of at most 70% of it. */
  lemma BuyZoneIffAtMostBuyPrice(iv: real, price: real)
    ensures iv > 0.0 ==> (MosLabelFor(Calculations.CalculateMos(iv, price)) == BuyZone <==> price <= iv * 0.7)
  {
    if iv <= 0.0 {
      return;
    }
    var mos := Calculations.CalculateMos(iv, price);
    assert price == iv * (1.0 - mos / 100.0);
    var slack := iv * (mos / 100.0 - 0.3);
    assert iv * 0.7 - price == slack;
    if mos >= 30.0 {
      assert slack >= 0.0;
    } else {
      assert slack < 0.0;
    }
  }

  // ---------------------------------------------------------------------
  // The application object
  // ---------------------------------------------------------------------

  class AppState {
    var currentStock: Option<CurrentStock>
    var watchlist: seq<WatchlistEntry>

    /** The state after start-up with an empty saved watchlist. */
    constructor ()
      ensures currentStock == None && watchlist == []
    {
      currentStock := None;
      watchlist := [];
    }

    /**
     * `calculateMetrics`: derives the per-year ROIC series and the
     * metrics record of the current stock; with no income statement it
     * changes nothing.
     */
    method CalculateMetrics()
      requires currentStock.Some?
      requires |currentStock.value.incomeStmt| > 0 ==> MetricsDefined(currentStock.value)
      modifies this
      ensures watchlist == old(watchlist)
      ensures |old(currentStock.value.incomeStmt)| == 0 ==> currentStock == old(currentStock)
      ensures |old(currentStock.value.incomeStmt)| > 0 ==>
                var stock := old(currentStock.value);
                currentStock.Some? && currentStock.value.metrics.Some? &&
                var redFlags := currentStock.value.metrics.value.redFlags;
                Calculations.RedFlagRules(MetricsRedFlagInput(stock), redFlags) &&
                currentStock.value == stock.(roicData := RoicSeries(stock.incomeStmt, stock.balanceSheet),
                                             metrics := Some(MetricsFor(stock, redFlags)))
    {
      var stock := currentStock.value;
      if |stock.incomeStmt| == 0 {
        return;
      }
      var latestBS := stock.balanceSheet[0];
      var latestCF := stock.cashFlow[0];

      var roicData := RoicSeries(stock.incomeStmt, stock.balanceSheet);
      currentStock := Some(stock.(roicData := roicData));

      var avgRoic := AverageRoic(roicData);
      var revenueGrowth := RevenueGrowth(stock.incomeStmt);
      var inventoryGrowth := InventoryGrowth(stock.balanceSheet);
      var marginChange := MarginChange(stock.incomeStmt);

      var dcfResult := Calculations.CalculateDcf(MetricsDcfParams(stock));
      var mos := Calculations.CalculateMos(dcfResult.intrinsicValue, stock.quote.price);
      var redFlags := Calculations.DetectRedFlags(MetricsRedFlagInput(stock));
      var score := Calculations.CalculateMoneyTalksScore(MetricsScoreInput(stock, avgRoic, mos, redFlags));

      var metrics := Metrics(
        avgRoic := avgRoic,
        revenueGrowth := revenueGrowth,
        inventoryGrowth := inventoryGrowth,
        marginChange := marginChange,
        dcfResult := dcfResult,
        mos := mos,
        redFlags := redFlags,
        score := score,
        debtToEquity := latestBS.totalDebt / latestBS.totalEquity,
        currentRatio := latestBS.currentRatio,
        fcf := latestCF.freeCashFlow);
      currentStock := Some(stock.(roicData := roicData, metrics := Some(metrics)));
    }

    /**
     * `addToWatchlist`: with a current stock whose symbol is not yet
     * listed, appends one entry targeting 70% of its intrinsic value;
     * otherwise changes nothing.
     */
    method AddToWatchlist(addedDate: string)
      requires currentStock.Some? && !HasSymbol(watchlist, currentStock.value.symbol) ==>
                 currentStock.value.metrics.Some?
      modifies this
      ensures currentStock == old(currentStock)
      ensures old(currentStock).None? || HasSymbol(old(watchlist), old(currentStock).value.symbol) ==>
                watchlist == old(watchlist)
      ensures old(currentStock).Some? && !HasSymbol(old(watchlist), old(currentStock).value.symbol) ==>
                var stock := old(currentStock).value;
                var metrics := stock.metrics.value;
                watchlist == old(watchlist) + [WatchlistEntry(stock.symbol, stock.quote.name, stock.quote.price,
                                                              metrics.dcfResult.intrinsicValue * 0.7, metrics.mos,
                                                              metrics.score.totalScore, addedDate)]
      ensures DistinctSymbols(old(watchlist)) ==> DistinctSymbols(watchlist)
      ensures currentStock.Some? ==> HasSymbol(watchlist, currentStock.value.symbol)
    {
      if currentStock.None? {
        return;
      }
      var stock := currentStock.value;
      if HasSymbol(watchlist, stock.symbol) {
        return;
      }
      var metrics := stock.metrics.value;
      var entry := WatchlistEntry(
        symbol := stock.symbol,
        name := stock.quote.name,
        price := stock.quote.price,
        targetPrice := metrics.dcfResult.intrinsicValue * 0.7,
        mos := metrics.mos,
        score := metrics.score.totalScore,
        addedDate := addedDate);
      if DistinctSymbols(watchlist) {
        AppendKeepsDistinct(watchlist, entry);
      }
      assert (watchlist + [entry])[|watchlist|] == entry;
      watchlist := watchlist + [entry];
    }

    /**
     * `quickAddToWatchlist`: appends an unlisted symbol with a target of
     * 85% of its price and zero margin of safety and score.
     */
    method QuickAddToWatchlist(symbol: string, name: string, price: real, addedDate: string)
      modifies this
      ensures currentStock == old(currentStock)
      ensures HasSymbol(old(watchlist), symbol) ==> watchlist == old(watchlist)
      ensures !HasSymbol(old(watchlist), symbol) ==>
                watchlist == old(watchlist) + [WatchlistEntry(symbol, name, price, price * 0.85, 0.0, 0, addedDate)]
      ensures DistinctSymbols(old(watchlist)) ==> DistinctSymbols(watchlist)
      ensures HasSymbol(watchlist, symbol)
    {
      if HasSymbol(watchlist, symbol) {
        return;
      }
      var entry := WatchlistEntry(
        symbol := symbol,
        name := name,
        price := price,
        targetPrice := price * 0.85,
        mos := 0.0,
        score := 0,
        addedDate := addedDate);
      if DistinctSymbols(watchlist) {
        AppendKeepsDistinct(watchlist, entry);
      }
      assert (watchlist + [entry])[|watchlist|] == entry;
      watchlist := watchlist + [entry];
    }

    /** `removeFromWatchlist`: keeps exactly the entries with another symbol, in order. */
    method RemoveFromWatchlist(symbol: string)
      modifies this
      ensures currentStock == old(currentStock)
      ensures watchlist == Without(old(watchlist), symbol)
      ensures !HasSymbol(watchlist, symbol)
      ensures DistinctSymbols(old(watchlist)) ==> DistinctSymbols(watchlist)
    {
      if DistinctSymbols(watchlist) {
        WithoutKeepsDistinct(watchlist, symbol);
      }
      watchlist := Without(watchlist, symbol);
    }
  }
}
