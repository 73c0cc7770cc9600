/**
 * The valuation and scoring engine (`FinancialCalculations`): ROIC and
 * growth primitives, the five-year discounted-cash-flow valuation, the
 * margin of safety, the three red-flag rules, the weighted 0-100 score
 * and the 5x5 sensitivity table.
 *
 * Every percentage is a whole number (8 means 8%) divided by 100 where
 * it is used, exactly as the program does. Numbers are mathematical reals:
 * the divisions the program leaves to IEEE Infinity/NaN are preconditions.
 */
module Calculations {
  import opened Numbers
  import opened Wrappers
  import Config

  // ---------------------------------------------------------------------
  // Metric primitives
  // ---------------------------------------------------------------------

  /** Net operating profit after tax. */
  function Nopat(operatingIncome: real, taxRate: real): real
  {
    operatingIncome * (1.0 - taxRate / 100.0)
  }

  /** Equity plus net debt. */
  function InvestedCapital(equity: real, debt: real, cash: real): real
  {
    equity + (debt - cash)
  }

  /**
   * `calculateROIC`: NOPAT as a percentage of invested capital, with the
   * neutral value 0 when invested capital is not positive.
   */
  function CalculateRoic(operatingIncome: real, taxRate: real, equity: real, debt: real, cash: real): (r: real)
    ensures InvestedCapital(equity, debt, cash) <= 0.0 ==> r == 0.0
    ensures InvestedCapital(equity, debt, cash) > 0.0 ==>
              r * InvestedCapital(equity, debt, cash) == Nopat(operatingIncome, taxRate) * 100.0
    ensures InvestedCapital(equity, debt, cash) > 0.0 ==>
              (r > 0.0 <==> Nopat(operatingIncome, taxRate) > 0.0) &&
              (r < 0.0 <==> Nopat(operatingIncome, taxRate) < 0.0)
  {
    var nopat := operatingIncome * (1.0 - taxRate / 100.0);
    var netDebt := debt - cash;
    var investedCapital := equity + netDebt;
    if investedCapital <= 0.0 then 0.0 else (nopat / investedCapital) * 100.0
  }

  /** `calculateFCF`: operating cash flow less capital expenditure and stock-based compensation. */
  function CalculateFcf(operatingCashFlow: real, capex: real, sbc: real): (r: real)
    ensures r + capex + sbc == operatingCashFlow
    ensures sbc >= 0.0 ==> r <= operatingCashFlow - capex
  {
    operatingCashFlow - capex - sbc
  }

  /**
   * `calculateGrowthRate`: percentage change from oldValue to newValue,
   * 0 when oldValue is 0.
   */
  function CalculateGrowthRate(oldValue: real, newValue: real): (r: real)
    ensures oldValue == 0.0 ==> r == 0.0
    ensures oldValue != 0.0 ==> newValue == oldValue * (1.0 + r / 100.0)
  {
    if oldValue == 0.0 then 0.0 else ((newValue - oldValue) / oldValue) * 100.0
  }

  /** Growing a non-zero value by g percent and measuring the growth gives back g. */
  lemma GrowthRateRoundTrip(oldValue: real, g: real)
    requires oldValue != 0.0
    ensures CalculateGrowthRate(oldValue, oldValue * (1.0 + g / 100.0)) == g
  {
    var r := CalculateGrowthRate(oldValue, oldValue * (1.0 + g / 100.0));
    assert oldValue * (1.0 + r / 100.0) == oldValue * (1.0 + g / 100.0);
  }

  /** An unchanged non-zero value has growth 0. */
  lemma GrowthRateOfUnchangedValue(x: real)
    requires x != 0.0
    ensures CalculateGrowthRate(x, x) == 0.0
  {
    GrowthRateRoundTrip(x, 0.0);
  }

  /**
   * `calculateCAGR`. The program returns 0 when beginValue <= 0 or
   * years <= 0; otherwise it takes the years-th root of endValue/beginValue
   * with a fractional `Math.pow`, which this model receives as `root`.
   */
  function CalculateCagr(beginValue: real, endValue: real, years: int, root: real): (r: real)
    ensures beginValue <= 0.0 || years <= 0 ==> r == 0.0
    ensures beginValue > 0.0 && years > 0 && Pow(root, years) == endValue / beginValue ==>
              beginValue * Pow(1.0 + r / 100.0, years) == endValue
  {
    if beginValue <= 0.0 || years <= 0 then 0.0 else (root - 1.0) * 100.0
  }

  // ---------------------------------------------------------------------
  // Discounted cash flow
  // ---------------------------------------------------------------------

  datatype DcfParams = DcfParams(
    currentRevenue: real,
    revenueGrowth: real,
    operatingMargin: real,
    taxRate: real,
    capexPercent: real,
    terminalGrowth: real,
    discountRate: real,
    sharesOutstanding: real,
    cash: real,
    debt: real)

  datatype DcfResult = DcfResult(
    intrinsicValue: real,
    enterpriseValue: real,
    equityValue: real,
    pvFutureCF: real,
    pvTerminal: real)

  /** Number of explicitly projected years. */
  const PROJECTION_YEARS: nat := 5

  /**
   * The divisions of `calculateDCF` are defined: a discount base other
   * than zero, a discount rate other than the terminal growth, and a
   * non-zero share count.
   */
  predicate DcfDefined(p: DcfParams)
  {
    1.0 + p.discountRate / 100.0 != 0.0 &&
    p.discountRate != p.terminalGrowth &&
    p.sharesOutstanding != 0.0
  }

  /** `(1 + discountRate/100)^year`. */
  function DiscountFactor(p: DcfParams, year: nat): real
  {
    Pow(1.0 + p.discountRate / 100.0, year)
  }

  /** Revenue after `year` years of compounding, one year at a time as the loop does. */
  function ProjectedRevenue(p: DcfParams, year: nat): real
  {
    if year == 0 then p.currentRevenue
    else ProjectedRevenue(p, year - 1) * (1.0 + p.revenueGrowth / 100.0)
  }

  /** The year-by-year compounding is the closed form currentRevenue * (1 + g/100)^year. */
  lemma {:induction false} ProjectedRevenueCompounds(p: DcfParams, year: nat)
    ensures ProjectedRevenue(p, year) == p.currentRevenue * Pow(1.0 + p.revenueGrowth / 100.0, year)
  {
    if year > 0 {
      ProjectedRevenueCompounds(p, year - 1);
    }
  }

  /** Free cash flow of a projected year with the given revenue: NOPAT less capex. */
  function YearFreeCashFlow(p: DcfParams, revenue: real): real
  {
    var operatingIncome := revenue * (p.operatingMargin / 100.0);
    var nopat := operatingIncome * (1.0 - p.taxRate / 100.0);
    var capex := revenue * (p.capexPercent / 100.0);
    nopat - capex
  }

  /** Sum over years 1..k of the discounted free cash flows. */
  function PresentValueSum(p: DcfParams, k: nat): real
    requires 1.0 + p.discountRate / 100.0 != 0.0
  {
    if k == 0 then 0.0
    else
      PowNonZero(1.0 + p.discountRate / 100.0, k);
      PresentValueSum(p, k - 1) + YearFreeCashFlow(p, ProjectedRevenue(p, k)) / DiscountFactor(p, k)
  }

  /** Free cash flow of the first year after the projection (no capex deducted, as the program does). */
  function TerminalFreeCashFlow(p: DcfParams): real
  {
    ProjectedRevenue(p, PROJECTION_YEARS) * (1.0 + p.terminalGrowth / 100.0)
      * (p.operatingMargin / 100.0) * (1.0 - p.taxRate / 100.0)
  }

  /** The valuation `calculateDCF` computes, stated as a function of its parameters. */
  function Dcf(p: DcfParams): DcfResult
    requires DcfDefined(p)
  {
    PowNonZero(1.0 + p.discountRate / 100.0, PROJECTION_YEARS);
    var totalPV := PresentValueSum(p, PROJECTION_YEARS);
    var terminalValue := TerminalFreeCashFlow(p) / ((p.discountRate - p.terminalGrowth) / 100.0);
    var pvTerminal := terminalValue / DiscountFactor(p, PROJECTION_YEARS);
    var enterpriseValue := totalPV + pvTerminal;
    var equityValue := enterpriseValue + p.cash - p.debt;
    DcfResult(equityValue / p.sharesOutstanding, enterpriseValue, equityValue, totalPV, pvTerminal)
  }

  /** One iteration of the projection loop adds year k's discounted flow to the sum over years 1..k-1. */
  lemma PresentValueStep(p: DcfParams, k: nat, totalPV: real, revenue: real, fcf: real, discountFactor: real)
    requires 1.0 + p.discountRate / 100.0 != 0.0 && k >= 1
    requires totalPV == PresentValueSum(p, k - 1)
    requires revenue == ProjectedRevenue(p, k) && fcf == YearFreeCashFlow(p, revenue)
    requires discountFactor == DiscountFactor(p, k)
    ensures discountFactor != 0.0
    ensures totalPV + fcf / discountFactor == PresentValueSum(p, k)
  {
    PowNonZero(1.0 + p.discountRate / 100.0, k);
  }

  /**
   * The projection loop of `calculateDCF`: compounds revenue one year at
   * a time and accumulates the discounted free cash flow of years 1..years.
   */
  method ProjectCashFlows(p: DcfParams, years: nat) returns (revenue: real, totalPV: real)
    requires 1.0 + p.discountRate / 100.0 != 0.0
    ensures revenue == ProjectedRevenue(p, years)
    ensures totalPV == PresentValueSum(p, years)
  {
    totalPV := 0.0;
    revenue := p.currentRevenue;
    var year: nat := 1;
    while year <= years
      invariant 1 <= year <= years + 1
      invariant revenue == ProjectedRevenue(p, year - 1)
      invariant totalPV == PresentValueSum(p, year - 1)
    {
      revenue := revenue * (1.0 + p.revenueGrowth / 100.0);
      var operatingIncome := revenue * (p.operatingMargin / 100.0);
      var nopat := operatingIncome * (1.0 - p.taxRate / 100.0);
      var capex := revenue * (p.capexPercent / 100.0);
      var fcf := nopat - capex;
      var discountFactor := Pow(1.0 + p.discountRate / 100.0, year);
      PresentValueStep(p, year, totalPV, revenue, fcf, discountFactor);
      var pv := fcf / discountFactor;
      totalPV := totalPV + pv;
      year := year + 1;
    }
  }

  /**
   * `calculateDCF`: the five projected years, then the terminal value
   * discounted five periods, then the equity bridge and the per-share value.
   */
  method CalculateDcf(p: DcfParams) returns (result: DcfResult)
    requires DcfDefined(p)
    ensures result == Dcf(p)
  {
    var revenue, totalPV := ProjectCashFlows(p, PROJECTION_YEARS);
    var terminalFcf := revenue * (1.0 + p.terminalGrowth / 100.0) * (p.operatingMargin / 100.0) * (1.0 - p.taxRate / 100.0);
    assert terminalFcf == TerminalFreeCashFlow(p);
    var terminalValue := terminalFcf / ((p.discountRate - p.terminalGrowth) / 100.0);
    PowNonZero(1.0 + p.discountRate / 100.0, PROJECTION_YEARS);
    var pvTerminal := terminalValue / Pow(1.0 + p.discountRate / 100.0, PROJECTION_YEARS);
    assert pvTerminal == Dcf(p).pvTerminal;
    var enterpriseValue := totalPV + pvTerminal;
    var equityValue := enterpriseValue + p.cash - p.debt;
    var intrinsicValue := equityValue / p.sharesOutstanding;
    result := DcfResult(intrinsicValue, enterpriseValue, equityValue, totalPV, pvTerminal);
  }

  /**
   * The accounting identities of the valuation: the flows are the five
   * discounted years, the terminal value is the Gordon-growth value
   * discounted five periods, enterprise value is their sum, equity value
   * adds cash and subtracts debt, and the per-share value times the share
   * count gives back the equity value.
   */
  lemma DcfIdentities(p: DcfParams)
    requires DcfDefined(p)
    ensures Dcf(p).pvFutureCF == PresentValueSum(p, PROJECTION_YEARS)
    ensures Dcf(p).pvTerminal * DiscountFactor(p, PROJECTION_YEARS) * ((p.discountRate - p.terminalGrowth) / 100.0)
            == TerminalFreeCashFlow(p)
    ensures Dcf(p).enterpriseValue == Dcf(p).pvFutureCF + Dcf(p).pvTerminal
    ensures Dcf(p).equityValue == Dcf(p).enterpriseValue + p.cash - p.debt
    ensures Dcf(p).intrinsicValue * p.sharesOutstanding == Dcf(p).equityValue
  {
    PowNonZero(1.0 + p.discountRate / 100.0, PROJECTION_YEARS);
  }

  /** The enterprise value depends only on the operating assumptions, not on the balance sheet. */
  lemma EnterpriseValueIgnoresBalanceSheet(p: DcfParams, q: DcfParams)
    requires DcfDefined(p) && DcfDefined(q)
    requires p.currentRevenue == q.currentRevenue && p.revenueGrowth == q.revenueGrowth
    requires p.operatingMargin == q.operatingMargin && p.taxRate == q.taxRate
    requires p.capexPercent == q.capexPercent && p.discountRate == q.discountRate
    requires p.terminalGrowth == q.terminalGrowth
    ensures Dcf(q).enterpriseValue == Dcf(p).enterpriseValue
  {
    PresentValueSumIgnoresBalanceSheet(p, q, PROJECTION_YEARS);
    ProjectedRevenueIgnoresBalanceSheet(p, q, PROJECTION_YEARS);
    assert TerminalFreeCashFlow(q) == TerminalFreeCashFlow(p);
  }

  /** Cash enters only the equity bridge: Delta more cash is worth Delta / shares more per share. */
  lemma DcfCashRaisesIntrinsicValue(p: DcfParams, delta: real)
    requires DcfDefined(p)
    ensures DcfDefined(p.(cash := p.cash + delta))
    ensures Dcf(p.(cash := p.cash + delta)).intrinsicValue == Dcf(p).intrinsicValue + delta / p.sharesOutstanding
  {
    var q := p.(cash := p.cash + delta);
    EnterpriseValueIgnoresBalanceSheet(p, q);
    var e := Dcf(p).equityValue;
    assert Dcf(q).equityValue == e + delta;
    assert (e + delta) / p.sharesOutstanding == e / p.sharesOutstanding + delta / p.sharesOutstanding;
  }

  /** The projection reads only the operating assumptions. */
  lemma {:induction false} ProjectedRevenueIgnoresBalanceSheet(p: DcfParams, q: DcfParams, k: nat)
    requires p.currentRevenue == q.currentRevenue && p.revenueGrowth == q.revenueGrowth
    ensures ProjectedRevenue(p, k) == ProjectedRevenue(q, k)
  {
    if k > 0 {
      ProjectedRevenueIgnoresBalanceSheet(p, q, k - 1);
    }
  }

  lemma {:induction false} PresentValueSumIgnoresBalanceSheet(p: DcfParams, q: DcfParams, k: nat)
    requires 1.0 + p.discountRate / 100.0 != 0.0
    requires p.currentRevenue == q.currentRevenue && p.revenueGrowth == q.revenueGrowth
    requires p.operatingMargin == q.operatingMargin && p.taxRate == q.taxRate
    requires p.capexPercent == q.capexPercent && p.discountRate == q.discountRate
    ensures PresentValueSum(p, k) == PresentValueSum(q, k)
  {
    if k > 0 {
      PresentValueSumIgnoresBalanceSheet(p, q, k - 1);
      ProjectedRevenueIgnoresBalanceSheet(p, q, k);
      assert YearFreeCashFlow(p, ProjectedRevenue(p, k)) == YearFreeCashFlow(q, ProjectedRevenue(q, k));
      assert DiscountFactor(p, k) == DiscountFactor(q, k);
    }
  }

  // ---------------------------------------------------------------------
  // Margin of safety
  // ---------------------------------------------------------------------

  /**
   * `calculateMOS`: the discount of the price to intrinsic value, in
   * percent; the sentinel -100 when the intrinsic value is not positive.
   */
  function CalculateMos(intrinsicValue: real, currentPrice: real): (r: real)
    ensures intrinsicValue <= 0.0 ==> r == -100.0
    ensures intrinsicValue > 0.0 ==> currentPrice == intrinsicValue * (1.0 - r / 100.0)
    ensures intrinsicValue > 0.0 ==> (r == 0.0 <==> currentPrice == intrinsicValue)
    ensures intrinsicValue > 0.0 ==> (r >= 0.0 <==> currentPrice <= intrinsicValue)
    ensures intrinsicValue > 0.0 && currentPrice > 0.0 ==> r < 100.0
  {
    if intrinsicValue <= 0.0 then -100.0
    else
      var share := (intrinsicValue - currentPrice) / intrinsicValue;
      assert share * intrinsicValue == intrinsicValue - currentPrice;
      assert currentPrice > 0.0 ==> share < 1.0 by {
        if currentPrice > 0.0 && share >= 1.0 {
          assert false;
        }
      }
      share * 100.0
  }

  // ---------------------------------------------------------------------
  // Red flags
  // ---------------------------------------------------------------------

  datatype FlagKind = InventoryBloat | SbcDilution | MarginCompression
  datatype FlagStatus = Pass | Warning | Fail
  datatype Severity = NoSeverity | Low | Medium | High

  /** A red flag; its human-readable message is not modelled. */
  datatype RedFlag = RedFlag(kind: FlagKind, status: FlagStatus, severity: Severity)

  datatype RedFlagInput = RedFlagInput(
    inventoryGrowth: real,
    revenueGrowth: real,
    sbc: real,
    revenue: real,
    marginChange: real)

  /** Severity that each rule attaches to each status. */
  function SeverityOf(kind: FlagKind, status: FlagStatus): Severity
  {
    match status
    case Pass => NoSeverity
    case Warning => Low
    case Fail => if kind == SbcDilution then Medium else High
  }

  /** Stock-based compensation as a percentage of revenue. */
  function SbcPercent(data: RedFlagInput): real
    requires data.revenue != 0.0
  {
    (data.sbc / data.revenue) * 100.0
  }

  /**
   * The three rules, in their fixed order: inventory bloat fails when
   * inventory outgrows revenue by more than 5 points; SBC dilution fails
   * when stock-based compensation exceeds the threshold share of revenue;
   * margin compression fails on a margin drop of more than 2 points while
   * revenue grows more than 10%, and otherwise warns on any margin drop.
   * Every status carries the severity its rule attaches to it.
   */
  predicate RedFlagRules(data: RedFlagInput, flags: seq<RedFlag>)
    requires data.revenue != 0.0
  {
    |flags| == 3 &&
    flags[0].kind == InventoryBloat && flags[1].kind == SbcDilution && flags[2].kind == MarginCompression &&
    flags[0].status != Warning && (flags[0].status == Fail <==> data.inventoryGrowth > data.revenueGrowth + 5.0) &&
    flags[1].status != Warning && (flags[1].status == Fail <==> SbcPercent(data) > Config.SBC_THRESHOLD) &&
    (flags[2].status == Fail <==> data.revenueGrowth > 10.0 && data.marginChange < -2.0) &&
    (flags[2].status == Warning <==> !(data.revenueGrowth > 10.0 && data.marginChange < -2.0) && data.marginChange < 0.0) &&
    forall i :: 0 <= i < |flags| ==> flags[i].severity == SeverityOf(flags[i].kind, flags[i].status)
  }

  /** The rules leave no freedom: at most one flag list satisfies them. */
  lemma RedFlagRulesDetermineFlags(data: RedFlagInput, a: seq<RedFlag>, b: seq<RedFlag>)
    requires data.revenue != 0.0
    requires RedFlagRules(data, a) && RedFlagRules(data, b)
    ensures a == b
  {
    assert a[0] == b[0] && a[1] == b[1] && a[2] == b[2];
  }

  /** `detectRedFlags`: three independent rules, pushed in a fixed order. */
  method DetectRedFlags(data: RedFlagInput) returns (flags: seq<RedFlag>)
    requires data.revenue != 0.0
    ensures RedFlagRules(data, flags)
  {
    flags := [];

    if data.inventoryGrowth > data.revenueGrowth + 5.0 {
      flags := flags + [RedFlag(InventoryBloat, Fail, High)];
    } else {
      flags := flags + [RedFlag(InventoryBloat, Pass, NoSeverity)];
    }

    var sbcPercent := (data.sbc / data.revenue) * 100.0;
    if sbcPercent > Config.SBC_THRESHOLD {
      flags := flags + [RedFlag(SbcDilution, Fail, Medium)];
    } else {
      flags := flags + [RedFlag(SbcDilution, Pass, NoSeverity)];
    }

    if data.revenueGrowth > 10.0 && data.marginChange < -2.0 {
      flags := flags + [RedFlag(MarginCompression, Fail, High)];
    } else if data.marginChange < 0.0 {
      flags := flags + [RedFlag(MarginCompression, Warning, Low)];
    } else {
      flags := flags + [RedFlag(MarginCompression, Pass, NoSeverity)];
    }
  }

  // ---------------------------------------------------------------------
  // MoneyTalks score
  // ---------------------------------------------------------------------

  datatype ScoreInput = ScoreInput(
    currentRatio: real,
    debtToEquity: real,
    interestCoverage: real,
    operatingMargin: real,
    roic: real,
    mos: real,
    redFlags: Option<seq<RedFlag>>,
    moatStrength: string,
    managementQuality: string)

  datatype Breakdown = Breakdown(
    financialHealth: int,
    roicQuality: int,
    marginOfSafety: int,
    redFlagPenalty: int,
    qualitative: int)

  datatype ScoreVerdict = StrongBuy | Buy | Hold | Sell | StrongSell

  datatype Score = Score(totalScore: int, breakdown: Breakdown, verdict: ScoreVerdict)

  /**
   * Financial-health points. The debt/equity tiers 0.5 and 1.0 are
   * written into the rule, not taken from the configuration record.
   */
  function FinancialHealth(m: ScoreInput): (r: int)
    ensures 0 <= r <= 25 && r % 5 == 0
    ensures r == 25 <==> m.currentRatio > 1.5 && m.debtToEquity < 0.5 && m.interestCoverage > 5.0 && m.operatingMargin > 20.0
  {
    (if m.currentRatio > 1.5 then 5 else 0)
    + (if m.debtToEquity < 0.5 then 10 else if m.debtToEquity < 1.0 then 5 else 0)
    + (if m.interestCoverage > 5.0 then 5 else 0)
    + (if m.operatingMargin > 20.0 then 5 else 0)
  }

  /** ROIC points: mutually exclusive tiers above 25/20/15/10 percent. */
  function RoicQuality(roic: real): (r: int)
    ensures r in {0, 10, 15, 20, 25}
    ensures r == 0 <==> roic <= Config.ROIC_ACCEPTABLE
  {
    if roic > Config.ROIC_EXCEPTIONAL then 25
    else if roic > Config.ROIC_EXCELLENT then 20
    else if roic > Config.ROIC_GOOD then 15
    else if roic > Config.ROIC_ACCEPTABLE then 10
    else 0
  }

  /** Margin-of-safety points: tiers at 40/30/15/0 percent. */
  function MosQuality(mos: real): (r: int)
    ensures r in {0, 5, 15, 25, 30}
    ensures r == 0 <==> mos < 0.0
  {
    if mos >= 40.0 then 30
    else if mos >= 30.0 then 25
    else if mos >= 15.0 then 15
    else if mos >= 0.0 then 5
    else 0
  }

  /** Moat points plus management points. */
  function Qualitative(moatStrength: string, managementQuality: string): (r: int)
    ensures 0 <= r <= 20
  {
    (if moatStrength == "Wide" then 15
     else if moatStrength == "Moderate" then 10
     else if moatStrength == "Narrow" then 5
     else 0)
    + (if managementQuality == "A+" then 5
       else if managementQuality == "A" then 4
       else if managementQuality == "B" then 3
       else 0)
  }

  /** Number of flags whose status is `fail`. */
  function FailCount(flags: seq<RedFlag>): (n: nat)
    ensures n <= |flags|
  {
    if |flags| == 0 then 0
    else FailCount(flags[..|flags| - 1]) + (if flags[|flags| - 1].status == Fail then 1 else 0)
  }

  /** -5 per failed flag; 0 when no flag list is given. */
  function RedFlagPenalty(redFlags: Option<seq<RedFlag>>): int
  {
    match redFlags
    case None => 0
    case Some(flags) => -5 * FailCount(flags)
  }

  function ScoreBreakdown(m: ScoreInput): Breakdown
  {
    Breakdown(FinancialHealth(m), RoicQuality(m.roic), MosQuality(m.mos),
              RedFlagPenalty(m.redFlags), Qualitative(m.moatStrength, m.managementQuality))
  }

  /** The unclamped sum of the five components. */
  function RawScore(m: ScoreInput): int
  {
    var b := ScoreBreakdown(m);
    b.financialHealth + b.roicQuality + b.marginOfSafety + b.redFlagPenalty + b.qualitative
  }

  /** Verdict tiers 80/60/40/20. */
  function VerdictFor(score: int): ScoreVerdict
  {
    if score >= 80 then StrongBuy
    else if score >= 60 then Buy
    else if score >= 40 then Hold
    else if score >= 20 then Sell
    else StrongSell
  }

  function Clamp(score: int): (r: int)
    ensures 0 <= r <= 100
    ensures 0 <= score <= 100 ==> r == score
    ensures score < 0 ==> r == 0
    ensures score > 100 ==> r == 100
  {
    if score > 100 then 100 else if score < 0 then 0 else score
  }

  /** The score the rules assign: the clamped total, the breakdown, and the verdict of the raw sum. */
  function MoneyTalksScore(m: ScoreInput): Score
  {
    Score(Clamp(RawScore(m)), ScoreBreakdown(m), VerdictFor(RawScore(m)))
  }

  /**
   * `calculateMoneyTalksScore`: accumulates the five components, counting
   * failed flags one by one, reports the clamped total and the verdict of
   * the raw sum.
   */
  method CalculateMoneyTalksScore(metrics: ScoreInput) returns (score: Score)
    ensures score == MoneyTalksScore(metrics)
    ensures 0 <= score.totalScore <= 100
    ensures score.verdict == VerdictFor(score.totalScore)
  {
    var total := 0;

    var healthScore := HealthPoints(metrics);
    total := total + healthScore;

    var roicScore := RoicPoints(metrics.roic);
    total := total + roicScore;

    var mosScore := MosPoints(metrics.mos);
    total := total + mosScore;

    var redFlagPenalty := CountRedFlagPenalty(metrics.redFlags);
    total := total - redFlagPenalty;

    var qualitativeScore := QualitativePoints(metrics.moatStrength, metrics.managementQuality);
    total := total + qualitativeScore;
    assert total == RawScore(metrics);

    var verdict := VerdictFor(total);
    RawScoreAtMost100(metrics);
    var breakdown := Breakdown(healthScore, roicScore, mosScore, -redFlagPenalty, qualitativeScore);
    score := Score(if total > 100 then 100 else if total < 0 then 0 else total, breakdown, verdict);
  }

  /** The financial-health block: four bonuses added one at a time. */
  method HealthPoints(metrics: ScoreInput) returns (points: int)
    ensures points == FinancialHealth(metrics)
  {
    points := 0;
    if metrics.currentRatio > 1.5 { points := points + 5; }
    if metrics.debtToEquity < 0.5 { points := points + 10; }
    else if metrics.debtToEquity < 1.0 { points := points + 5; }
    if metrics.interestCoverage > 5.0 { points := points + 5; }
    if metrics.operatingMargin > 20.0 { points := points + 5; }
  }

  /** The ROIC block: the first tier the ROIC exceeds. */
  method RoicPoints(roic: real) returns (points: int)
    ensures points == RoicQuality(roic)
  {
    points := 0;
    if roic > Config.ROIC_EXCEPTIONAL { points := 25; }
    else if roic > Config.ROIC_EXCELLENT { points := 20; }
    else if roic > Config.ROIC_GOOD { points := 15; }
    else if roic > Config.ROIC_ACCEPTABLE { points := 10; }
  }

  /** The margin-of-safety block: the first tier the margin reaches. */
  method MosPoints(mos: real) returns (points: int)
    ensures points == MosQuality(mos)
  {
    points := 0;
    if mos >= 40.0 { points := 30; }
    else if mos >= 30.0 { points := 25; }
    else if mos >= 15.0 { points := 15; }
    else if mos >= 0.0 { points := 5; }
  }

  /** The qualitative block: moat points, then management points, added one at a time. */
  method QualitativePoints(moatStrength: string, managementQuality: string) returns (points: int)
    ensures points == Qualitative(moatStrength, managementQuality)
  {
    points := 0;
    if moatStrength == "Wide" { points := points + 15; }
    else if moatStrength == "Moderate" { points := points + 10; }
    else if moatStrength == "Narrow" { points := points + 5; }
    if managementQuality == "A+" { points := points + 5; }
    else if managementQuality == "A" { points := points + 4; }
    else if managementQuality == "B" { points := points + 3; }
  }

  /** The `forEach` over the flags: 5 points for every flag whose status is `fail`. */
  method CountRedFlagPenalty(redFlags: Option<seq<RedFlag>>) returns (penalty: int)
    ensures penalty == -RedFlagPenalty(redFlags)
    ensures 0 <= penalty && penalty % 5 == 0
  {
    penalty := 0;
    if redFlags.Some? {
      var flags := redFlags.value;
      var i := 0;
      while i < |flags|
        invariant 0 <= i <= |flags|
        invariant penalty == 5 * FailCount(flags[..i])
      {
        assert flags[..i + 1] == flags[..i] + [flags[i]];
        FailCountAppend(flags[..i], [flags[i]]);
        assert [flags[i]][..0] == [];
        if flags[i].status == Fail {
          penalty := penalty + 5;
        }
        i := i + 1;
      }
      assert flags[..|flags|] == flags;
    }
  }

  /** The five caps add up to 100 and the penalty is never positive, so the raw sum never exceeds 100. */
  lemma RawScoreAtMost100(m: ScoreInput)
    ensures RawScore(m) <= 100
    ensures RawScore(m) >= 0 ==> Clamp(RawScore(m)) == RawScore(m)
  {
  }

  /** Deciding the verdict on the raw sum agrees with deciding it on the clamped total. */
  lemma VerdictOfRawEqualsVerdictOfTotal(m: ScoreInput)
    ensures VerdictFor(RawScore(m)) == VerdictFor(Clamp(RawScore(m)))
  {
    RawScoreAtMost100(m);
  }

  /** With the detector's three flags the penalty lies in [-15, 0]. */
  lemma PenaltyOfThreeFlags(flags: seq<RedFlag>)
    requires |flags| == 3
    ensures -15 <= RedFlagPenalty(Some(flags)) <= 0
    ensures RedFlagPenalty(Some(flags)) % 5 == 0
  {
  }

  /** A higher ROIC never earns fewer points. */
  lemma RoicQualityMonotone(a: real, b: real)
    requires a <= b
    ensures RoicQuality(a) <= RoicQuality(b)
  {
  }

  /** A larger margin of safety never earns fewer points. */
  lemma MosQualityMonotone(a: real, b: real)
    requires a <= b
    ensures MosQuality(a) <= MosQuality(b)
  {
  }

  /** Failed flags are counted independently of their position: appending a flag adds its own count. */
  lemma {:induction false} FailCountAppend(a: seq<RedFlag>, b: seq<RedFlag>)
    ensures FailCount(a + b) == FailCount(a) + FailCount(b)
    decreases |b|
  {
    if |b| > 0 {
      var b' := b[..|b| - 1];
      assert (a + b)[..|a + b| - 1] == a + b';
      FailCountAppend(a, b');
    } else {
      assert a + b == a;
    }
  }

  // ---------------------------------------------------------------------
  // Number formatting (suffix choice only)
  // ---------------------------------------------------------------------

  datatype Magnitude = Trillions | Billions | Millions | Thousands | Units

  /** A number scaled for display; the `toFixed` rounding is not modelled. */
  datatype Formatted = NotAvailable | Scaled(mantissa: real, magnitude: Magnitude)

  function MagnitudeValue(m: Magnitude): real
  {
    match m
    case Trillions => 1e12
    case Billions => 1e9
    case Millions => 1e6
    case Thousands => 1e3
    case Units => 1.0
  }

  /**
   * `formatNumber`: "N/A" for a missing number, otherwise the largest of
   * T/B/M/K whose unit the absolute value reaches.
   */
  function FormatNumber(num: Option<real>): (r: Formatted)
    ensures r.NotAvailable? <==> num.None?
    ensures r.Scaled? ==> r.mantissa * MagnitudeValue(r.magnitude) == num.value
    ensures r.Scaled? && r.magnitude != Trillions ==> Abs(r.mantissa) < 1000.0
    ensures r.Scaled? && r.magnitude != Units ==> Abs(r.mantissa) >= 1.0
  {
    match num
    case None => NotAvailable
    case Some(n) =>
      var absNum := Abs(n);
      if absNum >= 1e12 then Scaled(n / 1e12, Trillions)
      else if absNum >= 1e9 then Scaled(n / 1e9, Billions)
      else if absNum >= 1e6 then Scaled(n / 1e6, Millions)
      else if absNum >= 1e3 then Scaled(n / 1e3, Thousands)
      else Scaled(n, Units)
  }

  // ---------------------------------------------------------------------
  // Sensitivity table
  // ---------------------------------------------------------------------

  const SENSITIVITY_DISCOUNT_RATES: seq<nat> := [8, 9, 10, 11, 12]
  const SENSITIVITY_GROWTH_RATES: seq<nat> := [6, 8, 10, 12, 14]

  /** One row: its growth rate and the intrinsic value under each discount rate. */
  datatype SensitivityRow = SensitivityRow(growth: nat, cells: map<string, real>)

  function DigitChar(d: nat): char
    requires d < 10
  {
    "0123456789"[d]
  }

  /** Decimal digits of a natural number. */
  function DecimalString(n: nat): string
  {
    if n < 10 then [DigitChar(n)] else DecimalString(n / 10) + [DigitChar(n % 10)]
  }

  /** The key `discount_<rate>` under which a row stores a cell. */
  function DiscountKey(discount: nat): string
  {
    "discount_" + DecimalString(discount)
  }

  lemma DiscountKeysDistinct()
    ensures forall j, k :: 0 <= j < k < |SENSITIVITY_DISCOUNT_RATES| ==>
              DiscountKey(SENSITIVITY_DISCOUNT_RATES[j]) != DiscountKey(SENSITIVITY_DISCOUNT_RATES[k])
  {
    assert DiscountKey(8) == "discount_8";
    assert DiscountKey(9) == "discount_9";
    assert DecimalString(10) == "10" && DiscountKey(10) == "discount_10";
    assert DecimalString(11) == "11" && DiscountKey(11) == "discount_11";
    assert DecimalString(12) == "12" && DiscountKey(12) == "discount_12";
  }

  /** The base parameters with only the growth and discount rates overridden. */
  function WithRates(base: DcfParams, growth: nat, discount: nat): DcfParams
  {
    base.(revenueGrowth := growth as real, discountRate := discount as real)
  }

  /** Every cell of the table has a defined valuation. */
  predicate SensitivityDefined(base: DcfParams)
  {
    base.sharesOutstanding != 0.0 &&
    base.terminalGrowth != 8.0 && base.terminalGrowth != 9.0 && base.terminalGrowth != 10.0 &&
    base.terminalGrowth != 11.0 && base.terminalGrowth != 12.0
  }

  /** The value the table holds for the growth rate `growth` and the discount rate `discount`. */
  function SensitivityCell(base: DcfParams, growth: nat, discount: nat): real
    requires SensitivityDefined(base) && discount in SENSITIVITY_DISCOUNT_RATES
  {
    Dcf(WithRates(base, growth, discount)).intrinsicValue
  }

  /** Row `row` holds, under each discount key, the valuation for that discount and its growth rate. */
  predicate RowHolds(base: DcfParams, row: SensitivityRow, growth: nat)
    requires SensitivityDefined(base)
  {
    row.growth == growth &&
    row.cells.Keys == (set k | 0 <= k < |SENSITIVITY_DISCOUNT_RATES| :: DiscountKey(SENSITIVITY_DISCOUNT_RATES[k])) &&
    forall k :: 0 <= k < |SENSITIVITY_DISCOUNT_RATES| ==>
      DiscountKey(SENSITIVITY_DISCOUNT_RATES[k]) in row.cells &&
      row.cells[DiscountKey(SENSITIVITY_DISCOUNT_RATES[k])] == SensitivityCell(base, growth, SENSITIVITY_DISCOUNT_RATES[k])
  }

  /** One row of `calculateSensitivity`: a `calculateDCF` call per discount rate, under its key. */
  method SensitivityRowFor(base: DcfParams, growth: nat) returns (row: SensitivityRow)
    requires SensitivityDefined(base)
    ensures RowHolds(base, row, growth)
  {
    var cells: map<string, real> := map[];
    var k := 0;
    while k < |SENSITIVITY_DISCOUNT_RATES|
      invariant 0 <= k <= |SENSITIVITY_DISCOUNT_RATES|
      invariant cells.Keys == (set j | 0 <= j < k :: DiscountKey(SENSITIVITY_DISCOUNT_RATES[j]))
      invariant forall j :: 0 <= j < k ==>
                  DiscountKey(SENSITIVITY_DISCOUNT_RATES[j]) in cells &&
                  cells[DiscountKey(SENSITIVITY_DISCOUNT_RATES[j])] == SensitivityCell(base, growth, SENSITIVITY_DISCOUNT_RATES[j])
    {
      var discount := SENSITIVITY_DISCOUNT_RATES[k];
      var result := CalculateDcf(WithRates(base, growth, discount));
      DiscountKeysDistinct();
      cells := cells[DiscountKey(discount) := result.intrinsicValue];
      k := k + 1;
    }
    row := SensitivityRow(growth, cells);
  }

  /**
   * `calculateSensitivity`: one row per growth rate 6..14, each with one
   * cell per discount rate 8..12, every cell a fresh `calculateDCF` call.
   * The current price is accepted and unused, as in the program.
   */
  method CalculateSensitivity(base: DcfParams, currentPrice: real) returns (table: seq<SensitivityRow>)
    requires SensitivityDefined(base)
    ensures |table| == |SENSITIVITY_GROWTH_RATES|
    ensures forall i :: 0 <= i < |table| ==> RowHolds(base, table[i], SENSITIVITY_GROWTH_RATES[i])
  {
    table := [];
    var i := 0;
    while i < |SENSITIVITY_GROWTH_RATES|
      invariant 0 <= i <= |SENSITIVITY_GROWTH_RATES|
      invariant |table| == i
      invariant forall i' :: 0 <= i' < i ==> RowHolds(base, table[i'], SENSITIVITY_GROWTH_RATES[i'])
    {
      var row := SensitivityRowFor(base, SENSITIVITY_GROWTH_RATES[i]);
      table := table + [row];
      i := i + 1;
    }
  }
}
