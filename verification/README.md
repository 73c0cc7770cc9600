# MoneyTalks valuation engine — a Dafny model

MoneyTalks is a browser application for stock analysis. This project
models its computational core in Dafny and proves properties of it. The
model covers three parts:

- **The valuation and scoring engine** (`FinancialCalculations`, module
  `Calculations`):
  - ROIC, free cash flow, growth rate and CAGR guard;
  - the five-year discounted-cash-flow valuation with a Gordon-growth
    terminal value;
  - the margin of safety;
  - the three red-flag rules;
  - the weighted 0–100 MoneyTalks score and its verdict;
  - the 5×5 sensitivity table;
  - the T/B/M/K choice of number formatting.
- **The service layer** (`APIService`, module `Api`):
  - the TTL response cache, a class over a string-keyed map;
  - the competitor table;
  - the mappings from the data provider's records;
  - the choice between a response and demo data;
  - the four demo-data generators.
- **The application object** (`App`, module `App`):
  - the derivation of the metrics of the stock under analysis;
  - the watchlist with its add, quick-add and remove operations;
  - the overview verdict;
  - the buy prices and label of the valuation panel.

How the model represents the program:

- Numbers are mathematical reals. Percentages stay whole numbers divided
  by 100 where they are used, as in the program.
- `Math.pow` with whole exponents is the recursive `Numbers.Pow`.
- Constants of the configuration record live in module `Config`.
- Where the program updates state in place, the model is imperative:
  - the projection loop of the valuation;
  - the pushes of the red-flag detector;
  - the accumulating score;
  - the nested loops of the sensitivity table;
  - the cache map;
  - the watchlist.

  Each such method is proved against a specification function, such as
  `Dcf`, `RedFlagRules`, `MoneyTalksScore`, `RowHolds`, `Without` or
  `MetricsFor`.

The score computes its verdict from the raw, unclamped sum rather than
from the clamped total. `Calculations.VerdictOfRawEqualsVerdictOfTotal`
proves that the two always agree, because the raw sum never exceeds 100.

## Model

| member | source | states |
|---|---|---|
| Calculations.CalculateRoic | js/calculations.js:9-17 | 0 when invested capital (equity + debt − cash) is not positive; otherwise ROIC × capital = 100 × NOPAT, so the sign of ROIC is the sign of NOPAT |
| Calculations.CalculateFcf | js/calculations.js:23-25 | FCF + capex + SBC = operating cash flow; with non-negative SBC, FCF never exceeds OCF − capex |
| Calculations.CalculateGrowthRate | js/calculations.js:235-238 | 0 when the old value is 0; otherwise new = old × (1 + rate/100) |
| Calculations.GrowthRateRoundTrip | js/calculations.js:235-238 | growing a non-zero value by g% and measuring the growth gives back exactly g |
| Calculations.GrowthRateOfUnchangedValue | js/calculations.js:235-238 | an unchanged non-zero value has growth 0 |
| Calculations.CalculateCagr | js/calculations.js:243-246 | 0 when the begin value is not positive or years ≤ 0; otherwise, given the years-th root of end/begin, compounding begin at the rate for `years` years yields end |
| Calculations.ProjectedRevenueCompounds | js/calculations.js:48-49 | revenue compounded one year at a time equals currentRevenue × (1 + g/100)^year |
| Calculations.PresentValueStep | js/calculations.js:48-57 | one loop iteration adds year k's discounted free cash flow to the sum over the earlier years, and its discount factor is non-zero |
| Calculations.ProjectCashFlows | js/calculations.js:44-58 | after the loop, revenue is the compounded revenue and totalPV is the sum of the discounted yearly FCFs (NOPAT − capex) |
| Calculations.CalculateDcf | js/calculations.js:30-81 | the result equals the valuation `Dcf` of the parameters |
| Calculations.DcfIdentities | js/calculations.js:60-80 | pvFutureCF is the five-year sum; pvTerminal × discount^5 × (r − tg)/100 is the terminal FCF; EV = pvFutureCF + pvTerminal; equity = EV + cash − debt; IV × shares = equity |
| Calculations.EnterpriseValueIgnoresBalanceSheet | js/calculations.js:44-72 | enterprise value depends only on the operating assumptions, not on cash, debt or shares |
| Calculations.DcfCashRaisesIntrinsicValue | js/calculations.js:72-75 | Δ more cash raises the intrinsic value by exactly Δ / shares |
| Calculations.ProjectedRevenueIgnoresBalanceSheet | js/calculations.js:47-49 | projected revenue reads only current revenue and growth |
| Calculations.PresentValueSumIgnoresBalanceSheet | js/calculations.js:47-58 | the discounted flows read only the operating assumptions and the discount rate |
| Calculations.CalculateMos | js/calculations.js:86-89 | −100 when IV ≤ 0; otherwise price = IV × (1 − MOS/100), MOS = 0 iff price = IV, MOS ≥ 0 iff price ≤ IV, and MOS < 100 for a positive price |
| Calculations.RedFlagRulesDetermineFlags | js/calculations.js:94-157 | the three rules admit exactly one flag list |
| Calculations.DetectRedFlags | js/calculations.js:94-157 | three flags in the order inventory bloat, SBC dilution, margin compression; each fails or warns exactly under its rule; severity fixed by status |
| Calculations.FinancialHealth | js/calculations.js:167-173 | a multiple of 5 in [0, 25]; 25 exactly when all four bonuses apply (debt/equity tiers 0.5 and 1.0 hard-coded) |
| Calculations.RoicQuality | js/calculations.js:177-183 | one of 0, 10, 15, 20, 25; 0 exactly when ROIC ≤ 10 |
| Calculations.MosQuality | js/calculations.js:186-192 | one of 0, 5, 15, 25, 30; 0 exactly when MOS < 0 |
| Calculations.Qualitative | js/calculations.js:204-213 | moat plus management points lie in [0, 20] |
| Calculations.FailCount | js/calculations.js:196-200 | never more failed flags than flags |
| Calculations.Clamp | js/calculations.js:226 | the total lies in [0, 100]: a negative sum becomes 0, a sum above 100 becomes 100, and a sum in range is kept |
| Calculations.HealthPoints | js/calculations.js:167-173 | the accumulated health points equal `FinancialHealth` |
| Calculations.RoicPoints | js/calculations.js:177-181 | the ROIC points equal `RoicQuality` |
| Calculations.MosPoints | js/calculations.js:186-190 | the margin-of-safety points equal `MosQuality` |
| Calculations.QualitativePoints | js/calculations.js:204-211 | the accumulated qualitative points equal `Qualitative` |
| Calculations.CountRedFlagPenalty | js/calculations.js:195-201 | the loop's penalty is 5 per failed flag (0 without flags): a non-negative multiple of 5 |
| Calculations.CalculateMoneyTalksScore | js/calculations.js:162-230 | the score is `MoneyTalksScore`: clamped total, the five-part breakdown, the verdict of the raw sum; the total lies in [0, 100] and the verdict is also the verdict of the total |
| Calculations.RawScoreAtMost100 | js/calculations.js:163-213 | the raw sum never exceeds 100, so clamping only lifts negative sums |
| Calculations.VerdictOfRawEqualsVerdictOfTotal | js/calculations.js:215-227 | the verdict of the raw sum equals the verdict of the clamped total |
| Calculations.PenaltyOfThreeFlags | js/calculations.js:195-201 | with three flags the penalty is a multiple of 5 in [−15, 0] |
| Calculations.RoicQualityMonotone | js/calculations.js:177-181 | a higher ROIC never earns fewer points |
| Calculations.MosQualityMonotone | js/calculations.js:186-190 | a larger margin of safety never earns fewer points |
| Calculations.FailCountAppend | js/calculations.js:196-200 | the failed-flag count of a concatenation is the sum of the counts |
| Calculations.FormatNumber | js/calculations.js:251-270 | N/A exactly for a missing number; otherwise mantissa × unit = number, the mantissa is below 1000 in absolute value unless the unit is T, and at least 1 unless no suffix is used |
| Calculations.DiscountKeysDistinct | js/calculations.js:291 | the five keys `discount_8` … `discount_12` are pairwise distinct |
| Calculations.SensitivityRowFor | js/calculations.js:287-295 | the row holds its growth rate and, under each discount key and only those, the valuation with growth and discount rate overridden |
| Calculations.CalculateSensitivity | js/calculations.js:283-299 | five rows in growth order 6, 8, 10, 12, 14, each satisfying `RowHolds` |
| Numbers.PowPositive | js/calculations.js:54 | a positive base has positive powers |
| Numbers.PowNonZero | js/calculations.js:54 | a non-zero base has non-zero powers |
| Numbers.PowStrictlyIncreasing | js/api.js:273 | for a base above 1 each further power is larger |
| Numbers.PowMonotone | js/api.js:273 | for a base above 1 powers grow strictly with the exponent |
| Numbers.DivideByLarger | js/api.js:273 | dividing a positive amount by a larger positive divisor gives a smaller positive quotient |
| Numbers.Abs | js/calculations.js:254 | the absolute value is non-negative and is x or −x |
| Numbers.SumBounds | js/app.js:199 | a sum of n values in [lo, hi] lies in [n·lo, n·hi] |
| Api.ResponseCache.constructor | js/api.js:4 | the cache starts empty |
| Api.ResponseCache.GetCached | js/api.js:9-18 | the fetch is used exactly when no entry is younger than `duration` (strict); a hit returns the stored data and changes nothing; a miss returns and stores the fetched data with its completion time; other keys never change |
| Api.StoredEntryServedWithinDuration | js/api.js:11-16 | a stored entry is answered, with the same data, exactly while now − timestamp < duration |
| Api.DefaultDurationIsFiveMinutes | js/api.js:9 | the default duration is 300000 ms, and an entry stored at t0 is served exactly while now < t0 + 300000 |
| Api.StoreKeepsOtherKeys | js/api.js:16 | storing under one key leaves the freshness of every other key unchanged |
| Api.Competitors | js/api.js:231-234 | the table's peers for a listed symbol, the empty list exactly for an unlisted one; at most three peers and never the symbol itself |
| Api.MapQuote | js/api.js:31-47 | every field copied, `changesPercentage` renamed to `changePercent` |
| Api.MapIncomeStatement | js/api.js:68-81 | gross, operating and EBITDA ratios become percentages (fraction × 100); other fields copied |
| Api.MapBalanceSheet | js/api.js:101-111 | currentRatio × currentLiabilities = currentAssets; other fields copied under their new names |
| Api.MapCashFlow | js/api.js:131-137 | capex renamed; a missing SBC becomes 0, a present one is copied |
| Api.MappingsInjective | js/api.js:31-81 | the quote and income mappings are injective: no provider information is lost |
| Api.MapBalanceSheetInjective | js/api.js:101-111 | the balance-sheet mapping is injective; the current ratio is the only derived field |
| Api.MapCashFlowMergesMissingAndZero | js/api.js:136 | a missing SBC and a reported SBC of 0 are distinct records that map to the same statement |
| Api.FetchStockQuote | js/api.js:23-56 | the mapped first quote of a non-empty response, otherwise the demo quote |
| Api.FetchIncomeStatement | js/api.js:61-89 | a non-empty response mapped element by element in order, otherwise the demo statements; never empty |
| Api.FetchBalanceSheet | js/api.js:94-119 | a non-empty response mapped element by element in order, otherwise the demo statements; never empty |
| Api.FetchCashFlow | js/api.js:124-145 | a non-empty response mapped element by element in order, otherwise the demo statements; never empty |
| Api.MockPriceFor | js/api.js:240-248 | a listed symbol gets its table entry; an unknown symbol gets price 100, P/E 20, market cap 10e9 and its own name; every demo price and P/E is positive |
| Api.MockQuote | js/api.js:239-266 | the quote carries the symbol, the defaults for unknown symbols, and eps × pe = price |
| Api.MockQuoteRanges | js/api.js:254-259 | every demo price is positive and lies strictly inside its day range and its 52-week range |
| Api.MockRevenue | js/api.js:273 | demo revenue is positive |
| Api.MockIncomeStatement | js/api.js:268-289 | five statements dated 2023-12-31 down to 2019-12-31; cost of revenue + gross profit = revenue; operating income = revenue × operating margin |
| Api.MockRevenueDecreasing | js/api.js:273 | revenue strictly decreases from the newest year to the oldest and stays positive |
| Api.MockAssets | js/api.js:295 | demo total assets are positive |
| Api.MockBalanceSheet | js/api.js:291-308 | five dated balance sheets with no debt, equity = current assets, and current assets / current liabilities = current ratio = 3 |
| Api.MockOperatingCashFlow | js/api.js:314 | demo operating cash flow is positive |
| Api.MockCashFlow | js/api.js:310-323 | five dated statements with free cash flow = operating cash flow − capex |
| App.Without | js/app.js:1059 | exactly the entries whose symbol differs remain, and the removed symbol is no longer listed |
| App.WithoutDistributes | js/app.js:1059 | filtering distributes over concatenation, so relative order is preserved |
| App.WithoutAbsentSymbol | js/app.js:1059 | removing an unlisted symbol changes nothing |
| App.WithoutKeepsDistinct | js/app.js:1058-1062 | removing keeps symbols pairwise distinct |
| App.AppendKeepsDistinct | js/app.js:971-976 | appending an unlisted symbol keeps symbols distinct and lists it |
| App.YearOf | js/app.js:193 | the year is the first four characters of the date, or the whole date when shorter |
| App.RoicSeries | js/app.js:183-196 | one point per income statement, paired by index with the balance sheet, at the 21% tax rate |
| App.RoicValues | js/app.js:199 | the ROIC values of the series, in order |
| App.AverageRoicBounds | js/app.js:199 | the average ROIC lies within any bounds shared by all yearly values |
| App.RevenueGrowth | js/app.js:202-203 | 0 with fewer than two statements or a zero previous revenue; otherwise newest = previous × (1 + growth/100) |
| App.InventoryGrowth | js/app.js:206-207 | 0 with fewer than two balance sheets or a zero previous inventory; otherwise newest = previous × (1 + growth/100) |
| App.MarginChange | js/app.js:210-211 | 0 with fewer than two statements; otherwise previous margin + change = newest margin |
| App.ConservativeGrowth | js/app.js:216 | the valuation growth is the lesser of the revenue growth and 15 |
| App.MetricsDcfParams | js/app.js:214-225 | the valuation inputs are defined for the DCF; growth is min(revenue growth, 15); revenue and margin are the newest statement's; capex% × revenue = 100 × |capex|; shares × (price / P/E) = equity; cash and debt from the newest balance sheet; tax 21, terminal growth 2.5 and discount rate 10 |
| App.MetricsRedFlagInput | js/app.js:231-237 | the rules receive the inventory and revenue growth, the newest SBC, the newest (non-zero) revenue and the margin change |
| App.MetricsScoreInput | js/app.js:240-250 | the newest current ratio, debt/equity × equity = debt, the newest operating margin, the given ROIC, MOS and flags; interest coverage 10, moat "Moderate" and management "A" are fixed |
| App.MetricsScorePlaceholders | js/app.js:243-249 | the fixed placeholders earn 14 qualitative points and the interest-coverage bonus |
| App.MetricsFor | js/app.js:199-265 | avgRoic is the mean of the ROIC series; the valuation is `Dcf` of `MetricsDcfParams`; MOS is taken at the quoted price; the score is `MoneyTalksScore` of the score inputs; the three year-over-year changes, the given flags, debt/equity × equity = debt, the newest current ratio and FCF; the verdict matches the total |
| App.OverviewVerdictFor | js/app.js:338-346 | STRONG BUY iff score ≥ 80 and MOS ≥ 30; BUY iff not that and score ≥ 60 and MOS ≥ 15; HOLD iff neither and score ≥ 40 or MOS ≥ 0; SELL/AVOID iff score < 40 and MOS < 0 |
| App.OverviewVerdictMonotone | js/app.js:338-346 | a better score and a larger MOS never give a worse verdict |
| App.MosLabelFor | js/app.js:677-685 | BUY ZONE iff MOS ≥ 30, FAIR VALUE iff 15 ≤ MOS < 30, OVERVALUED iff MOS < 15 |
| App.PeOrDefault | js/app.js:659 | a zero P/E falls back to exactly 20; any other P/E is kept |
| App.UpdateDcf | js/app.js:642-685 | the panel shows the valuation at the slider values and its MOS; buy price = 0.7 × IV and strong-buy price = 0.5 × IV; the label is `MosLabelFor` of the MOS; for a positive IV the label is BUY ZONE exactly when the price is at most the buy price |
| App.BuyZoneIffAtMostBuyPrice | js/app.js:673-681 | for a positive IV, MOS ≥ 30 exactly when the price is at most 70% of IV |
| App.AppState.constructor | js/app.js:3-5 | no current stock and an empty watchlist |
| App.AppState.CalculateMetrics | js/app.js:173-266 | with no income statement nothing changes; otherwise the stock gains its ROIC series and the metrics `MetricsFor` gives, with red flags satisfying the three rules |
| App.AppState.AddToWatchlist | js/app.js:965-988 | unchanged without a current stock or for a listed symbol; otherwise one entry appended with target 0.7 × IV and the metrics' MOS and score; distinct symbols stay distinct |
| App.AppState.QuickAddToWatchlist | js/app.js:1113-1131 | unchanged for a listed symbol; otherwise one entry appended with target 0.85 × price, MOS 0 and score 0; distinct symbols stay distinct |
| App.AppState.RemoveFromWatchlist | js/app.js:1058-1062 | the watchlist becomes `Without(old, symbol)`, no longer lists the symbol, and keeps distinct symbols distinct |

## Left out

- The page: DOM updates, HTML strings, charts, `alert`, event wiring and `setTimeout`. `js/charts.js` is not part of this model.
- The network and its plumbing: `fetch`, `response.json()`, `Promise.all` and the try/catch fallbacks. A request's outcome is a parameter, where `None` stands for a failed request or a non-array body.
- Persistence: the local-storage load and save of the watchlist.
- The clock: `Date.now()` and `new Date().toISOString()` are parameters (`now`, `completedAt`, `addedDate`).
- Randomness: the random demo ROIC of competitors and the random news sentiment.
- The profile, news and search fetches: they return display data that no modelled rule reads.
- IEEE floating point: rounding, NaN and Infinity. Numbers are exact reals, and every division the program could make by zero is a precondition instead:
  - the DCF's share count, discount base and r − tg;
  - revenue in the SBC ratio and the capex percentage;
  - price, P/E and equity in the share estimate;
  - equity in debt/equity;
  - current liabilities in the balance-sheet mapping.
- Calculations.CalculateCagr: does not compute the fractional power `Math.pow(end/begin, 1/years)`; the root is a parameter and only the zero guard and the compounding property are stated.
- `getROICConsistency`: it needs a square root, which is not modelled.
- `formatPercent` and the `toFixed` digit rendering of `formatNumber` and of the red-flag messages: messages are not part of the flags, and only the N/A case and the T/B/M/K suffix choice are modelled.
- Api.MockPriceFor: models the demo table as a map. JavaScript property lookup would also find inherited object keys such as `constructor`.
- Api.Competitors: has the same limitation as `MockPriceFor` for inherited keys of the competitor table.
- App.AppState.CalculateMetrics: requires the lookups the program would crash on to succeed:
  - a balance sheet for every income statement;
  - at least one cash-flow statement.

  It does not model the exception raised otherwise.
- App.AppState.AddToWatchlist: requires metrics on a current stock whose symbol is not yet listed. It does not model the exception the program raises when they are missing.
- The `limit` request parameter of the statement fetches: it only shapes the URL, and the response is a parameter.
- The terminal free cash flow deducts no capex, unlike the projected years. The model keeps that as written (`Calculations.TerminalFreeCashFlow`).
- Api.ResponseCache.GetCached: one call is one atomic step. It does not capture the `await` between the freshness test and the store: two concurrent calls for one key can both miss, both fetch and both store, and the last store wins.
- Api.ResponseCache.GetCached: does not model a fetch that rejects. The program then stores nothing and the error propagates to the caller.
- Api.ResponseCache.GetCached: takes the duration as a parameter. The default `CONFIG.CACHE_DURATION` is stated separately by `Api.DefaultDurationIsFiveMinutes`.
- Calculations.CalculateFcf: has no default argument. The program's `sbc = 0` default is the call with `sbc` equal to 0.
- The DCF slider reading (`parseFloat` of the DOM inputs): slider values are a parameter of `App.UpdateDcf`.
