/**
 * The constants of the application's configuration record that the
 * engine reads: the ROIC tiers and the SBC threshold of the scoring
 * table, the competitor table and the cache lifetime.
 */
module Config {

  // Scoring thresholds (percent).
  const ROIC_EXCEPTIONAL: real := 25.0
  const ROIC_EXCELLENT: real := 20.0
  const ROIC_GOOD: real := 15.0
  const ROIC_ACCEPTABLE: real := 10.0

  /** Stock-based compensation above this percentage of revenue is a red flag. */
  const SBC_THRESHOLD: real := 10.0

  /** Response cache lifetime: five minutes, in milliseconds. */
  const CACHE_DURATION: int := 5 * 60 * 1000

  /** Peers shown on the competitor tab, by ticker. */
  const COMPETITOR_MAP: map<string, seq<string>> := map[
    "GRMN" := ["AAPL", "GOOGL", "FTNT"],
    "AAPL" := ["MSFT", "GOOGL", "META"],
    "COST" := ["WMT", "TGT", "AMZN"],
    "MSFT" := ["AAPL", "GOOGL", "ORCL"],
    "NVDA" := ["AMD", "INTC", "AVGO"],
    "TSLA" := ["F", "GM", "RIVN"]
  ]
}
