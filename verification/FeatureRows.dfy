/** The published output of the feature engine for one candle. */
module FeatureRows {
  import opened Common
  import opened Orders

  datatype Unavailable = Warmup | GapWarmup | ZeroDenominator

  datatype FeatureRow = FeatureRow(
    symbol: Symbol, timestamp: Time, availableAt: Time, close: real,
    values: map<string, Option<real>>, unavailable: map<string, Unavailable>,
    sufficientHistory: bool, gapBefore: bool)
}
