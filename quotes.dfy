/** The option-quote record the tracker's extractors build and its other stages consume. */
module Quotes {
  import opened Wrappers

  /**
   * One record: the option's asset, strike and expiry text, its side
   * ("call"/"put", or absent), bid/ask/mid implied volatility in percent,
   * the advertised APY in percent, and whether the IV was derived from the APY.
   * Absent values are Python's `None`.
   */
  datatype Quote = Quote(
    asset: string,
    strike: real,
    expiry: string,
    optionType: Option<string>,
    bidIv: Option<real>,
    askIv: Option<real>,
    midIv: Option<real>,
    apy: Option<real>,
    ivCalculated: bool)

  /** The identity of an option for de-duplication: (asset, strike, expiry, option_type). */
  datatype QuoteKey = QuoteKey(asset: string, strike: real, expiry: string, optionType: Option<string>)

  function KeyOf(q: Quote): QuoteKey {
    QuoteKey(q.asset, q.strike, q.expiry, q.optionType)
  }
}
