/** The status codes bot.py returns next to its results. */
module Status {

  /** Success. */
  const Ok: int := 0
  /** fetch_ohlcv: no candidate spelling of the symbol returned bars. */
  const FetchFailed: int := 2
  /** get_top_symbols: no symbol could be discovered. */
  const Unavailable: int := 3
}
