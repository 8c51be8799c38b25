/** The names every script shares: ticker symbols and trading days. */
module Market {

  type Ticker = string

  /** A trading day, as an ordinal; only the order of dates matters here. */
  type Date = int
}
