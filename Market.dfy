/**
  Values shared by every part of the price resolver: coins, the exchange
  records it reads, the supplied exchange data and the ways a resolution fails.
 */
module Market {

  /** A member of the coin enumeration. BTC and EOS are the two members the
      routing logic names; every other member is identified by its name.
      `Other("BTC")` and `Other("EOS")` stand for no member of the enumeration. */
  datatype Coin = BTC | EOS | Other(name: string)

  /** The enumeration member's name, as `ToString()` renders it. */
  function Symbol(c: Coin): string
  {
    match c
    case BTC => "BTC"
    case EOS => "EOS"
    case Other(name) => name
  }

  /** The trade-log parser a price is requested for. `NoParser` is the null
      reference the caller may pass. */
  datatype Parser = NoParser | KrakenTrades | BinanceTrades | OtherParser(name: string)

  /** One Kraken OHLC row: its time in seconds since the epoch and its prices. */
  datatype Sample = Sample(time: int, open: real, high: real, low: real, close: real)

  /** One Binance kline, reduced to the three positions the resolver reads:
      position 2 (high), 3 (low) and 4 (close). */
  datatype Candle = Candle(high: real, low: real, close: real)

  /** The requested date, read twice: as whole seconds since the epoch (the
      Kraken target) and as milliseconds since the epoch with the seconds
      removed (the start of the Binance one-minute window). */
  datatype Moment = Moment(unixSeconds: int, minuteMs: int)

  /** The Kraken OHLC endpoint: for a pair, an interval in minutes and a
      `since` cursor, the values of the response's `Result` dictionary (one
      row list per entry), or `None` when `Result` is null. */
  type OhlcFeed = (string, int, int) -> Option<seq<seq<Sample>>>

  /** The Binance klines endpoint: for a symbol, a start and an end time in
      milliseconds, the candles it returns. */
  type KlinesFeed = (string, int, int) -> seq<Candle>

  /** Why a resolution fails. Each case but the last is an `ArgumentException`
      thrown at a distinct place; `RequestLimit` is the bound this model puts
      on the Kraken polling loop. */
  datatype Error =
    | UnsupportedCoin    // no Kraken route to the fiat for this coin
    | MissingResult      // a Kraken page whose Result is null
    | NoSampleBefore     // a sample after the target, none at or before it
    | NoCandles          // Binance returned no candle for the window
    | UnsupportedParser  // a parser that is neither null, Kraken nor Binance
    | RequestLimit       // the polling loop used up its request budget

  datatype Option<+T> = None | Some(value: T)

  datatype Result<+T> = Ok(value: T) | Err(error: Error)
}
