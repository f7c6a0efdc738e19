# Exchange price resolution, modelled in Dafny

This project models the price-resolution core of ComputeFIFOTaxes'
`ExchangePriceProvider`. That code finds the fiat price of a coin at a given
moment from exchange price history:

- **Route selection.** `GetKrakenPathToCoin` and `GetBinancePathToBtc` give the
  trading pairs that lead from a coin to the exchange's base: the configured
  fiat on Kraken, BTC on Binance.
- **Kraken bracketing scan.** `GetKrakenTicks` pages Kraken's daily OHLC series
  with a `since` cursor until it sees a row strictly after the target time. It
  then returns the last row at or before the target together with that row.
- **Binance window averaging.** The Binance branch fetches the one-minute
  klines of the requested minute. It averages their high, low and close.
- **Hop fold.** Both branches fold the per-hop figures by multiplication. An
  accumulator still equal to 0 means "no hop yet".
- **Dispatch.** No parser and the Kraken parser use the midpoint of the folded
  low and high. The Binance parser multiplies the folded close average by the
  Kraken price of BTC. Any other parser fails.

Exchange responses are inputs. `OhlcFeed` maps a pair, an interval and a
cursor to the rows of the response's `Result` dictionary, or to `None` when
`Result` is null. `KlinesFeed` maps a symbol and a window to its candles. The
requested date comes in as a `Moment`: whole seconds since the epoch for
Kraken, and milliseconds with the whole seconds removed for Binance. Every
exception of the source becomes an `Err` of the `Error` datatype.

Modules, one per component:

- `Market.dfy` holds the coins, samples, candles, feeds and errors.
- `Paths.dfy` holds route selection.
- `HopFold.dfy` holds the zero-sentinel fold.
- `KrakenTicks.dfy` holds the bracketing scan.
- `BinanceCandles.dfy` holds the window averaging.
- `PriceResolver.dfy` holds both branches and the dispatch.

Each loop of the source is a method with loop invariants. Each method is proved
equal to a specification function, and the lemmas state what the source
promises about those functions.

Behaviour of the code that a reader might not expect:

- A Kraken hop's low and high come only from the two bracket samples (lines
  46-47). They do not come from every row seen while paging.
- The Binance result multiplies the average close (line 113), not the average
  high.
- A coin equal to the configured fiat prices at 0 on Kraken (lines 37-38 and 61).
  BTC prices at 0 on Binance. Neither gets a neutral 1.

## Model

| member | source | states |
|---|---|---|
| `Paths.KrakenPathToCoin` | src/ComputeFIFOTaxes/Providers/ExchangePriceProvider.cs:187-198 | a route exists exactly for the fiat itself, BTC and EOS; the fiat's route is empty; otherwise the route is the single pair `"XBT" + fiat`; every other coin fails with `UnsupportedCoin` |
| `Paths.BinancePathToBtc` | src/ComputeFIFOTaxes/Providers/ExchangePriceProvider.cs:172-180 | the route is empty exactly for BTC; otherwise it has one element, `coin + "BTC"` |
| `Paths.EosSharesBtcPair` | src/ComputeFIFOTaxes/Providers/ExchangePriceProvider.cs:191-194 | for a fiat other than BTC and EOS, EOS and BTC get the same route, `["XBT" + fiat]` |
| `Paths.BinanceOneHop` | src/ComputeFIFOTaxes/Providers/ExchangePriceProvider.cs:178 | every coin but BTC has exactly one Binance pair: the coin's symbol followed by "BTC" |
| `HopFold.FoldIsProduct` | src/ComputeFIFOTaxes/Providers/ExchangePriceProvider.cs:49-58 | when no hop minimum is 0, the zero-sentinel fold of a non-empty path is the plain product of the hop figures |
| `HopFold.TwoHops` | src/ComputeFIFOTaxes/Providers/ExchangePriceProvider.cs:97-108 | when the first hop's minimum is non-zero, two hops fold to `h1 * h2`, and in either order when both minima are non-zero |
| `HopFold.EmptyFoldIsZero` | src/ComputeFIFOTaxes/Providers/ExchangePriceProvider.cs:37-38 | the fold of no hops is 0, not the neutral 1 of a product |
| `HopFold.ZeroGateForgets` | src/ComputeFIFOTaxes/Providers/ExchangePriceProvider.cs:49-53 | while the minimum accumulator is 0, the next hop overwrites every accumulator and drops what was folded before |
| `KrakenTicks.GetKrakenTicks` | src/ComputeFIFOTaxes/Providers/ExchangePriceProvider.cs:120-165 | the polling loop, with its `since`, `first` and `last` slots and its per-entry `break`, returns exactly the bracket or failure that the scan functions define |
| `KrakenTicks.FirstAfter` | src/ComputeFIFOTaxes/Providers/ExchangePriceProvider.cs:142-148 | the row the scan of an entry stops at is the first row strictly after the target; every row before it is at or before the target |
| `KrakenTicks.ScanRowsStopsAtFirstAfter` | src/ComputeFIFOTaxes/Providers/ExchangePriceProvider.cs:142-152 | after an entry, `last` is its first row past the target; `first` and the cursor are the row just before that one; a slot no row reaches keeps its earlier value |
| `KrakenTicks.RowsAfterStopIgnored` | src/ComputeFIFOTaxes/Providers/ExchangePriceProvider.cs:144-148 | rows after the first row past the target do not affect the scan |
| `KrakenTicks.ScanEntriesKeeps` | src/ComputeFIFOTaxes/Providers/ExchangePriceProvider.cs:140-153 | across every entry of a page, `first` holds only rows at or before the target and `last` only rows after it; the cursor is 0 until a row at or before the target is seen, and afterwards that row's time |
| `KrakenTicks.BracketOrdered` | src/ComputeFIFOTaxes/Providers/ExchangePriceProvider.cs:144-159 | a returned bracket has `before.time <= target < after.time`; a row exactly at the target counts as before |
| `KrakenTicks.RefetchFromCursor` | src/ComputeFIFOTaxes/Providers/ExchangePriceProvider.cs:150-163 | a page with no row past the target leads to a new request from the advanced cursor, with both slots kept |
| `KrakenTicks.NoEarlierRowNoBracket` | src/ComputeFIFOTaxes/Providers/ExchangePriceProvider.cs:155-157 | when every served row is after the target, no bracket is ever returned, so no half bracket either |
| `KrakenTicks.NullPageFails` | src/ComputeFIFOTaxes/Providers/ExchangePriceProvider.cs:138 | a null `Result` fails the scan with `MissingResult`, on the first request and on every request after a refetch alike |
| `KrakenTicks.TicksFuelMonotone` | src/ComputeFIFOTaxes/Providers/ExchangePriceProvider.cs:128-163 | the request budget only cuts the polling short: any outcome other than running out of requests stays the same with every larger budget |
| `KrakenTicks.ThreeRowExample` | src/ComputeFIFOTaxes/Providers/ExchangePriceProvider.cs:140-159 | rows at 100, 200 and 300 with target 250 give the bracket (200, 300) |
| `BinanceCandles.AverageCandles` | src/ComputeFIFOTaxes/Providers/ExchangePriceProvider.cs:80-95 | no candle fails with `NoCandles`; otherwise the result is the mean low, mean high and mean close of the candles |
| `BinanceCandles.SingleCandle` | src/ComputeFIFOTaxes/Providers/ExchangePriceProvider.cs:86-95 | a one-candle window averages to that candle's own low, high and close |
| `BinanceCandles.AveragesWithinRange` | src/ComputeFIFOTaxes/Providers/ExchangePriceProvider.cs:86-95 | when each candle has low <= close <= high within [lo, hi], the averages keep that order within [lo, hi] |
| `BinanceCandles.MeanBounds` | src/ComputeFIFOTaxes/Providers/ExchangePriceProvider.cs:93-95 | dividing a sum by the count gives a figure within any bounds all the figures lie within |
| `PriceResolver.HopLow` | src/ComputeFIFOTaxes/Providers/ExchangePriceProvider.cs:46 | a Kraken hop's low is the smaller of the two bracket samples' lows |
| `PriceResolver.HopHigh` | src/ComputeFIFOTaxes/Providers/ExchangePriceProvider.cs:47 | a Kraken hop's high is the larger of the two bracket samples' highs |
| `PriceResolver.KrakenBranch` | src/ComputeFIFOTaxes/Providers/ExchangePriceProvider.cs:34-62 | the hop loop with its `minV` and `maxV` accumulators returns exactly `KrakenPrice`: the route's failure, the first bracket failure, or the midpoint of the folded lows and highs |
| `PriceResolver.KrakenHopsErrPersists` | src/ComputeFIFOTaxes/Providers/ExchangePriceProvider.cs:40-44 | a failing hop fails the whole Kraken path with that failure |
| `PriceResolver.KrakenHopsFuelMonotone` | src/ComputeFIFOTaxes/Providers/ExchangePriceProvider.cs:40-42 | a larger request budget leaves every Kraken path outcome unchanged, except running out of requests |
| `PriceResolver.KrakenPriceFuelMonotone` | src/ComputeFIFOTaxes/Providers/ExchangePriceProvider.cs:34-62 | a larger request budget leaves the Kraken price unchanged, unless the budget ran out |
| `PriceResolver.KrakenPriceCases` | src/ComputeFIFOTaxes/Providers/ExchangePriceProvider.cs:37-61 | the fiat itself prices at 0; any coin but the fiat, BTC and EOS fails with `UnsupportedCoin`; BTC and EOS price at `(min low + max high) / 2` of the bracket of `"XBT" + fiat`, or fail as its scan fails |
| `PriceResolver.KrakenSingleHop` | src/ComputeFIFOTaxes/Providers/ExchangePriceProvider.cs:40-61 | BTC and EOS take the one hop through `"XBT" + fiat`: the price is `(min low + max high) / 2` of its bracket, or the bracket scan's failure |
| `PriceResolver.FoldBinancePath` | src/ComputeFIFOTaxes/Providers/ExchangePriceProvider.cs:72-109 | the hop loop with its `minV`, `maxV` and `avgV` accumulators returns exactly the zero-sentinel fold of the window averages, or the first empty-window failure |
| `PriceResolver.BinanceBranch` | src/ComputeFIFOTaxes/Providers/ExchangePriceProvider.cs:66-114 | the Binance branch returns exactly `BinancePrice`: a fold failure, then a failure of the Kraken price of BTC, otherwise that price times the folded close average |
| `PriceResolver.BinanceFoldCases` | src/ComputeFIFOTaxes/Providers/ExchangePriceProvider.cs:76-109 | BTC folds to all zeros; any other coin folds to the averages of its BTC pair's window, from the requested minute to 60000 ms later, or fails when that window is empty |
| `PriceResolver.BinanceEmptyWindowFails` | src/ComputeFIFOTaxes/Providers/ExchangePriceProvider.cs:78-80 | an empty window fails the Binance price with `NoCandles`, never a zero price |
| `PriceResolver.BinancePriceIsBridgeTimesClose` | src/ComputeFIFOTaxes/Providers/ExchangePriceProvider.cs:111-113 | a Binance price is the Kraken price of BTC times the average close of the coin's BTC pair |
| `PriceResolver.BinanceBtcPricesZero` | src/ComputeFIFOTaxes/Providers/ExchangePriceProvider.cs:74-113 | BTC on Binance prices at 0 once the Kraken price of BTC is known |
| `PriceResolver.BinanceBridgeFailureFails` | src/ComputeFIFOTaxes/Providers/ExchangePriceProvider.cs:113 | a failing Kraken price of BTC fails every Binance price that got past its window, with the same failure |
| `PriceResolver.BinanceUsesClosesOnly` | src/ComputeFIFOTaxes/Providers/ExchangePriceProvider.cs:97-113 | the folded low and high averages never reach the result: two feeds that agree on the closes give the same price |
| `PriceResolver.InternalGetFiatPrice` | src/ComputeFIFOTaxes/Providers/ExchangePriceProvider.cs:28-117 | the dispatch returns exactly `FiatPrice` for the parser |
| `PriceResolver.DispatchCases` | src/ComputeFIFOTaxes/Providers/ExchangePriceProvider.cs:30-116 | no parser and the Kraken parser give the Kraken price; any other parser but Binance fails with `UnsupportedParser` whatever the feeds serve |
| `PriceResolver.FiatPriceFuelMonotone` | src/ComputeFIFOTaxes/Providers/ExchangePriceProvider.cs:28-117 | for every parser, a larger request budget leaves the price unchanged, unless the budget ran out |

## Left out

- HTTP and JSON are not modelled. This covers `DownloadHelper.Download`, `DownloadHelper.UrlEncode`, the URL strings and Newtonsoft's positional `JArray` access. Responses are the `OhlcFeed` and `KlinesFeed` inputs. A candle keeps only positions 2, 3 and 4.
- Converting a `DateTime` to epoch seconds and to epoch milliseconds with the whole seconds removed (lines 68 and 122) is not modelled. It depends on time zones and the .NET runtime. Both readings are inputs in `Moment`.
- `System.Decimal` is modelled as `real`, with exact division. Its 28-digit rounding and overflow are not reproduced.
- KrakenTicks.GetKrakenTicks: the source polls without bound and can spin forever on a page with no new row. The model bounds the loop by a request budget (`fuel`) and fails with `RequestLimit` when the budget runs out. The source has no such error. Every other outcome stays the same under any larger budget (`TicksFuelMonotone` up to `FiatPriceFuelMonotone`), so the budget only cuts polling short.
- PriceResolver.BinanceBranch: the BTC bridge at line 113 goes through `FiatProviderBase.GetFiatPrice`, which is not part of this model. It is modelled as a direct call into the Kraken branch for BTC. Any caching or short-circuit in the base class is not captured.
- `ECoin`, `KrakenOHLC`, `KrakenResult` and `TimestampedDictionary` are not part of this model. `Coin` names BTC and EOS and identifies every other member by name. A Kraken response is the list of its `Result` values, in dictionary order.
- The null check on the bracket at line 44 is not modelled. `GetKrakenTicks` either throws or returns two samples, so that check can never fire.
- The source throws `ArgumentException` in every failure case. The model gives each case its own `Error` value.
