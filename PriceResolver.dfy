/**
  The price of a coin in the configured fiat at one moment: the Kraken branch
  (also taken when no parser is given), the Binance branch that bridges
  through BTC, and the dispatch between them.
 */
module PriceResolver {
  import opened Market
  import opened Paths
  import opened HopFold
  import opened KrakenTicks
  import opened BinanceCandles

  // ---------------------------------------------------------------- Kraken

  /** A Kraken hop's low: the smaller low of the two bracket samples. */
  function HopLow(b: Bracket): (r: real)
    ensures r <= b.before.low && r <= b.after.low && (r == b.before.low || r == b.after.low)
  {
    if b.before.low <= b.after.low then b.before.low else b.after.low
  }

  /** A Kraken hop's high: the larger high of the two bracket samples. */
  function HopHigh(b: Bracket): (r: real)
    ensures r >= b.before.high && r >= b.after.high && (r == b.before.high || r == b.after.high)
  {
    if b.before.high >= b.after.high then b.before.high else b.after.high
  }

  function HopLows(bs: seq<Bracket>): (r: seq<real>)
    ensures |r| == |bs| && forall i :: 0 <= i < |bs| ==> r[i] == HopLow(bs[i])
  {
    seq(|bs|, i requires 0 <= i < |bs| => HopLow(bs[i]))
  }

  function HopHighs(bs: seq<Bracket>): (r: seq<real>)
    ensures |r| == |bs| && forall i :: 0 <= i < |bs| ==> r[i] == HopHigh(bs[i])
  {
    seq(|bs|, i requires 0 <= i < |bs| => HopHigh(bs[i]))
  }

  /** The brackets of the pairs, in order, or the first failure. */
  function KrakenHops(pairs: seq<string>, target: int, ohlc: OhlcFeed, fuel: nat): Result<seq<Bracket>>
    decreases |pairs|
  {
    if |pairs| == 0 then Ok([])
    else match KrakenHops(pairs[..|pairs| - 1], target, ohlc, fuel)
      case Err(e) => Err(e)
      case Ok(bs) =>
        match GetTicks(pairs[|pairs| - 1], target, ohlc, fuel)
        case Err(e) => Err(e)
        case Ok(b) => Ok(bs + [b])
  }

  /** The Kraken price: the midpoint of the folded hop lows and highs. */
  function KrakenPrice(fiat: Coin, coin: Coin, target: int, ohlc: OhlcFeed, fuel: nat): Result<real>
  {
    match KrakenPathToCoin(fiat, coin)
    case Err(e) => Err(e)
    case Ok(pairs) =>
      match KrakenHops(pairs, target, ohlc, fuel)
      case Err(e) => Err(e)
      case Ok(bs) =>
        Ok((SentinelFold(HopLows(bs), HopLows(bs)) + SentinelFold(HopLows(bs), HopHighs(bs))) / 2.0)
  }

  /** A failure on some pair is the failure of every longer path. */
  lemma {:induction false} KrakenHopsErrPersists(pairs: seq<string>, k: nat, target: int, ohlc: OhlcFeed, fuel: nat)
    requires k <= |pairs|
    requires KrakenHops(pairs[..k], target, ohlc, fuel).Err?
    ensures KrakenHops(pairs, target, ohlc, fuel) == KrakenHops(pairs[..k], target, ohlc, fuel)
    decreases |pairs|
  {
    if k < |pairs| {
      var n := |pairs| - 1;
      assert pairs[..n][..k] == pairs[..k];
      KrakenHopsErrPersists(pairs[..n], k, target, ohlc, fuel);
    } else {
      assert pairs[..k] == pairs;
    }
  }

  /** A larger request budget leaves every Kraken path outcome but the
      budget's own failure unchanged. */
  lemma {:induction false} KrakenHopsFuelMonotone(pairs: seq<string>, target: int, ohlc: OhlcFeed, fuel: nat, more: nat)
    requires KrakenHops(pairs, target, ohlc, fuel) != Err(RequestLimit)
    ensures KrakenHops(pairs, target, ohlc, fuel + more) == KrakenHops(pairs, target, ohlc, fuel)
    decreases |pairs|
  {
    if |pairs| > 0 {
      var n := |pairs| - 1;
      KrakenHopsFuelMonotone(pairs[..n], target, ohlc, fuel, more);
      if KrakenHops(pairs[..n], target, ohlc, fuel).Ok? {
        TicksFuelMonotone(pairs[n], target, ohlc, Start, fuel, more);
      }
    }
  }

  /** The Kraken price does not depend on the request budget, once the
      budget suffices. */
  lemma KrakenPriceFuelMonotone(fiat: Coin, coin: Coin, target: int, ohlc: OhlcFeed, fuel: nat, more: nat)
    requires KrakenPrice(fiat, coin, target, ohlc, fuel) != Err(RequestLimit)
    ensures KrakenPrice(fiat, coin, target, ohlc, fuel + more) == KrakenPrice(fiat, coin, target, ohlc, fuel)
  {
    var path := KrakenPathToCoin(fiat, coin);
    if path.Ok? {
      KrakenHopsFuelMonotone(path.value, target, ohlc, fuel, more);
    }
  }

  /** A one-pair path brackets that pair. */
  lemma KrakenOnePair(pair: string, target: int, ohlc: OhlcFeed, fuel: nat)
    ensures KrakenHops([pair], target, ohlc, fuel) ==
      match GetTicks(pair, target, ohlc, fuel)
      case Err(e) => Err(e)
      case Ok(b) => Ok([b])
  {
    assert [pair][..0] == [];
    if GetTicks(pair, target, ohlc, fuel).Ok? {
      assert [] + [GetTicks(pair, target, ohlc, fuel).value] == [GetTicks(pair, target, ohlc, fuel).value];
    }
  }

  /** Folding one more Kraken bracket. */
  lemma KrakenFoldStep(bs: seq<Bracket>, b: Bracket)
    ensures SentinelFold(HopLows(bs + [b]), HopLows(bs + [b])) ==
      if SentinelFold(HopLows(bs), HopLows(bs)) == 0.0 then HopLow(b)
      else SentinelFold(HopLows(bs), HopLows(bs)) * HopLow(b)
    ensures SentinelFold(HopLows(bs + [b]), HopHighs(bs + [b])) ==
      if SentinelFold(HopLows(bs), HopLows(bs)) == 0.0 then HopHigh(b)
      else SentinelFold(HopLows(bs), HopHighs(bs)) * HopHigh(b)
  {
    HopFiguresAppend(bs, b);
    FoldStep(HopLows(bs), HopLows(bs), HopLow(b), HopLow(b));
    FoldStep(HopLows(bs), HopHighs(bs), HopLow(b), HopHigh(b));
  }

  lemma HopFiguresAppend(bs: seq<Bracket>, b: Bracket)
    ensures HopLows(bs + [b]) == HopLows(bs) + [HopLow(b)]
    ensures HopHighs(bs + [b]) == HopHighs(bs) + [HopHigh(b)]
  {
  }

  /** The Kraken branch: bracket each hop, fold the hop lows and highs with
      the zero sentinel, and return their midpoint. */
  method KrakenBranch(fiat: Coin, coin: Coin, target: int, ohlc: OhlcFeed, fuel: nat) returns (r: Result<real>)
    ensures r == KrakenPrice(fiat, coin, target, ohlc, fuel)
  {
    var path := KrakenPathToCoin(fiat, coin);
    if path.Err? {
      return Err(path.error);
    }
    var pairs := path.value;
    var minV, maxV := 0.0, 0.0;
    ghost var bs: seq<Bracket> := [];
    var i := 0;
    while i < |pairs|
      invariant 0 <= i <= |pairs|
      invariant KrakenHops(pairs[..i], target, ohlc, fuel) == Ok(bs)
      invariant minV == SentinelFold(HopLows(bs), HopLows(bs))
      invariant maxV == SentinelFold(HopLows(bs), HopHighs(bs))
    {
      assert pairs[..i + 1][..i] == pairs[..i];
      var ticks := GetKrakenTicks(pairs[i], target, ohlc, fuel);
      if ticks.Err? {
        KrakenHopsErrPersists(pairs, i + 1, target, ohlc, fuel);
        return Err(ticks.error);
      }
      var min := HopLow(ticks.value);
      var max := HopHigh(ticks.value);
      KrakenFoldStep(bs, ticks.value);
      if minV == 0.0 {
        minV := min;
        maxV := max;
      } else {
        minV := minV * min;
        maxV := maxV * max;
      }
      bs := bs + [ticks.value];
      i := i + 1;
    }
    assert pairs[..i] == pairs;
    r := Ok((minV + maxV) / 2.0);
  }

  /** The three outcomes of the Kraken branch: the fiat itself prices at 0,
      BTC and EOS price at the midpoint of the BTC/fiat bracket's smaller low
      and larger high (or fail as the bracket scan fails), and every other
      coin is unsupported. */
  lemma KrakenPriceCases(fiat: Coin, coin: Coin, target: int, ohlc: OhlcFeed, fuel: nat)
    ensures coin == fiat ==> KrakenPrice(fiat, coin, target, ohlc, fuel) == Ok(0.0)
    ensures coin != fiat && coin != BTC && coin != EOS ==>
      KrakenPrice(fiat, coin, target, ohlc, fuel) == Err(UnsupportedCoin)
    ensures coin != fiat && (coin == BTC || coin == EOS) ==>
      KrakenPrice(fiat, coin, target, ohlc, fuel) ==
        match GetTicks("XBT" + Symbol(fiat), target, ohlc, fuel)
        case Err(e) => Err(e)
        case Ok(b) => Ok((HopLow(b) + HopHigh(b)) / 2.0)
  {
    if coin == fiat {
      assert KrakenPathToCoin(fiat, coin) == Ok([]);
      assert KrakenHops([], target, ohlc, fuel) == Ok([]);
    } else if coin == BTC || coin == EOS {
      KrakenSingleHop(fiat, coin, target, ohlc, fuel);
    } else {
      assert KrakenPathToCoin(fiat, coin) == Err(UnsupportedCoin);
    }
  }

  /** A single bracket folds to its own low and high. */
  lemma KrakenOneBracket(b: Bracket)
    ensures SentinelFold(HopLows([b]), HopLows([b])) == HopLow(b)
    ensures SentinelFold(HopLows([b]), HopHighs([b])) == HopHigh(b)
  {
    KrakenFoldStep([], b);
    assert [] + [b] == [b];
  }

  /** BTC and EOS take the one hop through the BTC/fiat pair. */
  lemma KrakenSingleHop(fiat: Coin, coin: Coin, target: int, ohlc: OhlcFeed, fuel: nat)
    requires coin != fiat && (coin == BTC || coin == EOS)
    ensures KrakenPrice(fiat, coin, target, ohlc, fuel) ==
      match GetTicks("XBT" + Symbol(fiat), target, ohlc, fuel)
      case Err(e) => Err(e)
      case Ok(b) => Ok((HopLow(b) + HopHigh(b)) / 2.0)
  {
    var pair := "XBT" + Symbol(fiat);
    assert KrakenPathToCoin(fiat, coin) == Ok([pair]);
    KrakenOnePair(pair, target, ohlc, fuel);
    var t := GetTicks(pair, target, ohlc, fuel);
    if t.Ok? {
      var b := t.value;
      assert KrakenHops([pair], target, ohlc, fuel) == Ok([b]);
      KrakenOneBracket(b);
    } else {
      assert KrakenHops([pair], target, ohlc, fuel) == Err(t.error);
    }
  }

  // --------------------------------------------------------------- Binance

  function HopMins(hs: seq<Averages>): (r: seq<real>)
    ensures |r| == |hs| && forall i :: 0 <= i < |hs| ==> r[i] == hs[i].min
  {
    seq(|hs|, i requires 0 <= i < |hs| => hs[i].min)
  }

  function HopMaxs(hs: seq<Averages>): (r: seq<real>)
    ensures |r| == |hs| && forall i :: 0 <= i < |hs| ==> r[i] == hs[i].max
  {
    seq(|hs|, i requires 0 <= i < |hs| => hs[i].max)
  }

  function HopAvgs(hs: seq<Averages>): (r: seq<real>)
    ensures |r| == |hs| && forall i :: 0 <= i < |hs| ==> r[i] == hs[i].avg
  {
    seq(|hs|, i requires 0 <= i < |hs| => hs[i].avg)
  }

  /** The averages of each pair's window, in order, or the first failure. */
  function BinanceHops(pairs: seq<string>, startMs: int, klines: KlinesFeed): Result<seq<Averages>>
    decreases |pairs|
  {
    if |pairs| == 0 then Ok([])
    else match BinanceHops(pairs[..|pairs| - 1], startMs, klines)
      case Err(e) => Err(e)
      case Ok(hs) =>
        var candles := Window(klines, pairs[|pairs| - 1], startMs);
        if |candles| == 0 then Err(NoCandles) else Ok(hs + [AveragesOf(candles)])
  }

  /** The folded `minV`, `maxV` and `avgV` of the path to BTC. */
  function BinanceFold(coin: Coin, startMs: int, klines: KlinesFeed): Result<Averages>
  {
    match BinanceHops(BinancePathToBtc(coin), startMs, klines)
    case Err(e) => Err(e)
    case Ok(hs) =>
      Ok(Averages(SentinelFold(HopMins(hs), HopMins(hs)),
                  SentinelFold(HopMins(hs), HopMaxs(hs)),
                  SentinelFold(HopMins(hs), HopAvgs(hs))))
  }

  /** The Binance price: the folded close average times the Kraken price of BTC. */
  function BinancePrice(fiat: Coin, coin: Coin, date: Moment, ohlc: OhlcFeed, klines: KlinesFeed, fuel: nat): Result<real>
  {
    match BinanceFold(coin, date.minuteMs, klines)
    case Err(e) => Err(e)
    case Ok(folded) =>
      match KrakenPrice(fiat, BTC, date.unixSeconds, ohlc, fuel)
      case Err(e) => Err(e)
      case Ok(bridge) => Ok(Bridged(bridge, folded.avg))
  }

  /** The fiat value of the folded BTC-denominated close average. */
  function Bridged(bridge: real, avg: real): real
  {
    bridge * avg
  }

  lemma {:induction false} BinanceHopsErrPersists(pairs: seq<string>, k: nat, startMs: int, klines: KlinesFeed)
    requires k <= |pairs|
    requires BinanceHops(pairs[..k], startMs, klines).Err?
    ensures BinanceHops(pairs, startMs, klines) == BinanceHops(pairs[..k], startMs, klines)
    decreases |pairs|
  {
    if k < |pairs| {
      var n := |pairs| - 1;
      assert pairs[..n][..k] == pairs[..k];
      BinanceHopsErrPersists(pairs[..n], k, startMs, klines);
    } else {
      assert pairs[..k] == pairs;
    }
  }

  /** A one-pair path averages that pair's window. */
  lemma BinanceOnePair(pair: string, startMs: int, klines: KlinesFeed)
    ensures BinanceHops([pair], startMs, klines) ==
      var candles := Window(klines, pair, startMs);
      if |candles| == 0 then Err(NoCandles) else Ok([AveragesOf(candles)])
  {
    assert [pair][..0] == [];
    var candles := Window(klines, pair, startMs);
    if |candles| > 0 {
      assert [] + [AveragesOf(candles)] == [AveragesOf(candles)];
    }
  }

  /** Folding one more Binance hop: the low-average accumulator decides for
      all three. */
  lemma BinanceFoldStep(hs: seq<Averages>, a: Averages)
    ensures var gate := SentinelFold(HopMins(hs), HopMins(hs));
      && SentinelFold(HopMins(hs + [a]), HopMins(hs + [a])) ==
           (if gate == 0.0 then a.min else gate * a.min)
      && SentinelFold(HopMins(hs + [a]), HopMaxs(hs + [a])) ==
           (if gate == 0.0 then a.max else SentinelFold(HopMins(hs), HopMaxs(hs)) * a.max)
      && SentinelFold(HopMins(hs + [a]), HopAvgs(hs + [a])) ==
           (if gate == 0.0 then a.avg else SentinelFold(HopMins(hs), HopAvgs(hs)) * a.avg)
  {
    HopAveragesAppend(hs, a);
    FoldStep(HopMins(hs), HopMins(hs), a.min, a.min);
    FoldStep(HopMins(hs), HopMaxs(hs), a.min, a.max);
    FoldStep(HopMins(hs), HopAvgs(hs), a.min, a.avg);
  }

  lemma HopAveragesAppend(hs: seq<Averages>, a: Averages)
    ensures HopMins(hs + [a]) == HopMins(hs) + [a.min]
    ensures HopMaxs(hs + [a]) == HopMaxs(hs) + [a.max]
    ensures HopAvgs(hs + [a]) == HopAvgs(hs) + [a.avg]
  {
  }

  /** One more pair of the Binance path: its window's averages, or the
      failure of an empty window. */
  lemma BinanceHopsStep(pairs: seq<string>, i: nat, hs: seq<Averages>, startMs: int, klines: KlinesFeed)
    requires i < |pairs|
    requires BinanceHops(pairs[..i], startMs, klines) == Ok(hs)
    ensures var candles := Window(klines, pairs[i], startMs);
      BinanceHops(pairs[..i + 1], startMs, klines) ==
        if |candles| == 0 then Err(NoCandles) else Ok(hs + [AveragesOf(candles)])
  {
    assert pairs[..i + 1][..i] == pairs[..i];
  }

  /** A failing hop fails the Binance price. */
  lemma FoldFails(fiat: Coin, coin: Coin, date: Moment, ohlc: OhlcFeed, klines: KlinesFeed, fuel: nat)
    requires BinanceFold(coin, date.minuteMs, klines).Err?
    ensures BinancePrice(fiat, coin, date, ohlc, klines, fuel)
         == Err(BinanceFold(coin, date.minuteMs, klines).error)
  {
  }

  /** A failing bridge fails the Binance price. */
  lemma BridgeFails(fiat: Coin, coin: Coin, date: Moment, ohlc: OhlcFeed, klines: KlinesFeed, fuel: nat,
                    folded: Averages)
    requires BinanceFold(coin, date.minuteMs, klines) == Ok(folded)
    requires KrakenPrice(fiat, BTC, date.unixSeconds, ohlc, fuel).Err?
    ensures BinancePrice(fiat, coin, date, ohlc, klines, fuel)
         == Err(KrakenPrice(fiat, BTC, date.unixSeconds, ohlc, fuel).error)
  {
  }

  /** Once both the fold and the bridge succeed, the Binance price is their
      product. */
  lemma BridgeTimesFold(fiat: Coin, coin: Coin, date: Moment, ohlc: OhlcFeed, klines: KlinesFeed, fuel: nat,
                        folded: Averages, bridge: real)
    requires BinanceFold(coin, date.minuteMs, klines) == Ok(folded)
    requires KrakenPrice(fiat, BTC, date.unixSeconds, ohlc, fuel) == Ok(bridge)
    ensures BinancePrice(fiat, coin, date, ohlc, klines, fuel) == Ok(Bridged(bridge, folded.avg))
  {
  }

  /** The Binance hop loop: average each hop's one-minute window and fold
      the averages with the zero sentinel on the low average. */
  method FoldBinancePath(coin: Coin, time: int, klines: KlinesFeed) returns (r: Result<Averages>)
    ensures r == BinanceFold(coin, time, klines)
  {
    var minV, maxV, avgV := 0.0, 0.0, 0.0;
    var pairs := BinancePathToBtc(coin);
    ghost var hs: seq<Averages> := [];
    var i := 0;
    while i < |pairs|
      invariant 0 <= i <= |pairs|
      invariant BinanceHops(pairs[..i], time, klines) == Ok(hs)
      invariant minV == SentinelFold(HopMins(hs), HopMins(hs))
      invariant maxV == SentinelFold(HopMins(hs), HopMaxs(hs))
      invariant avgV == SentinelFold(HopMins(hs), HopAvgs(hs))
    {
      var arr := klines(pairs[i], time, time + WindowMs);
      var averages := AverageCandles(arr);
      BinanceHopsStep(pairs, i, hs, time, klines);
      if averages.Err? {
        BinanceHopsErrPersists(pairs, i + 1, time, klines);
        return Err(averages.error);
      }
      var a := averages.value;
      BinanceFoldStep(hs, a);
      if minV == 0.0 {
        minV := a.min;
        maxV := a.max;
        avgV := a.avg;
      } else {
        minV := minV * a.min;
        maxV := maxV * a.max;
        avgV := avgV * a.avg;
      }
      hs := hs + [a];
      i := i + 1;
    }
    assert pairs[..i] == pairs;
    r := Ok(Averages(minV, maxV, avgV));
  }

  /** The Binance branch: fold the path to BTC, then convert the folded close
      average to fiat with the Kraken price of BTC. */
  method BinanceBranch(fiat: Coin, coin: Coin, date: Moment, ohlc: OhlcFeed, klines: KlinesFeed, fuel: nat)
    returns (r: Result<real>)
    ensures r == BinancePrice(fiat, coin, date, ohlc, klines, fuel)
  {
    var folded := FoldBinancePath(coin, date.minuteMs, klines);
    if folded.Err? {
      FoldFails(fiat, coin, date, ohlc, klines, fuel);
      return Err(folded.error);
    }
    var bridge := KrakenBranch(fiat, BTC, date.unixSeconds, ohlc, fuel);
    if bridge.Err? {
      BridgeFails(fiat, coin, date, ohlc, klines, fuel, folded.value);
      return Err(bridge.error);
    }
    BridgeTimesFold(fiat, coin, date, ohlc, klines, fuel, folded.value, bridge.value);
    r := Ok(Bridged(bridge.value, folded.value.avg));
  }

  /** The fold of the Binance path: all zero for BTC; for any other coin the
      averages of the one window of its BTC pair, which runs from the
      requested minute to 60000 ms later, or a failure when it is empty. */
  lemma BinanceFoldCases(coin: Coin, startMs: int, klines: KlinesFeed)
    ensures coin == BTC ==> BinanceFold(coin, startMs, klines) == Ok(Averages(0.0, 0.0, 0.0))
    ensures coin != BTC ==>
      var candles := klines(Symbol(coin) + "BTC", startMs, startMs + 60000);
      BinanceFold(coin, startMs, klines) ==
        if |candles| == 0 then Err(NoCandles) else Ok(AveragesOf(candles))
  {
    if coin != BTC {
      var pair := Symbol(coin) + "BTC";
      assert BinancePathToBtc(coin) == [pair];
      BinanceOnePair(pair, startMs, klines);
      var candles := Window(klines, pair, startMs);
      if |candles| > 0 {
        var a := AveragesOf(candles);
        BinanceFoldStep([], a);
        assert [] + [a] == [a];
      }
    }
  }

  // -------------------------------------------------------------- dispatch

  /** The price for a parser: Kraken for no parser and for the Kraken parser,
      the BTC bridge for the Binance parser, a failure for any other. */
  function FiatPrice(parser: Parser, fiat: Coin, coin: Coin, date: Moment,
                     ohlc: OhlcFeed, klines: KlinesFeed, fuel: nat): Result<real>
  {
    match parser
    case NoParser => KrakenPrice(fiat, coin, date.unixSeconds, ohlc, fuel)
    case KrakenTrades => KrakenPrice(fiat, coin, date.unixSeconds, ohlc, fuel)
    case BinanceTrades => BinancePrice(fiat, coin, date, ohlc, klines, fuel)
    case OtherParser(_) => Err(UnsupportedParser)
  }

  method InternalGetFiatPrice(parser: Parser, fiat: Coin, coin: Coin, date: Moment,
                              ohlc: OhlcFeed, klines: KlinesFeed, fuel: nat) returns (r: Result<real>)
    ensures r == FiatPrice(parser, fiat, coin, date, ohlc, klines, fuel)
  {
    match parser
    case NoParser =>
      r := KrakenBranch(fiat, coin, date.unixSeconds, ohlc, fuel);
    case KrakenTrades =>
      r := KrakenBranch(fiat, coin, date.unixSeconds, ohlc, fuel);
    case BinanceTrades =>
      r := BinanceBranch(fiat, coin, date, ohlc, klines, fuel);
    case OtherParser(_) =>
      r := Err(UnsupportedParser);
  }

  /** No parser and the Kraken parser price alike; any other parser than
      these and Binance fails without consulting either exchange. */
  lemma DispatchCases(fiat: Coin, coin: Coin, date: Moment, ohlc: OhlcFeed, klines: KlinesFeed, fuel: nat, name: string)
    ensures FiatPrice(NoParser, fiat, coin, date, ohlc, klines, fuel)
         == FiatPrice(KrakenTrades, fiat, coin, date, ohlc, klines, fuel)
         == KrakenPrice(fiat, coin, date.unixSeconds, ohlc, fuel)
    ensures FiatPrice(OtherParser(name), fiat, coin, date, ohlc, klines, fuel) == Err(UnsupportedParser)
  {
  }

  /** An empty Binance window fails the price with `NoCandles`, never a zero
      price, whatever the Kraken side would give. */
  lemma BinanceEmptyWindowFails(fiat: Coin, coin: Coin, date: Moment, ohlc: OhlcFeed, klines: KlinesFeed, fuel: nat)
    requires coin != BTC
    requires |klines(Symbol(coin) + "BTC", date.minuteMs, date.minuteMs + 60000)| == 0
    ensures FiatPrice(BinanceTrades, fiat, coin, date, ohlc, klines, fuel) == Err(NoCandles)
  {
    BinanceFoldCases(coin, date.minuteMs, klines);
    FoldFails(fiat, coin, date, ohlc, klines, fuel);
  }

  /** A Binance price is the Kraken price of BTC times the average close of
      the coin's BTC pair over the requested minute. */
  lemma BinancePriceIsBridgeTimesClose(fiat: Coin, coin: Coin, date: Moment, ohlc: OhlcFeed, klines: KlinesFeed,
                                       fuel: nat, bridge: real)
    requires coin != BTC
    requires |klines(Symbol(coin) + "BTC", date.minuteMs, date.minuteMs + 60000)| > 0
    requires KrakenPrice(fiat, BTC, date.unixSeconds, ohlc, fuel) == Ok(bridge)
    ensures var price := FiatPrice(BinanceTrades, fiat, coin, date, ohlc, klines, fuel);
      price.Ok? && price.value == bridge * Mean(Closes(klines(Symbol(coin) + "BTC", date.minuteMs, date.minuteMs + 60000)))
  {
    var candles := klines(Symbol(coin) + "BTC", date.minuteMs, date.minuteMs + 60000);
    var a := AveragesOf(candles);
    BinanceFoldCases(coin, date.minuteMs, klines);
    BridgeTimesFold(fiat, coin, date, ohlc, klines, fuel, a, bridge);
    assert a.avg == Mean(Closes(candles));
  }

  /** BTC itself, needing no Binance hop, prices at 0 once the Kraken price
      of BTC is known. */
  lemma BinanceBtcPricesZero(fiat: Coin, date: Moment, ohlc: OhlcFeed, klines: KlinesFeed, fuel: nat, bridge: real)
    requires KrakenPrice(fiat, BTC, date.unixSeconds, ohlc, fuel) == Ok(bridge)
    ensures FiatPrice(BinanceTrades, fiat, BTC, date, ohlc, klines, fuel) == Ok(0.0)
  {
    BinanceFoldCases(BTC, date.minuteMs, klines);
    BridgeTimesFold(fiat, BTC, date, ohlc, klines, fuel, Averages(0.0, 0.0, 0.0), bridge);
  }

  /** A failure of the Kraken price of BTC fails every Binance price whose
      window is not already empty, with that same failure. */
  lemma BinanceBridgeFailureFails(fiat: Coin, coin: Coin, date: Moment, ohlc: OhlcFeed, klines: KlinesFeed, fuel: nat)
    requires KrakenPrice(fiat, BTC, date.unixSeconds, ohlc, fuel).Err?
    requires coin == BTC || |klines(Symbol(coin) + "BTC", date.minuteMs, date.minuteMs + 60000)| > 0
    ensures FiatPrice(BinanceTrades, fiat, coin, date, ohlc, klines, fuel)
         == Err(KrakenPrice(fiat, BTC, date.unixSeconds, ohlc, fuel).error)
  {
    BinanceFoldCases(coin, date.minuteMs, klines);
    BridgeFails(fiat, coin, date, ohlc, klines, fuel, BinanceFold(coin, date.minuteMs, klines).value);
  }

  /** The folded low and high averages never reach the Binance result: two
      feeds whose window agrees on the closes give the same price. */
  lemma BinanceUsesClosesOnly(fiat: Coin, coin: Coin, date: Moment, ohlc: OhlcFeed,
                              klines1: KlinesFeed, klines2: KlinesFeed, fuel: nat)
    requires Closes(klines1(Symbol(coin) + "BTC", date.minuteMs, date.minuteMs + 60000))
          == Closes(klines2(Symbol(coin) + "BTC", date.minuteMs, date.minuteMs + 60000))
    ensures FiatPrice(BinanceTrades, fiat, coin, date, ohlc, klines1, fuel)
         == FiatPrice(BinanceTrades, fiat, coin, date, ohlc, klines2, fuel)
  {
    FoldsAgreeOnCloses(coin, date.minuteMs, klines1, klines2);
    PriceFollowsFoldedClose(fiat, coin, date, ohlc, klines1, klines2, fuel);
  }

  /** Windows that agree on the closes fold alike, up to the low and high
      averages. */
  lemma FoldsAgreeOnCloses(coin: Coin, t: int, klines1: KlinesFeed, klines2: KlinesFeed)
    requires Closes(klines1(Symbol(coin) + "BTC", t, t + 60000)) == Closes(klines2(Symbol(coin) + "BTC", t, t + 60000))
    ensures BinanceFold(coin, t, klines1).Err? ==> BinanceFold(coin, t, klines1) == BinanceFold(coin, t, klines2)
    ensures BinanceFold(coin, t, klines1).Ok? ==>
      BinanceFold(coin, t, klines2).Ok? && BinanceFold(coin, t, klines1).value.avg == BinanceFold(coin, t, klines2).value.avg
  {
    var c1 := klines1(Symbol(coin) + "BTC", t, t + 60000);
    var c2 := klines2(Symbol(coin) + "BTC", t, t + 60000);
    assert |c1| == |Closes(c1)| == |Closes(c2)| == |c2|;
    BinanceFoldCases(coin, t, klines1);
    BinanceFoldCases(coin, t, klines2);
  }

  /** The Binance price depends on the fold only through its close average. */
  lemma PriceFollowsFoldedClose(fiat: Coin, coin: Coin, date: Moment, ohlc: OhlcFeed,
                                klines1: KlinesFeed, klines2: KlinesFeed, fuel: nat)
    requires var f1 := BinanceFold(coin, date.minuteMs, klines1);
      var f2 := BinanceFold(coin, date.minuteMs, klines2);
      (f1.Err? ==> f1 == f2) && (f1.Ok? ==> f2.Ok? && f1.value.avg == f2.value.avg)
    ensures BinancePrice(fiat, coin, date, ohlc, klines1, fuel) == BinancePrice(fiat, coin, date, ohlc, klines2, fuel)
  {
    var f1 := BinanceFold(coin, date.minuteMs, klines1);
    var f2 := BinanceFold(coin, date.minuteMs, klines2);
    if f1.Err? {
      FoldFails(fiat, coin, date, ohlc, klines1, fuel);
      FoldFails(fiat, coin, date, ohlc, klines2, fuel);
    } else {
      var bridge := KrakenPrice(fiat, BTC, date.unixSeconds, ohlc, fuel);
      if bridge.Err? {
        BridgeFails(fiat, coin, date, ohlc, klines1, fuel, f1.value);
        BridgeFails(fiat, coin, date, ohlc, klines2, fuel, f2.value);
      } else {
        BridgeTimesFold(fiat, coin, date, ohlc, klines1, fuel, f1.value, bridge.value);
        BridgeTimesFold(fiat, coin, date, ohlc, klines2, fuel, f2.value, bridge.value);
      }
    }
  }

  /** The price for any parser does not depend on the request budget, once
      the budget suffices. */
  lemma FiatPriceFuelMonotone(parser: Parser, fiat: Coin, coin: Coin, date: Moment,
                              ohlc: OhlcFeed, klines: KlinesFeed, fuel: nat, more: nat)
    requires FiatPrice(parser, fiat, coin, date, ohlc, klines, fuel) != Err(RequestLimit)
    ensures FiatPrice(parser, fiat, coin, date, ohlc, klines, fuel + more)
         == FiatPrice(parser, fiat, coin, date, ohlc, klines, fuel)
  {
    match parser
    case NoParser =>
      KrakenPriceFuelMonotone(fiat, coin, date.unixSeconds, ohlc, fuel, more);
    case KrakenTrades =>
      KrakenPriceFuelMonotone(fiat, coin, date.unixSeconds, ohlc, fuel, more);
    case BinanceTrades =>
      BinancePriceFuelMonotone(fiat, coin, date, ohlc, klines, fuel, more);
    case OtherParser(_) =>
  }

  /** The Binance price reaches the request budget only through the Kraken
      price of BTC. */
  lemma BinancePriceFuelMonotone(fiat: Coin, coin: Coin, date: Moment, ohlc: OhlcFeed, klines: KlinesFeed,
                                 fuel: nat, more: nat)
    requires BinancePrice(fiat, coin, date, ohlc, klines, fuel) != Err(RequestLimit)
    ensures BinancePrice(fiat, coin, date, ohlc, klines, fuel + more) == BinancePrice(fiat, coin, date, ohlc, klines, fuel)
  {
    var folded := BinanceFold(coin, date.minuteMs, klines);
    if folded.Err? {
      FoldFails(fiat, coin, date, ohlc, klines, fuel);
      FoldFails(fiat, coin, date, ohlc, klines, fuel + more);
    } else {
      var bridge := KrakenPrice(fiat, BTC, date.unixSeconds, ohlc, fuel);
      if bridge.Err? {
        BridgeFails(fiat, coin, date, ohlc, klines, fuel, folded.value);
      } else {
        BridgeTimesFold(fiat, coin, date, ohlc, klines, fuel, folded.value, bridge.value);
      }
      KrakenPriceFuelMonotone(fiat, BTC, date.unixSeconds, ohlc, fuel, more);
      if bridge.Err? {
        BridgeFails(fiat, coin, date, ohlc, klines, fuel + more, folded.value);
      } else {
        BridgeTimesFold(fiat, coin, date, ohlc, klines, fuel + more, folded.value, bridge.value);
      }
    }
  }
}
