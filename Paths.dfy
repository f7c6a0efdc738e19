/**
  Route selection: the trading pairs that lead from a coin to the base the
  exchange quotes it in (the configured fiat on Kraken, BTC on Binance).
 */
module Paths {
  import opened Market

  /** The Kraken pairs that take `coin` to the configured `fiat`. The fiat
      itself needs none; BTC and EOS both use the BTC/fiat pair; any other
      coin has no route. */
  function KrakenPathToCoin(fiat: Coin, coin: Coin): (r: Result<seq<string>>)
    ensures r.Ok? <==> coin == fiat || coin == BTC || coin == EOS
    ensures r.Err? ==> r.error == UnsupportedCoin
    ensures r.Ok? ==> (r.value == [] <==> coin == fiat)
    ensures r.Ok? ==> |r.value| <= 1 && forall p :: p in r.value ==> p == "XBT" + Symbol(fiat)
  {
    if coin == fiat then Ok([])
    else if coin == EOS || coin == BTC then Ok(["XBT" + Symbol(fiat)])
    else Err(UnsupportedCoin)
  }

  /** The Binance pairs that take `coin` to BTC: none for BTC, the pair
      `coin + "BTC"` for every other coin. */
  function BinancePathToBtc(coin: Coin): (r: seq<string>)
    ensures |r| <= 1
    ensures r == [] <==> coin == BTC
    ensures forall p :: p in r ==> p == Symbol(coin) + "BTC"
  {
    if coin == BTC then [] else [Symbol(coin) + "BTC"]
  }

  /** EOS is priced on Kraken through exactly the pair BTC uses. */
  lemma EosSharesBtcPair(fiat: Coin)
    requires fiat != BTC && fiat != EOS
    ensures KrakenPathToCoin(fiat, EOS) == KrakenPathToCoin(fiat, BTC) == Ok(["XBT" + Symbol(fiat)])
  {
  }

  /** Every coin but BTC reaches BTC on Binance in exactly one hop, whose pair
      starts with the coin's own symbol and ends in "BTC". */
  lemma BinanceOneHop(coin: Coin)
    requires coin != BTC
    ensures |BinancePathToBtc(coin)| == 1
    ensures var p := BinancePathToBtc(coin)[0];
      |p| == |Symbol(coin)| + 3 && p[..|Symbol(coin)|] == Symbol(coin) && p[|Symbol(coin)|..] == "BTC"
  {
  }
}
