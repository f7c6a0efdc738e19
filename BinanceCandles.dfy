/**
  The Binance one-minute window: the candles of one pair in the minute that
  starts at the requested time, reduced to the average high, low and close.
 */
module BinanceCandles {
  import opened Market

  /** Length of the kline window, in milliseconds. */
  const WindowMs := 60000

  /** Per-hop figures: the average low (`min`), high (`max`) and close (`avg`). */
  datatype Averages = Averages(min: real, max: real, avg: real)

  function Sum(xs: seq<real>): real
    decreases |xs|
  {
    if |xs| == 0 then 0.0 else Sum(xs[..|xs| - 1]) + xs[|xs| - 1]
  }

  function Mean(xs: seq<real>): real
    requires |xs| > 0
  {
    Sum(xs) / |xs| as real
  }

  function Highs(cs: seq<Candle>): (r: seq<real>)
    ensures |r| == |cs| && forall i :: 0 <= i < |cs| ==> r[i] == cs[i].high
  {
    seq(|cs|, i requires 0 <= i < |cs| => cs[i].high)
  }

  function Lows(cs: seq<Candle>): (r: seq<real>)
    ensures |r| == |cs| && forall i :: 0 <= i < |cs| ==> r[i] == cs[i].low
  {
    seq(|cs|, i requires 0 <= i < |cs| => cs[i].low)
  }

  function Closes(cs: seq<Candle>): (r: seq<real>)
    ensures |r| == |cs| && forall i :: 0 <= i < |cs| ==> r[i] == cs[i].close
  {
    seq(|cs|, i requires 0 <= i < |cs| => cs[i].close)
  }

  /** The candles a hop fetches: those of `symbol` from `startMs` to one
      window later. */
  function Window(klines: KlinesFeed, symbol: string, startMs: int): seq<Candle>
  {
    klines(symbol, startMs, startMs + WindowMs)
  }

  /** The averages of a non-empty candle list. */
  function AveragesOf(cs: seq<Candle>): Averages
    requires |cs| > 0
  {
    Averages(Mean(Lows(cs)), Mean(Highs(cs)), Mean(Closes(cs)))
  }

  /** The candle loop: sum positions 2, 3 and 4 over the candles, then divide
      each sum by the number of candles; no candle at all is an error. */
  method AverageCandles(candles: seq<Candle>) returns (r: Result<Averages>)
    ensures |candles| == 0 ==> r == Err(NoCandles)
    ensures |candles| > 0 ==> r == Ok(AveragesOf(candles))
  {
    if |candles| == 0 {
      return Err(NoCandles);
    }
    var min, max, avg := 0.0, 0.0, 0.0;
    var i := 0;
    while i < |candles|
      invariant 0 <= i <= |candles|
      invariant max == Sum(Highs(candles)[..i])
      invariant min == Sum(Lows(candles)[..i])
      invariant avg == Sum(Closes(candles)[..i])
    {
      SumStep(Highs(candles), i);
      SumStep(Lows(candles), i);
      SumStep(Closes(candles), i);
      max := max + candles[i].high;
      min := min + candles[i].low;
      avg := avg + candles[i].close;
      i := i + 1;
    }
    assert Highs(candles)[..i] == Highs(candles);
    assert Lows(candles)[..i] == Lows(candles);
    assert Closes(candles)[..i] == Closes(candles);
    var n := |candles| as real;
    r := Ok(Averages(min / n, max / n, avg / n));
  }

  /** Summing one more figure. */
  lemma SumStep(xs: seq<real>, i: nat)
    requires i < |xs|
    ensures Sum(xs[..i + 1]) == Sum(xs[..i]) + xs[i]
  {
    assert xs[..i + 1][..i] == xs[..i];
  }

  /** A sum of figures between `lo` and `hi` lies between `n * lo` and `n * hi`. */
  lemma {:induction false} SumBounds(xs: seq<real>, lo: real, hi: real)
    requires forall i :: 0 <= i < |xs| ==> lo <= xs[i] <= hi
    ensures |xs| as real * lo <= Sum(xs) <= |xs| as real * hi
    decreases |xs|
  {
    if |xs| > 0 {
      var n := |xs| - 1;
      SumBounds(xs[..n], lo, hi);
      assert Sum(xs) == Sum(xs[..n]) + xs[n];
      assert n as real * lo + lo == |xs| as real * lo;
      assert n as real * hi + hi == |xs| as real * hi;
    }
  }

  /** An average lies within any bounds its figures lie within. */
  lemma MeanBounds(xs: seq<real>, lo: real, hi: real)
    requires |xs| > 0
    requires forall i :: 0 <= i < |xs| ==> lo <= xs[i] <= hi
    ensures lo <= Mean(xs) <= hi
  {
    SumBounds(xs, lo, hi);
    DivideBounds(Sum(xs), |xs| as real, lo, hi);
  }

  /** Dividing `n * lo <= s <= n * hi` by a positive `n`. */
  lemma DivideBounds(s: real, n: real, lo: real, hi: real)
    requires n > 0.0 && n * lo <= s <= n * hi
    ensures lo <= s / n <= hi
  {
    assert s / n * n == s;
  }

  /** Pointwise smaller figures have a smaller average. */
  lemma MeanMonotone(xs: seq<real>, ys: seq<real>)
    requires |xs| == |ys| > 0
    requires forall i :: 0 <= i < |xs| ==> xs[i] <= ys[i]
    ensures Mean(xs) <= Mean(ys)
  {
    SumMonotone(xs, ys);
    var n := |xs| as real;
    assert Sum(xs) / n * n == Sum(xs) && Sum(ys) / n * n == Sum(ys);
  }

  /** A window of one candle averages to that candle's own figures. */
  lemma SingleCandle(c: Candle)
    ensures AveragesOf([c]) == Averages(c.low, c.high, c.close)
  {
    assert Lows([c]) == [c.low] && Highs([c]) == [c.high] && Closes([c]) == [c.close];
    assert [c.low][..0] == [] && [c.high][..0] == [] && [c.close][..0] == [];
    assert Sum([c.low]) == c.low && Sum([c.high]) == c.high && Sum([c.close]) == c.close;
  }

  /** When every candle of the window has its low at most its high, so do
      the averages, and each average lies within the lowest low and the
      highest high. */
  lemma {:induction false} AveragesWithinRange(cs: seq<Candle>, lo: real, hi: real)
    requires |cs| > 0
    requires forall i :: 0 <= i < |cs| ==> lo <= cs[i].low <= cs[i].close <= cs[i].high <= hi
    ensures var a := AveragesOf(cs); lo <= a.min <= a.avg <= a.max <= hi
  {
    MeanBounds(Lows(cs), lo, hi);
    MeanBounds(Highs(cs), lo, hi);
    MeanBounds(Closes(cs), lo, hi);
    MeanMonotone(Lows(cs), Closes(cs));
    MeanMonotone(Closes(cs), Highs(cs));
  }

  /** Pointwise smaller figures have a smaller sum. */
  lemma {:induction false} SumMonotone(xs: seq<real>, ys: seq<real>)
    requires |xs| == |ys|
    requires forall i :: 0 <= i < |xs| ==> xs[i] <= ys[i]
    ensures Sum(xs) <= Sum(ys)
    decreases |xs|
  {
    if |xs| > 0 {
      SumMonotone(xs[..|xs| - 1], ys[..|ys| - 1]);
    }
  }
}
