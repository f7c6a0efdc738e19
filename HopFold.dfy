/**
  Folding per-hop figures into one figure by multiplication, the way both
  branches of the resolver do it: every accumulator starts at 0, and while the
  accumulator of the hop minima is still 0 the next hop seeds every
  accumulator instead of being multiplied in.
 */
module HopFold {

  /** Product of the figures, left to right; 1 for no figures. */
  function Product(xs: seq<real>): real
    decreases |xs|
  {
    if |xs| == 0 then 1.0 else Product(xs[..|xs| - 1]) * xs[|xs| - 1]
  }

  /** The accumulator that folds `xs`, hop by hop, when the zero test is made
      on the accumulator that folds `gate` (the hop minima). Folding the gate
      itself is `SentinelFold(gate, gate)`. */
  function SentinelFold(gate: seq<real>, xs: seq<real>): real
    requires |gate| == |xs|
    decreases |xs|
  {
    if |xs| == 0 then 0.0
    else
      var n := |xs| - 1;
      if SentinelFold(gate[..n], gate[..n]) == 0.0 then xs[n]
      else SentinelFold(gate[..n], xs[..n]) * xs[n]
  }

  /** One more hop: it seeds the accumulator when the gate accumulator is
      still 0 and is multiplied in otherwise. */
  lemma {:induction false} FoldStep(gate: seq<real>, xs: seq<real>, g: real, x: real)
    requires |gate| == |xs|
    ensures SentinelFold(gate + [g], xs + [x])
         == if SentinelFold(gate, gate) == 0.0 then x else SentinelFold(gate, xs) * x
  {
    assert (gate + [g])[..|gate|] == gate;
    assert (xs + [x])[..|xs|] == xs;
  }

  /** A product of non-zero figures is non-zero. */
  lemma {:induction false} ProductNonZero(xs: seq<real>)
    requires forall i :: 0 <= i < |xs| ==> xs[i] != 0.0
    ensures Product(xs) != 0.0
    decreases |xs|
  {
    if |xs| > 0 {
      ProductNonZero(xs[..|xs| - 1]);
    }
  }

  /** When no hop minimum is 0, the fold of a non-empty path is the plain
      product of the hop figures: the sentinel only seeds the first hop. */
  lemma {:induction false} FoldIsProduct(gate: seq<real>, xs: seq<real>)
    requires |gate| == |xs| > 0
    requires forall i :: 0 <= i < |gate| ==> gate[i] != 0.0
    ensures SentinelFold(gate, gate) == Product(gate)
    ensures SentinelFold(gate, xs) == Product(xs)
    decreases |xs|
  {
    var n := |xs| - 1;
    if n == 0 {
      assert gate[..0] == [] && xs[..0] == [];
    } else {
      FoldIsProduct(gate[..n], xs[..n]);
      ProductNonZero(gate[..n]);
    }
  }

  /** The fold of no hops is 0, not the neutral 1 of a product. */
  lemma EmptyFoldIsZero()
    ensures SentinelFold([], []) == 0.0 && Product([]) == 1.0
  {
  }

  /** Two hops whose first minimum is non-zero fold to the product of their
      figures, in either order when both minima are non-zero. This describes
      the fold loops as written; no route the resolver builds has two hops. */
  lemma {:induction false} TwoHops(g1: real, g2: real, x1: real, x2: real)
    requires g1 != 0.0
    ensures SentinelFold([g1, g2], [x1, x2]) == x1 * x2
    ensures g2 != 0.0 ==> SentinelFold([g2, g1], [x2, x1]) == x1 * x2
  {
    FoldStep([], [], g1, x1);
    FoldStep([g1], [x1], g2, x2);
    assert [g1] + [g2] == [g1, g2] && [x1] + [x2] == [x1, x2];
    if g2 != 0.0 {
      FoldStep([], [], g2, x2);
      FoldStep([g2], [x2], g1, x1);
      assert [g2] + [g1] == [g2, g1] && [x2] + [x1] == [x2, x1];
    }
  }

  /** The sentinel's blind spot: once the gate accumulator is 0 (a hop whose
      minimum is 0), the next hop replaces every accumulator, so the figures
      folded so far are forgotten. */
  lemma {:induction false} ZeroGateForgets(gate: seq<real>, xs: seq<real>, g: real, x: real)
    requires |gate| == |xs|
    requires SentinelFold(gate, gate) == 0.0
    ensures SentinelFold(gate + [g], xs + [x]) == x
  {
    FoldStep(gate, xs, g, x);
  }
}
