/** NormalizationUtil: min-max scaling of one metric field across the list,
    overwriting the field of each element in place. */
module Normalization {
  import opened Metrics

  /** `normalize`: 0.5 when the range is empty, else the position of `v`
      between `lo` and `hi`. */
  function NormalizeValue(v: real, lo: real, hi: real): real
  {
    if hi - lo == 0.0 then 0.5 else (v - lo) / (hi - lo)
  }

  /** `mapToDouble(..).min().orElse(dflt)`. */
  function MinOr(xs: seq<real>, dflt: real): (r: real)
    ensures xs == [] ==> r == dflt
    ensures xs != [] ==> (exists k :: 0 <= k < |xs| && xs[k] == r) && forall k :: 0 <= k < |xs| ==> r <= xs[k]
  {
    if |xs| == 0 then dflt
    else if |xs| == 1 then xs[0]
    else
      var m := MinOr(xs[1..], dflt);
      assert forall k :: 1 <= k < |xs| ==> xs[k] == xs[1..][k - 1];
      if xs[0] <= m then xs[0] else m
  }

  /** `mapToDouble(..).max().orElse(dflt)`. */
  function MaxOr(xs: seq<real>, dflt: real): (r: real)
    ensures xs == [] ==> r == dflt
    ensures xs != [] ==> (exists k :: 0 <= k < |xs| && xs[k] == r) && forall k :: 0 <= k < |xs| ==> xs[k] <= r
  {
    if |xs| == 0 then dflt
    else if |xs| == 1 then xs[0]
    else
      var m := MaxOr(xs[1..], dflt);
      assert forall k :: 1 <= k < |xs| ==> xs[k] == xs[1..][k - 1];
      if xs[0] >= m then xs[0] else m
  }

  /** Every value of `xs` scaled by the list's own minimum (default 0) and
      maximum (default 1). */
  function Rescale(xs: seq<real>): (r: seq<real>)
    ensures |r| == |xs|
  {
    seq(|xs|, i requires 0 <= i < |xs| => NormalizeValue(xs[i], MinOr(xs, 0.0), MaxOr(xs, 1.0)))
  }

  function Returns(ms: seq<StockMetrics>): (r: seq<real>)
    ensures |r| == |ms| && forall i :: 0 <= i < |ms| ==> r[i] == ms[i].totalReturn
  {
    seq(|ms|, i requires 0 <= i < |ms| => ms[i].totalReturn)
  }

  function Stabilities(ms: seq<StockMetrics>): (r: seq<real>)
    ensures |r| == |ms| && forall i :: 0 <= i < |ms| ==> r[i] == ms[i].stabilityScore
  {
    seq(|ms|, i requires 0 <= i < |ms| => ms[i].stabilityScore)
  }

  /** The list after `normalizeReturns`. */
  function NormalizedReturns(ms: seq<StockMetrics>): seq<StockMetrics>
  {
    var lo := MinOr(Returns(ms), 0.0);
    var hi := MaxOr(Returns(ms), 1.0);
    seq(|ms|, i requires 0 <= i < |ms| => ms[i].(totalReturn := NormalizeValue(ms[i].totalReturn, lo, hi)))
  }

  /** The list after `normalizeStability`. */
  function NormalizedStability(ms: seq<StockMetrics>): seq<StockMetrics>
  {
    var lo := MinOr(Stabilities(ms), 0.0);
    var hi := MaxOr(Stabilities(ms), 1.0);
    seq(|ms|, i requires 0 <= i < |ms| => ms[i].(stabilityScore := NormalizeValue(ms[i].stabilityScore, lo, hi)))
  }

  // ---------------------------------------------------------------------
  // The in-place loops

  method NormalizeReturns(a: array<StockMetrics>)
    modifies a
    ensures a[..] == NormalizedReturns(old(a[..]))
  {
    ghost var before := a[..];
    var lo := MinOr(Returns(a[..]), 0.0);
    var hi := MaxOr(Returns(a[..]), 1.0);
    for i := 0 to a.Length
      invariant forall k :: 0 <= k < i ==> a[k] == NormalizedReturns(before)[k]
      invariant forall k :: i <= k < a.Length ==> a[k] == before[k]
    {
      a[i] := a[i].(totalReturn := NormalizeValue(a[i].totalReturn, lo, hi));
    }
    assert a[..] == NormalizedReturns(before);
  }

  method NormalizeStability(a: array<StockMetrics>)
    modifies a
    ensures a[..] == NormalizedStability(old(a[..]))
  {
    ghost var before := a[..];
    var lo := MinOr(Stabilities(a[..]), 0.0);
    var hi := MaxOr(Stabilities(a[..]), 1.0);
    for i := 0 to a.Length
      invariant forall k :: 0 <= k < i ==> a[k] == NormalizedStability(before)[k]
      invariant forall k :: i <= k < a.Length ==> a[k] == before[k]
    {
      a[i] := a[i].(stabilityScore := NormalizeValue(a[i].stabilityScore, lo, hi));
    }
    assert a[..] == NormalizedStability(before);
  }

  // ---------------------------------------------------------------------
  // Properties of the scaling

  /** A quotient by a positive divisor keeps the order of its dividends. */
  lemma DivMonotone(a: real, b: real, d: real)
    requires d > 0.0 && a <= b
    ensures a / d <= b / d
  {
    var x, y := a / d, b / d;
    assert x * d == a && y * d == b;
    assert (y - x) * d == b - a;
  }

  /** A value between `lo` and `hi` scales into [0,1]. */
  lemma NormalizeValueInUnit(v: real, lo: real, hi: real)
    requires lo <= v <= hi
    ensures 0.0 <= NormalizeValue(v, lo, hi) <= 1.0
  {
    if hi - lo != 0.0 {
      DivMonotone(0.0, v - lo, hi - lo);
      DivMonotone(v - lo, hi - lo, hi - lo);
    }
  }

  /** Between `lo` and `hi` the scaling keeps order. */
  lemma NormalizeValueMonotone(v: real, w: real, lo: real, hi: real)
    requires lo <= v <= w <= hi
    ensures NormalizeValue(v, lo, hi) <= NormalizeValue(w, lo, hi)
  {
    if hi - lo != 0.0 {
      DivMonotone(v - lo, w - lo, hi - lo);
    }
  }

  lemma DivSelf(d: real)
    requires d > 0.0
    ensures d / d == 1.0
  {
  }

  /** With a non-empty range the ends scale to 0 and 1. */
  lemma NormalizeValueEnds(lo: real, hi: real)
    requires lo < hi
    ensures NormalizeValue(lo, lo, hi) == 0.0 && NormalizeValue(hi, lo, hi) == 1.0
  {
    DivSelf(hi - lo);
  }

  /** Every scaled value lies in [0,1]. */
  lemma RescaleInUnit(xs: seq<real>)
    ensures forall i :: 0 <= i < |xs| ==> 0.0 <= Rescale(xs)[i] <= 1.0
  {
    var lo, hi := MinOr(xs, 0.0), MaxOr(xs, 1.0);
    forall i | 0 <= i < |xs|
      ensures 0.0 <= Rescale(xs)[i] <= 1.0
    {
      NormalizeValueInUnit(xs[i], lo, hi);
    }
  }

  /** A list of equal values scales to 0.5 everywhere. */
  lemma RescaleConstant(xs: seq<real>)
    requires forall i :: 0 <= i < |xs| ==> xs[i] == xs[0]
    ensures forall i :: 0 <= i < |xs| ==> Rescale(xs)[i] == 0.5
  {
    if xs != [] {
      var lo, hi := MinOr(xs, 0.0), MaxOr(xs, 1.0);
      var p :| 0 <= p < |xs| && xs[p] == lo;
      var q :| 0 <= q < |xs| && xs[q] == hi;
      assert lo == hi;
    }
  }

  /** When the values differ, the minimum scales to 0, the maximum to 1, and
      both are reached. */
  lemma RescaleEndpoints(xs: seq<real>, i: int, j: int)
    requires 0 <= i < |xs| && 0 <= j < |xs| && xs[i] != xs[j]
    ensures forall k :: 0 <= k < |xs| && xs[k] == MinOr(xs, 0.0) ==> Rescale(xs)[k] == 0.0
    ensures forall k :: 0 <= k < |xs| && xs[k] == MaxOr(xs, 1.0) ==> Rescale(xs)[k] == 1.0
    ensures exists k :: 0 <= k < |xs| && Rescale(xs)[k] == 0.0
    ensures exists k :: 0 <= k < |xs| && Rescale(xs)[k] == 1.0
  {
    var lo, hi := MinOr(xs, 0.0), MaxOr(xs, 1.0);
    assert lo <= xs[i] <= hi && lo <= xs[j] <= hi;
    NormalizeValueEnds(lo, hi);
    var p :| 0 <= p < |xs| && xs[p] == lo;
    var q :| 0 <= q < |xs| && xs[q] == hi;
    assert Rescale(xs)[p] == 0.0;
    assert Rescale(xs)[q] == 1.0;
  }

  /** Scaling keeps the order of any two values. */
  lemma RescaleMonotone(xs: seq<real>, i: int, j: int)
    requires 0 <= i < |xs| && 0 <= j < |xs| && xs[i] <= xs[j]
    ensures Rescale(xs)[i] <= Rescale(xs)[j]
  {
    NormalizeValueMonotone(xs[i], xs[j], MinOr(xs, 0.0), MaxOr(xs, 1.0));
  }

  /** `normalizeReturns` keeps the length, the order and every field but
      totalReturn, and the new totalReturns are the old ones rescaled. */
  lemma NormalizedReturnsFrame(ms: seq<StockMetrics>)
    ensures |NormalizedReturns(ms)| == |ms|
    ensures Returns(NormalizedReturns(ms)) == Rescale(Returns(ms))
    ensures forall i :: 0 <= i < |ms| ==> NormalizedReturns(ms)[i] == ms[i].(totalReturn := NormalizedReturns(ms)[i].totalReturn)
  {
    assert Returns(NormalizedReturns(ms)) == Rescale(Returns(ms));
  }

  /** `normalizeStability` keeps the length, the order and every field but
      stabilityScore, and the new scores are the old ones rescaled. */
  lemma NormalizedStabilityFrame(ms: seq<StockMetrics>)
    ensures |NormalizedStability(ms)| == |ms|
    ensures Stabilities(NormalizedStability(ms)) == Rescale(Stabilities(ms))
    ensures forall i :: 0 <= i < |ms| ==> NormalizedStability(ms)[i] == ms[i].(stabilityScore := NormalizedStability(ms)[i].stabilityScore)
  {
    assert Stabilities(NormalizedStability(ms)) == Rescale(Stabilities(ms));
  }

  /** After both passes the two scaled fields of every element lie in
      [0,1], and the other fields are the originals. */
  lemma BothPassesInUnit(ms: seq<StockMetrics>)
    ensures var r := NormalizedStability(NormalizedReturns(ms));
      && |r| == |ms|
      && (forall i :: 0 <= i < |ms| ==> 0.0 <= r[i].totalReturn <= 1.0 && 0.0 <= r[i].stabilityScore <= 1.0)
      && (forall i :: 0 <= i < |ms| ==>
            (r[i].ticker == ms[i].ticker && r[i].volatility == ms[i].volatility
             && r[i].maxDrawdown == ms[i].maxDrawdown && r[i].finalScore == ms[i].finalScore))
  {
    var n := NormalizedReturns(ms);
    NormalizedReturnsFrame(ms);
    NormalizedStabilityFrame(n);
    RescaleInUnit(Returns(ms));
    RescaleInUnit(Stabilities(n));
    var r := NormalizedStability(n);
    forall i | 0 <= i < |ms|
      ensures 0.0 <= r[i].totalReturn <= 1.0 && 0.0 <= r[i].stabilityScore <= 1.0
    {
      assert r[i].totalReturn == n[i].totalReturn == Returns(n)[i];
      assert r[i].stabilityScore == Stabilities(r)[i];
    }
  }
}
