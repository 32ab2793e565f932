/** Sums over sequences of reals, accumulated left to right as the Java loops do. */
module RealSeq {
  import opened Common

  function Sum(s: seq<real>): real
  {
    if |s| == 0 then 0.0 else Sum(s[..|s| - 1]) + s[|s| - 1]
  }

  /** `Arrays.stream(x).average().orElse(0)`. */
  function Average(s: seq<real>): real
  {
    if |s| == 0 then 0.0 else Sum(s) / (|s| as real)
  }

  /** Sum over i < |a| of a[i] * b[i]; `b` may be longer than `a`. */
  function Dot(a: seq<real>, b: seq<real>): real
    requires |a| <= |b|
  {
    if |a| == 0 then 0.0 else Dot(a[..|a| - 1], b) + a[|a| - 1] * b[|a| - 1]
  }

  predicate AllNonNegative(s: seq<real>) { forall k :: 0 <= k < |s| ==> s[k] >= 0.0 }

  lemma {:induction false} SumNonNegative(s: seq<real>)
    requires AllNonNegative(s)
    ensures Sum(s) >= 0.0
  {
    if |s| > 0 { SumNonNegative(s[..|s| - 1]); }
  }

  /** Every entry of a non-negative sequence is at most the sum. */
  lemma {:induction false} EntryAtMostSum(s: seq<real>, k: int)
    requires AllNonNegative(s) && 0 <= k < |s|
    ensures s[k] <= Sum(s)
  {
    SumNonNegative(s[..|s| - 1]);
    if k < |s| - 1 { EntryAtMostSum(s[..|s| - 1], k); }
  }

  /** A sum of non-negative terms is zero only when every term is. */
  lemma {:induction false} SumZeroAllZero(s: seq<real>, k: int)
    requires AllNonNegative(s) && Sum(s) == 0.0 && 0 <= k < |s|
    ensures s[k] == 0.0
  {
    SumNonNegative(s[..|s| - 1]);
    if k < |s| - 1 { SumZeroAllZero(s[..|s| - 1], k); }
  }

  /** Sum of the entries divided by c is the sum divided by c. */
  lemma {:induction false} SumScaled(s: seq<real>, t: seq<real>, c: real)
    requires c != 0.0 && |t| == |s|
    requires forall k :: 0 <= k < |s| ==> t[k] == s[k] / c
    ensures Sum(t) == Sum(s) / c
  {
    if |s| > 0 { SumScaled(s[..|s| - 1], t[..|t| - 1], c); }
  }

  /** Subtracting c from every entry lowers the sum by |s| * c. */
  lemma {:induction false} SumShifted(s: seq<real>, t: seq<real>, c: real)
    requires |t| == |s|
    requires forall k :: 0 <= k < |s| ==> t[k] == s[k] - c
    ensures Sum(t) == Sum(s) - (|s| as real) * c
  {
    if |s| > 0 { SumShifted(s[..|s| - 1], t[..|t| - 1], c); }
  }

  /** Sum of entry-wise differences. */
  lemma {:induction false} SumDifference(s: seq<real>, d: seq<real>, t: seq<real>)
    requires |t| == |s| == |d|
    requires forall k :: 0 <= k < |s| ==> t[k] == s[k] - d[k]
    ensures Sum(t) == Sum(s) - Sum(d)
  {
    if |s| > 0 { SumDifference(s[..|s| - 1], d[..|d| - 1], t[..|t| - 1]); }
  }

  lemma {:induction false} SumAppend(s: seq<real>, x: real)
    ensures Sum(s + [x]) == Sum(s) + x
  {
    assert (s + [x])[..|s|] == s;
  }

  /** Sums and dot products depend only on the entries they read. */
  lemma {:induction false} SumPointwise(s: seq<real>, t: seq<real>)
    requires |s| == |t| && forall k :: 0 <= k < |s| ==> s[k] == t[k]
    ensures Sum(s) == Sum(t)
  {
    assert s == t;
  }

  lemma {:induction false} DotPrefix(a: seq<real>, b: seq<real>, j: nat)
    requires j < |a| <= |b|
    ensures Dot(a[..j + 1], b) == Dot(a[..j], b) + a[j] * b[j]
  {
    assert a[..j + 1][..j] == a[..j];
  }

  lemma {:induction false} SumPrefix(s: seq<real>, j: nat)
    requires j < |s|
    ensures Sum(s[..j + 1]) == Sum(s[..j]) + s[j]
  {
    assert s[..j + 1][..j] == s[..j];
  }
}
