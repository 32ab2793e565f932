/** MarketDataService: from the downloaded close series of each asset to the
    mean vector and covariance matrix of their daily simple returns.  The
    download itself is the parameter `fetch`, from a Stooq symbol to the
    close column of its CSV, or the exception that reading it raised. */
module MarketData {
  import opened Common
  import opened RealSeq

  /** The only assets with a Stooq symbol. */
  const Stooq: map<string, string> := map["VOO" := "voo.us", "VXUS" := "vxus.us", "BND" := "bnd.us", "SPY" := "spy.us"]

  const TradingDaysPerYear: int := 252

  datatype ReturnStats = ReturnStats(mu: seq<real>, cov: seq<seq<real>>, alignedReturns: seq<seq<real>>)

  // ---------------------------------------------------------------------
  // One asset

  /** `closes.subList(size - keep, size)` with `keep = min(size, yearsBack * 252)`
      in `int` arithmetic.  A negative `keep` puts the start past the end
      (an IllegalArgumentException), or, when `size - keep` overflows, before
      the start (an IndexOutOfBoundsException). */
  function Window(closes: seq<real>, yearsBack: Int32): Result<seq<real>>
  {
    var keep := Min(|closes|, MulInt32(yearsBack, TradingDaysPerYear));
    var from := Wrap32(|closes| - keep);
    if from < 0 then Failure(IndexOutOfBounds)
    else if from > |closes| then Failure(IllegalArgument)
    else Success(closes[from..])
  }

  /** For a lookback whose day count fits an `int` and is not negative, the
      window is the last `min(size, yearsBack * 252)` closes. */
  lemma WindowKeepsLast(closes: seq<real>, yearsBack: Int32)
    requires 0 <= yearsBack * TradingDaysPerYear <= IntMax && |closes| <= IntMax
    ensures var keep := Min(|closes|, yearsBack * TradingDaysPerYear);
      Window(closes, yearsBack) == Success(closes[|closes| - keep..])
  {
  }

  /** `rets[i - 1] = c[i] / c[i - 1] - 1.0`. */
  function SimpleReturns(c: seq<real>): (r: seq<real>)
    requires |c| >= 1
    ensures |r| == |c| - 1
  {
    seq(|c| - 1, i requires 0 <= i < |c| - 1 => Div(c[i + 1], c[i]) - 1.0)
  }

  /** The return series of one asset, or the exception the loop body
      raises for it: unmapped asset, failed download, bad window, or an
      empty window (`new double[-1]`). */
  function AssetReturns(asset: string, yearsBack: Int32, fetch: string -> Result<seq<real>>): Result<seq<real>>
  {
    if asset !in Stooq then Failure(UnknownAsset(asset))
    else
      match fetch(Stooq[asset])
      case Failure(e) => Failure(e)
      case Success(closes) =>
        match Window(closes, yearsBack)
        case Failure(e) => Failure(e)
        case Success(win) => if |win| == 0 then Failure(NegativeArraySize) else Success(SimpleReturns(win))
  }

  /** The per-asset loop: series in asset order, or the first exception. */
  function AllReturns(assets: seq<string>, yearsBack: Int32, fetch: string -> Result<seq<real>>): (r: Result<seq<seq<real>>>)
    ensures r.Success? ==> |r.value| == |assets|
  {
    if |assets| == 0 then Success([])
    else
      match AllReturns(assets[..|assets| - 1], yearsBack, fetch)
      case Failure(e) => Failure(e)
      case Success(rs) =>
        match AssetReturns(assets[|assets| - 1], yearsBack, fetch)
        case Failure(e) => Failure(e)
        case Success(r) => Success(rs + [r])
  }

  // ---------------------------------------------------------------------
  // Alignment and statistics

  /** `minLen`, starting from Integer.MAX_VALUE. */
  function MinLength(rs: seq<seq<real>>): (m: int)
    ensures 0 <= m <= IntMax
    ensures forall i :: 0 <= i < |rs| ==> m <= |rs[i]|
    ensures |rs| == 0 ==> m == IntMax
  {
    if |rs| == 0 then IntMax
    else
      var m := MinLength(rs[..|rs| - 1]);
      var last := |rs[|rs| - 1]|;
      if last < m then last else m
  }

  /** `Arrays.copyOfRange(r, r.length - minLen, r.length)` for every series. */
  function Align(rs: seq<seq<real>>, minLen: int): (a: seq<seq<real>>)
    requires 0 <= minLen && forall i :: 0 <= i < |rs| ==> minLen <= |rs[i]|
    ensures |a| == |rs|
    ensures forall i :: 0 <= i < |rs| ==> |a[i]| == minLen && a[i] == rs[i][|rs[i]| - minLen..]
  {
    seq(|rs|, i requires 0 <= i < |rs| => rs[i][|rs[i]| - minLen..])
  }

  /** One term of the covariance sum. */
  function CoTerm(a: real, ma: real, b: real, mb: real): real
  {
    (a - ma) * (b - mb)
  }

  function CoTerms(x: seq<real>, y: seq<real>): (t: seq<real>)
    requires |x| <= |y|
    ensures |t| == |x|
  {
    var mx, my := Average(x), Average(y);
    seq(|x|, i requires 0 <= i < |x| => CoTerm(x[i], mx, y[i], my))
  }

  /** `covariance`: the sum of co-deviations over `x.length - 1`. */
  function Covariance(x: seq<real>, y: seq<real>): real
    requires |x| <= |y|
  {
    Div(Sum(CoTerms(x, y)), (|x| - 1) as real)
  }

  /** The statistics computed from the per-asset series. */
  function StatsOf(rs: seq<seq<real>>): (s: ReturnStats)
    ensures |s.mu| == |rs| && |s.cov| == |rs| && |s.alignedReturns| == |rs|
    ensures forall i :: 0 <= i < |rs| ==> |s.cov[i]| == |rs|
  {
    var minLen := MinLength(rs);
    if |rs| == 0 then ReturnStats([], [], [])
    else
      var a := Align(rs, minLen);
      ReturnStats(
        seq(|rs|, i requires 0 <= i < |rs| => Div(Sum(a[i]), minLen as real)),
        CovarianceMatrix(a),
        a)
  }

  /** `cov[i][j]`, the sample covariance of series i and j. */
  function CovarianceMatrix(a: seq<seq<real>>): (m: seq<seq<real>>)
    requires forall i, j :: 0 <= i < |a| && 0 <= j < |a| ==> |a[i]| <= |a[j]|
    ensures |m| == |a| && forall i :: 0 <= i < |a| ==> |m[i]| == |a|
  {
    seq(|a|, i requires 0 <= i < |a| => seq(|a|, j requires 0 <= j < |a| => Covariance(a[i], a[j])))
  }

  /** What `loadReturns` returns. */
  function LoadReturnsResult(assets: seq<string>, yearsBack: Int32, fetch: string -> Result<seq<real>>): Result<ReturnStats>
  {
    match AllReturns(assets, yearsBack, fetch)
    case Failure(e) => Failure(e)
    case Success(rs) => Success(StatsOf(rs))
  }

  // ---------------------------------------------------------------------
  // Properties

  /** An unmapped asset fails with its own name, unless an earlier asset
      already failed. */
  lemma {:induction false} UnknownAssetFails(assets: seq<string>, yearsBack: Int32, fetch: string -> Result<seq<real>>, k: int)
    requires 0 <= k < |assets| && assets[k] !in Stooq
    ensures AllReturns(assets, yearsBack, fetch).Failure?
    ensures (forall i :: 0 <= i < k ==> AssetReturns(assets[i], yearsBack, fetch).Success?)
      ==> AllReturns(assets, yearsBack, fetch) == Failure(UnknownAsset(assets[k]))
  {
    var n := |assets| - 1;
    if k < n {
      assert assets[..n][k] == assets[k];
      forall i | 0 <= i < k ensures assets[..n][i] == assets[i] { }
      UnknownAssetFails(assets[..n], yearsBack, fetch, k);
    } else {
      if forall i :: 0 <= i < k ==> AssetReturns(assets[i], yearsBack, fetch).Success? {
        AllReturnsSucceed(assets[..n], yearsBack, fetch);
      }
    }
  }

  /** When every asset's own series loads, the loop succeeds with exactly
      those series in asset order. */
  lemma {:induction false} AllReturnsSucceed(assets: seq<string>, yearsBack: Int32, fetch: string -> Result<seq<real>>)
    requires forall i :: 0 <= i < |assets| ==> AssetReturns(assets[i], yearsBack, fetch).Success?
    ensures AllReturns(assets, yearsBack, fetch).Success?
    ensures forall i :: 0 <= i < |assets| ==>
      AllReturns(assets, yearsBack, fetch).value[i] == AssetReturns(assets[i], yearsBack, fetch).value
  {
    if |assets| > 0 {
      var n := |assets| - 1;
      forall i | 0 <= i < n ensures AssetReturns(assets[..n][i], yearsBack, fetch).Success? {
        assert assets[..n][i] == assets[i];
      }
      AllReturnsSucceed(assets[..n], yearsBack, fetch);
    }
  }

  /** Each loaded series has one return fewer than its window of closes,
      and each return is a ratio of consecutive closes minus one. */
  lemma AssetReturnsShape(asset: string, yearsBack: Int32, fetch: string -> Result<seq<real>>)
    requires AssetReturns(asset, yearsBack, fetch).Success?
    ensures asset in Stooq && fetch(Stooq[asset]).Success?
    ensures var win := Window(fetch(Stooq[asset]).value, yearsBack).value;
      var r := AssetReturns(asset, yearsBack, fetch).value;
      && |win| >= 1 && |r| == |win| - 1
      && forall i :: 1 <= i < |win| ==> r[i - 1] == Div(win[i], win[i - 1]) - 1.0
  {
  }

  /** With series no longer than an `int` allows, `minLen` is the length
      of one of them. */
  lemma {:induction false} MinLengthAttained(rs: seq<seq<real>>)
    requires |rs| > 0 && forall i :: 0 <= i < |rs| ==> |rs[i]| <= IntMax
    ensures exists i :: 0 <= i < |rs| && MinLength(rs) == |rs[i]|
  {
    var n := |rs| - 1;
    if n == 0 {
      assert rs[..0] == [];
      assert MinLength(rs) == |rs[0]|;
    } else {
      MinLengthAttained(rs[..n]);
      var i :| 0 <= i < n && MinLength(rs[..n]) == |rs[..n][i]|;
      assert rs[..n][i] == rs[i];
      if |rs[n]| < MinLength(rs[..n]) {
        assert MinLength(rs) == |rs[n]|;
      } else {
        assert MinLength(rs) == |rs[i]|;
      }
    }
  }

  /** After alignment every series has length `minLen`, the shortest length,
      and is the tail of its original series. */
  lemma AlignedShape(rs: seq<seq<real>>)
    requires |rs| > 0
    ensures forall i :: 0 <= i < |rs| ==>
      |StatsOf(rs).alignedReturns[i]| == MinLength(rs)
      && StatsOf(rs).alignedReturns[i] == rs[i][|rs[i]| - MinLength(rs)..]
  {
    var a := StatsOf(rs).alignedReturns;
    assert a == Align(rs, MinLength(rs));
  }

  /** `mu[i]` is the mean of the aligned series `i`. */
  lemma {:induction false} MeanIsAverage(rs: seq<seq<real>>)
    ensures forall i :: 0 <= i < |rs| ==> StatsOf(rs).mu[i] == Average(StatsOf(rs).alignedReturns[i])
  {
    if |rs| > 0 {
      var s := StatsOf(rs);
      var m := MinLength(rs);
      forall i | 0 <= i < |rs| ensures s.mu[i] == Average(s.alignedReturns[i]) {
        var a := s.alignedReturns[i];
        assert |a| == m;
        if m == 0 { assert a == []; }
      }
    }
  }

  /** Covariance is symmetric in its two series. */
  lemma {:induction false} CovarianceSymmetric(x: seq<real>, y: seq<real>)
    requires |x| == |y|
    ensures Covariance(x, y) == Covariance(y, x)
  {
    var t, u := CoTerms(x, y), CoTerms(y, x);
    forall i | 0 <= i < |x| ensures t[i] == u[i] {
      CoTermSymmetric(x[i], Average(x), y[i], Average(y));
    }
    SumPointwise(t, u);
  }

  lemma CoTermSymmetric(a: real, ma: real, b: real, mb: real)
    ensures CoTerm(a, ma, b, mb) == CoTerm(b, mb, a, ma)
  {
  }

  /** The matrix is `n` by `n` and symmetric, with entry `(i, j)` the
      sample covariance (denominator `N - 1`) of aligned series `i` and `j`. */
  lemma {:induction false} CovarianceMatrixSymmetric(rs: seq<seq<real>>)
    ensures var s := StatsOf(rs);
      && (forall i :: 0 <= i < |rs| ==> |s.cov[i]| == |rs|)
      && (forall i, j :: 0 <= i < |rs| && 0 <= j < |rs| ==>
            s.cov[i][j] == Covariance(s.alignedReturns[i], s.alignedReturns[j])
            && s.cov[i][j] == s.cov[j][i])
  {
    if |rs| > 0 {
      var s := StatsOf(rs);
      forall i, j | 0 <= i < |rs| && 0 <= j < |rs|
        ensures s.cov[i][j] == s.cov[j][i]
      {
        CovarianceSymmetric(s.alignedReturns[i], s.alignedReturns[j]);
      }
    }
  }

  // ---------------------------------------------------------------------
  // The loops of `loadReturns`

  /** `closes.subList(...)` then the loop filling `rets`. */
  method LoadAssetReturns(asset: string, yearsBack: Int32, fetch: string -> Result<seq<real>>) returns (r: Result<seq<real>>)
    ensures r == AssetReturns(asset, yearsBack, fetch)
  {
    if asset !in Stooq { return Failure(UnknownAsset(asset)); }
    var stooqTicker := Stooq[asset];
    var fetched := fetch(stooqTicker);
    if fetched.Failure? { return Failure(fetched.error); }
    var win := Window(fetched.value, yearsBack);
    if win.Failure? { return Failure(win.error); }
    var closes := win.value;
    if |closes| - 1 < 0 { return Failure(NegativeArraySize); }
    var rets := new real[|closes| - 1];
    for i := 1 to |closes|
      invariant forall k :: 1 <= k < i ==> rets[k - 1] == Div(closes[k], closes[k - 1]) - 1.0
    {
      rets[i - 1] := Div(closes[i], closes[i - 1]) - 1.0;
    }
    assert rets[..] == SimpleReturns(closes);
    r := Success(rets[..]);
  }

  /** `covariance(x, y)`. */
  method CovarianceOf(x: seq<real>, y: seq<real>) returns (c: real)
    requires |x| <= |y|
    ensures c == Covariance(x, y)
  {
    var meanX := Average(x);
    var meanY := Average(y);
    ghost var t := CoTerms(x, y);
    var sum := 0.0;
    for i := 0 to |x|
      invariant sum == Sum(t[..i])
    {
      SumPrefix(t, i);
      sum := sum + CoTerm(x[i], meanX, y[i], meanY);
    }
    assert t[..|x|] == t;
    c := Div(sum, (|x| - 1) as real);
  }

  /** `loadReturns`: the per-asset loop, the alignment loop, then `mu` and
      `cov` filled by nested loops. */
  method LoadReturns(assets: seq<string>, yearsBack: Int32, fetch: string -> Result<seq<real>>)
    returns (r: Result<ReturnStats>)
    ensures r == LoadReturnsResult(assets, yearsBack, fetch)
  {
    var returnsPerAsset, minLen := CollectReturns(assets, yearsBack, fetch);
    if returnsPerAsset.Failure? { return Failure(returnsPerAsset.error); }
    var stats := ComputeStats(returnsPerAsset.value, minLen);
    r := Success(stats);
  }

  /** The per-asset loop, appending each asset's series and updating
      `minLen`. */
  method CollectReturns(assets: seq<string>, yearsBack: Int32, fetch: string -> Result<seq<real>>)
    returns (r: Result<seq<seq<real>>>, minLen: int)
    ensures r == AllReturns(assets, yearsBack, fetch)
    ensures r.Success? ==> minLen == MinLength(r.value)
  {
    var returnsPerAsset: seq<seq<real>> := [];
    minLen := IntMax;
    for k := 0 to |assets|
      invariant AllReturns(assets[..k], yearsBack, fetch) == Success(returnsPerAsset)
      invariant minLen == MinLength(returnsPerAsset)
    {
      AllReturnsStep(assets, yearsBack, fetch, k);
      var rets := LoadAssetReturns(assets[k], yearsBack, fetch);
      if rets.Failure? {
        AllReturnsPrefixFails(assets, yearsBack, fetch, k + 1);
        return Failure(rets.error), minLen;
      }
      MinLengthAppend(returnsPerAsset, rets.value);
      returnsPerAsset := returnsPerAsset + [rets.value];
      minLen := Min(minLen, |rets.value|);
    }
    assert assets[..|assets|] == assets;
    r := Success(returnsPerAsset);
  }

  /** Alignment, `mu` and `cov` from the collected series. */
  method ComputeStats(rs: seq<seq<real>>, minLen: int) returns (s: ReturnStats)
    requires minLen == MinLength(rs)
    ensures s == StatsOf(rs)
  {
    if |rs| == 0 { return ReturnStats([], [], []); }
    var aligned := AlignLengths(rs, minLen);
    var mu := MeanVector(aligned, minLen);
    var cov := FillCovariance(aligned);
    s := ReturnStats(mu, cov, aligned);
  }

  /** The alignment loop: `returnsPerAsset.set(i, copyOfRange(...))`. */
  method AlignLengths(rs: seq<seq<real>>, minLen: int) returns (out: seq<seq<real>>)
    requires 0 <= minLen && forall i :: 0 <= i < |rs| ==> minLen <= |rs[i]|
    ensures out == Align(rs, minLen)
  {
    out := rs;
    for i := 0 to |out|
      invariant |out| == |rs|
      invariant forall k :: 0 <= k < i ==> out[k] == rs[k][|rs[k]| - minLen..]
      invariant forall k :: i <= k < |rs| ==> out[k] == rs[k]
    {
      var row := out[i];
      out := out[i := row[|row| - minLen..]];
    }
  }

  /** `mu[i] = sum / minLen`. */
  method MeanVector(a: seq<seq<real>>, minLen: int) returns (mu: seq<real>)
    ensures mu == seq(|a|, i requires 0 <= i < |a| => Div(Sum(a[i]), minLen as real))
  {
    var m := new real[|a|];
    for i := 0 to |a|
      invariant forall k :: 0 <= k < i ==> m[k] == Div(Sum(a[k]), minLen as real)
    {
      var sum := SumOf(a[i]);
      m[i] := Div(sum, minLen as real);
    }
    mu := m[..];
  }

  /** Row `i` of `cov`: `cov[i][j] = covariance(a[i], a[j])`. */
  method CovarianceRow(a: seq<seq<real>>, i: nat) returns (row: array<real>)
    requires i < |a| && forall j :: 0 <= j < |a| ==> |a[i]| <= |a[j]|
    ensures fresh(row) && row[..] == seq(|a|, j requires 0 <= j < |a| => Covariance(a[i], a[j]))
  {
    row := new real[|a|];
    for j := 0 to |a|
      invariant forall q :: 0 <= q < j ==> row[q] == Covariance(a[i], a[q])
    {
      var c := CovarianceOf(a[i], a[j]);
      row[j] := c;
    }
  }

  /** `new double[n][n]` filled row by row. */
  method FillCovariance(a: seq<seq<real>>) returns (rows: seq<seq<real>>)
    requires forall i, j :: 0 <= i < |a| && 0 <= j < |a| ==> |a[i]| <= |a[j]|
    ensures rows == CovarianceMatrix(a)
  {
    rows := [];
    for i := 0 to |a|
      invariant |rows| == i
      invariant forall p :: 0 <= p < i ==> rows[p] == seq(|a|, j requires 0 <= j < |a| => Covariance(a[p], a[j]))
    {
      var row := CovarianceRow(a, i);
      rows := rows + [row[..]];
    }
  }

  /** The summing loop over one aligned series. */
  method SumOf(s: seq<real>) returns (sum: real)
    ensures sum == Sum(s)
  {
    sum := 0.0;
    for i := 0 to |s|
      invariant sum == Sum(s[..i])
    {
      SumPrefix(s, i);
      sum := sum + s[i];
    }
    assert s[..|s|] == s;
  }

  /** One more asset after a prefix that loaded. */
  lemma AllReturnsStep(assets: seq<string>, yearsBack: Int32, fetch: string -> Result<seq<real>>, k: int)
    requires 0 <= k < |assets| && AllReturns(assets[..k], yearsBack, fetch).Success?
    ensures AllReturns(assets[..k + 1], yearsBack, fetch) ==
      match AssetReturns(assets[k], yearsBack, fetch)
      case Failure(e) => Failure(e)
      case Success(r) => Success(AllReturns(assets[..k], yearsBack, fetch).value + [r])
  {
    assert assets[..k + 1][..k] == assets[..k];
    assert assets[..k + 1][k] == assets[k];
  }

  lemma MinLengthAppend(rs: seq<seq<real>>, x: seq<real>)
    ensures MinLength(rs + [x]) == Min(MinLength(rs), |x|)
  {
    assert (rs + [x])[..|rs|] == rs;
  }

  /** A failure on a prefix of the assets is the failure of the whole loop. */
  lemma {:induction false} AllReturnsPrefixFails(assets: seq<string>, yearsBack: Int32, fetch: string -> Result<seq<real>>, k: int)
    requires 0 <= k <= |assets| && AllReturns(assets[..k], yearsBack, fetch).Failure?
    ensures AllReturns(assets, yearsBack, fetch) == AllReturns(assets[..k], yearsBack, fetch)
    decreases |assets| - k
  {
    if k < |assets| {
      assert assets[..k + 1][..k] == assets[..k];
      AllReturnsPrefixFails(assets, yearsBack, fetch, k + 1);
    } else {
      assert assets[..k] == assets;
    }
  }
}
