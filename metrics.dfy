/** MetricsService: per-ticker metrics from the daily closes (total return,
    volatility of daily returns, maximum drawdown and a stability score),
    and the loop over the allowed tickers.  `Math.sqrt` is the parameter
    `sqrt`; the closes come through the Stooq cache with the download as
    the parameter `fetch`. */
module Metrics {
  import opened Common
  import opened JavaStrings
  import opened RealSeq
  import opened MarketDataFree

  /** The shortest close series that gets real metrics. */
  const MinCloses := 50

  /** StockMetrics, whose fields later passes overwrite in place. */
  datatype StockMetrics = StockMetrics(
    ticker: string,
    totalReturn: real,
    volatility: real,
    maxDrawdown: real,
    stabilityScore: real,
    finalScore: real)

  /** The "bad" metrics of a short or failed series. */
  function DefaultMetrics(ticker: string): (m: StockMetrics)
  {
    StockMetrics(ticker, 0.0, 1.0, -1.0, 0.0, 0.0)
  }

  // ---------------------------------------------------------------------
  // Volatility

  function Square(x: real): real { x * x }

  /** The squared deviation of each value from `mean`. */
  function SquaredDeviations(vals: seq<real>, mean: real): (r: seq<real>)
    ensures |r| == |vals| && AllNonNegative(r)
  {
    seq(|vals|, i requires 0 <= i < |vals| => Square(vals[i] - mean))
  }

  /** Population variance: the mean squared deviation from the average, 0 for
      an empty list. */
  function Variance(vals: seq<real>): (v: real)
  {
    if |vals| == 0 then 0.0
    else Sum(SquaredDeviations(vals, Average(vals))) / (|vals| as real)
  }

  /** `stdDev`: the root of the population variance, 0 for an empty list. */
  function Volatility(vals: seq<real>, sqrt: real -> real): real
  {
    if |vals| == 0 then 0.0 else sqrt(Variance(vals))
  }

  /** The variance is never negative; it is 0 when every value is the same. */
  lemma {:induction false} VarianceProperties(vals: seq<real>)
    ensures Variance(vals) >= 0.0
    ensures (forall i :: 0 <= i < |vals| ==> vals[i] == vals[0]) ==> Variance(vals) == 0.0
  {
    if |vals| > 0 {
      var d := SquaredDeviations(vals, Average(vals));
      SumNonNegative(d);
      if forall i :: 0 <= i < |vals| ==> vals[i] == vals[0] {
        ConstantAverage(vals);
        assert forall i :: 0 <= i < |d| ==> d[i] == 0.0;
        SumOfZeros(d);
      }
    }
  }

  lemma {:induction false} SumOfZeros(s: seq<real>)
    requires forall i :: 0 <= i < |s| ==> s[i] == 0.0
    ensures Sum(s) == 0.0
  {
    if |s| > 0 { SumOfZeros(s[..|s| - 1]); }
  }

  lemma {:induction false} SumOfConstant(s: seq<real>, c: real)
    requires forall i :: 0 <= i < |s| ==> s[i] == c
    ensures Sum(s) == (|s| as real) * c
  {
    if |s| > 0 { SumOfConstant(s[..|s| - 1], c); }
  }

  /** The average of a constant list is that constant. */
  lemma ConstantAverage(vals: seq<real>)
    requires |vals| > 0 && forall i :: 0 <= i < |vals| ==> vals[i] == vals[0]
    ensures Average(vals) == vals[0]
  {
    SumOfConstant(vals, vals[0]);
  }

  /** The loop of `stdDev`. */
  method StdDev(vals: seq<real>, sqrt: real -> real) returns (r: real)
    ensures r == Volatility(vals, sqrt)
  {
    if |vals| == 0 { return 0.0; }
    var mean := Average(vals);
    ghost var d := SquaredDeviations(vals, mean);
    var sumSq := 0.0;
    for i := 0 to |vals|
      invariant sumSq == Sum(d[..i])
    {
      assert d[..i + 1][..i] == d[..i];
      var diff := vals[i] - mean;
      sumSq := sumSq + diff * diff;
    }
    assert d[..|vals|] == d;
    r := sqrt(sumSq / (|vals| as real));
  }

  // ---------------------------------------------------------------------
  // Drawdown

  /** The running peak after the closes `s`, starting from the first. */
  function PeakOf(s: seq<real>): (p: real)
    requires |s| >= 1
    ensures forall k :: 0 <= k < |s| ==> s[k] <= p
    ensures p in s
  {
    if |s| == 1 then s[0]
    else
      var n := |s| - 1;
      var q := PeakOf(s[..n]);
      if s[n] > q then s[n] else q
  }

  /** The deepest `close / peak - 1` over the closes `s`, starting from 0. */
  function DrawdownOf(s: seq<real>): (dd: real)
    ensures dd <= 0.0
  {
    if |s| == 0 then 0.0
    else
      var n := |s| - 1;
      MinReal(DrawdownOf(s[..n]), Div(s[n], PeakOf(s)) - 1.0)
  }

  /** With positive closes no drawdown reaches -100%. */
  lemma {:induction false} DrawdownAboveMinusOne(s: seq<real>)
    requires forall k :: 0 <= k < |s| ==> s[k] > 0.0
    ensures DrawdownOf(s) > -1.0
  {
    if |s| > 0 {
      var n := |s| - 1;
      assert forall k :: 0 <= k < n ==> s[..n][k] == s[k];
      DrawdownAboveMinusOne(s[..n]);
      var p := PeakOf(s);
      assert p >= s[0];
      QuotientPositive(s[n], p);
    }
  }

  lemma QuotientPositive(a: real, b: real)
    requires a > 0.0 && b > 0.0
    ensures Div(a, b) > 0.0
  {
    var q := a / b;
    assert q * b == a;
  }

  /** A non-decreasing series starting above zero never draws down. */
  lemma {:induction false} NondecreasingNoDrawdown(s: seq<real>)
    requires |s| >= 1 && s[0] > 0.0
    requires forall i, j :: 0 <= i <= j < |s| ==> s[i] <= s[j]
    ensures DrawdownOf(s) == 0.0
  {
    var n := |s| - 1;
    if n > 0 {
      NondecreasingNoDrawdown(s[..n]);
    }
    var p := PeakOf(s);
    assert p == s[n];
    assert Div(s[n], p) == 1.0;
  }

  /** One more close: the peak and the drawdown of the longer prefix. */
  lemma DrawdownStep(s: seq<real>, i: int)
    requires 0 <= i < |s|
    ensures i == 0 ==> PeakOf(s[..i + 1]) == s[0]
    ensures i > 0 ==> PeakOf(s[..i + 1]) == (if s[i] > PeakOf(s[..i]) then s[i] else PeakOf(s[..i]))
    ensures DrawdownOf(s[..i + 1]) == MinReal(DrawdownOf(s[..i]), Div(s[i], PeakOf(s[..i + 1])) - 1.0)
  {
    assert s[..i + 1][..i] == s[..i];
    assert s[..i + 1][i] == s[i];
  }

  /** The loop of `computeMaxDrawdown`. */
  method MaxDrawdown(closes: seq<real>) returns (maxDd: real)
    requires |closes| >= 1
    ensures maxDd == DrawdownOf(closes)
  {
    var peak := closes[0];
    maxDd := 0.0;
    for i := 0 to |closes|
      invariant i >= 1 ==> peak == PeakOf(closes[..i])
      invariant i == 0 ==> peak == closes[0]
      invariant maxDd == DrawdownOf(closes[..i])
    {
      DrawdownStep(closes, i);
      var c := closes[i];
      if c > peak { peak := c; }
      var dd := Div(c, peak) - 1.0;
      if dd < maxDd { maxDd := dd; }
    }
    assert closes[..|closes|] == closes;
  }

  // ---------------------------------------------------------------------
  // compute

  /** `1 / (max(vol, 1e-4) + |dd| + 0.01)`. */
  function Stability(vol: real, dd: real): real
  {
    1.0 / (MaxReal(vol, 0.0001) + Abs(dd) + 0.01)
  }

  /** What `compute` returns. */
  function MetricsOf(ticker: string, closes: Option<seq<real>>, sqrt: real -> real): StockMetrics
  {
    if closes.None? || |closes.value| < MinCloses then DefaultMetrics(ticker)
    else
      var c := closes.value;
      var vol := Volatility(PairReturns(c), sqrt);
      var dd := DrawdownOf(c);
      StockMetrics(ticker, Div(c[|c| - 1], c[0]) - 1.0, vol, dd, Stability(vol, dd), 0.0)
  }

  /** A null list or one with fewer than 50 closes gets the default metrics,
      as does an empty list, which is also what the loop records when the
      load throws. */
  lemma ShortSeriesDefaults(ticker: string, closes: Option<seq<real>>, sqrt: real -> real)
    ensures closes.None? || |closes.value| < MinCloses ==>
      MetricsOf(ticker, closes, sqrt) == StockMetrics(ticker, 0.0, 1.0, -1.0, 0.0, 0.0)
    ensures MetricsOf(ticker, Some([]), sqrt) == DefaultMetrics(ticker)
  {
  }

  /** The metrics of a long series: the total return is last / first - 1,
      the volatility is taken over the daily returns that skip non-positive
      pairs, the drawdown lies in (-1, 0] for positive closes (in [.., 0] in
      any case), the stability score is positive and the final score 0. */
  lemma {:induction false} LongSeriesMetrics(ticker: string, c: seq<real>, sqrt: real -> real)
    requires |c| >= MinCloses
    ensures var m := MetricsOf(ticker, Some(c), sqrt);
      && m.ticker == ticker
      && (c[0] != 0.0 ==> m.totalReturn == c[|c| - 1] / c[0] - 1.0)
      && m.volatility == Volatility(PairReturns(c), sqrt)
      && m.maxDrawdown <= 0.0
      && ((forall k :: 0 <= k < |c| ==> c[k] > 0.0) ==> m.maxDrawdown > -1.0)
      && m.stabilityScore > 0.0
      && m.finalScore == 0.0
  {
    var vol := Volatility(PairReturns(c), sqrt);
    var dd := DrawdownOf(c);
    StabilityPositive(vol, dd);
    if forall k :: 0 <= k < |c| ==> c[k] > 0.0 {
      DrawdownAboveMinusOne(c);
    }
  }

  lemma StabilityPositive(vol: real, dd: real)
    ensures Stability(vol, dd) > 0.0
  {
    assert MaxReal(vol, 0.0001) + Abs(dd) + 0.01 > 0.0;
  }

  /** `compute`. */
  method Compute(ticker: string, closes: Option<seq<real>>, sqrt: real -> real) returns (m: StockMetrics)
    ensures m == MetricsOf(ticker, closes, sqrt)
  {
    if closes.None? || |closes.value| < MinCloses {
      return DefaultMetrics(ticker);
    }
    var c := closes.value;
    var start := c[0];
    var end := c[|c| - 1];
    var totalReturn := Div(end, start) - 1.0;
    var dailyReturns := DailyReturns(c);
    var volatility := StdDev(dailyReturns, sqrt);
    var maxDrawdown := MaxDrawdown(c);
    var volPenalty := MaxReal(volatility, 0.0001);
    var ddPenalty := Abs(maxDrawdown);
    var stabilityScore := 1.0 / (volPenalty + ddPenalty + 0.01);
    m := StockMetrics(ticker, totalReturn, volatility, maxDrawdown, stabilityScore, 0.0);
  }

  // ---------------------------------------------------------------------
  // computeAllMetrics

  /** The closes the loop sees for `t`, given the cache at the start. */
  function ClosesFor(cache: map<string, seq<real>>, t: string, fetch: string -> seq<real>): seq<real>
  {
    CachedLoad(cache, Some(t), fetch).0
  }

  /** The metrics the loop records for `t`, given the cache at the start. */
  function MetricsFor(cache: map<string, seq<real>>, t: string, fetch: string -> seq<real>, sqrt: real -> real): StockMetrics
  {
    MetricsOf(t, Some(ClosesFor(cache, t, fetch)), sqrt)
  }

  /** `MetricsFor` on the starting cache, as a value the loop maps. */
  function Recorder(cache: map<string, seq<real>>, fetch: string -> seq<real>, sqrt: real -> real): string -> StockMetrics
  {
    t => MetricsFor(cache, t, fetch, sqrt)
  }

  /** `f` applied to each element of `s`, in order. */
  function MapList<A, B>(f: A -> B, s: seq<A>): (r: seq<B>)
    ensures |r| == |s|
  {
    if s == [] then [] else MapList(f, s[..|s| - 1]) + [f(s[|s| - 1])]
  }

  /** Entry `k` of the mapped list is `f(s[k])`. */
  lemma {:induction false} MapListAt<A, B>(f: A -> B, s: seq<A>)
    ensures forall k :: 0 <= k < |s| ==> MapList(f, s)[k] == f(s[k])
  {
    if s != [] {
      var init := s[..|s| - 1];
      MapListAt(f, init);
      assert forall k :: 0 <= k < |init| ==> s[k] == init[k];
    }
  }

  /** The records of `order`, given the cache at the start: entry `k` is
      the record of `order[k]`. */
  lemma RecordsOfOrder(cache: map<string, seq<real>>, order: seq<string>, fetch: string -> seq<real>, sqrt: real -> real)
    ensures forall k :: 0 <= k < |order| ==> MapList(Recorder(cache, fetch, sqrt), order)[k] == MetricsFor(cache, order[k], fetch, sqrt)
  {
    MapListAt(Recorder(cache, fetch, sqrt), order);
  }

  /** The body of the loop for one non-blank ticker. */
  method MetricsStep(cache: StooqCache, ticker: string, fetch: string -> seq<real>, sqrt: real -> real,
                     ghost start: map<string, seq<real>>) returns (m: StockMetrics)
    requires CacheExtends(start, cache.closeCache, fetch)
    modifies cache
    ensures m == Recorder(start, fetch, sqrt)(ticker)
    ensures CacheExtends(start, cache.closeCache, fetch)
  {
    CachedLoadConsistent(start, cache.closeCache, Some(ticker), fetch);
    var closes := cache.LoadDailyClosesUS(Some(ticker), fetch);
    m := Compute(ticker, Some(closes), sqrt);
  }

  /** The loop of `computeAllMetrics`, in the set's iteration order (the
      ghost `order`): one entry per non-blank allowed ticker, each the
      metrics of the closes a load on the starting cache gives. */
  method ComputeAllMetrics(cache: StooqCache, allowed: set<string>, fetch: string -> seq<real>, sqrt: real -> real)
    returns (out: seq<StockMetrics>, ghost order: seq<string>)
    modifies cache
    ensures forall i, j :: 0 <= i < j < |order| ==> order[i] != order[j]
    ensures forall t :: t in order <==> t in allowed && !IsBlank(t)
    ensures out == MapList(Recorder(old(cache.closeCache), fetch, sqrt), order)
    ensures CacheExtends(old(cache.closeCache), cache.closeCache, fetch)
  {
    out, order := [], [];
    ghost var start := cache.closeCache;
    var rest := allowed;
    while rest != {}
      invariant rest <= allowed
      invariant forall i, j :: 0 <= i < j < |order| ==> order[i] != order[j]
      invariant forall t :: t in order <==> t in allowed && !IsBlank(t) && t !in rest
      invariant out == MapList(Recorder(start, fetch, sqrt), order)
      invariant CacheExtends(start, cache.closeCache, fetch)
      decreases |rest|
    {
      var ticker :| ticker in rest;
      rest := rest - {ticker};
      if IsBlank(ticker) { continue; }
      var m := MetricsStep(cache, ticker, fetch, sqrt, start);
      assert (order + [ticker])[..|order|] == order;
      out := out + [m];
      order := order + [ticker];
    }
  }
}
