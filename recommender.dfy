/** FreeAiStockPortfolioService: the heuristic stock recommender.  It scales
    the metrics of every allowed ticker, blends return and stability with
    weights chosen by the risk tolerance, ranks by the blend, takes the
    first six distinct allowed tickers and weights them by a softmax of
    their scores.  `Math.exp` is the parameter `exp`. */
module Recommender {
  import opened Common
  import opened JavaStrings
  import opened RealSeq
  import Risk
  import opened MarketDataFree
  import opened Metrics
  import opened Normalization
  import opened Universe

  /** The number of picks a response always holds. */
  const PickCount := 6

  /** StockPick: a chosen ticker, its universe tag and its weight. */
  datatype StockPick = StockPick(ticker: string, tag: string, weight: real)

  datatype AiStockPortfolioResponse = AiStockPortfolioResponse(
    riskScore: int,
    riskTier: string,
    picks: seq<StockPick>,
    explanation: string)

  /** The tier, score and blend weights picked by the risk tolerance. */
  datatype Blend = Blend(tier: string, riskScore: int, wReturn: real, wStability: real)

  // ---------------------------------------------------------------------
  // Tier choice

  /** `String.valueOf(answers.getRiskTolerance()).toLowerCase()`: a null
      tolerance becomes "null". */
  function ToleranceKey(rt: Option<string>): string
  {
    ToLower(if rt.None? then "null" else rt.value)
  }

  function BlendFor(rt: Option<string>): Blend
  {
    var k := ToleranceKey(rt);
    if k == "low" then Blend("conservative", 3, 0.30, 0.70)
    else if k == "high" then Blend("aggressive", 8, 0.70, 0.30)
    else Blend("balanced", 6, 0.50, 0.50)
  }

  /** The three blends the tier choice can yield. */
  predicate KnownBlend(b: Blend)
  {
    || b == Blend("conservative", 3, 0.30, 0.70)
    || b == Blend("aggressive", 8, 0.70, 0.30)
    || b == Blend("balanced", 6, 0.50, 0.50)
  }

  /** "low" and "high" match in any letter case; every other tolerance,
      null included, is balanced.  The two weights are non-negative and
      sum to 1. */
  lemma BlendChoice(rt: Option<string>)
    ensures rt.Some? && EqualsIgnoreCase(rt.value, "low") ==> BlendFor(rt) == Blend("conservative", 3, 0.30, 0.70)
    ensures rt.Some? && EqualsIgnoreCase(rt.value, "high") ==> BlendFor(rt) == Blend("aggressive", 8, 0.70, 0.30)
    ensures !(rt.Some? && (EqualsIgnoreCase(rt.value, "low") || EqualsIgnoreCase(rt.value, "high")))
      ==> BlendFor(rt) == Blend("balanced", 6, 0.50, 0.50)
    ensures rt.None? ==> BlendFor(rt) == Blend("balanced", 6, 0.50, 0.50)
    ensures BlendFor(Some("low")) == BlendFor(Some("LOW")) == BlendFor(Some("Low")) == Blend("conservative", 3, 0.30, 0.70)
    ensures BlendFor(Some("high")) == BlendFor(Some("HIGH")) == BlendFor(Some("High")) == Blend("aggressive", 8, 0.70, 0.30)
    ensures BlendFor(Some("medium")) == Blend("balanced", 6, 0.50, 0.50)
    ensures KnownBlend(BlendFor(rt))
    ensures BlendFor(rt).wReturn >= 0.0 && BlendFor(rt).wStability >= 0.0 && BlendFor(rt).wReturn + BlendFor(rt).wStability == 1.0
  {
    ToLowerMatches(if rt.None? then "null" else rt.value, "low");
    ToLowerMatches(if rt.None? then "null" else rt.value, "high");
    assert ToLower("null")[0] == 'n';
    assert ToLower("medium")[0] == 'm';
    assert ToLower("LOW") == "low" && ToLower("Low") == "low" && ToLower("low") == "low";
    assert ToLower("HIGH") == "high" && ToLower("High") == "high" && ToLower("high") == "high";
  }

  /** `Double.toString` of the three blend weights. */
  function DecimalText(w: real): string
    requires w == 0.30 || w == 0.50 || w == 0.70
  {
    if w == 0.30 then "0.3" else if w == 0.50 then "0.5" else "0.7"
  }

  function ExplanationOf(b: Blend): string
    requires KnownBlend(b)
  {
    "Free heuristic recommender: ranks stocks by blended score = "
      + DecimalText(b.wReturn) + "*return + " + DecimalText(b.wStability)
      + "*stability (based on past performance)."
  }

  // ---------------------------------------------------------------------
  // Score blend

  function Blended(m: StockMetrics, b: Blend): real
  {
    b.wReturn * m.totalReturn + b.wStability * m.stabilityScore
  }

  /** The list after the scoring loop. */
  function Scored(ms: seq<StockMetrics>, b: Blend): seq<StockMetrics>
  {
    seq(|ms|, i requires 0 <= i < |ms| => ms[i].(finalScore := Blended(ms[i], b)))
  }

  method ScoreAll(a: array<StockMetrics>, b: Blend)
    modifies a
    ensures a[..] == Scored(old(a[..]), b)
  {
    ghost var before := a[..];
    for i := 0 to a.Length
      invariant forall k :: 0 <= k < i ==> a[k] == Scored(before, b)[k]
      invariant forall k :: i <= k < a.Length ==> a[k] == before[k]
    {
      a[i] := a[i].(finalScore := b.wReturn * a[i].totalReturn + b.wStability * a[i].stabilityScore);
      assert a[i] == Scored(before, b)[i];
    }
    assert a[..] == Scored(before, b);
  }

  /** A blend with non-negative weights summing to 1 of two values in [0,1]
      lies in [0,1]. */
  lemma BlendedInUnit(m: StockMetrics, b: Blend)
    requires b.wReturn >= 0.0 && b.wStability >= 0.0 && b.wReturn + b.wStability == 1.0
    requires 0.0 <= m.totalReturn <= 1.0 && 0.0 <= m.stabilityScore <= 1.0
    ensures 0.0 <= Blended(m, b) <= 1.0
  {
    MixInUnit(b.wReturn, m.totalReturn, b.wStability, m.stabilityScore);
  }

  lemma MixInUnit(v: real, x: real, w: real, y: real)
    requires v >= 0.0 && w >= 0.0 && v + w == 1.0
    requires 0.0 <= x <= 1.0 && 0.0 <= y <= 1.0
    ensures 0.0 <= v * x + w * y <= 1.0
  {
    var p, q := v * x, w * y;
    ScaleInUnit(v, x);
    ScaleInUnit(w, y);
    assert p <= v && q <= w;
    AddBounds(p, v, q, w);
  }

  lemma AddBounds(p: real, v: real, q: real, w: real)
    requires p <= v && q <= w
    ensures p + q <= v + w
  {
  }

  lemma ScaleInUnit(w: real, x: real)
    requires w >= 0.0 && 0.0 <= x <= 1.0
    ensures 0.0 <= w * x <= w
  {
    assert w * (1.0 - x) >= 0.0;
  }

  /** Scoring sets finalScore alone; after both normalisation passes every
      score lies in [0,1]. */
  lemma ScoredFrame(ms: seq<StockMetrics>, b: Blend)
    ensures |Scored(ms, b)| == |ms|
    ensures forall i :: 0 <= i < |ms| ==>
      Scored(ms, b)[i] == ms[i].(finalScore := b.wReturn * ms[i].totalReturn + b.wStability * ms[i].stabilityScore)
  {
  }

  lemma ScoresInUnit(ms: seq<StockMetrics>, rt: Option<string>)
    ensures var r := Scored(NormalizedStability(NormalizedReturns(ms)), BlendFor(rt));
      forall i :: 0 <= i < |r| ==> 0.0 <= r[i].finalScore <= 1.0
  {
    var n := NormalizedStability(NormalizedReturns(ms));
    BothPassesInUnit(ms);
    BlendChoice(rt);
    forall i | 0 <= i < |n|
      ensures 0.0 <= Blended(n[i], BlendFor(rt)) <= 1.0
    {
      BlendedInUnit(n[i], BlendFor(rt));
    }
  }

  // ---------------------------------------------------------------------
  // Ranking: a stable sort by descending finalScore

  /** `x` goes before the first element whose score is not above its own. */
  function InsertDesc(x: StockMetrics, s: seq<StockMetrics>): (r: seq<StockMetrics>)
    ensures |r| == |s| + 1
  {
    if s == [] || x.finalScore >= s[0].finalScore then [x] + s
    else [s[0]] + InsertDesc(x, s[1..])
  }

  /** `sorted(comparingDouble(finalScore).reversed())`. */
  function SortDesc(s: seq<StockMetrics>): (r: seq<StockMetrics>)
    ensures |r| == |s|
  {
    if s == [] then [] else InsertDesc(s[0], SortDesc(s[1..]))
  }

  predicate Descending(s: seq<StockMetrics>)
  {
    forall i, j :: 0 <= i < j < |s| ==> s[i].finalScore >= s[j].finalScore
  }

  /** The elements of `s` with score `v`, in order. */
  function WithScore(s: seq<StockMetrics>, v: real): seq<StockMetrics>
  {
    if s == [] then [] else (if s[0].finalScore == v then [s[0]] else []) + WithScore(s[1..], v)
  }

  lemma {:induction false} InsertDescSorted(x: StockMetrics, s: seq<StockMetrics>)
    requires Descending(s)
    ensures Descending(InsertDesc(x, s))
    ensures multiset(InsertDesc(x, s)) == multiset(s) + multiset{x}
    ensures InsertDesc(x, s)[0] == x || (s != [] && InsertDesc(x, s)[0] == s[0])
  {
    if s != [] && x.finalScore < s[0].finalScore {
      InsertDescSorted(x, s[1..]);
      assert s == [s[0]] + s[1..];
    }
  }

  lemma {:induction false} InsertDescStable(x: StockMetrics, s: seq<StockMetrics>, v: real)
    ensures WithScore(InsertDesc(x, s), v) == (if x.finalScore == v then [x] else []) + WithScore(s, v)
  {
    var r := InsertDesc(x, s);
    if s == [] || x.finalScore >= s[0].finalScore {
      assert r[0] == x && r[1..] == s;
    } else {
      assert r[0] == s[0] && r[1..] == InsertDesc(x, s[1..]);
      InsertDescStable(x, s[1..], v);
      assert WithScore(r, v) == (if s[0].finalScore == v then [s[0]] else []) + WithScore(r[1..], v);
      assert WithScore(s, v) == (if s[0].finalScore == v then [s[0]] else []) + WithScore(s[1..], v);
      // x scores strictly below s[0], so at most one of them scores v
      if x.finalScore == v {
        assert s[0].finalScore != v;
      }
    }
  }

  /** The ranking is descending, a permutation of its input, and stable:
      for every score the elements holding it keep their relative order. */
  lemma {:induction false} SortDescCorrect(s: seq<StockMetrics>)
    ensures Descending(SortDesc(s))
    ensures multiset(SortDesc(s)) == multiset(s)
    ensures forall v :: WithScore(SortDesc(s), v) == WithScore(s, v)
  {
    if s != [] {
      SortDescCorrect(s[1..]);
      InsertDescSorted(s[0], SortDesc(s[1..]));
      assert s == [s[0]] + s[1..];
      forall v
        ensures WithScore(SortDesc(s), v) == WithScore(s, v)
      {
        InsertDescStable(s[0], SortDesc(s[1..]), v);
      }
    }
  }

  // ---------------------------------------------------------------------
  // Selection of the picks

  /** The key the selection loop derives from a metric: its trimmed,
      upper-cased ticker when that is non-empty and allowed. */
  function PickKey(allowed: set<string>): StockMetrics -> Option<string>
  {
    (m: StockMetrics) =>
      var t := Canon(m.ticker);
      if t != [] && IsAllowed(allowed, Some(t)) then Some(t) else None
  }

  /** The keys of `ms` in order, skipping the metrics without one. */
  function Keys(ms: seq<StockMetrics>, key: StockMetrics -> Option<string>): (r: seq<string>)
    ensures |r| <= |ms|
  {
    if ms == [] then []
    else
      var n := |ms| - 1;
      Keys(ms[..n], key) + (if key(ms[n]).Some? then [key(ms[n]).value] else [])
  }

  /** The tickers the loop picks: the first `PickCount` distinct keys, or all
      of them when there are fewer. */
  function Chosen(top: seq<StockMetrics>, allowed: set<string>): seq<string>
  {
    var d := Distinct(Keys(top, PickKey(allowed)));
    if |d| >= PickCount then d[..PickCount] else d
  }

  /** `tags.getOrDefault(t, "sp500")`. */
  function TagOr(tags: map<string, string>, t: string): string
  {
    if t in tags then tags[t] else "sp500"
  }

  /** The picks for `ts`, each with its tag and the temporary weight 1. */
  function FreshPicks(ts: seq<string>, tags: map<string, string>): (r: seq<StockPick>)
    ensures |r| == |ts|
  {
    seq(|ts|, k requires 0 <= k < |ts| => StockPick(ts[k], TagOr(tags, ts[k]), 1.0))
  }

  lemma {:induction false} KeysStep(ms: seq<StockMetrics>, key: StockMetrics -> Option<string>, i: int)
    requires 0 <= i < |ms|
    ensures Keys(ms[..i + 1], key) == Keys(ms[..i], key) + (if key(ms[i]).Some? then [key(ms[i]).value] else [])
  {
    assert ms[..i + 1][..i] == ms[..i];
  }

  lemma {:induction false} KeysPrefix(ms: seq<StockMetrics>, key: StockMetrics -> Option<string>, i: int)
    requires 0 <= i <= |ms|
    ensures Keys(ms[..i], key) <= Keys(ms, key)
    decreases |ms| - i
  {
    if i < |ms| {
      KeysPrefix(ms, key, i + 1);
      KeysStep(ms, key, i);
    } else {
      assert ms[..i] == ms;
    }
  }

  /** A key is in the list exactly when some metric has it. */
  lemma {:induction false} KeysMembers(ms: seq<StockMetrics>, key: StockMetrics -> Option<string>)
    ensures forall x :: x in Keys(ms, key) <==> exists k :: 0 <= k < |ms| && key(ms[k]) == Some(x)
  {
    if ms != [] {
      var n := |ms| - 1;
      KeysMembers(ms[..n], key);
      forall x | (exists k :: 0 <= k < |ms| && key(ms[k]) == Some(x))
        ensures x in Keys(ms, key)
      {
        var k :| 0 <= k < |ms| && key(ms[k]) == Some(x);
        if k < n { assert ms[..n][k] == ms[k]; }
      }
      forall x | x in Keys(ms, key)
        ensures exists k :: 0 <= k < |ms| && key(ms[k]) == Some(x)
      {
        if x in Keys(ms[..n], key) {
          var k :| 0 <= k < n && key(ms[..n][k]) == Some(x);
          assert key(ms[k]) == Some(x);
        } else {
          assert key(ms[n]) == Some(x);
        }
      }
    }
  }

  lemma DistinctStep(c: seq<string>, t: string)
    ensures Distinct(c + [t]) == if t in c then Distinct(c) else Distinct(c) + [t]
  {
    assert (c + [t])[..|c|] == c;
  }

  lemma {:induction false} DistinctPrefix(p: seq<string>, s: seq<string>)
    requires p <= s
    ensures Distinct(p) <= Distinct(s)
    decreases |s|
  {
    if |p| < |s| {
      var n := |s| - 1;
      assert p <= s[..n];
      DistinctPrefix(p, s[..n]);
      assert s == s[..n] + [s[n]];
      DistinctStep(s[..n], s[n]);
    } else {
      assert p == s;
    }
  }

  /** One step of the selection loop: the `i`-th ranked metric adds its
      key to the distinct keys so far unless it has none or it is already
      there. */
  lemma SelectStep(top: seq<StockMetrics>, key: StockMetrics -> Option<string>, i: int)
    requires 0 <= i < |top|
    ensures Distinct(Keys(top[..i + 1], key))
      == if key(top[i]).Some? && key(top[i]).value !in Distinct(Keys(top[..i], key))
         then Distinct(Keys(top[..i], key)) + [key(top[i]).value]
         else Distinct(Keys(top[..i], key))
  {
    KeysStep(top, key, i);
    if key(top[i]).Some? {
      DistinctStep(Keys(top[..i], key), key(top[i]).value);
    } else {
      assert Keys(top[..i + 1], key) == Keys(top[..i], key);
    }
  }

  /** The cases of one selection step, in the loop's own terms. */
  lemma SelectCases(top: seq<StockMetrics>, allowed: set<string>, i: int)
    requires 0 <= i < |top|
    ensures var t := Canon(top[i].ticker);
      var d := Distinct(Keys(top[..i], PickKey(allowed)));
      var d' := Distinct(Keys(top[..i + 1], PickKey(allowed)));
      && (t == [] ==> d' == d)
      && (!IsAllowed(allowed, Some(t)) ==> d' == d)
      && (t in d ==> d' == d)
      && (t != [] && IsAllowed(allowed, Some(t)) && t !in d ==> d' == d + [t])
  {
    var key := PickKey(allowed);
    var t := Canon(top[i].ticker);
    SelectStep(top, key, i);
    assert key(top[i]) == if t != [] && IsAllowed(allowed, Some(t)) then Some(t) else None;
  }

  lemma FreshPicksAppend(ts: seq<string>, t: string, tags: map<string, string>)
    ensures FreshPicks(ts + [t], tags) == FreshPicks(ts, tags) + [StockPick(t, TagOr(tags, t), 1.0)]
  {
  }

  /** Once six distinct keys are found in a prefix, they are the picks. */
  lemma ChosenOnceFull(top: seq<StockMetrics>, allowed: set<string>, i: int)
    requires 0 <= i <= |top| && |Distinct(Keys(top[..i], PickKey(allowed)))| == PickCount
    ensures Chosen(top, allowed) == Distinct(Keys(top[..i], PickKey(allowed)))
  {
    var key := PickKey(allowed);
    KeysPrefix(top, key, i);
    DistinctPrefix(Keys(top[..i], key), Keys(top, key));
  }

  /** With fewer than six distinct keys in the whole list, all are picked. */
  lemma ChosenAtEnd(top: seq<StockMetrics>, allowed: set<string>)
    requires |Distinct(Keys(top[..|top|], PickKey(allowed)))| < PickCount
    ensures Chosen(top, allowed) == Distinct(Keys(top[..|top|], PickKey(allowed)))
  {
    assert top[..|top|] == top;
  }

  /** The selection loop over the ranked list, with its `used` set and its
      early exit at six picks. */
  method SelectPicks(top: seq<StockMetrics>, allowed: set<string>, tags: map<string, string>)
    returns (picks: seq<StockPick>)
    ensures picks == FreshPicks(Chosen(top, allowed), tags)
  {
    ghost var key := PickKey(allowed);
    ghost var chosen: seq<string> := [];
    var used: set<string> := {};
    picks := [];
    var i := 0;
    while i < |top|
      invariant 0 <= i <= |top| && |chosen| < PickCount
      invariant chosen == Distinct(Keys(top[..i], key))
      invariant picks == FreshPicks(chosen, tags)
      invariant forall t :: t in used <==> t in chosen
    {
      var t := Canon(top[i].ticker);
      SelectCases(top, allowed, i);
      i := i + 1;
      if t == [] { continue; }
      if !IsAllowed(allowed, Some(t)) { continue; }
      if t in used { continue; }
      used := used + {t};
      FreshPicksAppend(chosen, t, tags);
      chosen := chosen + [t];
      picks := picks + [StockPick(t, TagOr(tags, t), 1.0)];
      if |picks| == PickCount {
        ChosenOnceFull(top, allowed, i);
        break;
      }
    }
    if |picks| < PickCount {
      ChosenAtEnd(top, allowed);
    }
  }

  // ---------------------------------------------------------------------
  // Weights

  /** The finalScore of the first ranked metric whose ticker equals the
      pick's ignoring case, 0 when there is none. */
  function ScoreOf(top: seq<StockMetrics>, ticker: string): real
  {
    if top == [] then 0.0
    else if EqualsIgnoreCase(top[0].ticker, ticker) then top[0].finalScore
    else ScoreOf(top[1..], ticker)
  }

  function Scores(top: seq<StockMetrics>): (r: seq<real>)
    ensures |r| == |top| && forall i :: 0 <= i < |top| ==> r[i] == top[i].finalScore
  {
    seq(|top|, i requires 0 <= i < |top| => top[i].finalScore)
  }

  /** `exp(s - max)` for each pick, `max` the top score (0 for an empty
      list). */
  function RawWeights(ts: seq<string>, top: seq<StockMetrics>, exp: real -> real): (r: seq<real>)
    ensures |r| == |ts|
  {
    seq(|ts|, k requires 0 <= k < |ts| => exp(ScoreOf(top, ts[k]) - MaxOr(Scores(top), 0.0)))
  }

  /** Each raw weight divided by their sum. */
  function Shares(raw: seq<real>): (r: seq<real>)
    ensures |r| == |raw|
  {
    seq(|raw|, k requires 0 <= k < |raw| => Div(raw[k], Sum(raw)))
  }

  /** The picks with the weights `ws`. */
  function WithWeights(picks: seq<StockPick>, ws: seq<real>): (r: seq<StockPick>)
    requires |ws| == |picks|
    ensures |r| == |picks|
  {
    seq(|picks|, k requires 0 <= k < |picks| => picks[k].(weight := ws[k]))
  }

  function TickersOf(picks: seq<StockPick>): (r: seq<string>)
    ensures |r| == |picks|
  {
    seq(|picks|, k requires 0 <= k < |picks| => picks[k].ticker)
  }

  /** The two weight loops: raw weights and their running sum, then each
      weight divided by the sum. */
  method WeighPicks(picks: seq<StockPick>, top: seq<StockMetrics>, exp: real -> real) returns (out: seq<StockPick>)
    ensures out == WithWeights(picks, Shares(RawWeights(TickersOf(picks), top, exp)))
  {
    ghost var raw := RawWeights(TickersOf(picks), top, exp);
    var max := MaxOr(Scores(top), 0.0);
    var sum := 0.0;
    out := picks;
    for i := 0 to |out|
      invariant |out| == |picks|
      invariant forall k :: 0 <= k < i ==> out[k] == picks[k].(weight := raw[k])
      invariant forall k :: i <= k < |out| ==> out[k] == picks[k]
      invariant sum == Sum(raw[..i])
    {
      var p := out[i];
      var s := ScoreOf(top, p.ticker);
      out := out[i := p.(weight := exp(s - max))];
      SumPrefix(raw, i);
      sum := sum + out[i].weight;
    }
    assert raw[..|raw|] == raw;
    for i := 0 to |out|
      invariant |out| == |picks|
      invariant forall k :: 0 <= k < i ==> out[k] == picks[k].(weight := Div(raw[k], sum))
      invariant forall k :: i <= k < |out| ==> out[k] == picks[k].(weight := raw[k])
    {
      out := out[i := out[i].(weight := Div(out[i].weight, sum))];
    }
    assert out == WithWeights(picks, Shares(raw));
  }

  /** Positive raw weights give shares that are positive, at most 1, and sum
      to 1. */
  lemma SharesSumToOne(raw: seq<real>)
    requires |raw| > 0 && forall k :: 0 <= k < |raw| ==> raw[k] > 0.0
    ensures forall k :: 0 <= k < |raw| ==> 0.0 < Shares(raw)[k] <= 1.0
    ensures Sum(Shares(raw)) == 1.0
  {
    var total := Sum(raw);
    EntryAtMostSum(raw, 0);
    assert total > 0.0;
    forall k | 0 <= k < |raw|
      ensures 0.0 < Shares(raw)[k] <= 1.0
    {
      EntryAtMostSum(raw, k);
      DivMonotone(raw[k], total, total);
      DivMonotone(0.0, raw[k], total);
      DivSelf(total);
    }
    SumScaled(raw, Shares(raw), total);
    DivSelf(total);
  }

  // ---------------------------------------------------------------------
  // recommend

  /** The list after normalisation, scoring and ranking. */
  function Ranked(all: seq<StockMetrics>, b: Blend): seq<StockMetrics>
  {
    SortDesc(Scored(NormalizedStability(NormalizedReturns(all)), b))
  }

  /** From the ranked list on: selection, the size check, the weights and
      the response. */
  function Response(top: seq<StockMetrics>, b: Blend, u: UniverseState, exp: real -> real): Result<AiStockPortfolioResponse>
    requires KnownBlend(b)
  {
    var picks := FreshPicks(Chosen(top, u.allowedTickers), TickerTags(u.sp500Tickers, u.sectorMap));
    if |picks| != PickCount then Failure(NotEnoughPicks)
    else
      var weighted := WithWeights(picks, Shares(RawWeights(TickersOf(picks), top, exp)));
      Success(AiStockPortfolioResponse(b.riskScore, b.tier, weighted, ExplanationOf(b)))
  }

  /** The part of `recommend` after the metrics are computed, from the
      metrics list, the universe, the answers and `exp`. */
  function Recommendation(all: seq<StockMetrics>, u: UniverseState, answers: Option<Risk.QuizAnswers>, exp: real -> real): Result<AiStockPortfolioResponse>
  {
    if answers.None? then Failure(NullPointer)
    else
      var b := BlendFor(answers.value.riskTolerance);
      BlendChoice(answers.value.riskTolerance);
      Response(Ranked(all, b), b, u, exp)
  }

  /** Selection and weighting over the ranked list. */
  method PickAndWeigh(top: seq<StockMetrics>, b: Blend, u: UniverseState, exp: real -> real)
    returns (r: Result<AiStockPortfolioResponse>)
    requires KnownBlend(b)
    ensures r == Response(top, b, u, exp)
  {
    var tags := GetTickerTags(u.sp500Tickers, u.sectorMap);
    var picks := SelectPicks(top, u.allowedTickers, tags);
    if |picks| != PickCount {
      r := Failure(NotEnoughPicks);
      return;
    }
    picks := WeighPicks(picks, top, exp);
    r := Success(AiStockPortfolioResponse(b.riskScore, b.tier, picks, ExplanationOf(b)));
  }

  /** `recommend`: metrics for every allowed ticker through the cache, both
      normalisation passes, then the blend, ranking, selection and weights.
      The answers are read only after the metrics pass, so a null answers
      object fails after the cache has been filled. */
  method Recommend(cache: StooqCache, u: UniverseState, answers: Option<Risk.QuizAnswers>,
                   fetch: string -> seq<real>, sqrt: real -> real, exp: real -> real)
    returns (r: Result<AiStockPortfolioResponse>, ghost order: seq<string>)
    modifies cache
    ensures forall i, j :: 0 <= i < j < |order| ==> order[i] != order[j]
    ensures forall t :: t in order <==> t in u.allowedTickers && !IsBlank(t)
    ensures r == Recommendation(MapList(Recorder(old(cache.closeCache), fetch, sqrt), order), u, answers, exp)
    ensures CacheExtends(old(cache.closeCache), cache.closeCache, fetch)
  {
    var all;
    all, order := ComputeAllMetrics(cache, u.allowedTickers, fetch, sqrt);
    var a := new StockMetrics[|all|](k requires 0 <= k < |all| => all[k]);
    assert a[..] == all;
    NormalizeReturns(a);
    NormalizeStability(a);
    if answers.None? {
      r := Failure(NullPointer);
      return;
    }
    var b := BlendFor(answers.value.riskTolerance);
    BlendChoice(answers.value.riskTolerance);
    ScoreAll(a, b);
    var top := SortDesc(a[..]);
    assert top == Ranked(all, b);
    r := PickAndWeigh(top, b, u, exp);
  }

  // ---------------------------------------------------------------------
  // Properties of `recommend`

  /** The distinct trimmed, upper-cased, non-empty, allowed tickers of a
      metrics list. */
  function QualifyingTickers(ms: seq<StockMetrics>, allowed: set<string>): set<string>
  {
    set k | 0 <= k < |ms| && PickKey(allowed)(ms[k]).Some? :: PickKey(allowed)(ms[k]).value
  }

  function WeightsOf(picks: seq<StockPick>): (r: seq<real>)
    ensures |r| == |picks|
  {
    seq(|picks|, k requires 0 <= k < |picks| => picks[k].weight)
  }

  /** A list without repeats has as many elements as its set. */
  lemma {:induction false} NoDuplicatesCard(s: seq<string>)
    requires NoDuplicates(s)
    ensures |set x | x in s| == |s|
  {
    if s != [] {
      var n := |s| - 1;
      NoDuplicatesCard(s[..n]);
      assert (set x | x in s) == (set x | x in s[..n]) + {s[n]} by {
        assert s == s[..n] + [s[n]];
      }
      assert s[n] !in s[..n];
    }
  }

  /** Two lists with the same multiset of elements have the same keys. */
  lemma {:induction false} KeysPermutation(a: seq<StockMetrics>, c: seq<StockMetrics>, key: StockMetrics -> Option<string>)
    requires multiset(a) == multiset(c)
    ensures forall x :: x in Keys(a, key) <==> x in Keys(c, key)
  {
    KeysMembers(a, key);
    KeysMembers(c, key);
    forall x | x in Keys(a, key)
      ensures x in Keys(c, key)
    {
      var k :| 0 <= k < |a| && key(a[k]) == Some(x);
      assert a[k] in multiset(c);
      var j :| 0 <= j < |c| && c[j] == a[k];
    }
    forall x | x in Keys(c, key)
      ensures x in Keys(a, key)
    {
      var k :| 0 <= k < |c| && key(c[k]) == Some(x);
      assert c[k] in multiset(a);
      var j :| 0 <= j < |a| && a[j] == c[k];
    }
  }

  /** Before ranking, the list holds the input's tickers in the input's
      order, so its selection keys are those of the input. */
  lemma ScoredTickers(all: seq<StockMetrics>, allowed: set<string>, b: Blend)
    ensures var sc := Scored(NormalizedStability(NormalizedReturns(all)), b);
      |sc| == |all| && forall j :: 0 <= j < |all| ==> PickKey(allowed)(sc[j]) == PickKey(allowed)(all[j])
  {
    var n1 := NormalizedReturns(all);
    NormalizedReturnsFrame(all);
    NormalizedStabilityFrame(n1);
  }

  /** Lists whose elements have the same keys position by position have the
      same key list. */
  lemma {:induction false} KeysPointwise(a: seq<StockMetrics>, c: seq<StockMetrics>, key: StockMetrics -> Option<string>)
    requires |a| == |c| && forall j :: 0 <= j < |a| ==> key(a[j]) == key(c[j])
    ensures Keys(a, key) == Keys(c, key)
  {
    if a != [] {
      var n := |a| - 1;
      KeysPointwise(a[..n], c[..n], key);
    }
  }

  /** The qualifying tickers are the keys of the list. */
  lemma QualifyingAreKeys(all: seq<StockMetrics>, allowed: set<string>)
    ensures forall x :: x in Keys(all, PickKey(allowed)) <==> x in QualifyingTickers(all, allowed)
  {
    KeysMembers(all, PickKey(allowed));
  }

  /** Normalising, scoring and ranking keep the tickers, so the ranked keys
      are exactly the qualifying tickers of the input. */
  lemma RankedKeys(all: seq<StockMetrics>, allowed: set<string>, b: Blend)
    ensures forall x :: x in Keys(Ranked(all, b), PickKey(allowed)) <==> x in QualifyingTickers(all, allowed)
  {
    var key := PickKey(allowed);
    var sc := Scored(NormalizedStability(NormalizedReturns(all)), b);
    SortDescCorrect(sc);
    KeysPermutation(Ranked(all, b), sc, key);
    ScoredTickers(all, allowed, b);
    KeysPointwise(sc, all, key);
    QualifyingAreKeys(all, allowed);
  }

  /** The distinct ranked keys number as many as the qualifying tickers. */
  lemma DistinctRankedCount(all: seq<StockMetrics>, allowed: set<string>, b: Blend)
    ensures |Distinct(Keys(Ranked(all, b), PickKey(allowed)))| == |QualifyingTickers(all, allowed)|
  {
    var d := Distinct(Keys(Ranked(all, b), PickKey(allowed)));
    RankedKeys(all, allowed, b);
    NoDuplicatesCard(d);
    assert (set x | x in d) == QualifyingTickers(all, allowed);
  }

  /** Over any ranked list: the response exists exactly when six distinct
      keys do, and fails otherwise with the not-enough-picks error. */
  lemma ResponseOutcome(top: seq<StockMetrics>, b: Blend, u: UniverseState, exp: real -> real)
    requires KnownBlend(b)
    ensures Response(top, b, u, exp).Success? <==> |Distinct(Keys(top, PickKey(u.allowedTickers)))| >= PickCount
    ensures Response(top, b, u, exp).Failure? ==> Response(top, b, u, exp).error == NotEnoughPicks
  {
  }

  /** A null answers object fails; otherwise `recommend` fails exactly when
      fewer than six distinct tickers qualify, and then with the
      not-enough-picks error. */
  lemma RecommendationOutcome(all: seq<StockMetrics>, u: UniverseState, answers: Option<Risk.QuizAnswers>, exp: real -> real)
    ensures answers.None? ==> Recommendation(all, u, answers, exp) == Failure(NullPointer)
    ensures answers.Some? ==>
      (Recommendation(all, u, answers, exp).Success? <==> |QualifyingTickers(all, u.allowedTickers)| >= PickCount)
    ensures answers.Some? && Recommendation(all, u, answers, exp).Failure? ==>
      Recommendation(all, u, answers, exp).error == NotEnoughPicks
  {
    if answers.Some? {
      var b := BlendFor(answers.value.riskTolerance);
      BlendChoice(answers.value.riskTolerance);
      DistinctRankedCount(all, u.allowedTickers, b);
      ResponseOutcome(Ranked(all, b), b, u, exp);
    }
  }

  /** A selection key is a trimmed, upper-cased, non-empty, allowed
      ticker. */
  lemma PickKeyCanonical(allowed: set<string>, m: StockMetrics)
    ensures PickKey(allowed)(m).Some? ==>
      Canonical(PickKey(allowed)(m).value) && PickKey(allowed)(m).value in allowed
  {
    CanonIdempotent(m.ticker);
  }

  /** The chosen tickers are distinct keys of the list, each canonical and
      allowed. */
  lemma ChosenProperties(top: seq<StockMetrics>, allowed: set<string>)
    ensures NoDuplicates(Chosen(top, allowed))
    ensures forall t :: t in Chosen(top, allowed) ==>
      t in Keys(top, PickKey(allowed)) && Canonical(t) && t in allowed
  {
    var key := PickKey(allowed);
    var d := Distinct(Keys(top, key));
    KeysMembers(top, key);
    forall t | t in Chosen(top, allowed)
      ensures t in Keys(top, key) && Canonical(t) && t in allowed
    {
      assert t in d;
      var k :| 0 <= k < |top| && key(top[k]) == Some(t);
      PickKeyCanonical(allowed, top[k]);
    }
  }

  /** A response's picks are the chosen tickers, with their tags. */
  lemma ResponseShape(top: seq<StockMetrics>, b: Blend, u: UniverseState, exp: real -> real)
    requires KnownBlend(b) && Response(top, b, u, exp).Success?
    ensures var resp := Response(top, b, u, exp).value;
      && resp.riskScore == b.riskScore && resp.riskTier == b.tier
      && TickersOf(resp.picks) == Chosen(top, u.allowedTickers)
      && |resp.picks| == PickCount
      && Chosen(top, u.allowedTickers) == Distinct(Keys(top, PickKey(u.allowedTickers)))[..PickCount]
      && (forall i :: 0 <= i < |resp.picks| ==>
            resp.picks[i].tag == TagOr(TickerTags(u.sp500Tickers, u.sectorMap), resp.picks[i].ticker))
  {
    var resp := Response(top, b, u, exp).value;
    assert TickersOf(resp.picks) == Chosen(top, u.allowedTickers);
  }

  /** Over any ranked list, a response carries the blend's score and tier and
      six picks with distinct tickers, each a key of the list, trimmed,
      upper-cased, non-empty and allowed, and tagged with its universe tag
      or "sp500". */
  lemma ResponsePicks(top: seq<StockMetrics>, b: Blend, u: UniverseState, exp: real -> real)
    requires KnownBlend(b) && Response(top, b, u, exp).Success?
    ensures var resp := Response(top, b, u, exp).value;
      && resp.riskScore == b.riskScore && resp.riskTier == b.tier
      && |resp.picks| == PickCount
      && (forall i, j :: 0 <= i < j < |resp.picks| ==> resp.picks[i].ticker != resp.picks[j].ticker)
      && (forall i :: 0 <= i < |resp.picks| ==>
            (Canonical(resp.picks[i].ticker) && resp.picks[i].ticker in u.allowedTickers
             && resp.picks[i].ticker in Keys(top, PickKey(u.allowedTickers))))
      && (forall i :: 0 <= i < |resp.picks| ==>
            resp.picks[i].tag == TagOr(TickerTags(u.sp500Tickers, u.sectorMap), resp.picks[i].ticker))
  {
    var picks := Response(top, b, u, exp).value.picks;
    ResponseShape(top, b, u, exp);
    ChosenProperties(top, u.allowedTickers);
    assert forall i :: 0 <= i < |picks| ==> picks[i].ticker == TickersOf(picks)[i];
  }

  /** Every successful response carries the tier's score and name and six
      picks with distinct tickers, each trimmed, upper-cased, non-empty,
      allowed, taken from the metrics list, and tagged with its universe
      tag or "sp500". */
  lemma RecommendationPicks(all: seq<StockMetrics>, u: UniverseState, answers: Option<Risk.QuizAnswers>, exp: real -> real)
    requires Recommendation(all, u, answers, exp).Success?
    ensures answers.Some?
    ensures var resp := Recommendation(all, u, answers, exp).value;
      var b := BlendFor(answers.value.riskTolerance);
      && resp.riskScore == b.riskScore && resp.riskTier == b.tier
      && |resp.picks| == PickCount
      && (forall i, j :: 0 <= i < j < |resp.picks| ==> resp.picks[i].ticker != resp.picks[j].ticker)
      && (forall i :: 0 <= i < |resp.picks| ==>
            (Canonical(resp.picks[i].ticker) && resp.picks[i].ticker in u.allowedTickers
             && resp.picks[i].ticker in QualifyingTickers(all, u.allowedTickers)))
      && (forall i :: 0 <= i < |resp.picks| ==>
            resp.picks[i].tag == TagOr(TickerTags(u.sp500Tickers, u.sectorMap), resp.picks[i].ticker))
  {
    var b := BlendFor(answers.value.riskTolerance);
    BlendChoice(answers.value.riskTolerance);
    ResponsePicks(Ranked(all, b), b, u, exp);
    RankedKeys(all, u.allowedTickers, b);
  }

  /** With `exp` positive, the six weights of a response are positive, at
      most 1, and sum to 1. */
  lemma ResponseWeights(top: seq<StockMetrics>, b: Blend, u: UniverseState, exp: real -> real)
    requires KnownBlend(b) && Response(top, b, u, exp).Success?
    requires forall x :: exp(x) > 0.0
    ensures var ws := WeightsOf(Response(top, b, u, exp).value.picks);
      && (forall k :: 0 <= k < |ws| ==> 0.0 < ws[k] <= 1.0)
      && Sum(ws) == 1.0
  {
    var picks := FreshPicks(Chosen(top, u.allowedTickers), TickerTags(u.sp500Tickers, u.sectorMap));
    var raw := RawWeights(TickersOf(picks), top, exp);
    SharesSumToOne(raw);
    assert WeightsOf(Response(top, b, u, exp).value.picks) == Shares(raw);
  }

  lemma RecommendationWeights(all: seq<StockMetrics>, u: UniverseState, answers: Option<Risk.QuizAnswers>, exp: real -> real)
    requires Recommendation(all, u, answers, exp).Success?
    requires forall x :: exp(x) > 0.0
    ensures var ws := WeightsOf(Recommendation(all, u, answers, exp).value.picks);
      && (forall k :: 0 <= k < |ws| ==> 0.0 < ws[k] <= 1.0)
      && Sum(ws) == 1.0
  {
    var b := BlendFor(answers.value.riskTolerance);
    BlendChoice(answers.value.riskTolerance);
    ResponseWeights(Ranked(all, b), b, u, exp);
  }

  /** `ts` are keys of `keys`, in the order they first appear there, and
      every other key first appears after all of them. */
  predicate LeadingKeys(ts: seq<string>, keys: seq<string>)
  {
    && (forall i :: 0 <= i < |ts| ==> ts[i] in keys)
    && (forall i, j :: 0 <= i < j < |ts| ==> FirstIndex(keys, ts[i]) < FirstIndex(keys, ts[j]))
    && (forall i, t :: 0 <= i < |ts| && t in keys && t !in ts ==> FirstIndex(keys, ts[i]) < FirstIndex(keys, t))
  }

  /** The first `n` distinct elements come first: in order, and before
      every other element of the list. */
  lemma DistinctPrefixOrder(keys: seq<string>, ts: seq<string>)
    requires |ts| <= |Distinct(keys)| && ts == Distinct(keys)[..|ts|]
    ensures LeadingKeys(ts, keys)
  {
    var d := Distinct(keys);
    DistinctOrder(keys);
    forall i, t | 0 <= i < |ts| && t in keys && t !in ts
      ensures FirstIndex(keys, ts[i]) < FirstIndex(keys, t)
    {
      var p :| 0 <= p < |d| && d[p] == t;
    }
  }

  /** The picks are the first keys of the ranked list: they appear there in
      pick order, and every key left out first appears after all of them. */
  lemma ResponseOrder(top: seq<StockMetrics>, b: Blend, u: UniverseState, exp: real -> real)
    requires KnownBlend(b) && Response(top, b, u, exp).Success?
    ensures var picks := Response(top, b, u, exp).value.picks;
      var keys := Keys(top, PickKey(u.allowedTickers));
      LeadingKeys(TickersOf(picks), keys)
  {
    var picks := Response(top, b, u, exp).value.picks;
    ResponseShape(top, b, u, exp);
    DistinctPrefixOrder(Keys(top, PickKey(u.allowedTickers)), TickersOf(picks));
  }

  /** The picks of `recommend` are the first qualifying tickers in the
      ranking by descending blended score. */
  lemma RecommendationOrder(all: seq<StockMetrics>, u: UniverseState, answers: Option<Risk.QuizAnswers>, exp: real -> real)
    requires Recommendation(all, u, answers, exp).Success?
    ensures answers.Some?
    ensures var picks := Recommendation(all, u, answers, exp).value.picks;
      var keys := Keys(Ranked(all, BlendFor(answers.value.riskTolerance)), PickKey(u.allowedTickers));
      LeadingKeys(TickersOf(picks), keys)
  {
    var b := BlendFor(answers.value.riskTolerance);
    BlendChoice(answers.value.riskTolerance);
    ResponseOrder(Ranked(all, b), b, u, exp);
  }

  /** A pick's tag is "sp500" or the name of a custom sector listing it. */
  lemma TagOrRule(sp500: set<string>, m: SectorMap, t: string)
    ensures var tag := TagOr(TickerTags(sp500, m), t);
      tag == "sp500" || exists i :: 0 <= i < |m| && InList(m[i].tickers, t, TagKeys()) && tag == m[i].name
    ensures InSector(m, t, TagKeys()) ==>
      exists i :: 0 <= i < |m| && InList(m[i].tickers, t, TagKeys()) && TagOr(TickerTags(sp500, m), t) == m[i].name
  {
    TickerTagsRule(sp500, m, t);
  }
}
