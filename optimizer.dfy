/** OptimizerService: the tier templates, and the two projected-gradient
    solvers that update a weight array in place.  Positions 0 and 1 hold the
    equity assets and position 2 the bond asset. */
module Optimizer {
  import opened Common
  import opened RealSeq
  import opened WeightMaps
  import opened Risk
  import opened JavaStrings

  const MvoIterations: nat := 4000
  const RiskParityIterations: nat := 5000
  const LearningRate: real := 0.01

  // ---------------------------------------------------------------------
  // Templates

  /** `templatesForTier`: a fixed table; every string other than
      "conservative" and "balanced" gets the aggressive row. */
  function TemplatesForTier(tier: string): WeightMap
  {
    if tier == Conservative then [Entry("VOO", 0.35), Entry("VXUS", 0.15), Entry("BND", 0.45)]
    else if tier == Balanced then [Entry("VOO", 0.50), Entry("VXUS", 0.15), Entry("BND", 0.35)]
    else [Entry("VOO", 0.70), Entry("VXUS", 0.20), Entry("BND", 0.10)]
  }

  /** Each template maps VOO, VXUS and BND, in that order; the balanced
      and aggressive rows sum to 1, the conservative row only to 0.95. */
  lemma {:induction false} TemplateTotals(tier: string)
    ensures |TemplatesForTier(tier)| == 3
    ensures TemplatesForTier(tier)[0].asset == "VOO" && TemplatesForTier(tier)[1].asset == "VXUS"
            && TemplatesForTier(tier)[2].asset == "BND"
    ensures Sum(Weights(TemplatesForTier(tier))) == if tier == Conservative then 0.95 else 1.0
  {
    var t := TemplatesForTier(tier);
    assert Weights(t) == [t[0].weight, t[1].weight, t[2].weight];
    Sum3(t[0].weight, t[1].weight, t[2].weight);
  }

  /** The template of every tier the profiler can produce lies inside that
      tier's own guardrails (equity = VOO + VXUS, bond = BND). */
  lemma {:induction false} TemplateWithinGuardrails(score: int)
    ensures var t := TemplatesForTier(TierFor(score));
      var c := ConstraintsFor(score);
      var eq := t[0].weight + t[1].weight;
      var bond := t[2].weight;
      && ("eq_min" in c ==> eq >= c["eq_min"]) && ("eq_max" in c ==> eq <= c["eq_max"])
      && ("bond_min" in c ==> bond >= c["bond_min"]) && ("bond_max" in c ==> bond <= c["bond_max"])
  {
    if score <= 2 {
      assert TierFor(score) == Conservative;
    } else if score <= 5 {
      assert TierFor(score) == Balanced;
    } else {
      assert TierFor(score) == Aggressive;
    }
  }

  /** What `explanation` reports: the tier in upper case, the constraints,
      and the equity (VOO + VXUS) and bond (BND) weights it formats as
      percentages.  A missing weight is unboxed from null. */
  datatype Explanation = Explanation(tier: string, constraints: Constraints, equity: real, bond: real)

  function ExplanationOf(tier: string, constraints: Constraints, weights: WeightMap): Result<Explanation>
  {
    match (Lookup(weights, "VOO"), Lookup(weights, "VXUS"), Lookup(weights, "BND"))
    case (Some(voo), Some(vxus), Some(bnd)) => Success(Explanation(ToUpper(tier), constraints, voo + vxus, bnd))
    case _ => Failure(NullPointer)
  }

  /** The three assets every solver and template in the system uses. */
  predicate CoreAssets(m: WeightMap)
  {
    |m| == 3 && m[0].asset == "VOO" && m[1].asset == "VXUS" && m[2].asset == "BND"
  }

  /** On a map holding exactly VOO, VXUS and BND the explanation never
      fails, and its equity and bond shares add up to the map's total
      weight; a map that lacks one of them is a null unboxing. */
  lemma {:induction false} ExplanationShares(tier: string, c: Constraints, m: WeightMap)
    ensures CoreAssets(m) ==> (ExplanationOf(tier, c, m).Success?
      && ExplanationOf(tier, c, m).value.equity + ExplanationOf(tier, c, m).value.bond == Sum(Weights(m))
      && ExplanationOf(tier, c, m).value.equity == m[0].weight + m[1].weight
      && ExplanationOf(tier, c, m).value.tier == ToUpper(tier))
    ensures (Lookup(m, "VOO").None? || Lookup(m, "VXUS").None? || Lookup(m, "BND").None?)
      ==> ExplanationOf(tier, c, m) == Failure(NullPointer)
  {
    if CoreAssets(m) {
      IndexOfAt(m, "VOO", 0);
      IndexOfAt(m, "VXUS", 1);
      IndexOfAt(m, "BND", 2);
      assert Weights(m) == [m[0].weight, m[1].weight, m[2].weight];
      Sum3(m[0].weight, m[1].weight, m[2].weight);
    }
  }

  /** Every template holds exactly the three core assets, so its
      explanation reports equity + bond equal to its total: 0.95 for the
      conservative row. */
  lemma TemplateExplanation(tier: string, c: Constraints)
    ensures CoreAssets(TemplatesForTier(tier))
    ensures ExplanationOf(tier, c, TemplatesForTier(tier)).Success?
    ensures var e := ExplanationOf(tier, c, TemplatesForTier(tier)).value;
      e.equity + e.bond == if tier == Conservative then 0.95 else 1.0
  {
    TemplateTotals(tier);
    ExplanationShares(tier, c, TemplatesForTier(tier));
  }

  // ---------------------------------------------------------------------
  // One iteration, as functions on weight sequences

  /** `Math.max(0, Math.min(1, x))`. */
  function Clip(x: real): (r: real)
    ensures 0.0 <= r <= 1.0
    ensures 0.0 <= x <= 1.0 ==> r == x
    ensures x > 0.0 ==> r > 0.0
  {
    MaxReal(0.0, MinReal(1.0, x))
  }

  function ClipAll(w: seq<real>): (r: seq<real>)
    ensures |r| == |w|
  {
    seq(|w|, i requires 0 <= i < |w| => Clip(w[i]))
  }

  /** `normalize`: divide by the sum unless the sum is 0. */
  function Normalized(w: seq<real>): (r: seq<real>)
    ensures |r| == |w|
  {
    var s := Sum(w);
    if s == 0.0 then w else seq(|w|, i requires 0 <= i < |w| => w[i] / s)
  }

  /** The raw step `w[i] -= lr * grad[i]`, before clipping. */
  function Descend(w: seq<real>, grad: seq<real>): (r: seq<real>)
    requires |grad| == |w|
    ensures |r| == |w|
  {
    seq(|w|, i requires 0 <= i < |w| => w[i] - LearningRate * grad[i])
  }

  /** `(cov . w)_i = sum_j cov[i][j] * w[j]`. */
  predicate CovShape(n: int, cov: seq<seq<real>>)
  {
    |cov| >= n && forall i :: 0 <= i < n ==> |cov[i]| >= n
  }

  function MatVec(cov: seq<seq<real>>, w: seq<real>): (r: seq<real>)
    requires CovShape(|w|, cov)
    ensures |r| == |w|
  {
    seq(|w|, i requires 0 <= i < |w| => Dot(cov[i][..|w|], w))
  }

  /** Gradient of `w.cov.w - mu.w`: `2 (cov . w)_i - mu_i`. */
  function MvoGradient(mu: seq<real>, cov: seq<seq<real>>, w: seq<real>): (g: seq<real>)
    requires |mu| >= |w| && CovShape(|w|, cov)
    ensures |g| == |w|
  {
    var m := MatVec(cov, w);
    seq(|w|, i requires 0 <= i < |w| => 2.0 * m[i] - mu[i])
  }

  /** One risk contribution `w_i m_i / root`. */
  function Contribution(wi: real, mi: real, root: real): real
  {
    Div(wi * mi, root)
  }

  /** `rc_i = w_i m_i / root` for marginal risks `m`. */
  function ContributionsFrom(w: seq<real>, m: seq<real>, root: real): (rc: seq<real>)
    requires |m| == |w|
    ensures |rc| == |w|
  {
    seq(|w|, i requires 0 <= i < |w| => Contribution(w[i], m[i], root))
  }

  /** `riskContributions`: marginal risks `m = cov . w` and the root
      `sqrt(w . m)` of the portfolio variance, with `sqrt` abstract. */
  function RiskContributions(cov: seq<seq<real>>, w: seq<real>, sqrt: real -> real): (rc: seq<real>)
    requires CovShape(|w|, cov)
    ensures |rc| == |w|
  {
    var m := MatVec(cov, w);
    ContributionsFrom(w, m, sqrt(Dot(w, m)))
  }

  /** Each entry's deviation from the mean, `rc_i - mean(rc)`. */
  function Deviations(rc: seq<real>): (g: seq<real>)
    ensures |g| == |rc|
  {
    var target := Average(rc);
    seq(|rc|, i requires 0 <= i < |rc| => rc[i] - target)
  }

  /** The proxy gradient of risk parity. */
  function RiskParityGradient(cov: seq<seq<real>>, w: seq<real>, sqrt: real -> real): (g: seq<real>)
    requires CovShape(|w|, cov)
    ensures |g| == |w|
  {
    Deviations(RiskContributions(cov, w, sqrt))
  }

  /** Move `d` from the bond slot into the two equity slots, half each
      (a negative `d` moves mass the other way). */
  function Shift(w: seq<real>, d: real): (r: seq<real>)
    requires |w| >= 3
    ensures |r| == |w|
  {
    w[0 := w[0] + d / 2.0][1 := w[1] + d / 2.0][2 := w[2] - d]
  }

  predicate EqMinFires(c: Constraints, eq: real) { "eq_min" in c && eq < c["eq_min"] }
  predicate EqMaxFires(c: Constraints, eq: real) { "eq_max" in c && eq > c["eq_max"] }
  predicate BondMinFires(c: Constraints, bond: real) { "bond_min" in c && bond < c["bond_min"] }
  predicate BondMaxFires(c: Constraints, bond: real) { "bond_max" in c && bond > c["bond_max"] }

  /** The amount each correction moves (its deficit or excess), 0 when it
      does not fire. */
  function EqMinAmount(c: Constraints, eq: real): real { if EqMinFires(c, eq) then c["eq_min"] - eq else 0.0 }
  function EqMaxAmount(c: Constraints, eq: real): real { if EqMaxFires(c, eq) then eq - c["eq_max"] else 0.0 }
  function BondMinAmount(c: Constraints, bond: real): real { if BondMinFires(c, bond) then c["bond_min"] - bond else 0.0 }
  function BondMaxAmount(c: Constraints, bond: real): real { if BondMaxFires(c, bond) then bond - c["bond_max"] else 0.0 }

  /** One guarded correction. */
  function Correct(w: seq<real>, fires: bool, d: real): (r: seq<real>)
    requires |w| >= 3
    ensures |r| == |w|
  {
    if fires then Shift(w, d) else w
  }

  /** The four corrections, in source order: raise equities to `eq_min`,
      cut them to `eq_max`, raise the bond to `bond_min`, cut it to
      `bond_max`.  All four compare the equity and bond weights read once
      before the first correction. */
  function Redistribute(w: seq<real>, c: Constraints): (r: seq<real>)
    requires |w| >= 3
    ensures |r| == |w|
  {
    var eq := w[0] + w[1];
    var bond := w[2];
    var w1 := Correct(w, EqMinFires(c, eq), EqMinAmount(c, eq));
    var w2 := Correct(w1, EqMaxFires(c, eq), -EqMaxAmount(c, eq));
    var w3 := Correct(w2, BondMinFires(c, bond), -BondMinAmount(c, bond));
    Correct(w3, BondMaxFires(c, bond), BondMaxAmount(c, bond))
  }

  /** The net mass the corrections move from bond to equities; independent
      of the order in which they are applied. */
  function NetEquityInflow(c: Constraints, eq: real, bond: real): real
  {
    EqMinAmount(c, eq) - EqMaxAmount(c, eq) - BondMinAmount(c, bond) + BondMaxAmount(c, bond)
  }

  /** Clip to [0,1], then renormalise. */
  function Project(w: seq<real>): (r: seq<real>)
    ensures |r| == |w|
  {
    Normalized(ClipAll(w))
  }

  /** One solver iteration after its gradient: step, clip, normalise,
      redistribute, clip, normalise. */
  function Iteration(w: seq<real>, grad: seq<real>, c: Constraints): (r: seq<real>)
    requires |w| >= 3 && |grad| == |w|
    ensures |r| == |w|
  {
    Project(Redistribute(Project(Descend(w, grad)), c))
  }

  predicate MvoShape(n: int, mu: seq<real>, cov: seq<seq<real>>)
  {
    n >= 3 && |mu| >= n && CovShape(n, cov)
  }

  predicate RiskParityShape(n: int, cov: seq<seq<real>>)
  {
    n >= 3 && CovShape(n, cov)
  }

  /** `Arrays.fill(w, 1.0 / n)`. */
  function Uniform(n: nat): (w: seq<real>)
    ensures |w| == n
  {
    seq(n, i requires 0 <= i < n => 1.0 / (n as real))
  }

  /** The MVO weights after `k` iterations from `w0`. */
  function MvoIterate(mu: seq<real>, cov: seq<seq<real>>, c: Constraints, w0: seq<real>, k: nat): (w: seq<real>)
    requires MvoShape(|w0|, mu, cov)
    ensures |w| == |w0|
  {
    if k == 0 then w0
    else
      var w := MvoIterate(mu, cov, c, w0, k - 1);
      Iteration(w, MvoGradient(mu, cov, w), c)
  }

  /** The risk-parity weights after `k` iterations from `w0`. */
  function RiskParityIterate(cov: seq<seq<real>>, c: Constraints, sqrt: real -> real, w0: seq<real>, k: nat): (w: seq<real>)
    requires RiskParityShape(|w0|, cov)
    ensures |w| == |w0|
  {
    if k == 0 then w0
    else
      var w := RiskParityIterate(cov, c, sqrt, w0, k - 1);
      Iteration(w, RiskParityGradient(cov, w, sqrt), c)
  }

  /** What `mvoOptimize` returns; an index out of bounds when fewer than
      three assets are given or `mu`/`cov` are too short. */
  function MvoSolution(assets: seq<string>, mu: seq<real>, cov: seq<seq<real>>, c: Constraints): Result<WeightMap>
  {
    if !MvoShape(|assets|, mu, cov) then Failure(IndexOutOfBounds)
    else
      var w := MvoIterate(mu, cov, c, Uniform(|assets|), MvoIterations);
      Success(BuildMap(assets, w))
  }

  /** What `riskParityOptimize` returns. */
  function RiskParitySolution(assets: seq<string>, cov: seq<seq<real>>, c: Constraints, sqrt: real -> real): Result<WeightMap>
  {
    if !RiskParityShape(|assets|, cov) then Failure(IndexOutOfBounds)
    else
      var w := RiskParityIterate(cov, c, sqrt, Uniform(|assets|), RiskParityIterations);
      Success(BuildMap(assets, w))
  }

  // ---------------------------------------------------------------------
  // Properties of one iteration

  predicate InUnitInterval(w: seq<real>) { forall i :: 0 <= i < |w| ==> 0.0 <= w[i] <= 1.0 }

  /** `normalize` leaves a zero-sum vector alone; otherwise the result sums
      to 1 and each entry keeps its share of the old sum. */
  lemma NormalizedProperties(w: seq<real>)
    ensures Sum(w) == 0.0 ==> Normalized(w) == w
    ensures Sum(w) != 0.0 ==> Sum(Normalized(w)) == 1.0
    ensures Sum(w) != 0.0 ==> forall i :: 0 <= i < |w| ==> ShareOf(Normalized(w)[i], w[i], Sum(w))
  {
    if Sum(w) != 0.0 {
      NormalizedShares(w, Normalized(w), Sum(w));
    }
  }

  /** `x` is the share of `a` in the total `s`. */
  predicate ShareOf(x: real, a: real, s: real) { x * s == a }

  /** Dividing every entry by the non-zero sum `s`. */
  lemma NormalizedShares(w: seq<real>, r: seq<real>, s: real)
    requires s == Sum(w) && s != 0.0
    requires |r| == |w| && forall k :: 0 <= k < |w| ==> r[k] == w[k] / s
    ensures Sum(r) == 1.0
    ensures forall i :: 0 <= i < |w| ==> ShareOf(r[i], w[i], s)
  {
    SumScaled(w, r, s);
    QuotientSelf(s);
    forall i | 0 <= i < |w| ensures ShareOf(r[i], w[i], s) {
      QuotientTimes(w[i], s);
    }
  }

  lemma QuotientSelf(s: real)
    requires s != 0.0
    ensures s / s == 1.0
  {
  }

  lemma QuotientTimes(a: real, s: real)
    requires s != 0.0
    ensures (a / s) * s == a
  {
  }

  /** A non-negative vector normalises into [0,1]; to weights summing to 1
      when its sum is positive, and stays all-zero otherwise. */
  lemma {:induction false} NormalizedUnit(x: seq<real>)
    requires AllNonNegative(x)
    ensures InUnitInterval(Normalized(x))
    ensures Sum(x) > 0.0 ==> Sum(Normalized(x)) == 1.0
    ensures Sum(x) <= 0.0 ==> forall i :: 0 <= i < |x| ==> Normalized(x)[i] == 0.0
  {
    SumNonNegative(x);
    var s := Sum(x);
    if s > 0.0 {
      NormalizedProperties(x);
      forall i | 0 <= i < |x| ensures 0.0 <= Normalized(x)[i] <= 1.0 {
        EntryAtMostSum(x, i);
        FractionInUnit(x[i], s);
      }
    } else {
      forall i | 0 <= i < |x| ensures Normalized(x)[i] == 0.0 {
        SumZeroAllZero(x, i);
      }
    }
  }

  lemma FractionInUnit(a: real, s: real)
    requires 0.0 <= a <= s && s > 0.0
    ensures 0.0 <= a / s <= 1.0
  {
  }

  /** Clip-then-normalise yields weights in [0,1]; they sum to 1 exactly
      when some clipped weight is positive, and are all 0 otherwise. */
  lemma {:induction false} ProjectBounds(w: seq<real>)
    ensures InUnitInterval(Project(w))
    ensures Sum(ClipAll(w)) > 0.0 ==> Sum(Project(w)) == 1.0
    ensures Sum(ClipAll(w)) <= 0.0 ==> forall i :: 0 <= i < |w| ==> Project(w)[i] == 0.0
  {
    assert AllNonNegative(ClipAll(w));
    NormalizedUnit(ClipAll(w));
  }

  /** A sequence with positive sum has a positive entry. */
  lemma {:induction false} PositiveEntry(s: seq<real>) returns (k: int)
    requires Sum(s) > 0.0
    ensures 0 <= k < |s| && s[k] > 0.0
  {
    var n := |s| - 1;
    if s[n] > 0.0 { k := n; }
    else { k := PositiveEntry(s[..n]); }
  }

  /** Clipping a vector with positive sum keeps a positive sum. */
  lemma {:induction false} ClipKeepsPositiveSum(w: seq<real>)
    requires Sum(w) > 0.0
    ensures Sum(ClipAll(w)) > 0.0
  {
    var k := PositiveEntry(w);
    assert AllNonNegative(ClipAll(w));
    EntryAtMostSum(ClipAll(w), k);
  }

  lemma ShiftZero(w: seq<real>)
    requires |w| >= 3
    ensures Shift(w, 0.0) == w
  {
    assert forall i :: 0 <= i < |w| ==> Shift(w, 0.0)[i] == w[i];
  }

  lemma ShiftShift(w: seq<real>, a: real, b: real)
    requires |w| >= 3
    ensures Shift(Shift(w, a), b) == Shift(w, a + b)
  {
    assert forall i :: 0 <= i < |w| ==> Shift(Shift(w, a), b)[i] == Shift(w, a + b)[i];
  }

  lemma Sum3(a: real, b: real, c: real)
    ensures Sum([a, b, c]) == a + b + c
  {
    assert [a][..0] == [];
    assert Sum([a]) == a;
    assert [a, b][..1] == [a];
    assert Sum([a, b]) == a + b;
    assert [a, b, c][..2] == [a, b];
  }

  /** A shift keeps the total weight. */
  lemma {:induction false} ShiftSum(w: seq<real>, d: real)
    requires |w| >= 3
    ensures Sum(Shift(w, d)) == Sum(w)
  {
    if |w| == 3 {
      assert w == [w[0], w[1], w[2]];
      assert Shift(w, d) == [w[0] + d / 2.0, w[1] + d / 2.0, w[2] - d];
      Sum3(w[0], w[1], w[2]);
      Sum3(w[0] + d / 2.0, w[1] + d / 2.0, w[2] - d);
    } else {
      var n := |w| - 1;
      assert Shift(w, d)[..n] == Shift(w[..n], d);
      ShiftSum(w[..n], d);
    }
  }

  /** A correction that fires shifts by its amount; one that does not fire
      has amount 0 and changes nothing. */
  lemma CorrectIsShift(w: seq<real>, fires: bool, d: real)
    requires |w| >= 3 && (!fires ==> d == 0.0)
    ensures Correct(w, fires, d) == Shift(w, d)
  {
    ShiftZero(w);
  }

  /** The corrections move mass only between the equity slots and the bond
      slot: equities each gain half of the net inflow, the bond slot loses
      all of it, and every other slot is untouched. */
  lemma {:induction false} RedistributeIsShift(w: seq<real>, c: Constraints)
    requires |w| >= 3
    ensures Redistribute(w, c) == Shift(w, NetEquityInflow(c, w[0] + w[1], w[2]))
  {
    var eq, bond := w[0] + w[1], w[2];
    CorrectionsChain(w, EqMinFires(c, eq), EqMinAmount(c, eq), EqMaxFires(c, eq), -EqMaxAmount(c, eq),
      BondMinFires(c, bond), -BondMinAmount(c, bond), BondMaxFires(c, bond), BondMaxAmount(c, bond));
  }

  /** Four guarded corrections in a row shift by the sum of their amounts. */
  lemma CorrectionsChain(w: seq<real>, f1: bool, a1: real, f2: bool, a2: real, f3: bool, a3: real, f4: bool, a4: real)
    requires |w| >= 3
    requires (!f1 ==> a1 == 0.0) && (!f2 ==> a2 == 0.0) && (!f3 ==> a3 == 0.0) && (!f4 ==> a4 == 0.0)
    ensures Correct(Correct(Correct(Correct(w, f1, a1), f2, a2), f3, a3), f4, a4) == Shift(w, a1 + a2 + a3 + a4)
  {
    var w1 := Correct(w, f1, a1);
    CorrectIsShift(w, f1, a1);
    var w2 := Correct(w1, f2, a2);
    CorrectIsShift(w1, f2, a2);
    ShiftShift(w, a1, a2);
    var w3 := Correct(w2, f3, a3);
    CorrectIsShift(w2, f3, a3);
    ShiftShift(w, a1 + a2, a3);
    CorrectIsShift(w3, f4, a4);
    ShiftShift(w, a1 + a2 + a3, a4);
  }

  /** The corrections keep the total weight, and the total of the three
      core slots. */
  lemma {:induction false} RedistributeKeepsMass(w: seq<real>, c: Constraints)
    requires |w| >= 3
    ensures Sum(Redistribute(w, c)) == Sum(w)
    ensures Redistribute(w, c)[0] + Redistribute(w, c)[1] + Redistribute(w, c)[2] == w[0] + w[1] + w[2]
  {
    RedistributeIsShift(w, c);
    ShiftSum(w, NetEquityInflow(c, w[0] + w[1], w[2]));
  }

  /** When exactly one correction fires it restores its own bound exactly. */
  lemma SingleCorrectionRestoresBound(w: seq<real>, c: Constraints)
    requires |w| >= 3
    ensures var eq, bond, r := w[0] + w[1], w[2], Redistribute(w, c);
      && (EqMinFires(c, eq) && !EqMaxFires(c, eq) && !BondMinFires(c, bond) && !BondMaxFires(c, bond)
          ==> r[0] + r[1] == c["eq_min"])
      && (!EqMinFires(c, eq) && EqMaxFires(c, eq) && !BondMinFires(c, bond) && !BondMaxFires(c, bond)
          ==> r[0] + r[1] == c["eq_max"])
      && (!EqMinFires(c, eq) && !EqMaxFires(c, eq) && BondMinFires(c, bond) && !BondMaxFires(c, bond)
          ==> r[2] == c["bond_min"])
      && (!EqMinFires(c, eq) && !EqMaxFires(c, eq) && !BondMinFires(c, bond) && BondMaxFires(c, bond)
          ==> r[2] == c["bond_max"])
  {
  }

  /** Per iteration: the weights lie in [0,1], and sum to 1 whenever some
      weight is positive after the gradient step. */
  lemma {:induction false} IterationBounds(w: seq<real>, grad: seq<real>, c: Constraints)
    requires |w| >= 3 && |grad| == |w|
    ensures InUnitInterval(Iteration(w, grad, c))
    ensures Sum(ClipAll(Descend(w, grad))) > 0.0 ==> Sum(Iteration(w, grad, c)) == 1.0
    ensures var red := Redistribute(Project(Descend(w, grad)), c);
      Sum(ClipAll(red)) > 0.0 ==> Sum(Iteration(w, grad, c)) == 1.0
    ensures var red := Redistribute(Project(Descend(w, grad)), c);
      Sum(ClipAll(red)) <= 0.0 ==> forall i :: 0 <= i < |w| ==> Iteration(w, grad, c)[i] == 0.0
  {
    var mid := Project(Descend(w, grad));
    var red := Redistribute(mid, c);
    ProjectBounds(Descend(w, grad));
    ProjectBounds(red);
    if Sum(ClipAll(Descend(w, grad))) > 0.0 {
      RedistributeKeepsMass(mid, c);
      ClipKeepsPositiveSum(red);
    }
  }

  /** The guardrails of the three tiers. */
  predicate TierGuardrails(c: Constraints)
  {
    c == ConstraintsFor(0) || c == ConstraintsFor(3) || c == ConstraintsFor(6)
  }

  lemma ConstraintsAreTierGuardrails(score: int)
    ensures TierGuardrails(ConstraintsFor(score))
  {
  }

  /** Under the guardrails of any risk tier every iteration returns weights
      that sum to exactly 1, even when the gradient step clips every weight
      to 0: the corrections then always put positive mass somewhere. */
  lemma {:induction false} TierIterationSumsToOne(w: seq<real>, grad: seq<real>, c: Constraints)
    requires |w| >= 3 && |grad| == |w| && TierGuardrails(c)
    ensures InUnitInterval(Iteration(w, grad, c))
    ensures Sum(Iteration(w, grad, c)) == 1.0
  {
    IterationBounds(w, grad, c);
    var x := ClipAll(Descend(w, grad));
    assert AllNonNegative(x);
    SumNonNegative(x);
    if Sum(x) == 0.0 {
      var mid := Project(Descend(w, grad));
      ProjectBounds(Descend(w, grad));
      assert mid[0] == 0.0 && mid[1] == 0.0 && mid[2] == 0.0;
      var red := Redistribute(mid, c);
      var k := GuardrailsPlaceMass(mid, c);
      assert ClipAll(red)[k] > 0.0;
      assert AllNonNegative(ClipAll(red));
      EntryAtMostSum(ClipAll(red), k);
      ProjectBounds(red);
    }
  }

  /** From all-zero core weights, every tier's corrections leave some core
      slot positive. */
  lemma GuardrailsPlaceMass(mid: seq<real>, c: Constraints) returns (k: int)
    requires |mid| >= 3 && mid[0] == 0.0 && mid[1] == 0.0 && mid[2] == 0.0 && TierGuardrails(c)
    ensures 0 <= k < 3 && Redistribute(mid, c)[k] > 0.0
  {
    RedistributeIsShift(mid, c);
    k := if c == ConstraintsFor(0) then 2 else 0;
  }

  /** The risk-parity proxy gradient sums to zero, so its raw step (before
      clipping) leaves the total weight unchanged. */
  lemma {:induction false} RiskParityStepConservesMass(cov: seq<seq<real>>, w: seq<real>, sqrt: real -> real)
    requires CovShape(|w|, cov)
    ensures Sum(RiskParityGradient(cov, w, sqrt)) == 0.0
    ensures Sum(Descend(w, RiskParityGradient(cov, w, sqrt))) == Sum(w)
  {
    var g := RiskParityGradient(cov, w, sqrt);
    DeviationsSumToZero(RiskContributions(cov, w, sqrt));
    DescendSum(w, g);
  }

  /** Deviations from the mean sum to zero. */
  lemma DeviationsSumToZero(rc: seq<real>)
    ensures Sum(Deviations(rc)) == 0.0
  {
    SumShifted(rc, Deviations(rc), Average(rc));
    if |rc| > 0 {
      QuotientTimes(Sum(rc), |rc| as real);
    }
  }

  /** The raw step lowers the total by the learning rate times the
      gradient's total. */
  lemma {:induction false} DescendSum(w: seq<real>, g: seq<real>)
    requires |g| == |w|
    ensures Sum(Descend(w, g)) == Sum(w) - LearningRate * Sum(g)
  {
    if |w| > 0 {
      var n := |w| - 1;
      assert Descend(w, g)[..n] == Descend(w[..n], g[..n]);
      DescendSum(w[..n], g[..n]);
    }
  }

  /** After at least one iteration the MVO weights lie in [0,1]; under a
      tier's guardrails they also sum to 1. */
  lemma {:induction false} MvoIterateBounds(mu: seq<real>, cov: seq<seq<real>>, c: Constraints, w0: seq<real>, k: nat)
    requires MvoShape(|w0|, mu, cov) && k >= 1
    ensures InUnitInterval(MvoIterate(mu, cov, c, w0, k))
    ensures TierGuardrails(c) ==> Sum(MvoIterate(mu, cov, c, w0, k)) == 1.0
  {
    var w := MvoIterate(mu, cov, c, w0, k - 1);
    IterationBounds(w, MvoGradient(mu, cov, w), c);
    if TierGuardrails(c) {
      TierIterationSumsToOne(w, MvoGradient(mu, cov, w), c);
    }
  }

  lemma {:induction false} RiskParityIterateBounds(cov: seq<seq<real>>, c: Constraints, sqrt: real -> real, w0: seq<real>, k: nat)
    requires RiskParityShape(|w0|, cov) && k >= 1
    ensures InUnitInterval(RiskParityIterate(cov, c, sqrt, w0, k))
    ensures TierGuardrails(c) ==> Sum(RiskParityIterate(cov, c, sqrt, w0, k)) == 1.0
  {
    var w := RiskParityIterate(cov, c, sqrt, w0, k - 1);
    IterationBounds(w, RiskParityGradient(cov, w, sqrt), c);
    if TierGuardrails(c) {
      TierIterationSumsToOne(w, RiskParityGradient(cov, w, sqrt), c);
    }
  }

  /** What `mvoOptimize` promises: the index error exactly when the inputs
      are too short; otherwise weights in [0,1], one entry per asset in input
      order when the assets are distinct, summing to 1 under a tier's
      guardrails. */
  lemma {:induction false} MvoSolutionProperties(assets: seq<string>, mu: seq<real>, cov: seq<seq<real>>, c: Constraints)
    ensures MvoSolution(assets, mu, cov, c).Failure? <==> !MvoShape(|assets|, mu, cov)
    ensures MvoSolution(assets, mu, cov, c).Failure? ==> MvoSolution(assets, mu, cov, c).error == IndexOutOfBounds
    ensures MvoSolution(assets, mu, cov, c).Success? ==> SolutionShaped(assets, c, MvoSolution(assets, mu, cov, c).value)
  {
    if MvoShape(|assets|, mu, cov) {
      var w := MvoIterate(mu, cov, c, Uniform(|assets|), MvoIterations);
      MvoIterateBounds(mu, cov, c, Uniform(|assets|), MvoIterations);
      SolutionShape(assets, w, c);
    }
  }

  /** The same for `riskParityOptimize`. */
  lemma {:induction false} RiskParitySolutionProperties(assets: seq<string>, cov: seq<seq<real>>, c: Constraints, sqrt: real -> real)
    ensures RiskParitySolution(assets, cov, c, sqrt).Failure? <==> !RiskParityShape(|assets|, cov)
    ensures RiskParitySolution(assets, cov, c, sqrt).Failure? ==> RiskParitySolution(assets, cov, c, sqrt).error == IndexOutOfBounds
    ensures RiskParitySolution(assets, cov, c, sqrt).Success? ==> SolutionShaped(assets, c, RiskParitySolution(assets, cov, c, sqrt).value)
  {
    if RiskParityShape(|assets|, cov) {
      var w := RiskParityIterate(cov, c, sqrt, Uniform(|assets|), RiskParityIterations);
      RiskParityIterateBounds(cov, c, sqrt, Uniform(|assets|), RiskParityIterations);
      SolutionShape(assets, w, c);
    }
  }

  /** The shape of a solver's returned map. */
  predicate SolutionShaped(assets: seq<string>, c: Constraints, m: WeightMap)
  {
    && |m| <= |assets| && InUnitInterval(Weights(m))
    && (DistinctAssets(assets) ==> |m| == |assets| && forall i :: 0 <= i < |assets| ==> m[i].asset == assets[i])
    && (DistinctAssets(assets) && TierGuardrails(c) ==> Sum(Weights(m)) == 1.0)
  }

  /** What the closing loop of both solvers gives when the final weights lie
      in [0,1] (and sum to 1 under a tier's guardrails). */
  lemma {:induction false} SolutionShape(assets: seq<string>, w: seq<real>, c: Constraints)
    requires |assets| == |w| && InUnitInterval(w)
    requires TierGuardrails(c) ==> Sum(w) == 1.0
    ensures SolutionShaped(assets, c, BuildMap(assets, w))
  {
    var out := BuildMap(assets, w);
    BuildMapValues(assets, w);
    if DistinctAssets(assets) {
      BuildMapDistinct(assets, w);
      assert Weights(out) == w;
    }
  }

  // ---------------------------------------------------------------------
  // The in-place solver, as the source runs it

  /** The summing loop of `normalize`. */
  method SumArray(w: array<real>) returns (sum: real)
    ensures sum == Sum(w[..])
  {
    sum := 0.0;
    for i := 0 to w.Length
      invariant sum == Sum(w[..i])
    {
      SumPrefix(w[..], i);
      sum := sum + w[i];
    }
    assert w[..w.Length] == w[..];
  }

  /** `normalize`: divide every weight by the sum, unless it is 0. */
  method Normalize(w: array<real>)
    modifies w
    ensures w[..] == Normalized(old(w[..]))
  {
    var sum := SumArray(w);
    if sum == 0.0 { return; }
    ghost var before := w[..];
    for i := 0 to w.Length
      invariant forall k :: 0 <= k < i ==> w[k] == before[k] / sum
      invariant forall k :: i <= k < w.Length ==> w[k] == before[k]
    {
      w[i] := w[i] / sum;
    }
  }

  method ClipInPlace(w: array<real>)
    modifies w
    ensures w[..] == ClipAll(old(w[..]))
  {
    for i := 0 to w.Length
      invariant forall k :: 0 <= k < i ==> w[k] == Clip(old(w[k]))
      invariant forall k :: i <= k < w.Length ==> w[k] == old(w[k])
    {
      w[i] := Clip(w[i]);
    }
  }

  /** `w[i] -= lr * grad[i]; w[i] = clip(w[i])` for each i. */
  method StepAndClip(w: array<real>, grad: array<real>)
    requires grad.Length == w.Length && grad != w
    modifies w
    ensures w[..] == ClipAll(Descend(old(w[..]), grad[..]))
  {
    for i := 0 to w.Length
      invariant forall k :: 0 <= k < i ==> w[k] == Clip(old(w[k]) - LearningRate * grad[k])
      invariant forall k :: i <= k < w.Length ==> w[k] == old(w[k])
    {
      w[i] := w[i] - LearningRate * grad[i];
      w[i] := Clip(w[i]);
    }
  }

  /** `w[0] += d/2; w[1] += d/2; w[2] -= d`, the order of the equity
      corrections. */
  method ShiftEquitiesFirst(w: array<real>, d: real)
    requires w.Length >= 3
    modifies w
    ensures w[..] == Shift(old(w[..]), d)
  {
    w[0] := w[0] + d / 2.0;
    w[1] := w[1] + d / 2.0;
    w[2] := w[2] - d;
  }

  /** `w[2] -= d; w[0] += d/2; w[1] += d/2`, the order of the bond
      corrections. */
  method ShiftBondFirst(w: array<real>, d: real)
    requires w.Length >= 3
    modifies w
    ensures w[..] == Shift(old(w[..]), d)
  {
    w[2] := w[2] - d;
    w[0] := w[0] + d / 2.0;
    w[1] := w[1] + d / 2.0;
  }

  /** `if eq_min is set and equities are below it, move the deficit in`. */
  method RaiseEquities(w: array<real>, c: Constraints, eqWeight: real)
    requires w.Length >= 3
    modifies w
    ensures w[..] == Correct(old(w[..]), EqMinFires(c, eqWeight), EqMinAmount(c, eqWeight))
  {
    if "eq_min" in c && eqWeight < c["eq_min"] {
      var deficit := c["eq_min"] - eqWeight;
      ShiftEquitiesFirst(w, deficit);
    }
  }

  /** `if eq_max is set and equities are above it, move the excess out`. */
  method CapEquities(w: array<real>, c: Constraints, eqWeight: real)
    requires w.Length >= 3
    modifies w
    ensures w[..] == Correct(old(w[..]), EqMaxFires(c, eqWeight), -EqMaxAmount(c, eqWeight))
  {
    if "eq_max" in c && eqWeight > c["eq_max"] {
      var excess := eqWeight - c["eq_max"];
      ShiftEquitiesFirst(w, -excess);
    }
  }

  /** `if bond_min is set and the bond is below it, move the deficit in`. */
  method RaiseBond(w: array<real>, c: Constraints, bondWeight: real)
    requires w.Length >= 3
    modifies w
    ensures w[..] == Correct(old(w[..]), BondMinFires(c, bondWeight), -BondMinAmount(c, bondWeight))
  {
    if "bond_min" in c && bondWeight < c["bond_min"] {
      var deficit := c["bond_min"] - bondWeight;
      ShiftBondFirst(w, -deficit);
    }
  }

  /** `if bond_max is set and the bond is above it, move the excess out`. */
  method CapBond(w: array<real>, c: Constraints, bondWeight: real)
    requires w.Length >= 3
    modifies w
    ensures w[..] == Correct(old(w[..]), BondMaxFires(c, bondWeight), BondMaxAmount(c, bondWeight))
  {
    if "bond_max" in c && bondWeight > c["bond_max"] {
      var excess := bondWeight - c["bond_max"];
      ShiftBondFirst(w, excess);
    }
  }

  /** The constraint block shared by both solvers: the equity and bond
      weights are read once, then the four corrections run in order. */
  method ApplyConstraints(w: array<real>, c: Constraints)
    requires w.Length >= 3
    modifies w
    ensures w[..] == Redistribute(old(w[..]), c)
  {
    var eqWeight := w[0] + w[1];
    var bondWeight := w[2];
    RaiseEquities(w, c, eqWeight);
    CapEquities(w, c, eqWeight);
    RaiseBond(w, c, bondWeight);
    CapBond(w, c, bondWeight);
  }

  /** The steps both solvers take after their gradient. */
  method StepAndProject(w: array<real>, grad: array<real>, c: Constraints)
    requires w.Length >= 3 && grad.Length == w.Length && grad != w
    modifies w
    ensures w[..] == Iteration(old(w[..]), grad[..], c)
  {
    StepAndClip(w, grad);
    Normalize(w);
    ApplyConstraints(w, c);
    ClipInPlace(w);
    Normalize(w);
  }

  /** Row `i` of `cov . w`, as the inner loops of both solvers compute it. */
  method RowDot(cov: seq<seq<real>>, i: nat, w: array<real>) returns (s: real)
    requires i < |cov| && |cov[i]| >= w.Length
    ensures s == Dot(cov[i][..w.Length], w[..])
  {
    var row := cov[i][..w.Length];
    s := 0.0;
    for j := 0 to w.Length
      invariant s == Dot(row[..j], w[..])
    {
      DotPrefix(row, w[..], j);
      s := s + cov[i][j] * w[j];
    }
    assert row[..w.Length] == row;
  }

  /** The gradient loop of `mvoOptimize`. */
  method ComputeMvoGradient(mu: seq<real>, cov: seq<seq<real>>, w: array<real>) returns (grad: array<real>)
    requires |mu| >= w.Length && CovShape(w.Length, cov)
    ensures fresh(grad) && grad[..] == MvoGradient(mu, cov, w[..])
  {
    var n := w.Length;
    grad := new real[n];
    for i := 0 to n
      invariant forall k :: 0 <= k < i ==> grad[k] == MvoGradient(mu, cov, w[..])[k]
    {
      var riskPart := RowDot(cov, i, w);
      grad[i] := 2.0 * riskPart - mu[i];
    }
  }

  /** `marginalRisk`: `out[i] = sum_j cov[i][j] * w[j]`. */
  method MarginalRisk(cov: seq<seq<real>>, w: array<real>) returns (out: array<real>)
    requires CovShape(w.Length, cov)
    ensures fresh(out) && out[..] == MatVec(cov, w[..])
  {
    var n := w.Length;
    out := new real[n];
    for i := 0 to n
      invariant forall k :: 0 <= k < i ==> out[k] == MatVec(cov, w[..])[k]
    {
      var s := RowDot(cov, i, w);
      out[i] := s;
    }
  }

  /** `dot`: `sum_i a[i] * b[i]`. */
  method DotProduct(a: array<real>, b: array<real>) returns (s: real)
    requires a.Length <= b.Length
    ensures s == Dot(a[..], b[..])
  {
    s := 0.0;
    for i := 0 to a.Length
      invariant s == Dot(a[..i], b[..])
    {
      DotPrefix(a[..], b[..], i);
      s := s + a[i] * b[i];
    }
    assert a[..a.Length] == a[..];
  }

  /** The loop `rc[i] = w[i] * mrc[i] / root`. */
  method ContributionsLoop(w: array<real>, mrc: array<real>, root: real) returns (rc: array<real>)
    requires mrc.Length == w.Length
    ensures fresh(rc) && rc[..] == ContributionsFrom(w[..], mrc[..], root)
  {
    rc := new real[w.Length];
    for i := 0 to w.Length
      invariant forall k :: 0 <= k < i ==> rc[k] == Contribution(w[k], mrc[k], root)
    {
      rc[i] := Contribution(w[i], mrc[i], root);
    }
  }

  /** `riskContributions`. */
  method ComputeRiskContributions(cov: seq<seq<real>>, w: array<real>, sqrt: real -> real) returns (rc: array<real>)
    requires CovShape(w.Length, cov)
    ensures fresh(rc) && rc[..] == RiskContributions(cov, w[..], sqrt)
  {
    var mrc := MarginalRisk(cov, w);
    var portVar := DotProduct(w, mrc);
    rc := ContributionsLoop(w, mrc, sqrt(portVar));
  }

  /** The proxy gradient of `riskParityOptimize`: each risk contribution's
      deviation from their mean. */
  method ComputeRiskParityGradient(cov: seq<seq<real>>, w: array<real>, sqrt: real -> real) returns (grad: array<real>)
    requires CovShape(w.Length, cov)
    ensures fresh(grad) && grad[..] == RiskParityGradient(cov, w[..], sqrt)
  {
    var n := w.Length;
    var rc := ComputeRiskContributions(cov, w, sqrt);
    var target := Average(rc[..]);
    grad := new real[n];
    ghost var dev := Deviations(rc[..]);
    for i := 0 to n
      modifies grad
      invariant forall k :: 0 <= k < i ==> grad[k] == dev[k]
    {
      grad[i] := rc[i] - target;
    }
  }

  /** `new double[n]` then `Arrays.fill(w, 1.0 / n)`. */
  method UniformArray(n: nat) returns (w: array<real>)
    requires n > 0
    ensures fresh(w) && w[..] == Uniform(n)
  {
    w := new real[n];
    var share := 1.0 / (n as real);
    for i := 0 to n
      invariant forall k :: 0 <= k < i ==> w[k] == share
    {
      w[i] := share;
    }
  }

  method ToWeightMap(assets: seq<string>, w: array<real>) returns (out: WeightMap)
    requires |assets| <= w.Length
    ensures out == BuildMap(assets, w[..])
  {
    out := [];
    for i := 0 to |assets|
      invariant out == BuildMap(assets[..i], w[..])
    {
      assert assets[..i + 1][..i] == assets[..i];
      out := Put(out, assets[i], w[i]);
    }
    assert assets[..|assets|] == assets;
  }

  /** `mvoOptimize`: 4000 projected-gradient iterations from equal weights. */
  method MvoOptimize(assets: seq<string>, mu: seq<real>, cov: seq<seq<real>>, constraints: Constraints)
    returns (r: Result<WeightMap>)
    ensures r == MvoSolution(assets, mu, cov, constraints)
    ensures r.Failure? <==> !MvoShape(|assets|, mu, cov)
    ensures r.Success? ==> SolutionShaped(assets, constraints, r.value)
  {
    MvoSolutionProperties(assets, mu, cov, constraints);
    var n := |assets|;
    if !MvoShape(n, mu, cov) { return Failure(IndexOutOfBounds); }
    r := MvoLoop(assets, mu, cov, constraints);
  }

  /** One MVO iteration on the weight array. */
  method MvoStep(mu: seq<real>, cov: seq<seq<real>>, w: array<real>, c: Constraints)
    requires MvoShape(w.Length, mu, cov)
    modifies w
    ensures w[..] == Iteration(old(w[..]), MvoGradient(mu, cov, old(w[..])), c)
  {
    var grad := ComputeMvoGradient(mu, cov, w);
    StepAndProject(w, grad, c);
  }

  /** The iteration loop of `mvoOptimize`. */
  method MvoWeights(n: nat, mu: seq<real>, cov: seq<seq<real>>, c: Constraints) returns (w: array<real>)
    requires MvoShape(n, mu, cov)
    ensures fresh(w) && w[..] == MvoIterate(mu, cov, c, Uniform(n), MvoIterations)
  {
    w := UniformArray(n);
    for iter := 0 to MvoIterations
      invariant w[..] == MvoIterate(mu, cov, c, Uniform(n), iter)
    {
      MvoStep(mu, cov, w, c);
    }
  }

  method MvoLoop(assets: seq<string>, mu: seq<real>, cov: seq<seq<real>>, constraints: Constraints)
    returns (r: Result<WeightMap>)
    requires MvoShape(|assets|, mu, cov)
    ensures r == MvoSolution(assets, mu, cov, constraints)
  {
    var w := MvoWeights(|assets|, mu, cov, constraints);
    var out := ToWeightMap(assets, w);
    r := Success(out);
  }

  /** `riskParityOptimize`: 5000 iterations of the proxy gradient. */
  method RiskParityOptimize(assets: seq<string>, cov: seq<seq<real>>, constraints: Constraints, sqrt: real -> real)
    returns (r: Result<WeightMap>)
    ensures r == RiskParitySolution(assets, cov, constraints, sqrt)
    ensures r.Failure? <==> !RiskParityShape(|assets|, cov)
    ensures r.Success? ==> SolutionShaped(assets, constraints, r.value)
  {
    RiskParitySolutionProperties(assets, cov, constraints, sqrt);
    var n := |assets|;
    if !RiskParityShape(n, cov) { return Failure(IndexOutOfBounds); }
    r := RiskParityLoop(assets, cov, constraints, sqrt);
  }

  /** One risk-parity iteration on the weight array. */
  method RiskParityStep(cov: seq<seq<real>>, w: array<real>, c: Constraints, sqrt: real -> real)
    requires RiskParityShape(w.Length, cov)
    modifies w
    ensures w[..] == Iteration(old(w[..]), RiskParityGradient(cov, old(w[..]), sqrt), c)
  {
    var grad := ComputeRiskParityGradient(cov, w, sqrt);
    StepAndProject(w, grad, c);
  }

  /** The iteration loop of `riskParityOptimize`. */
  method RiskParityWeights(n: nat, cov: seq<seq<real>>, c: Constraints, sqrt: real -> real) returns (w: array<real>)
    requires RiskParityShape(n, cov)
    ensures fresh(w) && w[..] == RiskParityIterate(cov, c, sqrt, Uniform(n), RiskParityIterations)
  {
    w := UniformArray(n);
    for iter := 0 to RiskParityIterations
      invariant w[..] == RiskParityIterate(cov, c, sqrt, Uniform(n), iter)
    {
      RiskParityStep(cov, w, c, sqrt);
    }
  }

  method RiskParityLoop(assets: seq<string>, cov: seq<seq<real>>, constraints: Constraints, sqrt: real -> real)
    returns (r: Result<WeightMap>)
    requires RiskParityShape(|assets|, cov)
    ensures r == RiskParitySolution(assets, cov, constraints, sqrt)
  {
    var w := RiskParityWeights(|assets|, cov, constraints, sqrt);
    var out := ToWeightMap(assets, w);
    r := Success(out);
  }

  /** Every weight in the built map is one of the input weights. */
  lemma {:induction false} BuildMapValues(assets: seq<string>, w: seq<real>)
    requires |assets| <= |w|
    ensures |BuildMap(assets, w)| <= |assets|
    ensures forall i :: 0 <= i < |BuildMap(assets, w)| ==> BuildMap(assets, w)[i].weight in w[..|assets|]
  {
    if |assets| > 0 {
      var n := |assets| - 1;
      BuildMapValues(assets[..n], w);
      var m := BuildMap(assets[..n], w);
      PutLookup(m, assets[n], w[n], assets[n]);
      assert forall x :: x in w[..n] ==> x in w[..n + 1];
    }
  }
}
