# portfolio-ai in Dafny

This project is a verified model of the decision logic in the portfolio-ai
backend. It covers two user-facing features.

The **portfolio generator** (`PortfolioService.generate`) works in five steps:

- It scores a four-question risk quiz and picks a tier with its guardrails (`RiskService`).
- It estimates the mean returns and the covariance of VOO, VXUS and BND over a three-year lookback (`MarketDataService`).
- It runs one of two solvers, chosen by the request's option string (`OptimizerService`):
  - mean-variance optimisation by projected gradient;
  - a risk-parity heuristic.

  Each solver iteration steps, clips, renormalises and applies four equity/bond corrections.
- It substitutes the tier's template when the chosen solver fails and the request allows it.
- It reports the equity/bond split.

The **heuristic stock recommender** (`FreeAiStockPortfolioService.recommend`) works in six steps:

- It loads daily closes through a per-ticker cache (`MarketDataFreeService`).
- It computes the return, volatility, drawdown and stability of every allowed ticker (`MetricsService`).
- It min-max scales two of those metrics (`NormalizationUtil`).
- It blends them with weights chosen by the risk tolerance, and ranks by the blend.
- It picks the first six distinct allowed tickers from the curated S&P 500 and sector universe (`UniverseService`).
- It weights the picks by a softmax of their scores.

Each Java service has its own Dafny module:

| file | module | service |
|---|---|---|
| `risk.dfy` | `Risk` | `RiskService` |
| `optimizer.dfy` | `Optimizer` | `OptimizerService` |
| `portfolio.dfy` | `Portfolio` | `PortfolioService` |
| `marketdata.dfy` | `MarketData` | `MarketDataService` |
| `marketdatafree.dfy` | `MarketDataFree` | `MarketDataFreeService` |
| `universe.dfy` | `Universe` | `UniverseService` |
| `metrics.dfy` | `Metrics` | `MetricsService` |
| `normalization.dfy` | `Normalization` | `NormalizationUtil` |
| `recommender.dfy` | `Recommender` | `FreeAiStockPortfolioService` |

Four support modules hold shared definitions:

- `Common`: Option, Result, the Java error kinds, 32-bit `int` arithmetic, and division with a zero divisor.
- `JavaStrings`: `trim`, `isBlank`, ASCII `toUpperCase`/`toLowerCase`, `equalsIgnoreCase` and `split(",")`.
- `RealSeq`: sums, averages and dot products.
- `WeightMaps`: the insertion-ordered `Map<String, Double>` the solvers return.

Code that updates state in Java is imperative in Dafny:

- arrays for the solvers' weight vectors and the metrics lists, updated in place;
- a class with a `closeCache` map field for the close cache;
- methods with loops for the source's loops.

One loop is not a method: the constructor's loop `allowed.addAll(lst)` over the sector lists (`UniverseService.java:39`). It is the set comprehension `Universe.AllowedTickers`, which `Universe.NewUniverse` calls directly.

Each such method is proved equal to a pure function of its inputs or old state. The properties are then proved about those functions.

Java lets a few failures escape, and the model keeps them as `Failure` results:

- the `NullPointerException` of a `switch` on a null answer;
- the index errors of the solvers when given fewer than three assets or too-short statistics;
- the `NegativeArraySizeException` of an empty close window;
- the exception for an asset the Stooq table does not map.

Behaviour worth noting:

- **A failed estimate does not fall back.** `loadReturns` runs before the `try` (`PortfolioService.java:31`), so its failure always propagates, whatever the fallback flag says (`Portfolio.EarlyFailuresPropagate`). When every price download is empty, `generate` fails; it does not return the template.
- **Profiling is partial.** The code switches on each answer string, so a null answer throws. `Risk.Profile` fails exactly when an answer is missing.
- **Fallback never happens after a load.** Once the three assets' statistics load, they always have the shape both solvers need, so neither solver throws. `Portfolio.NoFallbackAfterLoad` proves that a successful `generate` never reports "templates".
- **Not every template sums to 1.** The conservative template sums to 0.95 (`Optimizer.TemplateTotals`).
- **Field names.** The code reads `a.risk_tolerance` and `req.answers`, which `QuizAnswers` and `PortfolioRequest` do not declare under those names. The model reads the declared fields: four optional answer strings, an optional optimizer string, and a fallback flag that defaults to true.

## Model

| member | source | states |
|---|---|---|
| Common.Wrap32 | src/main/java/com/portfolioai/service/MarketDataService.java:53 | the Java `int` result of an arithmetic expression: equal to the mathematical value when it fits, otherwise congruent to it modulo 2^32 |
| Common.Div | src/main/java/com/portfolioai/service/MarketDataService.java:76 | a real quotient when the divisor is non-zero (`r * b == a`), 0 for a zero divisor |
| JavaStrings.TrimStart | src/main/java/com/portfolioai/service/UniverseService.java:44 | the leading part `trim` removes is made only of characters up to U+0020, and what remains does not start with one |
| JavaStrings.TrimEnd | src/main/java/com/portfolioai/service/UniverseService.java:44 | the trailing part `trim` removes is made only of characters up to U+0020, and what remains does not end with one |
| JavaStrings.Trim | src/main/java/com/portfolioai/service/UniverseService.java:44 | a trimmed string is no longer than the input and neither starts nor ends with a trimmable character |
| JavaStrings.TrimIdempotent | src/main/java/com/portfolioai/service/UniverseService.java:44 | trimming twice is trimming once |
| JavaStrings.CanonIdempotent | src/main/java/com/portfolioai/service/UniverseService.java:71 | the canonical ticker form `trim().toUpperCase()` is idempotent and as long as the trimmed input |
| JavaStrings.DropTrailingEmpty | src/main/java/com/portfolioai/service/UniverseService.java:163 | `split` drops exactly the trailing empty pieces and keeps the rest in order |
| JavaStrings.SplitOnlyCommas | src/main/java/com/portfolioai/service/UniverseService.java:163 | a non-empty string made only of commas splits into no fields at all |
| Risk.AnswerScore | src/main/java/com/portfolioai/service/RiskService.java:27-38 | each answer scores 0, 1 or 2: 0 exactly for the cautious option, 2 exactly for the bold one, and 1 for any unrecognised string |
| Risk.Profile | src/main/java/com/portfolioai/service/RiskService.java:24-60 | profiling fails, with a null-pointer error, exactly when some answer is null; otherwise the score lies in [0,8] and the tier and constraints are the ladder's for that score |
| Risk.TierLadder | src/main/java/com/portfolioai/service/RiskService.java:44-57 | conservative exactly for scores up to 2, balanced for 3 to 5, aggressive for 6 to 8, each with exactly its guardrail map and no other keys |
| Risk.Extremes | src/main/java/com/portfolioai/service/RiskService.java:27-57 | low/<1y/income/panic gives score 0 and the conservative result; high/5y+/growth/buy_more gives score 8 and the aggressive result |
| Risk.ScoreDelta | src/main/java/com/portfolioai/service/RiskService.java:27-38 | changing one answer changes the total by exactly the change of that answer's own sub-score |
| Risk.MoreAggressiveNeverLowers | src/main/java/com/portfolioai/service/RiskService.java:27-57 | replacing one answer by a recognised value that scores at least as much never lowers the score and never moves the tier down the ladder |
| Risk.ExtremeAnswersBound | src/main/java/com/portfolioai/service/RiskService.java:27-38 | replacing any answer by its bold option never lowers the score, and by its cautious option never raises it |
| Risk.Score | src/main/java/com/portfolioai/service/RiskService.java:25-38 | the sum of the four answers' sub-scores; `Risk.ScoreDelta`, `Risk.MoreAggressiveNeverLowers` and `Risk.ExtremeAnswersBound` characterise it |
| Risk.TierFor | src/main/java/com/portfolioai/service/RiskService.java:44-57 | the tier of a score; `Risk.TierLadder` states its exact ranges |
| Risk.ConstraintsFor | src/main/java/com/portfolioai/service/RiskService.java:44-57 | the guardrail map of a score; `Risk.TierLadder` states each map and `Optimizer.ConstraintsAreTierGuardrails` that it is a tier guardrail |
| Optimizer.TemplateTotals | src/main/java/com/portfolioai/service/OptimizerService.java:11-17 | every template holds VOO, VXUS and BND; the balanced and aggressive rows sum to 1, the conservative row to 0.95 |
| Optimizer.TemplateWithinGuardrails | src/main/java/com/portfolioai/service/OptimizerService.java:11-17 | the template of every tier the profiler yields satisfies that tier's own equity and bond guardrails |
| Optimizer.ExplanationShares | src/main/java/com/portfolioai/service/OptimizerService.java:133-137 | on a map of the three core assets the explanation succeeds, reports equity VOO+VXUS and bond BND adding up to the map's total, and upper-cases the tier; a map lacking one of them is a null unboxing |
| Optimizer.TemplateExplanation | src/main/java/com/portfolioai/service/OptimizerService.java:133-135 | the explanation of any template succeeds and reports equity + bond of 0.95 for the conservative row, 1 otherwise |
| Optimizer.Clip | src/main/java/com/portfolioai/service/OptimizerService.java:42 | a clipped weight lies in [0,1], equals the input when that is already in [0,1], and stays positive when the input is |
| Optimizer.NormalizedProperties | src/main/java/com/portfolioai/service/OptimizerService.java:145-150 | a zero-sum vector is left unchanged; otherwise the result sums to 1 and every entry is its input's share of the old sum |
| Optimizer.NormalizedUnit | src/main/java/com/portfolioai/service/OptimizerService.java:145-150 | a non-negative vector normalises into [0,1]: to weights summing to 1 when its sum is positive, to all zeros otherwise |
| Optimizer.ProjectBounds | src/main/java/com/portfolioai/service/OptimizerService.java:40-44 | clip-then-normalise gives weights in [0,1] that sum to 1 exactly when some clipped weight is positive, and all zeros otherwise |
| Optimizer.ClipKeepsPositiveSum | src/main/java/com/portfolioai/service/OptimizerService.java:67-68 | clipping a vector whose sum is positive keeps a positive sum |
| Optimizer.ShiftSum | src/main/java/com/portfolioai/service/OptimizerService.java:50-65 | moving mass between the equity slots and the bond slot keeps the total weight |
| Optimizer.CorrectIsShift | src/main/java/com/portfolioai/service/OptimizerService.java:50-65 | a correction that fires is a shift by its amount; one that does not fire changes nothing |
| Optimizer.RedistributeIsShift | src/main/java/com/portfolioai/service/OptimizerService.java:47-65 | the four corrections, all reading the snapshot taken before the first, together move the net inflow from the bond slot into the two equity slots, half each, and touch no other slot |
| Optimizer.CorrectionsChain | src/main/java/com/portfolioai/service/OptimizerService.java:50-65 | four guarded corrections in a row shift by the sum of their amounts |
| Optimizer.RedistributeKeepsMass | src/main/java/com/portfolioai/service/OptimizerService.java:50-65 | the corrections keep the total weight and the total of the three core slots |
| Optimizer.SingleCorrectionRestoresBound | src/main/java/com/portfolioai/service/OptimizerService.java:50-65 | when exactly one correction fires it brings its own equity or bond weight exactly to its bound |
| Optimizer.IterationBounds | src/main/java/com/portfolioai/service/OptimizerService.java:40-68 | after every iteration the weights lie in [0,1]; they sum to 1 whenever some weight is positive before the last normalise (or after the first clip), and are all 0 otherwise |
| Optimizer.ConstraintsAreTierGuardrails | src/main/java/com/portfolioai/service/RiskService.java:44-57 | every constraint map the profiler builds is one of the three tier guardrail maps |
| Optimizer.TierIterationSumsToOne | src/main/java/com/portfolioai/service/OptimizerService.java:40-68 | under any tier's guardrails every iteration returns weights in [0,1] summing to exactly 1, even when the gradient step clips every weight to 0 |
| Optimizer.GuardrailsPlaceMass | src/main/java/com/portfolioai/service/OptimizerService.java:50-65 | from all-zero core weights each tier's corrections leave some core slot positive |
| Optimizer.RiskParityStepConservesMass | src/main/java/com/portfolioai/service/OptimizerService.java:91-98 | the risk-parity proxy gradient `rc_i - mean(rc)` sums to 0, so the raw step before clipping keeps the total weight |
| Optimizer.DeviationsSumToZero | src/main/java/com/portfolioai/service/OptimizerService.java:93-95 | deviations from the mean sum to 0 |
| Optimizer.DescendSum | src/main/java/com/portfolioai/service/OptimizerService.java:40-41 | the raw gradient step lowers the total weight by the learning rate times the gradient's total |
| Optimizer.MvoIterateBounds | src/main/java/com/portfolioai/service/OptimizerService.java:31-69 | after one or more MVO iterations the weights lie in [0,1], and sum to 1 under any tier's guardrails |
| Optimizer.RiskParityIterateBounds | src/main/java/com/portfolioai/service/OptimizerService.java:86-126 | after one or more risk-parity iterations the weights lie in [0,1], and sum to 1 under any tier's guardrails |
| Optimizer.MvoSolutionProperties | src/main/java/com/portfolioai/service/OptimizerService.java:20-74 | `mvoOptimize` fails, with an index error, exactly when there are fewer than three assets or `mu`/`cov` are too short; otherwise its map has one entry per distinct asset in input order, with weights in [0,1] that sum to 1 under a tier's guardrails |
| Optimizer.RiskParitySolutionProperties | src/main/java/com/portfolioai/service/OptimizerService.java:77-131 | the same for `riskParityOptimize`, whose only shape requirement is on `cov` |
| Optimizer.SolutionShape | src/main/java/com/portfolioai/service/OptimizerService.java:71-73 | the closing loop turns weights in [0,1] into a map of weights in [0,1], one entry per asset in order when the assets are distinct |
| Optimizer.BuildMapValues | src/main/java/com/portfolioai/service/OptimizerService.java:71-73 | the output map has at most one entry per asset and holds only final weights |
| Optimizer.SumArray | src/main/java/com/portfolioai/service/OptimizerService.java:146-147 | the summing loop computes the sum of the array |
| Optimizer.Normalize | src/main/java/com/portfolioai/service/OptimizerService.java:145-150 | the array becomes its normalised contents: each weight divided by the sum, unless the sum is 0 |
| Optimizer.ClipInPlace | src/main/java/com/portfolioai/service/OptimizerService.java:67 | every weight of the array is clipped to [0,1] in place |
| Optimizer.StepAndClip | src/main/java/com/portfolioai/service/OptimizerService.java:40-43 | every weight takes the gradient step and is then clipped, in place |
| Optimizer.ShiftEquitiesFirst | src/main/java/com/portfolioai/service/OptimizerService.java:52 | the three in-place updates of the equity corrections are one shift of the old weights |
| Optimizer.ShiftBondFirst | src/main/java/com/portfolioai/service/OptimizerService.java:60 | the three in-place updates of the bond corrections, in their own order, are one shift of the old weights |
| Optimizer.RaiseEquities | src/main/java/com/portfolioai/service/OptimizerService.java:50-53 | the eq_min correction moves the deficit into the equities exactly when eq_min is set and the snapshot is below it |
| Optimizer.CapEquities | src/main/java/com/portfolioai/service/OptimizerService.java:54-57 | the eq_max correction moves the excess into the bond exactly when eq_max is set and the snapshot is above it |
| Optimizer.RaiseBond | src/main/java/com/portfolioai/service/OptimizerService.java:58-61 | the bond_min correction moves the deficit into the bond exactly when bond_min is set and the snapshot is below it |
| Optimizer.CapBond | src/main/java/com/portfolioai/service/OptimizerService.java:62-65 | the bond_max correction moves the excess into the equities exactly when bond_max is set and the snapshot is above it |
| Optimizer.ApplyConstraints | src/main/java/com/portfolioai/service/OptimizerService.java:47-65 | the constraint block leaves the array holding the redistribution of its old contents |
| Optimizer.StepAndProject | src/main/java/com/portfolioai/service/OptimizerService.java:40-68 | the steps after the gradient leave the array holding one iteration of its old contents |
| Optimizer.RowDot | src/main/java/com/portfolioai/service/OptimizerService.java:35-36 | the inner loop computes row `i` of `cov . w` |
| Optimizer.ComputeMvoGradient | src/main/java/com/portfolioai/service/OptimizerService.java:32-38 | the gradient loop yields `2 (cov . w)_i - mu_i` for every asset |
| Optimizer.MarginalRisk | src/main/java/com/portfolioai/service/OptimizerService.java:152-161 | `marginalRisk` yields `cov . w` |
| Optimizer.DotProduct | src/main/java/com/portfolioai/service/OptimizerService.java:163-167 | `dot` yields the dot product over the first array's length |
| Optimizer.ContributionsLoop | src/main/java/com/portfolioai/service/OptimizerService.java:91 | the loop yields `w_i m_i / root` for every asset |
| Optimizer.ComputeRiskContributions | src/main/java/com/portfolioai/service/OptimizerService.java:87-91 | the risk contributions are `w_i (cov . w)_i / sqrt(w . cov . w)` |
| Optimizer.ComputeRiskParityGradient | src/main/java/com/portfolioai/service/OptimizerService.java:87-95 | the risk-parity gradient is each risk contribution's deviation from their mean |
| Optimizer.UniformArray | src/main/java/com/portfolioai/service/OptimizerService.java:26-27 | the start vector holds `1/n` everywhere |
| Optimizer.ToWeightMap | src/main/java/com/portfolioai/service/OptimizerService.java:71-73 | the closing loop puts each asset's weight into the ordered map |
| Optimizer.MvoStep | src/main/java/com/portfolioai/service/OptimizerService.java:32-68 | one pass of the MVO loop body is one iteration on the MVO gradient of the old weights |
| Optimizer.MvoWeights | src/main/java/com/portfolioai/service/OptimizerService.java:25-69 | the MVO loop yields exactly 4000 iterations from equal weights |
| Optimizer.MvoLoop | src/main/java/com/portfolioai/service/OptimizerService.java:25-73 | on well-shaped inputs the solver returns the map of its 4000-iteration weights |
| Optimizer.MvoOptimize | src/main/java/com/portfolioai/service/OptimizerService.java:20-74 | `mvoOptimize` returns `Optimizer.MvoSolution`: it fails exactly when the inputs are too short, and otherwise returns a solution-shaped map |
| Optimizer.RiskParityStep | src/main/java/com/portfolioai/service/OptimizerService.java:87-125 | one pass of the risk-parity loop body is one iteration on the proxy gradient of the old weights |
| Optimizer.RiskParityWeights | src/main/java/com/portfolioai/service/OptimizerService.java:80-126 | the risk-parity loop yields exactly 5000 iterations from equal weights |
| Optimizer.RiskParityLoop | src/main/java/com/portfolioai/service/OptimizerService.java:80-130 | on a well-shaped `cov` the solver returns the map of its 5000-iteration weights |
| Optimizer.RiskParityOptimize | src/main/java/com/portfolioai/service/OptimizerService.java:77-131 | `riskParityOptimize` returns `Optimizer.RiskParitySolution`: it fails exactly when the inputs are too short, and otherwise returns a solution-shaped map |
| Optimizer.TemplatesForTier | src/main/java/com/portfolioai/service/OptimizerService.java:11-17 | `templatesForTier`; `Optimizer.TemplateTotals`, `Optimizer.TemplateWithinGuardrails` and `Optimizer.TemplateExplanation` state its rows, sums and guardrails |
| Optimizer.Redistribute | src/main/java/com/portfolioai/service/OptimizerService.java:47-65 | the constraint block of both solvers; `Optimizer.RedistributeIsShift`, `Optimizer.RedistributeKeepsMass` and `Optimizer.SingleCorrectionRestoresBound` characterise it |
| Optimizer.Iteration | src/main/java/com/portfolioai/service/OptimizerService.java:40-68 | one solver iteration after its gradient; `Optimizer.IterationBounds` and `Optimizer.TierIterationSumsToOne` bound it |
| Optimizer.MvoSolution | src/main/java/com/portfolioai/service/OptimizerService.java:20-74 | what `mvoOptimize` returns; `Optimizer.MvoSolutionProperties` states when it fails and the shape of its map |
| Optimizer.RiskParitySolution | src/main/java/com/portfolioai/service/OptimizerService.java:77-131 | what `riskParityOptimize` returns; `Optimizer.RiskParitySolutionProperties` states when it fails and the shape of its map |
| WeightMaps.IndexOf | src/main/java/com/portfolioai/service/OptimizerService.java:72 | the position of a key is its first occurrence, or -1 when it is absent |
| WeightMaps.PutLookup | src/main/java/com/portfolioai/service/OptimizerService.java:72 | after `put(k, v)`, `k` maps to `v` and every other key keeps its value; a new key goes last, a present key keeps its place |
| WeightMaps.BuildMapDistinct | src/main/java/com/portfolioai/service/OptimizerService.java:71-73 | with distinct assets the map holds one entry per asset, in input order, with that asset's weight |
| Portfolio.DefaultRequest | src/main/java/com/portfolioai/model/PortfolioRequest.java:5-9 | a request without the flag allows the template fallback |
| Portfolio.SolverChoice | src/main/java/com/portfolioai/service/PortfolioService.java:36-45 | a null option is "mvo"; "risk_parity" in any case runs risk parity labelled "risk_parity", and any other string MVO labelled "mvo"; the choice fails exactly when that solver does |
| Portfolio.RiskParityAnyCase | src/main/java/com/portfolioai/service/PortfolioService.java:39 | "risk_parity" matches in upper, lower and mixed case; "mvo" and "riskparity" do not |
| Portfolio.FallbackRule | src/main/java/com/portfolioai/service/PortfolioService.java:46-50 | a solver that succeeds is kept; a failed one becomes the tier's template labelled "templates" when the flag allows, and the same failure otherwise |
| Portfolio.EarlyFailuresPropagate | src/main/java/com/portfolioai/service/PortfolioService.java:29-31 | a null answers object or answer fails with a null-pointer error, and a failed load of the return statistics fails with its own error, whatever the flag says |
| Portfolio.ResponseFromProfile | src/main/java/com/portfolioai/service/PortfolioService.java:27-55 | a successful `generate` carries exactly the profile's score and tier; its label is one of "mvo", "risk_parity" and "templates", and "templates" only with the flag set and the tier's template as weights |
| Portfolio.GenerateSplit | src/main/java/com/portfolioai/service/PortfolioService.java:29-45 | a successful `generate` is the `try` block on the answers' profile and the loaded statistics, which fit both solvers, under a tier's guardrails |
| Portfolio.NoFallbackAfterLoad | src/main/java/com/portfolioai/service/PortfolioService.java:38-50 | once the statistics load, the chosen solver never fails, so a successful response is never labelled "templates" and always carries the chosen solver's label |
| Portfolio.SolvedShape | src/main/java/com/portfolioai/service/PortfolioService.java:38-50 | with statistics that fit the solvers and a tier's guardrails, the chosen solver succeeds without the fallback and returns VOO, VXUS and BND with weights in [0,1] summing to 1 |
| Portfolio.RespondWeights | src/main/java/com/portfolioai/service/PortfolioService.java:38-54 | from the `try` on, the response holds the three core assets with weights in [0,1] summing to 1, and its explanation reports VOO+VXUS and BND of those weights |
| Portfolio.ResponseWeights | src/main/java/com/portfolioai/service/PortfolioService.java:27-55 | every successful response holds VOO, VXUS and BND in that order, with weights in [0,1] summing to 1, and an explanation whose equity and bond shares are those weights |
| Portfolio.Solve | src/main/java/com/portfolioai/service/PortfolioService.java:36-45 | the `try` block's solver choice; `Portfolio.SolverChoice` and `Portfolio.SolvedShape` characterise it |
| Portfolio.WithFallback | src/main/java/com/portfolioai/service/PortfolioService.java:46-50 | the `catch` block; `Portfolio.FallbackRule` states its three cases |
| Portfolio.Generate | src/main/java/com/portfolioai/service/PortfolioService.java:27-55 | `generate`; `Portfolio.EarlyFailuresPropagate`, `Portfolio.ResponseFromProfile`, `Portfolio.NoFallbackAfterLoad` and `Portfolio.ResponseWeights` characterise it |
| MarketData.WindowKeepsLast | src/main/java/com/portfolioai/service/MarketDataService.java:53-54 | when the day count fits an `int`, the window is the last `min(size, yearsBack * 252)` closes |
| MarketData.SimpleReturns | src/main/java/com/portfolioai/service/MarketDataService.java:56-59 | the return series is one shorter than the window |
| MarketData.AllReturns | src/main/java/com/portfolioai/service/MarketDataService.java:37-63 | a successful per-asset loop yields one series per asset |
| MarketData.MinLength | src/main/java/com/portfolioai/service/MarketDataService.java:35-62 | `minLen` is at most every series' length, within `int` range, and `Integer.MAX_VALUE` when no asset is given |
| MarketData.Align | src/main/java/com/portfolioai/service/MarketDataService.java:66-69 | every aligned series has length `minLen` and is the tail of its original |
| MarketData.StatsOf | src/main/java/com/portfolioai/service/MarketDataService.java:65-86 | the statistics hold one mean, one covariance row of full width and one aligned series per asset |
| MarketData.CovarianceMatrix | src/main/java/com/portfolioai/service/MarketDataService.java:79-84 | the covariance matrix is `n` by `n` |
| MarketData.UnknownAssetFails | src/main/java/com/portfolioai/service/MarketDataService.java:38-39 | an asset outside the Stooq table (VOO, VXUS, BND, SPY) makes the per-asset loop fail, with its own name when every earlier asset loaded |
| MarketData.AllReturnsSucceed | src/main/java/com/portfolioai/service/MarketDataService.java:37-63 | when every asset's series loads, the loop returns exactly those series in asset order |
| MarketData.AllReturnsPrefixFails | src/main/java/com/portfolioai/service/MarketDataService.java:37-63 | once a prefix of the assets fails, the whole loop fails with that same error |
| MarketData.AssetReturnsShape | src/main/java/com/portfolioai/service/MarketDataService.java:53-59 | a loaded series comes from a mapped asset, has one entry fewer than its non-empty window, and each entry is `c[i] / c[i-1] - 1` |
| MarketData.MinLengthAttained | src/main/java/com/portfolioai/service/MarketDataService.java:35-62 | with series no longer than an `int` allows, `minLen` is the length of one of them |
| MarketData.AlignedShape | src/main/java/com/portfolioai/service/MarketDataService.java:66-69 | after alignment every series has the shortest length and is the tail of its original series |
| MarketData.MeanIsAverage | src/main/java/com/portfolioai/service/MarketDataService.java:71-77 | `mu[i]` is the arithmetic mean of aligned series `i` |
| MarketData.CovarianceSymmetric | src/main/java/com/portfolioai/service/MarketDataService.java:89-97 | the covariance of two equally long series is symmetric in them |
| MarketData.CovarianceMatrixSymmetric | src/main/java/com/portfolioai/service/MarketDataService.java:79-97 | `cov[i][j]` is the sample covariance (denominator N - 1) of aligned series `i` and `j`, and equals `cov[j][i]` |
| MarketData.LoadAssetReturns | src/main/java/com/portfolioai/service/MarketDataService.java:38-59 | the loop body yields the asset's return series or its exception |
| MarketData.CovarianceOf | src/main/java/com/portfolioai/service/MarketDataService.java:89-97 | `covariance` sums the co-deviations over `length - 1` |
| MarketData.CollectReturns | src/main/java/com/portfolioai/service/MarketDataService.java:37-63 | the per-asset loop returns the series in asset order or the first exception, and `minLen` is their shortest length |
| MarketData.AlignLengths | src/main/java/com/portfolioai/service/MarketDataService.java:66-69 | the alignment loop replaces every series by its last `minLen` entries |
| MarketData.SumOf | src/main/java/com/portfolioai/service/MarketDataService.java:74-75 | the inner loop sums one aligned series |
| MarketData.MeanVector | src/main/java/com/portfolioai/service/MarketDataService.java:71-77 | `mu[i]` is the sum of series `i` over `minLen` |
| MarketData.CovarianceRow | src/main/java/com/portfolioai/service/MarketDataService.java:80-83 | row `i` of the matrix holds the covariance of series `i` with every series |
| MarketData.FillCovariance | src/main/java/com/portfolioai/service/MarketDataService.java:79-84 | the nested loops fill the covariance matrix |
| MarketData.ComputeStats | src/main/java/com/portfolioai/service/MarketDataService.java:65-86 | alignment, `mu` and `cov` yield the statistics of the collected series |
| MarketData.LoadReturns | src/main/java/com/portfolioai/service/MarketDataService.java:33-87 | `loadReturns` yields the statistics of the loaded series, or the first exception |
| MarketData.Window | src/main/java/com/portfolioai/service/MarketDataService.java:53-54 | the `subList` window in `int` arithmetic; `MarketData.WindowKeepsLast` states its result when the day count fits |
| MarketData.Covariance | src/main/java/com/portfolioai/service/MarketDataService.java:89-97 | `covariance`; `MarketData.CovarianceSymmetric` and `MarketData.CovarianceMatrixSymmetric` characterise it |
| MarketData.LoadReturnsResult | src/main/java/com/portfolioai/service/MarketDataService.java:33-87 | what `loadReturns` returns; `MarketData.AllReturnsSucceed`, `MarketData.UnknownAssetFails`, `MarketData.MeanIsAverage` and `MarketData.CovarianceMatrixSymmetric` characterise its parts |
| MarketDataFree.PairReturns | src/main/java/com/portfolioai/service/MarketDataFreeService.java:47-57 | fewer than two closes give no returns, and never more returns than pairs |
| MarketDataFree.KeptPairsValues | src/main/java/com/portfolioai/service/MarketDataFreeService.java:50-55 | each return is `cur / prev - 1` of a pair whose two prices are positive |
| MarketDataFree.KeptPairsOrdered | src/main/java/com/portfolioai/service/MarketDataFreeService.java:50-55 | the kept pairs are in increasing order, so the returns keep the order of the closes |
| MarketDataFree.KeptPairsComplete | src/main/java/com/portfolioai/service/MarketDataFreeService.java:50-55 | every pair whose two prices are positive is kept |
| MarketDataFree.AllPositiveReturns | src/main/java/com/portfolioai/service/MarketDataFreeService.java:49-56 | with every close positive there is exactly one return per pair, `c[i+1] / c[i] - 1` |
| MarketDataFree.DailyReturns | src/main/java/com/portfolioai/service/MarketDataFreeService.java:49-56 | the loop yields the returns of the kept pairs |
| MarketDataFree.ClosesToDailyReturns | src/main/java/com/portfolioai/service/MarketDataFreeService.java:47-57 | a null list gives no returns; otherwise the returns of the kept pairs |
| MarketDataFree.HasEnoughDataMonotone | src/main/java/com/portfolioai/service/MarketDataFreeService.java:62-64 | enough data for a threshold is enough for any lower one; a null list never has enough, and any list has enough for a threshold of 0 or less |
| MarketDataFree.RowClose | src/main/java/com/portfolioai/service/MarketDataFreeService.java:102-113 | a row yields a close only when it is positive |
| MarketDataFree.RowContribution | src/main/java/com/portfolioai/service/MarketDataFreeService.java:102-113 | a row adds at most one close, and only a positive one |
| MarketDataFree.RowClosesPositive | src/main/java/com/portfolioai/service/MarketDataFreeService.java:101-116 | every kept close is positive |
| MarketDataFree.RowClosesAppend | src/main/java/com/portfolioai/service/MarketDataFreeService.java:101-116 | rows contribute independently and in file order |
| MarketDataFree.RowCloseSkips | src/main/java/com/portfolioai/service/MarketDataFreeService.java:102-113 | blank rows, rows of fewer than five fields, and rows whose trimmed close field is empty or `null` in any case contribute nothing; a row contributes at most one positive close |
| MarketDataFree.HeaderIgnored | src/main/java/com/portfolioai/service/MarketDataFreeService.java:96-101 | the first line is skipped whatever it holds |
| MarketDataFree.ParseCloses | src/main/java/com/portfolioai/service/MarketDataFreeService.java:96-116 | the row loop yields the closes of the data rows in file order |
| MarketDataFree.CachedLoadEffect | src/main/java/com/portfolioai/service/MarketDataFreeService.java:29-42 | a null or blank ticker returns nothing and leaves the cache alone; any other ends up cached under its trimmed, upper-cased form with the list returned (a cached list is returned as is), empty lists included, and no entry is lost |
| MarketDataFree.CachedLoadTwice | src/main/java/com/portfolioai/service/MarketDataFreeService.java:31-41 | a second request for the same normalised ticker returns the same list and leaves the cache as it was |
| MarketDataFree.CachedLoadConsistent | src/main/java/com/portfolioai/service/MarketDataFreeService.java:29-42 | over a run of loads the cache only gains fetched lists, so every load returns what a load on the starting cache would |
| MarketDataFree.StooqCache.constructor | src/main/java/com/portfolioai/service/MarketDataFreeService.java:23 | the cache starts empty |
| MarketDataFree.StooqCache.LoadDailyClosesUS | src/main/java/com/portfolioai/service/MarketDataFreeService.java:29-42 | `loadDailyClosesUS` returns the cached-load result and leaves the field holding the cached-load cache |
| MarketDataFree.HasEnoughData | src/main/java/com/portfolioai/service/MarketDataFreeService.java:62-64 | `hasEnoughData`; `MarketDataFree.HasEnoughDataMonotone` characterises it |
| MarketDataFree.FetchStooqDailyCloses | src/main/java/com/portfolioai/service/MarketDataFreeService.java:68-129 | `fetchStooqDailyCloses`, empty on any failed request; `MarketDataFree.HeaderIgnored`, `MarketDataFree.RowCloseSkips` and `MarketDataFree.RowClosesPositive` characterise its row loop |
| MarketDataFree.CachedLoad | src/main/java/com/portfolioai/service/MarketDataFreeService.java:29-42 | what `loadDailyClosesUS` returns and caches; `MarketDataFree.CachedLoadEffect`, `MarketDataFree.CachedLoadTwice` and `MarketDataFree.CachedLoadConsistent` characterise it |
| Metrics.SquaredDeviations | src/main/java/com/portfolioai/service/MetricsService.java:100-103 | one non-negative squared deviation per value |
| Metrics.VarianceProperties | src/main/java/com/portfolioai/service/MetricsService.java:94-105 | the population variance is never negative, and 0 for a constant list |
| Metrics.ConstantAverage | src/main/java/com/portfolioai/service/MetricsService.java:97 | the average of a constant non-empty list is that constant |
| Metrics.StdDev | src/main/java/com/portfolioai/service/MetricsService.java:94-105 | `stdDev` is 0 for an empty list and otherwise the root of the population variance |
| Metrics.PeakOf | src/main/java/com/portfolioai/service/MetricsService.java:108-112 | the running peak is a close of the series and no close exceeds it |
| Metrics.DrawdownOf | src/main/java/com/portfolioai/service/MetricsService.java:107-117 | the maximum drawdown is never positive |
| Metrics.DrawdownAboveMinusOne | src/main/java/com/portfolioai/service/MetricsService.java:107-117 | with positive closes the drawdown stays above -1 |
| Metrics.NondecreasingNoDrawdown | src/main/java/com/portfolioai/service/MetricsService.java:111-115 | a non-decreasing series starting above 0 has drawdown exactly 0 |
| Metrics.DrawdownStep | src/main/java/com/portfolioai/service/MetricsService.java:111-115 | one more close raises the peak to it if higher and lowers the drawdown to its own if deeper |
| Metrics.MaxDrawdown | src/main/java/com/portfolioai/service/MetricsService.java:107-117 | the loop yields the deepest `close / peak - 1`, starting from 0 |
| Metrics.ShortSeriesDefaults | src/main/java/com/portfolioai/service/MetricsService.java:61-67 | a null list or fewer than 50 closes gives return 0, volatility 1, drawdown -1, stability 0 and score 0, the same record the catch block builds |
| Metrics.LongSeriesMetrics | src/main/java/com/portfolioai/service/MetricsService.java:70-90 | with 50 or more closes: the total return is last / first - 1; the volatility is over the daily returns that skip non-positive pairs; the drawdown is at most 0, and above -1 for positive closes; the stability is positive and the final score 0 |
| Metrics.StabilityPositive | src/main/java/com/portfolioai/service/MetricsService.java:86-88 | the stability score `1 / (max(vol, 1e-4) + abs(dd) + 0.01)` is positive |
| Metrics.Compute | src/main/java/com/portfolioai/service/MetricsService.java:57-92 | `compute` returns the metrics of the series |
| Metrics.MapListAt | src/main/java/com/portfolioai/service/MetricsService.java:28-36 | entry `k` of the mapped list is the record of element `k` |
| Metrics.RecordsOfOrder | src/main/java/com/portfolioai/service/MetricsService.java:28-36 | entry `k` of the output is the record of the `k`-th ticker visited, computed from the cache at the start |
| Metrics.MetricsStep | src/main/java/com/portfolioai/service/MetricsService.java:30-36 | one loop body records the ticker's metrics as a load on the starting cache would give them, and keeps the cache an extension of the start |
| Metrics.ComputeAllMetrics | src/main/java/com/portfolioai/service/MetricsService.java:25-51 | one entry per non-blank allowed ticker, each visited once, each the metrics of the closes a load on the starting cache gives; the cache only gains fetched lists |
| Metrics.Variance | src/main/java/com/portfolioai/service/MetricsService.java:97-104 | the population variance inside `stdDev`; `Metrics.VarianceProperties` characterises it |
| Metrics.MetricsOf | src/main/java/com/portfolioai/service/MetricsService.java:57-92 | what `compute` returns; `Metrics.ShortSeriesDefaults` and `Metrics.LongSeriesMetrics` characterise it |
| Normalization.MinOr | src/main/java/com/portfolioai/service/NormalizationUtil.java:10 | the minimum is an element at most every element, or the default for an empty list |
| Normalization.MaxOr | src/main/java/com/portfolioai/service/NormalizationUtil.java:11 | the maximum is an element at least every element, or the default for an empty list |
| Normalization.NormalizeReturns | src/main/java/com/portfolioai/service/NormalizationUtil.java:9-16 | the array becomes its old contents with every totalReturn rescaled |
| Normalization.NormalizeStability | src/main/java/com/portfolioai/service/NormalizationUtil.java:18-25 | the array becomes its old contents with every stabilityScore rescaled |
| Normalization.NormalizeValueInUnit | src/main/java/com/portfolioai/service/NormalizationUtil.java:27-30 | a value between the minimum and the maximum scales into [0,1] |
| Normalization.NormalizeValueMonotone | src/main/java/com/portfolioai/service/NormalizationUtil.java:29 | scaling keeps the order of two values within the range |
| Normalization.NormalizeValueEnds | src/main/java/com/portfolioai/service/NormalizationUtil.java:29 | with a non-empty range the ends scale to 0 and 1 |
| Normalization.RescaleInUnit | src/main/java/com/portfolioai/service/NormalizationUtil.java:9-16 | every rescaled value lies in [0,1] |
| Normalization.RescaleConstant | src/main/java/com/portfolioai/service/NormalizationUtil.java:28 | when all values are equal every output is 0.5 |
| Normalization.RescaleEndpoints | src/main/java/com/portfolioai/service/NormalizationUtil.java:29 | when the values differ the minimum scales to 0 and the maximum to 1, and both are reached |
| Normalization.RescaleMonotone | src/main/java/com/portfolioai/service/NormalizationUtil.java:29 | `a <= b` before implies `a' <= b'` after |
| Normalization.NormalizedReturnsFrame | src/main/java/com/portfolioai/service/NormalizationUtil.java:13-15 | `normalizeReturns` keeps the length, the order and every field but totalReturn, and rescales every totalReturn |
| Normalization.NormalizedStabilityFrame | src/main/java/com/portfolioai/service/NormalizationUtil.java:22-24 | `normalizeStability` keeps the length, the order and every field but stabilityScore, and rescales every stabilityScore |
| Normalization.BothPassesInUnit | src/main/java/com/portfolioai/service/NormalizationUtil.java:9-25 | after both passes the two scaled fields of every element lie in [0,1], and its other fields are unchanged |
| Normalization.NormalizeValue | src/main/java/com/portfolioai/service/NormalizationUtil.java:27-30 | `normalize`; `Normalization.NormalizeValueInUnit`, `Normalization.NormalizeValueMonotone` and `Normalization.NormalizeValueEnds` characterise it |
| Normalization.Rescale | src/main/java/com/portfolioai/service/NormalizationUtil.java:9-16 | every value scaled by the list's minimum and maximum; `Normalization.RescaleInUnit`, `Normalization.RescaleConstant`, `Normalization.RescaleEndpoints` and `Normalization.RescaleMonotone` characterise it |
| Universe.SectorIndex | src/main/java/com/portfolioai/service/UniverseService.java:66 | the lookup finds the sector of that name, or none exists |
| Universe.Distinct | src/main/java/com/portfolioai/service/UniverseService.java:126 | `distinct()` keeps exactly the elements of its input, without repeats |
| Universe.FirstIndex | src/main/java/com/portfolioai/service/UniverseService.java:126 | the first occurrence of an element |
| Universe.DistinctOrder | src/main/java/com/portfolioai/service/UniverseService.java:126 | `distinct()` keeps elements in the order of their first occurrence |
| Universe.CanonList | src/main/java/com/portfolioai/service/UniverseService.java:121-125 | after the null, trim, empty and upper-case stages every element is canonical |
| Universe.CleanTickers | src/main/java/com/portfolioai/service/UniverseService.java:119-127 | a cleaned list (empty for a null one) is canonical and free of duplicates |
| Universe.PutSectorLookup | src/main/java/com/portfolioai/service/UniverseService.java:129 | `put` keeps the names distinct, stores the new list under its key, and leaves every other key where it was |
| Universe.SectorsByNames | src/main/java/com/portfolioai/service/UniverseService.java:116-130 | the loaded map has distinct, non-empty names |
| Universe.SectorsBySource | src/main/java/com/portfolioai/service/UniverseService.java:116-130 | each sector is the cleaned key and list of some JSON entry |
| Universe.SectorsByPresent | src/main/java/com/portfolioai/service/UniverseService.java:117-129 | every entry with a non-empty cleaned key has a sector |
| Universe.SectorsByLast | src/main/java/com/portfolioai/service/UniverseService.java:117-129 | a sector holds the list of the last entry with its key |
| Universe.LoadedSectorsShape | src/main/java/com/portfolioai/service/UniverseService.java:116-130 | names are distinct, trimmed, lower-cased and non-empty, each from some entry whose cleaned list it holds; lists are canonical and free of duplicates |
| Universe.LoadedSectorsLast | src/main/java/com/portfolioai/service/UniverseService.java:116-130 | every entry with a non-blank key is present, and a repeated key holds the cleaned list of its last entry |
| Universe.LoadCustomSectors | src/main/java/com/portfolioai/service/UniverseService.java:116-131 | the entry loop builds the loaded sector map; a missing, blank or unreadable file gives the empty map |
| Universe.Sp500LineCanonical | src/main/java/com/portfolioai/service/UniverseService.java:158-164 | every ticker a line yields is trimmed, upper-cased and non-empty |
| Universe.ScanContents | src/main/java/com/portfolioai/service/UniverseService.java:157-165 | when no line throws, the set holds exactly the tickers the lines yield |
| Universe.ScanFails | src/main/java/com/portfolioai/service/UniverseService.java:157-171 | one throwing line makes the whole loop throw |
| Universe.ScanFailsWitness | src/main/java/com/portfolioai/service/UniverseService.java:157-171 | a throwing loop has a throwing line |
| Universe.Sp500Contents | src/main/java/com/portfolioai/service/UniverseService.java:156-166 | when no line throws, the set holds exactly the tickers the lines yield (the trimmed, upper-cased first field of a line that is neither blank nor a "ticker" header), all of them canonical |
| Universe.CommaLineEmptiesList | src/main/java/com/portfolioai/service/UniverseService.java:163-170 | a single line made only of commas makes indexing throw, and the catch empties the whole S&P 500 set |
| Universe.LoadSp500 | src/main/java/com/portfolioai/service/UniverseService.java:156-171 | the line loop builds the S&P 500 set, or the empty set when the file is missing or any line throws |
| Universe.AllowedIsUnion | src/main/java/com/portfolioai/service/UniverseService.java:36-47 | every allowed ticker is canonical, and over canonical inputs the pipeline is the plain union of the S&P 500 set and the sector lists |
| Universe.IsAllowedCanonical | src/main/java/com/portfolioai/service/UniverseService.java:69-72 | `isAllowed(null)` is false; otherwise a ticker is allowed exactly when its trimmed, upper-cased form is |
| Universe.TickersForSectorAnyCase | src/main/java/com/portfolioai/service/UniverseService.java:64-67 | the sector lookup ignores the letter case of the name |
| Universe.TagListEffect | src/main/java/com/portfolioai/service/UniverseService.java:88-92 | a list's loop tags each of its keyed tickers with the sector name and leaves every other tag alone |
| Universe.OverlayEffect | src/main/java/com/portfolioai/service/UniverseService.java:86-93 | a ticker of some sector list is tagged with the name of a sector whose list holds it, and every other tag is kept |
| Universe.TickerTagsRule | src/main/java/com/portfolioai/service/UniverseService.java:75-94 | a non-blank S&P 500 or sector ticker is tagged under its canonical form and nothing else is; a sector ticker carries the name of a sector holding it, for any map order; any other carries "sp500" |
| Universe.KeyedSp500Add | src/main/java/com/portfolioai/service/UniverseService.java:79-83 | one more S&P 500 ticker adds its "sp500" tag when it is not blank |
| Universe.TagListStep | src/main/java/com/portfolioai/service/UniverseService.java:88-92 | one more list ticker overwrites its canonical key's tag with the sector name unless it is blank |
| Universe.OverlayStep | src/main/java/com/portfolioai/service/UniverseService.java:86-93 | one more sector runs its list's loop over the tags so far |
| Universe.GetTickerTags | src/main/java/com/portfolioai/service/UniverseService.java:75-94 | the two loops build the tag map |
| Universe.LoadedCanonical | src/main/java/com/portfolioai/service/UniverseService.java:116-165 | every ticker the two loaders keep is canonical |
| Universe.UniverseAllowed | src/main/java/com/portfolioai/service/UniverseService.java:36-47 | the allowed set is the union of the S&P 500 set and every sector list, all canonical |
| Universe.NewUniverse | src/main/java/com/portfolioai/service/UniverseService.java:31-47 | the constructor loads both files and builds the allowed set from them |
| Universe.Sp500Line | src/main/java/com/portfolioai/service/UniverseService.java:157-164 | one line of the S&P 500 loop; `Universe.Sp500LineCanonical`, `Universe.Sp500Contents` and `Universe.CommaLineEmptiesList` characterise it |
| Universe.AllowedTickers | src/main/java/com/portfolioai/service/UniverseService.java:36-47 | the constructor's allowed-set pipeline; `Universe.AllowedIsUnion` and `Universe.UniverseAllowed` characterise it |
| Universe.TickersForSector | src/main/java/com/portfolioai/service/UniverseService.java:64-67 | `getTickersForSector`; `Universe.TickersForSectorAnyCase` characterises it |
| Universe.IsAllowed | src/main/java/com/portfolioai/service/UniverseService.java:69-72 | `isAllowed`; `Universe.IsAllowedCanonical` characterises it |
| Universe.TickerTags | src/main/java/com/portfolioai/service/UniverseService.java:75-94 | `getTickerTags`; `Universe.TickerTagsRule` and `Recommender.TagOrRule` characterise it |
| Recommender.BlendChoice | src/main/java/com/portfolioai/service/FreeAiStockPortfolioService.java:37-42 | a tolerance equal to "low" ignoring case is conservative (3, 0.30/0.70), one equal to "high" ignoring case aggressive (8, 0.70/0.30), and every other, null included, balanced (6, 0.50/0.50); the weights are non-negative and sum to 1 |
| Recommender.ScoreAll | src/main/java/com/portfolioai/service/FreeAiStockPortfolioService.java:45-47 | the scoring loop sets every finalScore to the blend, in place |
| Recommender.BlendedInUnit | src/main/java/com/portfolioai/service/FreeAiStockPortfolioService.java:46 | a blend of two scaled values lies in [0,1] |
| Recommender.ScoredFrame | src/main/java/com/portfolioai/service/FreeAiStockPortfolioService.java:45-47 | scoring sets only finalScore, to `wReturn * totalReturn + wStability * stabilityScore` |
| Recommender.ScoresInUnit | src/main/java/com/portfolioai/service/FreeAiStockPortfolioService.java:29-47 | after both normalisation passes every blended score lies in [0,1] |
| Recommender.InsertDesc | src/main/java/com/portfolioai/service/FreeAiStockPortfolioService.java:50-52 | an insertion adds exactly one element |
| Recommender.InsertDescSorted | src/main/java/com/portfolioai/service/FreeAiStockPortfolioService.java:50-52 | inserting into a descending list keeps it descending and adds exactly the new element |
| Recommender.InsertDescStable | src/main/java/com/portfolioai/service/FreeAiStockPortfolioService.java:50-52 | an inserted element goes before every element of its own score |
| Recommender.SortDescCorrect | src/main/java/com/portfolioai/service/FreeAiStockPortfolioService.java:50-52 | the ranking is descending by finalScore, a permutation of its input, and stable |
| Recommender.KeysMembers | src/main/java/com/portfolioai/service/FreeAiStockPortfolioService.java:59-63 | a key is listed exactly when some metric has it |
| Recommender.SelectCases | src/main/java/com/portfolioai/service/FreeAiStockPortfolioService.java:59-69 | an empty, disallowed or already used ticker is skipped, and any other is picked |
| Recommender.ChosenOnceFull | src/main/java/com/portfolioai/service/FreeAiStockPortfolioService.java:71 | once six distinct keys are found the loop stops with them |
| Recommender.ChosenAtEnd | src/main/java/com/portfolioai/service/FreeAiStockPortfolioService.java:59-72 | with fewer than six distinct keys in the list, all of them are picked |
| Recommender.SelectPicks | src/main/java/com/portfolioai/service/FreeAiStockPortfolioService.java:56-72 | the selection loop yields the first six distinct keys (or all of them), each with its tag and weight 1 |
| Recommender.WeighPicks | src/main/java/com/portfolioai/service/FreeAiStockPortfolioService.java:80-92 | the weight loops give each pick `exp(score - max)` divided by their sum |
| Recommender.SharesSumToOne | src/main/java/com/portfolioai/service/FreeAiStockPortfolioService.java:82-92 | positive raw weights give shares in (0,1] that sum to 1 |
| Recommender.PickAndWeigh | src/main/java/com/portfolioai/service/FreeAiStockPortfolioService.java:54-102 | selection, the size check and the weight loops yield the response of the ranked list |
| Recommender.Recommend | src/main/java/com/portfolioai/service/FreeAiStockPortfolioService.java:23-103 | `recommend` records one metric per non-blank allowed ticker through the cache, then yields the response of those metrics; a null answers object fails after the metrics pass |
| Recommender.KeysPermutation | src/main/java/com/portfolioai/service/FreeAiStockPortfolioService.java:50-52 | ranking does not change which keys occur |
| Recommender.QualifyingAreKeys | src/main/java/com/portfolioai/service/FreeAiStockPortfolioService.java:60-62 | the selection keys are exactly the trimmed, upper-cased, non-empty, allowed tickers |
| Recommender.RankedKeys | src/main/java/com/portfolioai/service/FreeAiStockPortfolioService.java:29-63 | normalising, scoring and ranking keep the tickers, so the ranked keys are the qualifying tickers of the input |
| Recommender.DistinctRankedCount | src/main/java/com/portfolioai/service/FreeAiStockPortfolioService.java:50-72 | the ranked list has as many distinct keys as there are qualifying tickers |
| Recommender.ResponseOutcome | src/main/java/com/portfolioai/service/FreeAiStockPortfolioService.java:71-76 | over any ranked list the response exists exactly when six distinct keys do, and otherwise fails with the not-enough-picks error |
| Recommender.RecommendationOutcome | src/main/java/com/portfolioai/service/FreeAiStockPortfolioService.java:37-76 | null answers fail; otherwise `recommend` fails exactly when fewer than six distinct tickers qualify, and then with the not-enough-picks error |
| Recommender.PickKeyCanonical | src/main/java/com/portfolioai/service/FreeAiStockPortfolioService.java:60-62 | a selection key is canonical and allowed |
| Recommender.ChosenProperties | src/main/java/com/portfolioai/service/FreeAiStockPortfolioService.java:59-69 | the chosen tickers are distinct keys of the list, each canonical and allowed |
| Recommender.ResponseShape | src/main/java/com/portfolioai/service/FreeAiStockPortfolioService.java:59-98 | a response carries the blend's score and tier and exactly the first six distinct keys, each tagged with its universe tag or "sp500" |
| Recommender.ResponsePicks | src/main/java/com/portfolioai/service/FreeAiStockPortfolioService.java:59-98 | a response has the blend's score and tier and six picks with distinct, canonical, allowed tickers from the list, each tagged with its universe tag or "sp500" |
| Recommender.RecommendationPicks | src/main/java/com/portfolioai/service/FreeAiStockPortfolioService.java:37-98 | a successful `recommend` has the tolerance's score and tier, and six distinct, canonical, allowed, qualifying tickers with their tags |
| Recommender.ResponseWeights | src/main/java/com/portfolioai/service/FreeAiStockPortfolioService.java:80-92 | with `exp` positive, the six weights lie in (0,1] and sum to 1 |
| Recommender.RecommendationWeights | src/main/java/com/portfolioai/service/FreeAiStockPortfolioService.java:80-92 | with `exp` positive, the weights of a successful `recommend` lie in (0,1] and sum to 1 |
| Recommender.DistinctPrefixOrder | src/main/java/com/portfolioai/service/FreeAiStockPortfolioService.java:59-72 | the first distinct keys appear in list order before every other key |
| Recommender.ResponseOrder | src/main/java/com/portfolioai/service/FreeAiStockPortfolioService.java:50-72 | the picks are the leading keys of the ranked list: in pick order, and before every key left out |
| Recommender.RecommendationOrder | src/main/java/com/portfolioai/service/FreeAiStockPortfolioService.java:50-72 | the picks of `recommend` are the first qualifying tickers in the ranking by descending blended score |
| Recommender.TagOrRule | src/main/java/com/portfolioai/service/FreeAiStockPortfolioService.java:67 | a pick's tag is "sp500" or the name of a sector listing it, and a sector ticker always gets a sector name |
| Recommender.BlendFor | src/main/java/com/portfolioai/service/FreeAiStockPortfolioService.java:37-42 | the tier and blend weights; `Recommender.BlendChoice` characterises it |
| Recommender.SortDesc | src/main/java/com/portfolioai/service/FreeAiStockPortfolioService.java:50-52 | the ranking by descending finalScore; `Recommender.SortDescCorrect` characterises it |
| Recommender.ScoreOf | src/main/java/com/portfolioai/service/FreeAiStockPortfolioService.java:85-86 | the finalScore of the first ranked metric whose ticker equals the pick's ignoring case, 0 when none does; `Recommender.WeighPicks` and `Recommender.ResponseWeights` use it |
| Recommender.Recommendation | src/main/java/com/portfolioai/service/FreeAiStockPortfolioService.java:29-102 | `recommend` after the metrics pass; `Recommender.RecommendationOutcome`, `Recommender.RecommendationPicks`, `Recommender.RecommendationOrder` and `Recommender.RecommendationWeights` characterise it |

## Left out

- Network and file input, because the model takes their results as inputs.
  - The Stooq downloads (`MarketDataService.java:41-51`, `MarketDataFreeService.java:68-90`) are the functions `fetch` and `body`.
  - The line splitting `split("\\R")` is the parameter `splitLines`.
  - `Double.parseDouble` is the partial function `parse`.
  - The classpath and Jackson loading of the universe files (`UniverseService.java:99-113`, `UniverseService.java:139-150`) is a parsed input, None when the file is missing, blank or unreadable.
- All `System.out` logging and the low-data warning (`MarketDataFreeService.java:120-122`), because they print and return nothing.
- Floating point, because the model uses exact reals.
  - `double` is `real` and rounding is not modelled.
  - `Math.sqrt` and `Math.exp` are the parameters `sqrt` and `exp`.
- Java NaN and infinity, because the model has no such values.
  - A division by zero is 0 in the model, where Java gives NaN or an infinity. This applies in these places:
    - the mean over `minLen == 0` returns;
    - the covariance of one-element series;
    - a zero close in the simple returns of `loadReturns`;
    - risk parity's `w_i m_i / sqrt(portVar)` when the portfolio variance is 0. Java's NaN there carries into every later weight, while the model gives 0;
    - a zero first close in the total return of `compute`;
    - a zero peak in the drawdown;
    - a zero sum of the pick weights.
  - When the six pick weights sum to 0 (only possible with a non-positive `exp`), Java would produce NaN weights, which the model does not carry.
- Metrics.NondecreasingNoDrawdown: requires a positive first close, because a zero peak divides by zero. Java's NaN then makes the `dd < maxDd` comparison false, while the model's 0 does not.
- Text formatting, because it is string presentation only.
  - The portfolio explanation is the tier, the constraint map, and the equity and bond shares; `String.format("%.0f%%")` and the prose are not modelled.
  - The recommender's explanation spells only the three blend weights it can use.
- Case mapping is ASCII only, because full Unicode case mapping is out of scope.
- The iteration order of `HashMap`, `HashSet` and `Map.of`, because Java leaves it unspecified.
  - The order of `computeAllMetrics` is a ghost sequence in the method's contract.
  - The sector map is a sequence in arbitrary order (the tag properties hold for every order).
  - The templates and solver maps list VOO, VXUS, BND in that order.
  - The first loop of `getTickerTags` takes set elements in an arbitrary order.
- `ConcurrentHashMap` thread safety, because the model has no concurrency; the cache is a plain map field of a class.
- The catch block of `computeAllMetrics` (`MetricsService.java:38-47`), because no call inside the `try` can throw.
  - `loadDailyClosesUS` catches everything, and `compute` does not throw on a non-null list.
  - The record the catch builds is the default record, which `Metrics.ShortSeriesDefaults` shows an empty list also gets.
- A null ticker in `computeAllMetrics` and in the recommender, because the allowed set filters nulls out; tickers are non-null strings.
- Object identity of `StockMetrics`, because `computeAllMetrics` creates a fresh object for each ticker, so the list never holds one object twice.
  - The metrics are values in an array updated in place.
  - Aliasing between list elements is not captured.
- The stream `sorted` step, because the model uses a pure definition instead; it is an insertion-sort function proved descending, a permutation and stable, which is what a stable sort with a reversed comparator yields.
- Convergence, optimality, and satisfaction of the guardrails after the solver loops, because the code does not promise them; only per-iteration bounds, sums and mass conservation are proved.
- `BacktestService` and `PortfolioController`, because they lie outside this model (HTTP routing and a report built on two network loads).
- The getters `getAllowedTickers` and `getSectorMap`, because they only return the fields of `Universe.UniverseState`.
