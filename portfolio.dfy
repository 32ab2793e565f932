/** PortfolioService: profile the answers, load the return statistics of the
    three fixed assets, run the requested solver and fall back to the tier's
    template when the solver throws and the request allows it.  The price
    download is the parameter `fetch` and `Math.sqrt` the parameter `sqrt`. */
module Portfolio {
  import opened Common
  import opened JavaStrings
  import opened RealSeq
  import opened WeightMaps
  import opened Risk
  import opened Optimizer
  import opened MarketData

  const Assets: seq<string> := ["VOO", "VXUS", "BND"]
  const LookbackYears: Int32 := 3

  /** PortfolioRequest: the answers (null allowed), the optional optimizer
      name and the fallback flag. */
  datatype PortfolioRequest = PortfolioRequest(
    answers: Option<QuizAnswers>,
    optimizer: Option<string>,
    useTemplatesIfNeeded: bool)

  /** A request as deserialised when the fallback flag is absent: the field
      initialiser sets it to true. */
  function DefaultRequest(answers: Option<QuizAnswers>, optimizer: Option<string>): (r: PortfolioRequest)
    ensures r.useTemplatesIfNeeded
    ensures r.answers == answers && r.optimizer == optimizer
  {
    PortfolioRequest(answers, optimizer, true)
  }

  datatype PortfolioResponse = PortfolioResponse(
    riskScore: int,
    riskTier: string,
    assets: WeightMap,
    explanation: Explanation,
    optimizerUsed: string)

  /** A null optimizer option means "mvo". */
  function OptimizerName(opt: Option<string>): string
  {
    match opt
    case None => "mvo"
    case Some(s) => s
  }

  predicate ChoosesRiskParity(optimizer: string)
  {
    EqualsIgnoreCase("risk_parity", optimizer)
  }

  /** The `try` block: the chosen solver's map and its label, or the
      solver's exception. */
  function Solve(optimizer: string, stats: ReturnStats, c: Constraints, sqrt: real -> real): Result<(WeightMap, string)>
  {
    if ChoosesRiskParity(optimizer) then
      match RiskParitySolution(Assets, stats.cov, c, sqrt)
      case Failure(e) => Failure(e)
      case Success(m) => Success((m, "risk_parity"))
    else
      match MvoSolution(Assets, stats.mu, stats.cov, c)
      case Failure(e) => Failure(e)
      case Success(m) => Success((m, "mvo"))
  }

  /** The `catch` block: rethrow unless the request allows the template. */
  function WithFallback(solved: Result<(WeightMap, string)>, allowTemplates: bool, tier: string): Result<(WeightMap, string)>
  {
    if solved.Success? || !allowTemplates then solved
    else Success((TemplatesForTier(tier), "templates"))
  }

  /** `generate`.  A null answers object fails inside `profile`; profiling and
      the return statistics come before the `try`, so their failures always
      propagate. */
  function Generate(req: PortfolioRequest, fetch: string -> Result<seq<real>>, sqrt: real -> real): Result<PortfolioResponse>
  {
    if req.answers.None? then Failure(NullPointer)
    else
      match Profile(req.answers.value)
      case Failure(e) => Failure(e)
      case Success(rr) =>
        match LoadReturnsResult(Assets, LookbackYears, fetch)
        case Failure(e) => Failure(e)
        case Success(stats) => Respond(req, rr, stats, sqrt)
  }

  /** From the `try` onward, given the profile and the statistics. */
  function Respond(req: PortfolioRequest, rr: RiskResult, stats: ReturnStats, sqrt: real -> real): Result<PortfolioResponse>
  {
    match WithFallback(Solve(OptimizerName(req.optimizer), stats, rr.constraints, sqrt), req.useTemplatesIfNeeded, rr.tier)
    case Failure(e) => Failure(e)
    case Success((weights, used)) =>
      match ExplanationOf(rr.tier, rr.constraints, weights)
      case Failure(e) => Failure(e)
      case Success(ex) => Success(PortfolioResponse(rr.score, rr.tier, weights, ex, used))
  }

  // ---------------------------------------------------------------------
  // Properties

  /** Solver choice: a null option is "mvo"; "risk_parity" in any letter case
      picks risk parity and its label, any other string MVO and "mvo". */
  lemma SolverChoice(opt: Option<string>, stats: ReturnStats, c: Constraints, sqrt: real -> real)
    ensures opt.None? ==> !ChoosesRiskParity(OptimizerName(opt))
    ensures var r := Solve(OptimizerName(opt), stats, c, sqrt);
      && (ChoosesRiskParity(OptimizerName(opt)) ==> r.Success? ==> r.value.1 == "risk_parity")
      && (!ChoosesRiskParity(OptimizerName(opt)) ==> r.Success? ==> r.value.1 == "mvo")
      && (ChoosesRiskParity(OptimizerName(opt)) ==> r.Failure? == RiskParitySolution(Assets, stats.cov, c, sqrt).Failure?)
      && (!ChoosesRiskParity(OptimizerName(opt)) ==> r.Failure? == MvoSolution(Assets, stats.mu, stats.cov, c).Failure?)
  {
  }

  /** "risk_parity" in upper, lower or mixed case selects risk parity. */
  lemma RiskParityAnyCase()
    ensures ChoosesRiskParity("risk_parity") && ChoosesRiskParity("RISK_PARITY") && ChoosesRiskParity("Risk_Parity")
    ensures !ChoosesRiskParity("mvo") && !ChoosesRiskParity("riskparity")
  {
    assert |"riskparity"| != |"risk_parity"|;
    assert "mvo"[0] == 'm';
  }

  /** The fallback: a failed solver becomes the tier's template, labelled
      "templates", when the flag is set; the same failure otherwise.  A
      successful solver is never replaced. */
  lemma FallbackRule(solved: Result<(WeightMap, string)>, allowTemplates: bool, tier: string)
    ensures solved.Success? ==> WithFallback(solved, allowTemplates, tier) == solved
    ensures solved.Failure? && allowTemplates ==>
      WithFallback(solved, allowTemplates, tier) == Success((TemplatesForTier(tier), "templates"))
    ensures solved.Failure? && !allowTemplates ==> WithFallback(solved, allowTemplates, tier) == solved
  {
  }

  /** Failures before the `try` always propagate, whatever the flag says. */
  lemma {:induction false} EarlyFailuresPropagate(req: PortfolioRequest, fetch: string -> Result<seq<real>>, sqrt: real -> real)
    ensures req.answers.None? ==> Generate(req, fetch, sqrt) == Failure(NullPointer)
    ensures req.answers.Some? && !AllAnswered(req.answers.value) ==> Generate(req, fetch, sqrt) == Failure(NullPointer)
    ensures req.answers.Some? && AllAnswered(req.answers.value) && LoadReturnsResult(Assets, LookbackYears, fetch).Failure?
      ==> Generate(req, fetch, sqrt) == Failure(LoadReturnsResult(Assets, LookbackYears, fetch).error)
  {
    if req.answers.Some? && AllAnswered(req.answers.value) {
      TierLadder(req.answers.value);
    }
  }

  /** Whenever `generate` succeeds its score and tier are those of the risk
      profile, its weights are the chosen solver's or the template, and the
      label says which. */
  lemma {:induction false} ResponseFromProfile(req: PortfolioRequest, fetch: string -> Result<seq<real>>, sqrt: real -> real)
    requires Generate(req, fetch, sqrt).Success?
    ensures req.answers.Some? && AllAnswered(req.answers.value)
    ensures var resp := Generate(req, fetch, sqrt).value;
      var rr := Profile(req.answers.value).value;
      && resp.riskScore == rr.score && resp.riskTier == rr.tier
      && 0 <= resp.riskScore <= 8 && resp.riskTier == TierFor(resp.riskScore)
      && (resp.optimizerUsed == "mvo" || resp.optimizerUsed == "risk_parity" || resp.optimizerUsed == "templates")
      && (resp.optimizerUsed == "templates" ==> req.useTemplatesIfNeeded && resp.assets == TemplatesForTier(rr.tier))
  {
    EarlyFailuresPropagate(req, fetch, sqrt);
  }

  /** A successful `generate` is the `try` block on the answers' profile
      and the loaded statistics, which fit the solvers, under a tier's
      guardrails. */
  lemma {:induction false} GenerateSplit(req: PortfolioRequest, fetch: string -> Result<seq<real>>, sqrt: real -> real)
    requires Generate(req, fetch, sqrt).Success?
    ensures req.answers.Some? && Profile(req.answers.value).Success?
    ensures LoadReturnsResult(Assets, LookbackYears, fetch).Success?
    ensures var rr := Profile(req.answers.value).value;
      var stats := LoadReturnsResult(Assets, LookbackYears, fetch).value;
      && Generate(req, fetch, sqrt) == Respond(req, rr, stats, sqrt)
      && MvoShape(|Assets|, stats.mu, stats.cov) && TierGuardrails(rr.constraints)
  {
    EarlyFailuresPropagate(req, fetch, sqrt);
    var rr := Profile(req.answers.value).value;
    ConstraintsAreTierGuardrails(rr.score);
  }

  /** The statistics from a successful load of the three assets always fit
      both solvers, so neither throws and the template is never used. */
  lemma {:induction false} NoFallbackAfterLoad(req: PortfolioRequest, fetch: string -> Result<seq<real>>, sqrt: real -> real)
    requires Generate(req, fetch, sqrt).Success?
    ensures Generate(req, fetch, sqrt).value.optimizerUsed != "templates"
    ensures var resp := Generate(req, fetch, sqrt).value;
      resp.optimizerUsed == (if ChoosesRiskParity(OptimizerName(req.optimizer)) then "risk_parity" else "mvo")
  {
    GenerateSplit(req, fetch, sqrt);
    var rr := Profile(req.answers.value).value;
    var stats := LoadReturnsResult(Assets, LookbackYears, fetch).value;
    SolvedShape(OptimizerName(req.optimizer), stats, rr.constraints, sqrt, req.useTemplatesIfNeeded, rr.tier);
  }

  /** A successful response holds VOO, VXUS and BND in that order, with
      weights in [0,1] summing to 1, and its explanation's equity and bond
      shares are those weights. */
  lemma {:induction false} ResponseWeights(req: PortfolioRequest, fetch: string -> Result<seq<real>>, sqrt: real -> real)
    requires Generate(req, fetch, sqrt).Success?
    ensures var resp := Generate(req, fetch, sqrt).value;
      && CoreAssets(resp.assets) && InUnitInterval(Weights(resp.assets))
      && Sum(Weights(resp.assets)) == 1.0
      && resp.explanation.equity == resp.assets[0].weight + resp.assets[1].weight
      && resp.explanation.bond == resp.assets[2].weight
      && resp.explanation.tier == ToUpper(resp.riskTier)
  {
    GenerateSplit(req, fetch, sqrt);
    RespondWeights(req, Profile(req.answers.value).value, LoadReturnsResult(Assets, LookbackYears, fetch).value, sqrt);
  }

  /** With statistics that fit the solvers and a tier's guardrails, the
      chosen solver succeeds, the fallback is not taken, and the map holds
      VOO, VXUS and BND with weights in [0,1] summing to 1. */
  lemma {:induction false} SolvedShape(optimizer: string, stats: ReturnStats, c: Constraints, sqrt: real -> real,
                                       allowTemplates: bool, tier: string)
    requires MvoShape(|Assets|, stats.mu, stats.cov) && TierGuardrails(c)
    ensures var r := WithFallback(Solve(optimizer, stats, c, sqrt), allowTemplates, tier);
      && r.Success?
      && r.value.1 == (if ChoosesRiskParity(optimizer) then "risk_parity" else "mvo")
      && CoreAssets(r.value.0) && InUnitInterval(Weights(r.value.0)) && Sum(Weights(r.value.0)) == 1.0
  {
    assert DistinctAssets(Assets);
    if ChoosesRiskParity(optimizer) {
      RiskParitySolutionProperties(Assets, stats.cov, c, sqrt);
    } else {
      MvoSolutionProperties(Assets, stats.mu, stats.cov, c);
    }
  }

  lemma {:induction false} RespondWeights(req: PortfolioRequest, rr: RiskResult, stats: ReturnStats, sqrt: real -> real)
    requires MvoShape(|Assets|, stats.mu, stats.cov) && TierGuardrails(rr.constraints)
    requires Respond(req, rr, stats, sqrt).Success?
    ensures var resp := Respond(req, rr, stats, sqrt).value;
      && CoreAssets(resp.assets) && InUnitInterval(Weights(resp.assets))
      && Sum(Weights(resp.assets)) == 1.0
      && resp.explanation.equity == resp.assets[0].weight + resp.assets[1].weight
      && resp.explanation.bond == resp.assets[2].weight
      && resp.explanation.tier == ToUpper(resp.riskTier)
  {
    SolvedShape(OptimizerName(req.optimizer), stats, rr.constraints, sqrt, req.useTemplatesIfNeeded, rr.tier);
    var m := WithFallback(Solve(OptimizerName(req.optimizer), stats, rr.constraints, sqrt), req.useTemplatesIfNeeded, rr.tier).value.0;
    ExplanationShares(rr.tier, rr.constraints, m);
    assert Weights(m) == [m[0].weight, m[1].weight, m[2].weight];
  }
}
