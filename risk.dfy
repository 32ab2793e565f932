/** RiskService: the questionnaire score, the tier ladder and the optimizer
    guardrails of each tier. */
module Risk {
  import opened Common

  /** QuizAnswers; each answer may be null. */
  datatype QuizAnswers = QuizAnswers(
    riskTolerance: Option<string>,
    horizon: Option<string>,
    goal: Option<string>,
    marketDropReaction: Option<string>)

  /** Constraint name to bound, e.g. "eq_min" -> 0.55. */
  type Constraints = map<string, real>

  datatype RiskResult = RiskResult(score: int, tier: string, constraints: Constraints)

  const Conservative: string := "conservative"
  const Balanced: string := "balanced"
  const Aggressive: string := "aggressive"

  datatype Question = RiskTolerance | Horizon | Goal | MarketDrop

  /** The three recognised answers of a question, from cautious to bold. */
  function Options(q: Question): (string, string, string)
  {
    match q
    case RiskTolerance => ("low", "med", "high")
    case Horizon => ("<1y", "1-5y", "5y+")
    case Goal => ("income", "mix", "growth")
    case MarketDrop => ("panic", "hold", "buy_more")
  }

  function Answer(a: QuizAnswers, q: Question): Option<string>
  {
    match q
    case RiskTolerance => a.riskTolerance
    case Horizon => a.horizon
    case Goal => a.goal
    case MarketDrop => a.marketDropReaction
  }

  function WithAnswer(a: QuizAnswers, q: Question, v: string): QuizAnswers
  {
    match q
    case RiskTolerance => a.(riskTolerance := Some(v))
    case Horizon => a.(horizon := Some(v))
    case Goal => a.(goal := Some(v))
    case MarketDrop => a.(marketDropReaction := Some(v))
  }

  predicate Recognised(q: Question, v: string)
  {
    v == Options(q).0 || v == Options(q).1 || v == Options(q).2
  }

  /** One `switch` of `profile`: cautious 0, neutral 1, bold 2, default 1. */
  function AnswerScore(q: Question, v: string): (s: int)
    ensures 0 <= s <= 2
    ensures !Recognised(q, v) ==> s == 1
    ensures s == 0 <==> v == Options(q).0
    ensures s == 2 <==> v == Options(q).2
  {
    var (cautious, neutral, bold) := Options(q);
    if v == cautious then 0 else if v == neutral then 1 else if v == bold then 2 else 1
  }

  predicate AllAnswered(a: QuizAnswers)
  {
    a.riskTolerance.Some? && a.horizon.Some? && a.goal.Some? && a.marketDropReaction.Some?
  }

  function Score(a: QuizAnswers): int
    requires AllAnswered(a)
  {
    AnswerScore(RiskTolerance, a.riskTolerance.value) + AnswerScore(Horizon, a.horizon.value)
      + AnswerScore(Goal, a.goal.value) + AnswerScore(MarketDrop, a.marketDropReaction.value)
  }

  function TierFor(score: int): string
  {
    if score <= 2 then Conservative else if score <= 5 then Balanced else Aggressive
  }

  function ConstraintsFor(score: int): Constraints
  {
    if score <= 2 then map["eq_max" := 0.50, "bond_min" := 0.40]
    else if score <= 5 then map["eq_min" := 0.55, "eq_max" := 0.75, "bond_min" := 0.20]
    else map["eq_min" := 0.75, "bond_max" := 0.20]
  }

  /** `profile`.  A `switch` on a null answer throws, so a missing answer is
      a NullPointerException; otherwise the result never fails. */
  function Profile(a: QuizAnswers): (r: Result<RiskResult>)
    ensures r.Failure? <==> !AllAnswered(a)
    ensures r.Failure? ==> r.error == NullPointer
    ensures r.Success? ==> 0 <= r.value.score <= 8
    ensures r.Success? ==> r.value.tier == TierFor(r.value.score)
                           && r.value.constraints == ConstraintsFor(r.value.score)
  {
    if !AllAnswered(a) then Failure(NullPointer)
    else
      var score := Score(a);
      Success(RiskResult(score, TierFor(score), ConstraintsFor(score)))
  }

  /** The ladder read from the tier: conservative exactly for scores up to 2,
      balanced for 3..5, aggressive for 6..8, each with its exact guardrails. */
  lemma TierLadder(a: QuizAnswers)
    requires AllAnswered(a)
    ensures Profile(a).Success?
    ensures var r := Profile(a).value;
      && (r.tier == Conservative <==> r.score <= 2)
      && (r.tier == Balanced <==> 3 <= r.score <= 5)
      && (r.tier == Aggressive <==> 6 <= r.score <= 8)
      && (r.tier == Conservative ==> r.constraints == map["eq_max" := 0.50, "bond_min" := 0.40])
      && (r.tier == Balanced ==> r.constraints == map["eq_min" := 0.55, "eq_max" := 0.75, "bond_min" := 0.20])
      && (r.tier == Aggressive ==> r.constraints == map["eq_min" := 0.75, "bond_max" := 0.20])
  {
  }

  /** The two extreme questionnaires. */
  lemma Extremes()
    ensures Profile(QuizAnswers(Some("low"), Some("<1y"), Some("income"), Some("panic")))
      == Success(RiskResult(0, Conservative, map["eq_max" := 0.50, "bond_min" := 0.40]))
    ensures Profile(QuizAnswers(Some("high"), Some("5y+"), Some("growth"), Some("buy_more")))
      == Success(RiskResult(8, Aggressive, map["eq_min" := 0.75, "bond_max" := 0.20]))
  {
  }

  /** Position of a tier on the ladder, for comparing tiers. */
  function TierRank(tier: string): int
  {
    if tier == Conservative then 0 else if tier == Balanced then 1 else 2
  }

  /** Changing one answer changes the score by the change of that answer's
      own sub-score. */
  lemma {:induction false} ScoreDelta(a: QuizAnswers, q: Question, v: string)
    requires AllAnswered(a)
    ensures AllAnswered(WithAnswer(a, q, v))
    ensures Score(WithAnswer(a, q, v)) - Score(a) == AnswerScore(q, v) - AnswerScore(q, Answer(a, q).value)
  {
    match q
    case RiskTolerance =>
    case Horizon =>
    case Goal =>
    case MarketDrop =>
  }

  /** Giving one answer a recognised value that scores at least as much as
      the old one never lowers the score and never moves the tier down the
      ladder. */
  lemma {:induction false} MoreAggressiveNeverLowers(a: QuizAnswers, q: Question, v: string)
    requires AllAnswered(a)
    requires Recognised(q, v) && AnswerScore(q, v) >= AnswerScore(q, Answer(a, q).value)
    ensures AllAnswered(WithAnswer(a, q, v))
    ensures Score(WithAnswer(a, q, v)) >= Score(a)
    ensures TierRank(Profile(WithAnswer(a, q, v)).value.tier) >= TierRank(Profile(a).value.tier)
  {
    ScoreDelta(a, q, v);
  }

  /** Replacing any answer, recognised or not, by its question's bold option
      never lowers the score; by its cautious option never raises it. */
  lemma {:induction false} ExtremeAnswersBound(a: QuizAnswers, q: Question)
    requires AllAnswered(a)
    ensures Score(WithAnswer(a, q, Options(q).2)) >= Score(a)
    ensures Score(WithAnswer(a, q, Options(q).0)) <= Score(a)
  {
    ScoreDelta(a, q, Options(q).2);
    ScoreDelta(a, q, Options(q).0);
  }
}
