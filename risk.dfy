/**
 * The final risk score: 40% of the rule score plus 60% of the ML score, each first clamped to
 * [0, 1] (a missing score counts as 0), rounded half-up to 4 decimals. Results are integers in
 * units of 1/10000.
 */
module RiskAggregation {
  import opened Wrappers
  import opened Numeric

  const RULE_WEIGHT: real := 0.40
  const ML_WEIGHT: real := 0.60

  /** `clamp`: missing is 0; values outside [0, 1] go to the nearer bound. */
  function Clamp(value: Option<real>): (r: real)
    ensures 0.0 <= r <= 1.0
    ensures value.None? ==> r == 0.0
    ensures value.Some? ==> r == Clamp01(value.value)
  {
    if value.None? then 0.0
    else if value.value < 0.0 then 0.0
    else if value.value > 1.0 then 1.0
    else value.value
  }

  /** The weighted blend before rounding. */
  function Blend(ruleScore: Option<real>, mlScore: Option<real>): real
  {
    Clamp(ruleScore) * RULE_WEIGHT + Clamp(mlScore) * ML_WEIGHT
  }

  /** `aggregate`. */
  function Aggregate(ruleScore: Option<real>, mlScore: Option<real>): (units: int)
    ensures 0 <= units <= SCALE4
    ensures -0.5 <= units as real - Blend(ruleScore, mlScore) * SCALE4 as real <= 0.5
  {
    Scale4Between(Blend(ruleScore, mlScore), 0, SCALE4);
    Scale4(Blend(ruleScore, mlScore))
  }

  lemma ClampMonotone(a: real, b: real)
    requires a <= b
    ensures Clamp(Some(a)) <= Clamp(Some(b))
  {
  }

  /** A higher rule score or a higher ML score never lowers the aggregate. */
  lemma AggregateMonotone(rule1: real, ml1: real, rule2: real, ml2: real)
    requires rule1 <= rule2 && ml1 <= ml2
    ensures Aggregate(Some(rule1), Some(ml1)) <= Aggregate(Some(rule2), Some(ml2))
  {
    ClampMonotone(rule1, rule2);
    ClampMonotone(ml1, ml2);
    assert Blend(Some(rule1), Some(ml1)) <= Blend(Some(rule2), Some(ml2));
    Scale4Monotone(Blend(Some(rule1), Some(ml1)), Blend(Some(rule2), Some(ml2)));
  }

  /** A missing score is the same as a score of 0. */
  lemma AggregateMissingIsZero(ruleScore: Option<real>, mlScore: Option<real>)
    ensures Aggregate(None, mlScore) == Aggregate(Some(0.0), mlScore)
    ensures Aggregate(ruleScore, None) == Aggregate(ruleScore, Some(0.0))
  {
  }

  /** Agreeing scores aggregate to their common clamped value. */
  lemma AggregateOfEqualScores(units: int)
    requires 0 <= units <= SCALE4
    ensures Aggregate(Some(Units4(units)), Some(Units4(units))) == units
  {
    assert Blend(Some(Units4(units)), Some(Units4(units))) == Units4(units);
    Scale4OfUnits(units);
  }

  /** (0.4, 0.9) gives 0.7000; (5, 2) gives 1.0000; (-1, -2) gives 0.0000. */
  lemma AggregateExamples()
    ensures Aggregate(Some(0.4), Some(0.9)) == 7000
    ensures Aggregate(Some(5.0), Some(2.0)) == SCALE4
    ensures Aggregate(Some(-1.0), Some(-2.0)) == 0
  {
    assert Blend(Some(0.4), Some(0.9)) == Units4(7000);
    Scale4OfUnits(7000);
    assert Blend(Some(5.0), Some(2.0)) == Units4(SCALE4);
    Scale4OfUnits(SCALE4);
    assert Blend(Some(-1.0), Some(-2.0)) == Units4(0);
    Scale4OfUnits(0);
  }
}

/**
 * The same blend, taking the rule score as a `double`. A NaN or infinite rule score cannot be
 * turned into a decimal, so the call fails.
 */
module RiskScoring {
  import opened Wrappers
  import opened Numeric
  import RiskAggregation
  import RuleEngine

  /** `calculate`; `Failure` stands for the exception raised for a non-finite rule score. */
  function Calculate(ruleScore: RuleEngine.RawScore, mlScore: Option<real>): (r: Result<int, string>)
    ensures r.Success? <==> ruleScore.Finite?
    ensures r.Success? ==> 0 <= r.value <= SCALE4
  {
    if !ruleScore.Finite? then Failure("rule score is not a finite number")
    else
      var boundedRuleScore := RiskAggregation.Clamp(Some(ruleScore.value));
      var boundedMlScore := RiskAggregation.Clamp(mlScore);
      var blended := boundedRuleScore * RiskAggregation.RULE_WEIGHT + boundedMlScore * RiskAggregation.ML_WEIGHT;
      Scale4Between(blended, 0, SCALE4);
      Success(Scale4(blended))
  }

  /** For a finite rule score the result is the aggregation service's. */
  lemma CalculateIsAggregate(ruleScore: real, mlScore: Option<real>)
    ensures Calculate(RuleEngine.Finite(ruleScore), mlScore) == Success(RiskAggregation.Aggregate(Some(ruleScore), mlScore))
  {
  }

  /** (0.5, 0.9) gives 0.7400; (10, 5) gives 1.0000; (-3, 0) gives 0.0000; a missing ML score counts as 0. */
  lemma CalculateExamples()
    ensures Calculate(RuleEngine.Finite(0.5), Some(0.9)) == Success(7400)
    ensures Calculate(RuleEngine.Finite(10.0), Some(5.0)) == Success(SCALE4)
    ensures Calculate(RuleEngine.Finite(-3.0), Some(0.0)) == Success(0)
    ensures Calculate(RuleEngine.Finite(0.5), None) == Success(2000)
  {
    assert RiskAggregation.Blend(Some(0.5), Some(0.9)) == Units4(7400);
    Scale4OfUnits(7400);
    assert RiskAggregation.Blend(Some(10.0), Some(5.0)) == Units4(SCALE4);
    Scale4OfUnits(SCALE4);
    Scale4OfUnits(0);
    assert RiskAggregation.Blend(Some(0.5), None) == Units4(2000);
    Scale4OfUnits(2000);
  }
}
