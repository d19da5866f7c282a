/**
 * The rule engine: runs every registered rule, clamps each score to [0, 1], records the
 * rounded per-rule score in an insertion-ordered map, and returns the weighted mean of the
 * clamped scores (negative weights count as 0) rounded half-up to 4 decimals.
 */
module RuleEngine {
  import opened Wrappers
  import opened Numeric
  import opened FraudTypes
  import Rules

  /** What a `double`-valued rule evaluation can return. */
  datatype RawScore = Finite(value: real) | NaN | Infinite(positive: bool)

  /**
   * A registered rule: one of the four fraud rules, or any other implementation of the rule
   * interface, described by the name, weight and score it returns.
   */
  datatype Rule = Builtin(kind: Rules.RuleKind) | Other(name: string, weight: real, score: RawScore)

  function RuleName(rule: Rule): string
  {
    match rule
    case Builtin(kind) => Rules.Name(kind)
    case Other(name, _, _) => name
  }

  function RuleWeight(rule: Rule): real
  {
    match rule
    case Builtin(kind) => Rules.Weight(kind)
    case Other(_, weight, _) => weight
  }

  function RuleScore(rule: Rule, transaction: TransactionCreatedEvent, features: FeatureContext): RawScore
  {
    match rule
    case Builtin(kind) => Finite(Rules.Evaluate(kind, transaction, features))
    case Other(_, _, score) => score
  }

  /** NaN and infinities become 0; finite values are clipped to [0, 1]. */
  function Normalize(value: RawScore): (r: real)
    ensures 0.0 <= r <= 1.0
    ensures !value.Finite? ==> r == 0.0
    ensures value.Finite? ==> r == Clamp01(value.value)
  {
    if value.Finite? then MaxReal(0.0, MinReal(1.0, value.value)) else 0.0
  }

  /** `BigDecimal.valueOf(v).setScale(4, HALF_UP).doubleValue()` over reals. */
  function Round4(value: real): real
  {
    Units4(Scale4(value))
  }

  /** Rounding keeps a value of [0, 1] inside [0, 1]. */
  lemma Round4UnitInterval(value: real)
    requires 0.0 <= value <= 1.0
    ensures 0.0 <= Round4(value) <= 1.0
  {
    Scale4Between(value, 0, SCALE4);
  }

  /** One entry of the per-rule score map. */
  datatype ScoreEntry = ScoreEntry(name: string, score: real)

  /** The individual scores in the map's iteration order, and the weighted-mean score. */
  datatype RuleEvaluationResult = RuleEvaluationResult(normalizedScore: real, individualRuleScores: seq<ScoreEntry>)

  /** Position of `name` in the map, or -1. */
  function IndexOfName(table: seq<ScoreEntry>, name: string): (k: int)
    ensures -1 <= k < |table|
    ensures k >= 0 ==> table[k].name == name
    ensures k < 0 ==> forall i :: 0 <= i < |table| ==> table[i].name != name
  {
    if |table| == 0 then -1
    else if table[|table| - 1].name == name then |table| - 1
    else IndexOfName(table[..|table| - 1], name)
  }

  /** `LinkedHashMap.put`: a new key goes last; an existing key keeps its position and takes the new value. */
  function Put(table: seq<ScoreEntry>, name: string, score: real): seq<ScoreEntry>
  {
    var k := IndexOfName(table, name);
    if k < 0 then table + [ScoreEntry(name, score)] else table[k := ScoreEntry(name, score)]
  }

  function Lookup(table: seq<ScoreEntry>, name: string): Option<real>
  {
    var k := IndexOfName(table, name);
    if k < 0 then None else Some(table[k].score)
  }

  function Names(table: seq<ScoreEntry>): seq<string>
  {
    seq(|table|, i requires 0 <= i < |table| => table[i].name)
  }

  /** No name appears twice. */
  predicate DistinctNames(table: seq<ScoreEntry>)
  {
    forall i, j :: 0 <= i < j < |table| ==> table[i].name != table[j].name
  }

  function WeightOf(rule: Rule): real
  {
    MaxReal(0.0, RuleWeight(rule))
  }

  function ScoreOf(rule: Rule, transaction: TransactionCreatedEvent, features: FeatureContext): real
  {
    Normalize(RuleScore(rule, transaction, features))
  }

  /** What one rule adds to the aggregate: its clamped score and its floored weight. */
  datatype Contribution = Contribution(score: real, weight: real)

  function Contributions(rules: seq<Rule>, transaction: TransactionCreatedEvent, features: FeatureContext): (cs: seq<Contribution>)
    ensures |cs| == |rules|
    ensures forall i :: 0 <= i < |rules| ==> 0.0 <= cs[i].score <= 1.0 && cs[i].weight >= 0.0
  {
    seq(|rules|, i requires 0 <= i < |rules| => Contribution(ScoreOf(rules[i], transaction, features), WeightOf(rules[i])))
  }

  /** Σ wᵢ */
  function TotalWeight(cs: seq<Contribution>): real
  {
    if |cs| == 0 then 0.0 else TotalWeight(cs[..|cs| - 1]) + cs[|cs| - 1].weight
  }

  /** Σ sᵢ·wᵢ */
  function WeightedSum(cs: seq<Contribution>): real
  {
    if |cs| == 0 then 0.0 else WeightedSum(cs[..|cs| - 1]) + cs[|cs| - 1].score * cs[|cs| - 1].weight
  }

  /** The weighted mean, 0 when the total weight is 0. */
  function WeightedMean(cs: seq<Contribution>): real
  {
    var total := TotalWeight(cs);
    if total == 0.0 then 0.0 else WeightedSum(cs) / total
  }

  /** The unrounded aggregate of the rules. */
  function RuleMean(rules: seq<Rule>, transaction: TransactionCreatedEvent, features: FeatureContext): real
  {
    WeightedMean(Contributions(rules, transaction, features))
  }

  /** The per-rule map after putting every rule's rounded score in registration order. */
  function ScoreTable(rules: seq<Rule>, transaction: TransactionCreatedEvent, features: FeatureContext): seq<ScoreEntry>
  {
    if |rules| == 0 then []
    else
      var last := rules[|rules| - 1];
      Put(ScoreTable(rules[..|rules| - 1], transaction, features), RuleName(last), Round4(ScoreOf(last, transaction, features)))
  }

  /** The engine's `evaluate`. */
  method Evaluate(rules: seq<Rule>, transaction: TransactionCreatedEvent, features: FeatureContext)
    returns (result: RuleEvaluationResult)
    ensures result.normalizedScore == Round4(RuleMean(rules, transaction, features))
    ensures result.individualRuleScores == ScoreTable(rules, transaction, features)
  {
    if |rules| == 0 {
      return RuleEvaluationResult(0.0, []);
    }
    ghost var cs := Contributions(rules, transaction, features);
    var weightedSum := 0.0;
    var totalWeight := 0.0;
    var individualScores: seq<ScoreEntry> := [];
    for i := 0 to |rules|
      invariant weightedSum == WeightedSum(cs[..i])
      invariant totalWeight == TotalWeight(cs[..i])
      invariant individualScores == ScoreTable(rules[..i], transaction, features)
    {
      assert rules[..i + 1][..i] == rules[..i];
      var score := ScoreOf(rules[i], transaction, features);
      var weight := WeightOf(rules[i]);
      AccumulateStep(cs, i, score, weight);
      individualScores := Put(individualScores, RuleName(rules[i]), Round4(score));
      weightedSum := weightedSum + score * weight;
      totalWeight := totalWeight + weight;
    }
    assert rules[..|rules|] == rules;
    assert cs[..|rules|] == cs;
    var normalizedScore := if totalWeight == 0.0 then 0.0 else weightedSum / totalWeight;
    result := RuleEvaluationResult(Round4(normalizedScore), individualScores);
  }

  /** One more contribution adds its weight to the total and its weighted score to the sum. */
  lemma AccumulateStep(cs: seq<Contribution>, i: int, score: real, weight: real)
    requires 0 <= i < |cs| && cs[i] == Contribution(score, weight)
    ensures TotalWeight(cs[..i + 1]) == TotalWeight(cs[..i]) + weight
    ensures WeightedSum(cs[..i + 1]) == WeightedSum(cs[..i]) + score * weight
  {
    assert cs[..i + 1][..i] == cs[..i];
  }

  /** No rules: score 0 and an empty map. */
  lemma EvaluateNoRules(transaction: TransactionCreatedEvent, features: FeatureContext)
    ensures Round4(RuleMean([], transaction, features)) == 0.0
    ensures ScoreTable([], transaction, features) == []
  {
    Scale4OfUnits(0);
  }

  /** Every contribution of positive weight has a score within [lo, hi]; no weight is negative. */
  predicate ScoresWithin(cs: seq<Contribution>, lo: real, hi: real)
  {
    forall i :: 0 <= i < |cs| ==> cs[i].weight >= 0.0 && (cs[i].weight > 0.0 ==> lo <= cs[i].score <= hi)
  }

  /** If every positively weighted score lies in [lo, hi], the weighted sum lies between lo and hi times the total weight. */
  lemma WeightedSumBounds(cs: seq<Contribution>, lo: real, hi: real)
    requires ScoresWithin(cs, lo, hi)
    ensures lo * TotalWeight(cs) <= WeightedSum(cs) <= hi * TotalWeight(cs)
    ensures TotalWeight(cs) >= 0.0
  {
    WeightedSumAbove(cs, lo);
    WeightedSumBelow(cs, hi);
  }

  /** Every contribution of positive weight scores at least `lo`; no weight is negative. */
  predicate ScoresAbove(cs: seq<Contribution>, lo: real)
  {
    forall i :: 0 <= i < |cs| ==> cs[i].weight >= 0.0 && (cs[i].weight > 0.0 ==> lo <= cs[i].score)
  }

  /** Every contribution of positive weight scores at most `hi`; no weight is negative. */
  predicate ScoresBelow(cs: seq<Contribution>, hi: real)
  {
    forall i :: 0 <= i < |cs| ==> cs[i].weight >= 0.0 && (cs[i].weight > 0.0 ==> cs[i].score <= hi)
  }

  /** The lower half of `WeightedSumBounds`, by induction on the contributions. */
  lemma {:induction false} WeightedSumAbove(cs: seq<Contribution>, lo: real)
    requires ScoresAbove(cs, lo)
    ensures lo * TotalWeight(cs) <= WeightedSum(cs) && TotalWeight(cs) >= 0.0
  {
    if |cs| > 0 {
      var init := cs[..|cs| - 1];
      var last := cs[|cs| - 1];
      assert ScoresAbove(init, lo) by {
        assert forall i :: 0 <= i < |init| ==> init[i] == cs[i];
      }
      WeightedSumAbove(init, lo);
      AccumulateAbove(lo, TotalWeight(init), WeightedSum(init), last.score, last.weight, TotalWeight(cs), WeightedSum(cs));
    }
  }

  /** The upper half of `WeightedSumBounds`, by induction on the contributions. */
  lemma {:induction false} WeightedSumBelow(cs: seq<Contribution>, hi: real)
    requires ScoresBelow(cs, hi)
    ensures WeightedSum(cs) <= hi * TotalWeight(cs) && TotalWeight(cs) >= 0.0
  {
    if |cs| > 0 {
      var init := cs[..|cs| - 1];
      var last := cs[|cs| - 1];
      assert ScoresBelow(init, hi) by {
        assert forall i :: 0 <= i < |init| ==> init[i] == cs[i];
      }
      WeightedSumBelow(init, hi);
      AccumulateBelow(hi, TotalWeight(init), WeightedSum(init), last.score, last.weight, TotalWeight(cs), WeightedSum(cs));
    }
  }

  /** One accumulation step keeps the sum at least lo times the total. */
  lemma AccumulateAbove(lo: real, total: real, sum: real, s: real, w: real, total': real, sum': real)
    requires lo * total <= sum && total >= 0.0 && w >= 0.0
    requires w > 0.0 ==> lo <= s
    requires total' == total + w && sum' == sum + s * w
    ensures lo * total' <= sum' && total' >= 0.0
  {
    assert lo * (total + w) == lo * total + lo * w;
    if w > 0.0 {
      ScaleMonotone(lo, s, w);
    }
  }

  /** One accumulation step keeps the sum at most hi times the total. */
  lemma AccumulateBelow(hi: real, total: real, sum: real, s: real, w: real, total': real, sum': real)
    requires sum <= hi * total && total >= 0.0 && w >= 0.0
    requires w > 0.0 ==> s <= hi
    requires total' == total + w && sum' == sum + s * w
    ensures sum' <= hi * total' && total' >= 0.0
  {
    assert hi * (total + w) == hi * total + hi * w;
    if w > 0.0 {
      ScaleMonotone(s, hi, w);
    }
  }

  /** The engine's score lies in [0, 1] whatever the rules return, NaN and infinities included. */
  lemma RuleMeanUnitInterval(rules: seq<Rule>, transaction: TransactionCreatedEvent, features: FeatureContext)
    ensures 0.0 <= RuleMean(rules, transaction, features) <= 1.0
    ensures 0.0 <= Round4(RuleMean(rules, transaction, features)) <= 1.0
  {
    var cs := Contributions(rules, transaction, features);
    WeightedSumBounds(cs, 0.0, 1.0);
    if TotalWeight(cs) > 0.0 {
      DivideBounds(WeightedSum(cs), TotalWeight(cs), 0.0, 1.0);
    }
    Round4UnitInterval(WeightedMean(cs));
  }

  /** A weighted mean lies between the smallest and the largest score of positive weight. */
  lemma WeightedMeanBetween(cs: seq<Contribution>, lo: real, hi: real)
    requires ScoresWithin(cs, lo, hi)
    requires TotalWeight(cs) > 0.0
    ensures lo <= WeightedMean(cs) <= hi
  {
    WeightedSumBounds(cs, lo, hi);
    DivideBounds(WeightedSum(cs), TotalWeight(cs), lo, hi);
  }

  /** With no positive weight the total weight is 0 and the score is exactly 0. */
  lemma {:induction false} NoPositiveWeight(cs: seq<Contribution>)
    requires forall i :: 0 <= i < |cs| ==> cs[i].weight == 0.0
    ensures TotalWeight(cs) == 0.0
    ensures Round4(WeightedMean(cs)) == 0.0
  {
    if |cs| > 0 {
      assert forall i :: 0 <= i < |cs| - 1 ==> cs[..|cs| - 1][i] == cs[i];
      NoPositiveWeight(cs[..|cs| - 1]);
    }
    Scale4OfUnits(0);
  }

  /** Rules whose weights are all ≤ 0 give the score 0. */
  lemma RulesWithoutWeight(rules: seq<Rule>, transaction: TransactionCreatedEvent, features: FeatureContext)
    requires forall i :: 0 <= i < |rules| ==> RuleWeight(rules[i]) <= 0.0
    ensures Round4(RuleMean(rules, transaction, features)) == 0.0
  {
    NoPositiveWeight(Contributions(rules, transaction, features));
  }

  /** Registering a rule of weight ≤ 0 leaves the score unchanged, though it gets its own map entry. */
  lemma ZeroWeightRuleIgnored(rules: seq<Rule>, extra: Rule, transaction: TransactionCreatedEvent, features: FeatureContext)
    requires RuleWeight(extra) <= 0.0
    ensures RuleMean(rules + [extra], transaction, features) == RuleMean(rules, transaction, features)
    ensures Lookup(ScoreTable(rules + [extra], transaction, features), RuleName(extra)).Some?
  {
    ZeroWeightMeanUnchanged(rules, extra, transaction, features);
    ExtraRuleListed(rules, extra, transaction, features);
  }

  /** The mean part of `ZeroWeightRuleIgnored`. */
  lemma ZeroWeightMeanUnchanged(rules: seq<Rule>, extra: Rule, transaction: TransactionCreatedEvent, features: FeatureContext)
    requires RuleWeight(extra) <= 0.0
    ensures RuleMean(rules + [extra], transaction, features) == RuleMean(rules, transaction, features)
  {
    var all := rules + [extra];
    var cs := Contributions(all, transaction, features);
    assert all[..|all| - 1] == rules;
    assert cs[..|cs| - 1] == Contributions(rules, transaction, features);
    assert cs[|cs| - 1].weight == WeightOf(extra) == 0.0;
    DropWeightlessLast(cs);
  }

  /** A last contribution of weight 0 does not change the weighted mean. */
  lemma DropWeightlessLast(cs: seq<Contribution>)
    requires |cs| > 0 && cs[|cs| - 1].weight == 0.0
    ensures WeightedMean(cs) == WeightedMean(cs[..|cs| - 1])
  {
  }

  /** Registering any rule gives its name an entry in the per-rule map. */
  lemma ExtraRuleListed(rules: seq<Rule>, extra: Rule, transaction: TransactionCreatedEvent, features: FeatureContext)
    ensures Lookup(ScoreTable(rules + [extra], transaction, features), RuleName(extra)).Some?
  {
    var all := rules + [extra];
    assert all[..|all| - 1] == rules;
    ScoreTableShape(rules, transaction, features, RuleName(extra));
    PutLookup(ScoreTable(rules, transaction, features), RuleName(extra), Round4(ScoreOf(extra, transaction, features)), RuleName(extra));
  }

  /** In a map with distinct names, a name is found exactly at its own position. */
  lemma IndexOfNameAt(table: seq<ScoreEntry>, name: string, i: int)
    requires DistinctNames(table)
    requires 0 <= i < |table| && table[i].name == name
    ensures IndexOfName(table, name) == i
  {
  }

  /** After a put, the key maps to the new value and every other key keeps its value; the names keep their order, with a new name last. */
  lemma PutLookup(table: seq<ScoreEntry>, name: string, score: real, other: string)
    requires DistinctNames(table)
    ensures DistinctNames(Put(table, name, score))
    ensures Lookup(Put(table, name, score), other) == if other == name then Some(score) else Lookup(table, other)
    ensures Names(Put(table, name, score)) == if IndexOfName(table, name) < 0 then Names(table) + [name] else Names(table)
  {
    PutNames(table, name, score);
    PutKeepsDistinct(table, name, score);
    PutLookupValue(table, name, score, other);
  }

  lemma PutNames(table: seq<ScoreEntry>, name: string, score: real)
    ensures Names(Put(table, name, score)) == if IndexOfName(table, name) < 0 then Names(table) + [name] else Names(table)
  {
    var t := Put(table, name, score);
    if IndexOfName(table, name) < 0 {
      assert Names(t) == Names(table) + [name];
    } else {
      assert Names(t) == Names(table);
    }
  }

  lemma PutKeepsDistinct(table: seq<ScoreEntry>, name: string, score: real)
    requires DistinctNames(table)
    ensures DistinctNames(Put(table, name, score))
  {
    var t := Put(table, name, score);
    if IndexOfName(table, name) >= 0 {
      assert forall i :: 0 <= i < |t| ==> t[i].name == table[i].name;
    }
  }

  lemma PutLookupValue(table: seq<ScoreEntry>, name: string, score: real, other: string)
    requires DistinctNames(table)
    ensures Lookup(Put(table, name, score), other) == if other == name then Some(score) else Lookup(table, other)
  {
    var t := Put(table, name, score);
    PutKeepsDistinct(table, name, score);
    var k := IndexOfName(table, name);
    if k < 0 {
      assert t[..|t| - 1] == table;
    } else {
      assert forall i :: 0 <= i < |t| ==> t[i].name == table[i].name;
      var j := IndexOfName(table, other);
      if j >= 0 {
        IndexOfNameAt(t, other, j);
      } else {
        assert forall i :: 0 <= i < |t| ==> t[i].name != other;
      }
    }
  }

  /** The name of the last rule registered under `name`, with its rounded score, or `None`. */
  function LastScoreNamed(rules: seq<Rule>, name: string, transaction: TransactionCreatedEvent, features: FeatureContext): Option<real>
  {
    if |rules| == 0 then None
    else if RuleName(rules[|rules| - 1]) == name then Some(Round4(ScoreOf(rules[|rules| - 1], transaction, features)))
    else LastScoreNamed(rules[..|rules| - 1], name, transaction, features)
  }

  /** The names of the rules in registration order, each kept at its first occurrence. */
  function FirstOccurrences(names: seq<string>): seq<string>
  {
    if |names| == 0 then []
    else
      var init := FirstOccurrences(names[..|names| - 1]);
      if names[|names| - 1] in init then init else init + [names[|names| - 1]]
  }

  function RuleNames(rules: seq<Rule>): seq<string>
  {
    seq(|rules|, i requires 0 <= i < |rules| => RuleName(rules[i]))
  }

  /**
   * The map has one entry per distinct rule name, in the order the names were first
   * registered, and each holds the rounded score of the last rule of that name.
   */
  lemma ScoreTableShape(rules: seq<Rule>, transaction: TransactionCreatedEvent, features: FeatureContext, name: string)
    ensures DistinctNames(ScoreTable(rules, transaction, features))
    ensures Names(ScoreTable(rules, transaction, features)) == FirstOccurrences(RuleNames(rules))
    ensures Lookup(ScoreTable(rules, transaction, features), name) == LastScoreNamed(rules, name, transaction, features)
  {
    ScoreTableDistinct(rules, transaction, features);
    ScoreTableNames(rules, transaction, features);
    ScoreTableLookup(rules, transaction, features, name);
  }

  lemma {:induction false} ScoreTableDistinct(rules: seq<Rule>, transaction: TransactionCreatedEvent, features: FeatureContext)
    ensures DistinctNames(ScoreTable(rules, transaction, features))
  {
    if |rules| > 0 {
      var init := rules[..|rules| - 1];
      var last := rules[|rules| - 1];
      ScoreTableDistinct(init, transaction, features);
      PutKeepsDistinct(ScoreTable(init, transaction, features), RuleName(last), Round4(ScoreOf(last, transaction, features)));
    }
  }

  lemma {:induction false} ScoreTableNames(rules: seq<Rule>, transaction: TransactionCreatedEvent, features: FeatureContext)
    ensures Names(ScoreTable(rules, transaction, features)) == FirstOccurrences(RuleNames(rules))
  {
    if |rules| > 0 {
      var init := rules[..|rules| - 1];
      var last := rules[|rules| - 1];
      var table := ScoreTable(init, transaction, features);
      ScoreTableNames(init, transaction, features);
      PutNames(table, RuleName(last), Round4(ScoreOf(last, transaction, features)));
      NameInTable(table, RuleName(last));
      assert RuleNames(rules)[..|rules| - 1] == RuleNames(init);
    }
  }

  lemma {:induction false} ScoreTableLookup(rules: seq<Rule>, transaction: TransactionCreatedEvent, features: FeatureContext, name: string)
    ensures Lookup(ScoreTable(rules, transaction, features), name) == LastScoreNamed(rules, name, transaction, features)
  {
    if |rules| > 0 {
      var init := rules[..|rules| - 1];
      var last := rules[|rules| - 1];
      ScoreTableLookup(init, transaction, features, name);
      ScoreTableDistinct(init, transaction, features);
      PutLookupValue(ScoreTable(init, transaction, features), RuleName(last), Round4(ScoreOf(last, transaction, features)), name);
    }
  }

  /** A name is among the table's names exactly when the search finds it. */
  lemma NameInTable(table: seq<ScoreEntry>, name: string)
    ensures name in Names(table) <==> IndexOfName(table, name) >= 0
  {
    var k := IndexOfName(table, name);
    if k >= 0 {
      assert Names(table)[k] == name;
    } else {
      assert forall i :: 0 <= i < |Names(table)| ==> Names(table)[i] != name;
    }
  }

  /** The four fraud rules in the order the engine's test registers them. */
  const PRODUCTION_RULES: seq<Rule> := [
    Builtin(Rules.HighAmount), Builtin(Rules.ForeignLocation),
    Builtin(Rules.SuspiciousMerchant), Builtin(Rules.RapidTransactions)]

  /**
   * The four fraud rules on a 12000 transaction at "crypto-exchange-99" in "Moscow, RU" with
   * features (6, 9, 2) each score 1.0: the map has four entries and the score is 1.0.
   */
  lemma ProductionRulesScenario(rules: seq<Rule>, transaction: TransactionCreatedEvent, features: FeatureContext)
    requires rules == PRODUCTION_RULES
    requires transaction.amount == Some(12000.0)
    requires transaction.merchantId.Some? && transaction.merchantId.value == "crypto-exchange-99"
    requires transaction.location.Some? && transaction.location.value == "Moscow, RU"
    requires features == FeatureContext(6, 9, 2)
    ensures Round4(RuleMean(rules, transaction, features)) == 1.0
    ensures |ScoreTable(rules, transaction, features)| == 4
  {
    ProductionScoresAllOne(rules, transaction, features);
    UnanimousMean(Contributions(rules, transaction, features), 1.0);
    assert Round4(1.0) == 1.0 by { Scale4OfUnits(SCALE4); }
    ProductionTableSize(rules, transaction, features);
  }

  /** Rules that all score the same positive-weight value average to that value. */
  lemma UnanimousMean(cs: seq<Contribution>, v: real)
    requires |cs| > 0
    requires forall i :: 0 <= i < |cs| ==> cs[i].score == v && cs[i].weight > 0.0
    ensures WeightedMean(cs) == v
  {
    PositiveTotal(cs);
    WeightedMeanBetween(cs, v, v);
  }

  lemma {:induction false} PositiveTotal(cs: seq<Contribution>)
    requires |cs| > 0
    requires forall i :: 0 <= i < |cs| ==> cs[i].weight > 0.0
    ensures TotalWeight(cs) > 0.0
  {
    if |cs| > 1 {
      PositiveTotal(cs[..|cs| - 1]);
    } else {
      assert cs[..0] == [];
    }
  }

  lemma ProductionScoresAllOne(rules: seq<Rule>, transaction: TransactionCreatedEvent, features: FeatureContext)
    requires rules == PRODUCTION_RULES
    requires transaction.amount == Some(12000.0)
    requires transaction.merchantId.Some? && transaction.merchantId.value == "crypto-exchange-99"
    requires transaction.location.Some? && transaction.location.value == "Moscow, RU"
    requires features == FeatureContext(6, 9, 2)
    ensures |rules| == 4
    ensures forall i :: 0 <= i < 4 ==> Contributions(rules, transaction, features)[i].score == 1.0
    ensures forall i :: 0 <= i < 4 ==> Contributions(rules, transaction, features)[i].weight > 0.0
  {
    var cs := Contributions(rules, transaction, features);
    forall i | 0 <= i < 4
      ensures cs[i].score == 1.0 && cs[i].weight > 0.0
    {
      ProductionRuleScoresOne(rules[i].kind, transaction, features);
    }
  }

  /** Each of the four fraud rules scores 1.0 on the engine test's transaction, with a positive weight. */
  lemma ProductionRuleScoresOne(kind: Rules.RuleKind, transaction: TransactionCreatedEvent, features: FeatureContext)
    requires transaction.amount == Some(12000.0)
    requires transaction.merchantId.Some? && transaction.merchantId.value == "crypto-exchange-99"
    requires transaction.location.Some? && transaction.location.value == "Moscow, RU"
    requires features == FeatureContext(6, 9, 2)
    ensures ScoreOf(Builtin(kind), transaction, features) == 1.0
    ensures WeightOf(Builtin(kind)) > 0.0
  {
    match kind
    case HighAmount => Rules.HighAmountScoreRange(transaction.amount);
    case ForeignLocation => Rules.ForeignLocationHighRiskExample(transaction.location.value);
    case SuspiciousMerchant => Rules.SuspiciousMerchantExample(transaction.merchantId.value);
    case RapidTransactions =>
  }

  /** Without repeated names, the first occurrences are all the names. */
  lemma {:induction false} FirstOccurrencesOfDistinct(names: seq<string>)
    requires forall i, j :: 0 <= i < j < |names| ==> names[i] != names[j]
    ensures FirstOccurrences(names) == names
  {
    if |names| > 0 {
      var init := names[..|names| - 1];
      FirstOccurrencesOfDistinct(init);
      assert names[|names| - 1] !in init;
      assert init + [names[|names| - 1]] == names;
    }
  }

  /** The table has one entry per distinct rule name. */
  lemma ScoreTableSize(rules: seq<Rule>, transaction: TransactionCreatedEvent, features: FeatureContext)
    ensures |ScoreTable(rules, transaction, features)| == |FirstOccurrences(RuleNames(rules))|
  {
    ScoreTableShape(rules, transaction, features, "");
  }

  lemma ProductionNames(rules: seq<Rule>)
    requires rules == PRODUCTION_RULES
    ensures |FirstOccurrences(RuleNames(rules))| == 4
  {
    var names := RuleNames(rules);
    assert names == ["high_amount", "foreign_location", "suspicious_merchant", "rapid_transactions"];
    FirstOccurrencesOfDistinct(names);
  }

  lemma ProductionTableSize(rules: seq<Rule>, transaction: TransactionCreatedEvent, features: FeatureContext)
    requires rules == PRODUCTION_RULES
    ensures |ScoreTable(rules, transaction, features)| == 4
  {
    ScoreTableSize(rules, transaction, features);
    ProductionNames(rules);
  }
}
