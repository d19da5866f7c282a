/**
 * The payload sent to the ML scoring service: the amount at scale 4, the higher of the two
 * velocity counts, and the location and merchant rule scores clamped to [0, 1] at scale 4.
 * Decimal fields are integers in units of 1/10000.
 */
module MlFeatures {
  import opened Wrappers
  import opened Numeric
  import opened FraudTypes
  import Rules
  import RuleEngine

  datatype MlPredictionRequest = MlPredictionRequest(amount: int, transactionFrequency: int, locationRisk: int, merchantRisk: int)

  /** The context used when none is given. */
  const NEUTRAL_CONTEXT: FeatureContext := FeatureContext(0, 0, LONG_MAX)

  /** A missing or negative amount becomes 0.0000; any other is rounded half-up to 4 decimals. */
  function SanitizeAmount(amount: Option<real>): (units: int)
    ensures units >= 0
    ensures amount.None? || amount.value < 0.0 ==> units == 0
    ensures amount.Some? && amount.value >= 0.0 ==> units == Scale4(amount.value)
  {
    if amount.None? || amount.value < 0.0 then 0 else Scale4(amount.value)
  }

  /** A rule output as a risk: NaN and infinities become 0.0000, others are clamped to [0, 1] and rounded. */
  function ToScore(value: RuleEngine.RawScore): (units: int)
    ensures 0 <= units <= SCALE4
    ensures !value.Finite? ==> units == 0
  {
    if !value.Finite? then 0
    else
      var bounded := MaxReal(0.0, MinReal(1.0, value.value));
      Scale4Between(bounded, 0, SCALE4);
      Scale4(bounded)
  }

  /** The larger of the two velocity counts, never below 0. */
  function TransactionFrequency(context: FeatureContext): (frequency: int)
    ensures frequency >= 0
    ensures frequency >= context.transactionsPerMinute && frequency >= context.transactionsPerFiveMinutes
    ensures frequency == 0 || frequency == context.transactionsPerMinute || frequency == context.transactionsPerFiveMinutes
  {
    Max(0, Max(context.transactionsPerMinute, context.transactionsPerFiveMinutes))
  }

  /** `buildRequest`; a missing context is replaced by the neutral one. */
  function BuildRequest(transaction: TransactionCreatedEvent, featureContext: Option<FeatureContext>): MlPredictionRequest
  {
    var context := OrElse(featureContext, NEUTRAL_CONTEXT);
    MlPredictionRequest(
      SanitizeAmount(transaction.amount),
      TransactionFrequency(context),
      ToScore(RuleEngine.Finite(Rules.ForeignLocationScore(transaction.location))),
      ToScore(RuleEngine.Finite(Rules.SuspiciousMerchantScore(transaction.merchantId))))
  }

  /**
   * The payload carries the amount and the two rule scores to within half a unit of the
   * fourth decimal, each risk in [0, 1] exactly 1.0000 when its rule fires at full strength;
   * the frequency is 0 without a context.
   */
  lemma BuildRequestProperties(transaction: TransactionCreatedEvent, featureContext: Option<FeatureContext>)
    ensures var request := BuildRequest(transaction, featureContext);
      && 0 <= request.locationRisk <= SCALE4 && 0 <= request.merchantRisk <= SCALE4
      && (transaction.amount.Some? && transaction.amount.value >= 0.0 ==>
            -0.5 <= request.amount as real - transaction.amount.value * SCALE4 as real <= 0.5)
      && (request.locationRisk == SCALE4 <==> Rules.ForeignLocationScore(transaction.location) == 1.0)
      && (request.merchantRisk == SCALE4 <==> Rules.SuspiciousMerchantScore(transaction.merchantId) == 1.0)
      && (request.merchantRisk == 0 <==> Rules.SuspiciousMerchantScore(transaction.merchantId) == 0.0)
      && (featureContext.None? ==> request.transactionFrequency == 0)
  {
    var location := Rules.ForeignLocationScore(transaction.location);
    var merchant := Rules.SuspiciousMerchantScore(transaction.merchantId);
    Rules.SuspiciousMerchantScoreIff(transaction.merchantId);
    ScoreOfExact(location);
    ScoreOfExact(merchant);
    if location != 1.0 {
      ScoreBelowOne(location);
    }
  }

  /** 0 and 1 are kept exactly. */
  lemma ScoreOfExact(value: real)
    ensures value == 0.0 ==> ToScore(RuleEngine.Finite(value)) == 0
    ensures value == 1.0 ==> ToScore(RuleEngine.Finite(value)) == SCALE4
  {
    Scale4OfUnits(0);
    Scale4OfUnits(SCALE4);
  }

  /** The location rule's non-maximal scores (0 and 0.65) stay below 1.0000. */
  lemma ScoreBelowOne(value: real)
    requires value == 0.0 || value == 0.65
    ensures ToScore(RuleEngine.Finite(value)) < SCALE4
  {
    Scale4Between(value, 0, 6500);
  }

  /** The frequency example: counts (3, 8) give 8. */
  lemma TransactionFrequencyExample()
    ensures TransactionFrequency(FeatureContext(3, 8, 10)) == 8
  {
  }

  /** "Moscow, RU" and "crypto-exchange-2" at 8700 with counts (3, 8): 8700.0000, 8, 1.0000, 1.0000. */
  lemma BuildRequestRiskyExample(transaction: TransactionCreatedEvent)
    requires transaction.amount == Some(8700.0)
    requires transaction.location.Some? && transaction.location.value == "Moscow, RU"
    requires transaction.merchantId.Some? && transaction.merchantId.value == "crypto-exchange-2"
    ensures BuildRequest(transaction, Some(FeatureContext(3, 8, 10))) == MlPredictionRequest(87_000_000, 8, SCALE4, SCALE4)
  {
    RiskyAmount(transaction.amount);
    RiskyLocation(transaction);
    RiskyMerchant(transaction);
  }

  /** 8700 is 87000000 units exactly. */
  lemma RiskyAmount(amount: Option<real>)
    requires amount == Some(8700.0)
    ensures SanitizeAmount(amount) == 87_000_000
  {
    assert 8700.0 * SCALE4 as real == 87_000_000 as real;
    HalfUpOfInt(87_000_000);
  }

  /** "Moscow, RU" scores 1.0000. */
  lemma RiskyLocation(transaction: TransactionCreatedEvent)
    requires transaction.location.Some? && transaction.location.value == "Moscow, RU"
    ensures ToScore(RuleEngine.Finite(Rules.ForeignLocationScore(transaction.location))) == SCALE4
  {
    Rules.ForeignLocationHighRiskExample(transaction.location.value);
    ScoreOfExact(1.0);
  }

  /** "crypto-exchange-2" scores 1.0000. */
  lemma RiskyMerchant(transaction: TransactionCreatedEvent)
    requires transaction.merchantId.Some? && transaction.merchantId.value == "crypto-exchange-2"
    ensures ToScore(RuleEngine.Finite(Rules.SuspiciousMerchantScore(transaction.merchantId))) == SCALE4
  {
    Rules.CryptoMerchantSuspicious(transaction.merchantId.value);
    ScoreOfExact(1.0);
  }

  /** "Austin, US" and "merchant-1" at -90 without a context: everything 0. */
  lemma BuildRequestSafeExample(transaction: TransactionCreatedEvent)
    requires transaction.amount == Some(-90.0)
    requires transaction.location.Some? && transaction.location.value == "Austin, US"
    requires transaction.merchantId.Some? && transaction.merchantId.value == "merchant-1"
    ensures BuildRequest(transaction, None) == MlPredictionRequest(0, 0, 0, 0)
  {
    Rules.ForeignLocationDomesticExample(transaction.location.value);
    Rules.OrdinaryMerchantExample(transaction.merchantId.value);
    ScoreOfExact(0.0);
  }
}
