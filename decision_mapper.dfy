/**
 * Maps a verdict between the transaction it judges, the stored decision and the event published
 * on the decisions topic. Scores are integers in units of 1/10000.
 */
module FraudDecisionMapping {
  import opened Wrappers
  import opened Numeric
  import opened FraudTypes

  /** A stored decision; `id` and `createdAt` are assigned by the repository when it is first saved. */
  datatype FraudDecision = FraudDecision(
    id: Option<string>,
    transactionId: string,
    userId: string,
    riskScore: int,
    decision: DecisionType,
    ruleScore: int,
    mlScore: int,
    amount: Option<real>,
    currency: Option<string>,
    merchantId: Option<string>,
    location: Option<string>,
    createdAt: Option<int>)

  /** The event published for a stored decision. */
  datatype FraudDecisionEvent = FraudDecisionEvent(
    id: Option<string>,
    transactionId: string,
    userId: string,
    riskScore: int,
    decision: DecisionType,
    ruleScore: int,
    mlScore: int,
    amount: Option<real>,
    currency: Option<string>,
    merchantId: Option<string>,
    location: Option<string>,
    createdAt: Option<int>)

  /** `scale`: a missing score is 0.0000; any other is rounded half-up to 4 decimals. */
  function Scale(value: Option<real>): (units: int)
    ensures value.None? ==> units == 0
    ensures value.Some? ==> -0.5 <= units as real - value.value * SCALE4 as real <= 0.5
  {
    if value.None? then 0 else Scale4(value.value)
  }

  /** A score that already has four decimals is stored exactly. */
  lemma ScaleKeepsDecimals(units: int)
    ensures Scale(Some(Units4(units))) == units
  {
    Scale4OfUnits(units);
  }

  /** Rescaling never reverses the order of two scores. */
  lemma ScaleOrdered(a: real, b: real)
    requires a <= b
    ensures Scale(Some(a)) <= Scale(Some(b))
  {
    Scale4Monotone(a, b);
  }

  /** `toEntity`: a new, unsaved decision for `transaction` with its three scores rescaled. */
  function ToEntity(transaction: TransactionCreatedEvent, riskScore: Option<real>, decision: DecisionType, ruleScore: Option<real>, mlScore: Option<real>): FraudDecision
  {
    FraudDecision(
      None,
      transaction.transactionId,
      transaction.userId,
      Scale(riskScore),
      decision,
      Scale(ruleScore),
      Scale(mlScore),
      transaction.amount,
      transaction.currency,
      transaction.merchantId,
      transaction.location,
      None)
  }

  /** `toEvent`: every field of the decision, unchanged. */
  function ToEvent(decision: FraudDecision): FraudDecisionEvent
  {
    FraudDecisionEvent(
      decision.id,
      decision.transactionId,
      decision.userId,
      decision.riskScore,
      decision.decision,
      decision.ruleScore,
      decision.mlScore,
      decision.amount,
      decision.currency,
      decision.merchantId,
      decision.location,
      decision.createdAt)
  }

  /** The decision an event describes. */
  function FromEvent(event: FraudDecisionEvent): FraudDecision
  {
    FraudDecision(
      event.id,
      event.transactionId,
      event.userId,
      event.riskScore,
      event.decision,
      event.ruleScore,
      event.mlScore,
      event.amount,
      event.currency,
      event.merchantId,
      event.location,
      event.createdAt)
  }

  /** The event loses nothing: the decision can be read back from it, so distinct decisions give distinct events. */
  lemma ToEventLossless(decision: FraudDecision, other: FraudDecision)
    ensures FromEvent(ToEvent(decision)) == decision
    ensures ToEvent(decision) == ToEvent(other) ==> decision == other
  {
    assert FromEvent(ToEvent(other)) == other;
  }

  /**
   * A new decision is unsaved, belongs to the transaction's user and carries the transaction's
   * amount, currency, merchant and location; its scores lie within half a unit of the given ones,
   * and the event of the decision once saved reports the same.
   */
  lemma ToEntityCopiesTransaction(transaction: TransactionCreatedEvent, riskScore: real, decision: DecisionType, ruleScore: real, mlScore: real, savedId: string, savedAt: int)
    ensures var entity := ToEntity(transaction, Some(riskScore), decision, Some(ruleScore), Some(mlScore));
      var event := ToEvent(entity.(id := Some(savedId), createdAt := Some(savedAt)));
      && entity.id.None? && entity.createdAt.None?
      && event.id == Some(savedId) && event.createdAt == Some(savedAt)
      && event.transactionId == transaction.transactionId && event.userId == transaction.userId
      && event.decision == decision
      && event.amount == transaction.amount && event.currency == transaction.currency
      && event.merchantId == transaction.merchantId && event.location == transaction.location
      && -0.5 <= event.riskScore as real - riskScore * SCALE4 as real <= 0.5
      && -0.5 <= event.ruleScore as real - ruleScore * SCALE4 as real <= 0.5
      && -0.5 <= event.mlScore as real - mlScore * SCALE4 as real <= 0.5
  {
  }

  /** Scores that already have four decimals are stored exactly; missing ones are stored as 0.0000. */
  lemma ToEntityOfDecimals(transaction: TransactionCreatedEvent, riskScore: int, decision: DecisionType, ruleScore: int, mlScore: int)
    ensures var entity := ToEntity(transaction, Some(Units4(riskScore)), decision, Some(Units4(ruleScore)), Some(Units4(mlScore)));
      entity.riskScore == riskScore && entity.ruleScore == ruleScore && entity.mlScore == mlScore
    ensures var entity := ToEntity(transaction, None, decision, None, None);
      entity.riskScore == 0 && entity.ruleScore == 0 && entity.mlScore == 0
  {
    ScaleKeepsDecimals(riskScore);
    ScaleKeepsDecimals(ruleScore);
    ScaleKeepsDecimals(mlScore);
  }
}
