/** Values that flow through the fraud service: the consumed transaction event, the velocity features and the decision verdicts. */
module FraudTypes {
  import opened Wrappers

  /**
   * A transaction as the fraud service consumes it from the transactions topic. Timestamps are
   * epoch milliseconds; a field the JSON may omit is an `Option`.
   */
  datatype TransactionCreatedEvent = TransactionCreatedEvent(
    id: string,
    transactionId: string,
    userId: string,
    amount: Option<real>,
    currency: Option<string>,
    merchantId: Option<string>,
    location: Option<string>,
    deviceId: Option<string>,
    status: Option<string>,
    createdAt: Option<int>)

  /** Behavioural features of a user at the time of one transaction. */
  datatype FeatureContext = FeatureContext(
    transactionsPerMinute: int,
    transactionsPerFiveMinutes: int,
    secondsSinceLastTransaction: int)

  /** The verdict on a transaction. */
  datatype DecisionType = APPROVED | REVIEW | BLOCKED
}
