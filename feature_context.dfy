/**
 * Builds the behavioural feature context of a transaction from the velocity tracker, using the
 * transaction's creation time, or the current time when it has none.
 */
module FeatureEngineering {
  import opened Wrappers
  import opened Numeric
  import opened FraudTypes
  import Velocity

  /** The time the tracker is given: the creation time, else the clock's reading. */
  function EventTime(transaction: TransactionCreatedEvent, clockMillis: int): (t: int)
    ensures transaction.createdAt.Some? ==> t == transaction.createdAt.value
    ensures transaction.createdAt.None? ==> t == clockMillis
  {
    OrElse(transaction.createdAt, clockMillis)
  }

  /** The context carrying the tracker's three statistics. */
  function ContextOf(stats: Velocity.VelocityStats): FeatureContext
  {
    FeatureContext(stats.transactionsPerMinute, stats.transactionsPerFiveMinutes, stats.secondsSinceLastTransaction)
  }

  /** The context `buildFeatureContext` returns for a given store and clock reading. */
  function BuildContext(st: Velocity.StoreState, transaction: TransactionCreatedEvent, clockMillis: int, failAt: Option<Velocity.StoreStep>): FeatureContext
  {
    ContextOf(Velocity.Track(st, transaction.userId, transaction.transactionId, EventTime(transaction, clockMillis), failAt).1)
  }

  /**
   * The context reports the tracker's statistics unchanged: its one-minute count never exceeds
   * its five-minute count and counts the transaction itself, its elapsed time is never negative,
   * and a store failure passes through as the neutral context.
   */
  lemma BuildContextProperties(st: Velocity.StoreState, transaction: TransactionCreatedEvent, clockMillis: int, failAt: Option<Velocity.StoreStep>)
    requires var t := EventTime(transaction, clockMillis);
      IsLong(t) && IsLong(t - Velocity.FIVE_MINUTE_MILLIS)
    requires |Velocity.SetAt(st, Velocity.VelocityKey(transaction.userId))| < INT_MAX
    ensures var ctx := BuildContext(st, transaction, clockMillis, failAt);
      0 <= ctx.secondsSinceLastTransaction <= LONG_MAX &&
      (failAt.Some? ==> ctx == FeatureContext(0, 0, LONG_MAX)) &&
      (failAt.None? ==> 1 <= ctx.transactionsPerMinute <= ctx.transactionsPerFiveMinutes)
  {
    var t := EventTime(transaction, clockMillis);
    if failAt.None? {
      Velocity.TrackCounts(st, transaction.userId, transaction.transactionId, t);
    }
  }

  class FeatureEngineeringService {
    const velocityTrackingService: Velocity.VelocityTrackingService

    constructor (velocityTrackingService: Velocity.VelocityTrackingService)
      ensures this.velocityTrackingService == velocityTrackingService
    {
      this.velocityTrackingService := velocityTrackingService;
    }

    /**
     * `buildFeatureContext`: one tracker call with the transaction's user and id at its event
     * time, and the tracker's statistics as the context. `clockMillis` is the current time.
     */
    method BuildFeatureContext(transaction: TransactionCreatedEvent, clockMillis: int, failAt: Option<Velocity.StoreStep>)
      returns (context: FeatureContext)
      requires IsLong(EventTime(transaction, clockMillis))
      modifies velocityTrackingService.store
      ensures velocityTrackingService.store.State()
        == Velocity.Track(old(velocityTrackingService.store.State()), transaction.userId, transaction.transactionId, EventTime(transaction, clockMillis), failAt).0
      ensures context == BuildContext(old(velocityTrackingService.store.State()), transaction, clockMillis, failAt)
    {
      var eventTime := if transaction.createdAt.None? then clockMillis else transaction.createdAt.value;
      var velocityStats := velocityTrackingService.TrackAndMeasure(transaction.userId, transaction.transactionId, eventTime, failAt);
      context := FeatureContext(
        velocityStats.transactionsPerMinute,
        velocityStats.transactionsPerFiveMinutes,
        velocityStats.secondsSinceLastTransaction);
    }
  }
}
