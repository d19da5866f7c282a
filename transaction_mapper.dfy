/**
 * The transaction service's mapping between an incoming request, the stored transaction, the
 * event published on the transactions topic and the response returned to the caller. Amounts
 * are decimals; times are epoch milliseconds; the status is its enum name.
 */
module TransactionMapping {
  import opened Wrappers
  import opened Strings

  /** The status a transaction is given when the request names none. */
  const RECEIVED: string := "RECEIVED"

  /** The body of a create request. */
  datatype TransactionRequest = TransactionRequest(
    transactionId: string,
    userId: string,
    amount: real,
    currency: string,
    merchantId: string,
    location: string,
    deviceId: string,
    status: Option<string>)

  /** A stored transaction; `id` and `createdAt` are assigned when it is first saved. */
  datatype Transaction = Transaction(
    id: Option<string>,
    transactionId: string,
    userId: string,
    amount: real,
    currency: string,
    merchantId: string,
    location: string,
    deviceId: string,
    status: string,
    createdAt: Option<int>)

  /** The event published for a stored transaction. */
  datatype TransactionCreatedEvent = TransactionCreatedEvent(
    id: Option<string>,
    transactionId: string,
    userId: string,
    amount: real,
    currency: string,
    merchantId: string,
    location: string,
    deviceId: string,
    status: string,
    createdAt: Option<int>)

  /** The answer to a create request. */
  datatype TransactionResponse = TransactionResponse(
    id: Option<string>,
    transactionId: string,
    userId: string,
    amount: real,
    currency: string,
    merchantId: string,
    location: string,
    deviceId: string,
    status: string,
    createdAt: Option<int>)

  /** `toEntity`: a new, unsaved transaction; the currency is upper-cased and a missing status becomes `RECEIVED`. */
  function ToEntity(request: TransactionRequest): Transaction
  {
    Transaction(
      None,
      request.transactionId,
      request.userId,
      request.amount,
      Upper(request.currency),
      request.merchantId,
      request.location,
      request.deviceId,
      if request.status.None? then RECEIVED else request.status.value,
      None)
  }

  /** `toEvent`: every field of the transaction, unchanged. */
  function ToEvent(transaction: Transaction): TransactionCreatedEvent
  {
    TransactionCreatedEvent(
      transaction.id, transaction.transactionId, transaction.userId, transaction.amount, transaction.currency,
      transaction.merchantId, transaction.location, transaction.deviceId, transaction.status, transaction.createdAt)
  }

  /** `toResponse`: every field of the transaction, unchanged. */
  function ToResponse(transaction: Transaction): TransactionResponse
  {
    TransactionResponse(
      transaction.id, transaction.transactionId, transaction.userId, transaction.amount, transaction.currency,
      transaction.merchantId, transaction.location, transaction.deviceId, transaction.status, transaction.createdAt)
  }

  /** The transaction an event describes. */
  function FromEvent(event: TransactionCreatedEvent): Transaction
  {
    Transaction(
      event.id, event.transactionId, event.userId, event.amount, event.currency,
      event.merchantId, event.location, event.deviceId, event.status, event.createdAt)
  }

  /**
   * The event loses nothing: the transaction can be read back from it, so distinct
   * transactions give distinct events; and the caller's response reports what the event does.
   */
  lemma ToEventLossless(transaction: Transaction, other: Transaction)
    ensures FromEvent(ToEvent(transaction)) == transaction
    ensures ToEvent(transaction) == ToEvent(other) ==> transaction == other
    ensures var event, response := ToEvent(transaction), ToResponse(transaction);
      && response.id == event.id && response.transactionId == event.transactionId && response.userId == event.userId
      && response.amount == event.amount && response.currency == event.currency
      && response.merchantId == event.merchantId && response.location == event.location
      && response.deviceId == event.deviceId && response.status == event.status && response.createdAt == event.createdAt
  {
    assert FromEvent(ToEvent(other)) == other;
  }

  /**
   * A new transaction is unsaved, keeps the request's ids, amount, merchant, location and
   * device, has an upper-case currency (an upper-case one is kept as sent) and the requested
   * status, `RECEIVED` when none is requested.
   */
  lemma ToEntityProperties(request: TransactionRequest)
    ensures var t := ToEntity(request);
      && t.id.None? && t.createdAt.None?
      && t.transactionId == request.transactionId && t.userId == request.userId && t.amount == request.amount
      && t.merchantId == request.merchantId && t.location == request.location && t.deviceId == request.deviceId
      && |t.currency| == |request.currency| && Upper(t.currency) == t.currency
      && (Upper(request.currency) == request.currency ==> t.currency == request.currency)
      && t.status == (if request.status.Some? then request.status.value else "RECEIVED")
  {
    var c := Upper(request.currency);
    assert Upper(c) == c;
  }

  /**
   * `onCreate`, run when a transaction is first saved: fill in a missing id and creation time.
   * Its default status never applies here, because `ToEntity` always sets a status.
   */
  function OnCreate(transaction: Transaction, newId: string, nowMillis: int): Transaction
  {
    transaction.(
      id := if transaction.id.None? then Some(newId) else transaction.id,
      createdAt := if transaction.createdAt.None? then Some(nowMillis) else transaction.createdAt)
  }

  /**
   * A text value fits a `varchar(length)` column of PostgreSQL: a longer value is refused,
   * unless every character beyond the length is a space, which the column cuts off.
   */
  predicate FitsVarchar(s: string, length: nat)
  {
    |s| <= length || forall i :: length <= i < |s| ==> s[i] == ' '
  }

  /**
   * The least magnitude that a `numeric(19, 2)` column, which rounds to two decimals half away
   * from zero, turns into 10^17: one more integer digit than its 17.
   */
  const AMOUNT_OVERFLOW: real := 99999999999999999.995

  /**
   * The transaction's values fit the columns of the `transactions` table: transaction id, user,
   * merchant and device up to 100 characters, currency up to 3, location up to 150, status up
   * to 30, and an amount of at most 17 integer digits once rounded to cents.
   */
  predicate FitsColumns(t: Transaction)
  {
    && FitsVarchar(t.transactionId, 100)
    && FitsVarchar(t.userId, 100)
    && FitsVarchar(t.currency, 3)
    && FitsVarchar(t.merchantId, 100)
    && FitsVarchar(t.location, 150)
    && FitsVarchar(t.deviceId, 100)
    && FitsVarchar(t.status, 30)
    && -AMOUNT_OVERFLOW < t.amount < AMOUNT_OVERFLOW
  }

  /** Upper-casing keeps every space and makes no new one, so it keeps whether a value fits. */
  lemma UpperFitsVarchar(s: string, length: nat)
    ensures FitsVarchar(Upper(s), length) <==> FitsVarchar(s, length)
  {
    var u := Upper(s);
    forall i | 0 <= i < |s|
      ensures u[i] == ' ' <==> s[i] == ' '
    {
      assert u[i] == UpperChar(s[i]);
    }
  }

  /**
   * The transaction saved for a request fits the table exactly when the request's values do:
   * each text within its column's length, up to trailing spaces, the status `RECEIVED` when
   * none is requested, and the amount below the overflow of its column.
   */
  lemma SavedFitsColumns(request: TransactionRequest, newId: string, nowMillis: int)
    ensures FitsColumns(OnCreate(ToEntity(request), newId, nowMillis)) <==>
      && FitsVarchar(request.transactionId, 100)
      && FitsVarchar(request.userId, 100)
      && FitsVarchar(request.currency, 3)
      && FitsVarchar(request.merchantId, 100)
      && FitsVarchar(request.location, 150)
      && FitsVarchar(request.deviceId, 100)
      && (request.status.Some? ==> FitsVarchar(request.status.value, 30))
      && -AMOUNT_OVERFLOW < request.amount < AMOUNT_OVERFLOW
  {
    UpperFitsVarchar(request.currency, 3);
  }

  /** A saved new transaction has the generated id and the save time, and otherwise what the request gave. */
  lemma SavedEntity(request: TransactionRequest, newId: string, nowMillis: int)
    ensures var saved := OnCreate(ToEntity(request), newId, nowMillis);
      && saved.id == Some(newId) && saved.createdAt == Some(nowMillis)
      && saved.(id := None, createdAt := None) == ToEntity(request)
  {
  }
}
