/**
 * `createTransaction`: refuse a non-positive amount, otherwise save the new transaction, send
 * its event on the transactions topic, keyed by the transaction id, and commit. The save only
 * persists the entity: its id is assigned in `@PrePersist` and not generated by the database,
 * so the insert waits for the commit at the end of the `@Transactional` method. The table
 * therefore refuses a duplicate transaction id, or a value too long or too large for its
 * column, at the commit, after the event has been handed to the producer: the request is
 * answered with 409, nothing is saved, and the event stays sent. The database is a list of
 * saved transactions; the topic is the list of records sent to it.
 */
module TransactionCreation {
  import opened Wrappers
  import opened TransactionMapping

  const AMOUNT_ERROR: string := "amount must be greater than zero"

  /** A record sent to the topic: topic name, key and event. */
  datatype SentRecord = SentRecord(topic: string, key: string, event: TransactionCreatedEvent)

  /** The saved transactions and the records sent so far. */
  datatype TransactionsState = TransactionsState(saved: seq<Transaction>, sent: seq<SentRecord>)

  /** What a create request ends in. */
  datatype CreateOutcome =
    | Created(response: TransactionResponse)
    | InvalidAmount(message: string)
    /**
     * The commit throws a data integrity violation, answered with 409: the unique
     * `transactionId` column refuses a second transaction with the same id, or a value does not
     * fit its column.
     */
    | Conflict

  predicate HasTransactionId(saved: seq<Transaction>, transactionId: string)
  {
    exists i :: 0 <= i < |saved| && saved[i].transactionId == transactionId
  }

  /** The record `createTransaction` sends for a saved transaction. */
  function RecordOf(topic: string, transaction: Transaction): SentRecord
  {
    SentRecord(topic, transaction.transactionId, ToEvent(transaction))
  }

  /**
   * `createTransaction` with `newId` and `nowMillis` as the id and time the save assigns: the
   * amount check, the save, the send, then the commit, which keeps the transaction only when
   * its transaction id is new and its values fit the table.
   */
  function Create(st: TransactionsState, topic: string, request: TransactionRequest, newId: string, nowMillis: int): (TransactionsState, CreateOutcome)
  {
    if request.amount <= 0.0 then (st, InvalidAmount(AMOUNT_ERROR))
    else
      var savedTransaction := OnCreate(ToEntity(request), newId, nowMillis);
      var sent := st.sent + [RecordOf(topic, savedTransaction)];
      if HasTransactionId(st.saved, request.transactionId) || !FitsColumns(savedTransaction) then (TransactionsState(st.saved, sent), Conflict)
      else (TransactionsState(st.saved + [savedTransaction], sent), Created(ToResponse(savedTransaction)))
  }

  /**
   * The topic holds the record of every saved transaction; every record on it is on the
   * service's topic and keyed by its event's transaction id; saved transaction ids are unique,
   * and every saved transaction fits the table. (The topic may also hold records of refused
   * transactions, which are not saved.)
   */
  predicate Consistent(st: TransactionsState, topic: string)
  {
    && (forall i :: 0 <= i < |st.saved| ==> RecordOf(topic, st.saved[i]) in st.sent)
    && (forall i :: 0 <= i < |st.sent| ==> st.sent[i].topic == topic && st.sent[i].key == st.sent[i].event.transactionId)
    && (forall i, j :: 0 <= i < j < |st.saved| ==> st.saved[i].transactionId != st.saved[j].transactionId)
    && (forall i :: 0 <= i < |st.saved| ==> FitsColumns(st.saved[i]))
  }

  /**
   * A request is created exactly when its amount is positive, its transaction id is new and the
   * transaction it makes fits the table (`SavedFitsColumns` states that in terms of the
   * request). A non-positive amount is refused with its message before anything else is looked
   * at, and changes nothing. Any positive amount sends exactly one record, the event of the
   * saved transaction keyed by its transaction id; a duplicate id or a value that does not fit
   * is then refused at the commit with nothing saved, and otherwise the transaction is saved
   * once, the caller being answered with what was sent.
   */
  lemma CreateProperties(st: TransactionsState, topic: string, request: TransactionRequest, newId: string, nowMillis: int)
    ensures var (next, outcome) := Create(st, topic, request, newId, nowMillis);
      var savedTransaction := OnCreate(ToEntity(request), newId, nowMillis);
      && (outcome.Created? <==>
            request.amount > 0.0 && !HasTransactionId(st.saved, request.transactionId) && FitsColumns(savedTransaction))
      && (request.amount <= 0.0 ==> outcome == InvalidAmount("amount must be greater than zero") && next == st)
      && (request.amount > 0.0 ==>
            && next.sent == st.sent + [SentRecord(topic, request.transactionId, ToEvent(savedTransaction))]
            && FromEvent(next.sent[|st.sent|].event) == savedTransaction)
      && (request.amount > 0.0 && (HasTransactionId(st.saved, request.transactionId) || !FitsColumns(savedTransaction)) ==>
            outcome == Conflict && next.saved == st.saved)
      && (outcome.Created? ==>
            && next.saved == st.saved + [savedTransaction]
            && outcome.response == ToResponse(savedTransaction))
  {
    ToEventLossless(OnCreate(ToEntity(request), newId, nowMillis), OnCreate(ToEntity(request), newId, nowMillis));
  }

  /**
   * Every create, a refused one included, keeps every saved transaction on the topic, the ids
   * unique and every saved transaction within the table's columns.
   */
  lemma CreatePreservesConsistent(st: TransactionsState, topic: string, request: TransactionRequest, newId: string, nowMillis: int)
    requires Consistent(st, topic)
    ensures Consistent(Create(st, topic, request, newId, nowMillis).0, topic)
  {
    var (next, outcome) := Create(st, topic, request, newId, nowMillis);
    if request.amount > 0.0 {
      assert next.sent[..|st.sent|] == st.sent;
      forall i | 0 <= i < |st.saved|
        ensures RecordOf(topic, st.saved[i]) in next.sent
      {
        var k :| 0 <= k < |st.sent| && st.sent[k] == RecordOf(topic, st.saved[i]);
        assert next.sent[k] == st.sent[k];
      }
    }
    if outcome.Created? {
      forall i, j | 0 <= i < j < |next.saved|
        ensures next.saved[i].transactionId != next.saved[j].transactionId
      {
        if j == |st.saved| {
          assert next.saved[i] == st.saved[i];
        }
      }
      assert next.sent[|st.sent|] == RecordOf(topic, next.saved[|st.saved|]);
    }
  }

  /**
   * A positive request refused at the commit, because its transaction id is already saved or a
   * value does not fit its column, still sends its event, though the transaction is not kept:
   * the topic then holds a record whose transaction is not saved.
   */
  lemma RefusedStillSent(st: TransactionsState, topic: string, request: TransactionRequest, newId: string, nowMillis: int)
    requires Consistent(st, topic)
    requires request.amount > 0.0
    requires HasTransactionId(st.saved, request.transactionId) || !FitsColumns(OnCreate(ToEntity(request), newId, nowMillis))
    requires forall i :: 0 <= i < |st.saved| ==> st.saved[i].id != Some(newId)
    ensures var (next, outcome) := Create(st, topic, request, newId, nowMillis);
      && outcome == Conflict
      && |next.sent| == |st.sent| + 1
      && next.sent[|st.sent|].key == request.transactionId
      && FromEvent(next.sent[|st.sent|].event) !in next.saved
  {
    var savedTransaction := OnCreate(ToEntity(request), newId, nowMillis);
    ToEventLossless(savedTransaction, savedTransaction);
    assert savedTransaction.id == Some(newId);
  }

  /** The service's own example: a request for 90.12 USD is answered with its id and amount. */
  lemma CreateExample(st: TransactionsState, newId: string, nowMillis: int)
    requires st == TransactionsState([], [])
    ensures var request := TransactionRequest("txn-1", "user-1", 90.12, "USD", "merchant-1", "New York", "device-1", Some("RECEIVED"));
      var (next, outcome) := Create(st, "transactions", request, newId, nowMillis);
      && outcome.Created? && outcome.response.transactionId == "txn-1" && outcome.response.amount == 90.12
      && outcome.response.currency == "USD" && outcome.response.status == "RECEIVED"
      && |next.saved| == 1 && |next.sent| == 1 && next.sent[0].key == "txn-1"
  {
  }

  /**
   * A user id of 101 characters is longer than its column: the request is refused with 409,
   * its event is sent and nothing is saved.
   */
  lemma LongUserIdExample(st: TransactionsState, newId: string, nowMillis: int)
    requires st == TransactionsState([], [])
    ensures var request := TransactionRequest("txn-1", seq(101, _ => 'u'), 90.12, "USD", "merchant-1", "New York", "device-1", None);
      var (next, outcome) := Create(st, "transactions", request, newId, nowMillis);
      && outcome == Conflict && next.saved == [] && |next.sent| == 1 && next.sent[0].key == "txn-1"
  {
    var userId: string := seq(101, _ => 'u');
    assert userId[100] == 'u';
  }

  /** The service: the database and the topic are lists it appends to. */
  class TransactionServiceImpl {
    const transactionTopic: string
    var savedTransactions: seq<Transaction>
    var sentRecords: seq<SentRecord>
    /** The inserts persisted in the open transaction, waiting for its commit. */
    var pendingInserts: seq<Transaction>

    function State(): TransactionsState
      reads this
    {
      TransactionsState(savedTransactions, sentRecords)
    }

    constructor (transactionTopic: string)
      ensures this.transactionTopic == transactionTopic
      ensures State() == TransactionsState([], []) && pendingInserts == []
    {
      this.transactionTopic := transactionTopic;
      savedTransactions := [];
      sentRecords := [];
      pendingInserts := [];
    }

    /**
     * `createTransaction`; `newId` and `nowMillis` are what the save assigns. The method runs in
     * its own transaction, which starts with nothing pending and ends with the commit.
     */
    method CreateTransaction(request: TransactionRequest, newId: string, nowMillis: int) returns (outcome: CreateOutcome)
      modifies this
      ensures (State(), outcome) == Create(old(State()), transactionTopic, request, newId, nowMillis)
      ensures pendingInserts == []
    {
      ghost var start := State();
      pendingInserts := [];
      if request.amount <= 0.0 {
        return InvalidAmount(AMOUNT_ERROR);
      }
      var transaction := ToEntity(request);
      var savedTransaction := Save(transaction, newId, nowMillis);
      var event := ToEvent(savedTransaction);
      sentRecords := sentRecords + [SentRecord(transactionTopic, savedTransaction.transactionId, event)];
      assert savedTransaction.transactionId == request.transactionId;
      InsertableSingle(savedTransactions, savedTransaction);
      assert pendingInserts == [savedTransaction];
      var committed := Commit();
      if !committed {
        return Conflict;
      }
      assert savedTransactions == start.saved + [savedTransaction];
      return Created(ToResponse(savedTransaction));
    }

    /** `transactionRepository.save`: `@PrePersist` assigns id and time; the insert waits for the commit. */
    method Save(transaction: Transaction, newId: string, nowMillis: int) returns (savedTransaction: Transaction)
      modifies this
      ensures savedTransaction == OnCreate(transaction, newId, nowMillis)
      ensures pendingInserts == old(pendingInserts) + [savedTransaction]
      ensures savedTransactions == old(savedTransactions) && sentRecords == old(sentRecords)
    {
      savedTransaction := OnCreate(transaction, newId, nowMillis);
      pendingInserts := pendingInserts + [savedTransaction];
    }

    /**
     * The commit: the pending inserts are kept when each of them fits the table's columns and
     * none repeats a transaction id, saved or pending before it; otherwise the table refuses
     * one and all are rolled back. Records already sent stay sent either way.
     */
    method Commit() returns (committed: bool)
      modifies this
      ensures committed <==> Insertable(old(savedTransactions), old(pendingInserts))
      ensures savedTransactions == if committed then old(savedTransactions) + old(pendingInserts) else old(savedTransactions)
      ensures pendingInserts == [] && sentRecords == old(sentRecords)
    {
      committed := Insertable(savedTransactions, pendingInserts);
      if committed {
        savedTransactions := savedTransactions + pendingInserts;
      }
      pendingInserts := [];
    }
  }

  /** Inserting `pending` after `saved`, one by one, never meets a value the table refuses. */
  predicate Insertable(saved: seq<Transaction>, pending: seq<Transaction>)
  {
    forall i :: 0 <= i < |pending| ==>
      FitsColumns(pending[i]) && !HasTransactionId(saved + pending[..i], pending[i].transactionId)
  }

  /** A single pending insert is insertable exactly when it fits the table and its transaction id is new. */
  lemma InsertableSingle(saved: seq<Transaction>, transaction: Transaction)
    ensures Insertable(saved, [transaction]) <==> FitsColumns(transaction) && !HasTransactionId(saved, transaction.transactionId)
  {
    assert [transaction][..0] == [];
    assert saved + [] == saved;
  }
}
