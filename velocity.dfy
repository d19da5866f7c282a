/**
 * Per-user transaction velocity, kept in a key-value store: a sorted set per user whose
 * members are scored by event time in epoch milliseconds, and a "last seen" string per user.
 * Each tracked event is added, entries older than five minutes are pruned, the events of the
 * last minute and of the last five minutes are counted, and the last-seen time is overwritten.
 * Any store failure degrades to the neutral statistics (0, 0, Long.MAX_VALUE).
 */
module Velocity {
  import opened Wrappers
  import opened Numeric
  import opened Strings

  const ONE_MINUTE_MILLIS: int := 60_000
  const FIVE_MINUTE_MILLIS: int := 300_000

  /** What the tracker reports for one event. */
  datatype VelocityStats = VelocityStats(transactionsPerMinute: int, transactionsPerFiveMinutes: int, secondsSinceLastTransaction: int)

  /** The statistics returned when the store is unavailable. */
  const DEGRADED: VelocityStats := VelocityStats(0, 0, LONG_MAX)

  /** A sorted set: member to score. */
  type ZSet = map<string, int>

  /** The part of the store the tracker uses: sorted sets and plain string values, by key. */
  datatype StoreState = StoreState(sortedSets: map<string, ZSet>, values: map<string, string>)

  function VelocityKey(userId: string): string { "velocity:user:" + userId }
  function LastSeenKey(userId: string): string { "velocity:last-seen:" + userId }

  function SetAt(st: StoreState, key: string): ZSet
  {
    if key in st.sortedSets then st.sortedSets[key] else map[]
  }

  /** GET: the string stored under `key`, if any. */
  function ValueAt(st: StoreState, key: string): Option<string>
  {
    if key in st.values then Some(st.values[key]) else None
  }

  /** ZADD: insert `member`, or move it to `score` if it is present. */
  function ZAdd(st: StoreState, key: string, member: string, score: int): (r: StoreState)
    ensures SetAt(r, key) == SetAt(st, key)[member := score]
  {
    st.(sortedSets := st.sortedSets[key := SetAt(st, key)[member := score]])
  }

  /** ZREMRANGEBYSCORE: drop every member whose score lies in [lo, hi]. */
  function ZRemoveRangeByScore(st: StoreState, key: string, lo: int, hi: int): (r: StoreState)
    ensures forall m :: m in SetAt(r, key) <==> m in SetAt(st, key) && !(lo <= SetAt(st, key)[m] <= hi)
    ensures forall m :: m in SetAt(r, key) ==> SetAt(r, key)[m] == SetAt(st, key)[m]
  {
    var z := SetAt(st, key);
    st.(sortedSets := st.sortedSets[key := map m | m in z && !(lo <= z[m] <= hi) :: z[m]])
  }

  /** The members whose score lies in [lo, hi]. */
  function InRange(z: ZSet, lo: int, hi: int): set<string>
  {
    set m | m in z && lo <= z[m] <= hi
  }

  /** ZCOUNT: how many members score within [lo, hi]. */
  function ZCount(st: StoreState, key: string, lo: int, hi: int): nat
  {
    |InRange(SetAt(st, key), lo, hi)|
  }

  /** SET: store a string under `key`. */
  function SetValue(st: StoreState, key: string, value: string): StoreState
  {
    st.(values := st.values[key := value])
  }

  /** `Long.intValue` of a count that may be absent. */
  function SafeInt(value: Option<int>): (r: int)
    ensures IsInt(r)
    ensures value == None ==> r == 0
    ensures value.Some? && IsInt(value.value) ==> r == value.value
  {
    if value.None? then 0 else WrapInt(value.value)
  }

  /**
   * Whole seconds since the previous event: Long.MAX_VALUE when there is no previous time
   * or it does not parse as a long; otherwise the 64-bit difference divided by 1000
   * (truncating), floored at 0.
   */
  function SecondsSinceLast(nowMillis: int, previousTimestamp: Option<string>): (r: int)
    ensures 0 <= r <= LONG_MAX
    ensures previousTimestamp == None ==> r == LONG_MAX
    ensures previousTimestamp.Some? && ParseLong(previousTimestamp.value) == None ==> r == LONG_MAX
  {
    match previousTimestamp
    case None => LONG_MAX
    case Some(text) =>
      match ParseLong(text)
      case None => LONG_MAX
      case Some(previousMillis) =>
        var difference := WrapLong(nowMillis - previousMillis);
        var elapsed := DivTrunc(difference, 1000);
        assert elapsed <= LONG_MAX by {
          if difference >= 0 { assert difference / 1000 <= difference; }
        }
        Max(0, elapsed)
  }

  /** The store calls the tracker makes, in order; a fault names the call that throws. */
  datatype StoreStep = ReadLastSeen | AddMember | RemoveExpired | CountMinute | CountFiveMinutes | Expire | WriteLastSeen

  function StepIndex(step: StoreStep): (i: nat)
    ensures i <= 6
  {
    match step
    case ReadLastSeen => 0
    case AddMember => 1
    case RemoveExpired => 2
    case CountMinute => 3
    case CountFiveMinutes => 4
    case Expire => 5
    case WriteLastSeen => 6
  }

  /** The store throws at `step` or at an earlier call. */
  predicate ThrowsBy(failAt: Option<StoreStep>, step: StoreStep)
  {
    failAt.Some? && StepIndex(failAt.value) <= StepIndex(step)
  }

  /** The member recorded for one event: the transaction id and the event time. */
  function Member(transactionId: string, eventTimeMillis: int): string
  {
    transactionId + ":" + LongToString(eventTimeMillis)
  }

  /**
   * The store after `trackAndMeasure`, and what it returns, when the store call `failAt`
   * names throws (the calls before it have taken effect) or when every call succeeds.
   */
  function Track(st: StoreState, userId: string, transactionId: string, eventTimeMillis: int, failAt: Option<StoreStep>): (r: (StoreState, VelocityStats))
    ensures failAt.Some? ==> r.1 == DEGRADED
    ensures failAt == None ==> r.1.secondsSinceLastTransaction == SecondsSinceLast(eventTimeMillis, ValueAt(st, LastSeenKey(userId)))
    ensures failAt == None ==> ValueAt(r.0, LastSeenKey(userId)) == Some(LongToString(eventTimeMillis))
    ensures failAt == None ==>
      forall m :: m in SetAt(r.0, VelocityKey(userId)) ==> !(0 <= SetAt(r.0, VelocityKey(userId))[m] <= WrapLong(eventTimeMillis - FIVE_MINUTE_MILLIS))
  {
    var velocityKey := VelocityKey(userId);
    var lastSeenKey := LastSeenKey(userId);
    var previousTimestamp := ValueAt(st, lastSeenKey);
    if ThrowsBy(failAt, AddMember) then (st, DEGRADED)
    else
      var member := Member(transactionId, eventTimeMillis);
      if ThrowsBy(failAt, RemoveExpired) then (ZAdd(st, velocityKey, member, eventTimeMillis), DEGRADED)
      else
        var pruned := Recorded(st, velocityKey, member, eventTimeMillis);
        // the counts and the expiry change nothing, so any later failure leaves the pruned set
        if failAt.Some? then (pruned, DEGRADED)
        else
          var perMinute := ZCount(pruned, velocityKey, WrapLong(eventTimeMillis - ONE_MINUTE_MILLIS), eventTimeMillis);
          var perFiveMinutes := ZCount(pruned, velocityKey, WrapLong(eventTimeMillis - FIVE_MINUTE_MILLIS), eventTimeMillis);
          (SetValue(pruned, lastSeenKey, LongToString(eventTimeMillis)),
           VelocityStats(SafeInt(Some(perMinute)), SafeInt(Some(perFiveMinutes)), SecondsSinceLast(eventTimeMillis, previousTimestamp)))
  }

  /** The key-value store, updated in place by each command. */
  class RedisStore {
    var sortedSets: map<string, ZSet>
    var values: map<string, string>

    function State(): StoreState
      reads this
    {
      StoreState(sortedSets, values)
    }

    constructor ()
      ensures State() == StoreState(map[], map[])
    {
      sortedSets := map[];
      values := map[];
    }

    method Get(key: string) returns (value: Option<string>)
      ensures value == ValueAt(State(), key)
    {
      value := if key in values then Some(values[key]) else None;
    }

    method Add(key: string, member: string, score: int)
      modifies this
      ensures State() == ZAdd(old(State()), key, member, score)
    {
      var z := if key in sortedSets then sortedSets[key] else map[];
      sortedSets := sortedSets[key := z[member := score]];
    }

    method RemoveRangeByScore(key: string, lo: int, hi: int)
      modifies this
      ensures State() == ZRemoveRangeByScore(old(State()), key, lo, hi)
    {
      var z := if key in sortedSets then sortedSets[key] else map[];
      sortedSets := sortedSets[key := map m | m in z && !(lo <= z[m] <= hi) :: z[m]];
    }

    method Count(key: string, lo: int, hi: int) returns (count: Option<int>)
      ensures count == Some(ZCount(State(), key, lo, hi))
    {
      var z := if key in sortedSets then sortedSets[key] else map[];
      count := Some(|set m | m in z && lo <= z[m] <= hi|);
    }

    method Set(key: string, value: string)
      modifies this
      ensures State() == SetValue(old(State()), key, value)
    {
      values := values[key := value];
    }
  }

  /** The tracker; the store is its only state. */
  class VelocityTrackingService {
    const store: RedisStore

    constructor (store: RedisStore)
      ensures this.store == store
    {
      this.store := store;
    }

    /**
     * `trackAndMeasure`. `failAt` names the store call that throws, if any; the expiry call
     * changes nothing in this model but may still throw.
     */
    method TrackAndMeasure(userId: string, transactionId: string, eventTimeMillis: int, failAt: Option<StoreStep>)
      returns (stats: VelocityStats)
      requires IsLong(eventTimeMillis)
      modifies store
      ensures store.State() == Track(old(store.State()), userId, transactionId, eventTimeMillis, failAt).0
      ensures stats == Track(old(store.State()), userId, transactionId, eventTimeMillis, failAt).1
    {
      var velocityKey := VelocityKey(userId);
      var lastSeenKey := LastSeenKey(userId);
      var member := Member(transactionId, eventTimeMillis);
      ghost var start := store.State();

      if ThrowsBy(failAt, ReadLastSeen) { return DEGRADED; }
      var previousTimestamp := store.Get(lastSeenKey);

      if ThrowsBy(failAt, AddMember) { return DEGRADED; }
      store.Add(velocityKey, member, eventTimeMillis);

      if ThrowsBy(failAt, RemoveExpired) { return DEGRADED; }
      store.RemoveRangeByScore(velocityKey, 0, WrapLong(eventTimeMillis - FIVE_MINUTE_MILLIS));
      assert store.State() == Recorded(start, velocityKey, member, eventTimeMillis);

      if ThrowsBy(failAt, CountMinute) { return DEGRADED; }
      var perMinuteCount := store.Count(velocityKey, WrapLong(eventTimeMillis - ONE_MINUTE_MILLIS), eventTimeMillis);

      if ThrowsBy(failAt, CountFiveMinutes) { return DEGRADED; }
      var perFiveMinuteCount := store.Count(velocityKey, WrapLong(eventTimeMillis - FIVE_MINUTE_MILLIS), eventTimeMillis);

      if ThrowsBy(failAt, Expire) { return DEGRADED; }

      if ThrowsBy(failAt, WriteLastSeen) { return DEGRADED; }
      assert failAt == None;
      store.Set(lastSeenKey, LongToString(eventTimeMillis));

      stats := VelocityStats(SafeInt(perMinuteCount), SafeInt(perFiveMinuteCount), SecondsSinceLast(eventTimeMillis, previousTimestamp));
    }
  }

  /** A subset has no more elements than its superset. */
  lemma SubsetCardinality(a: set<string>, b: set<string>)
    requires a <= b
    ensures |a| <= |b|
  {
    assert b == a + (b - a);
  }

  /**
   * After a successful call both counts include the event just added, and the one-minute
   * count never exceeds the five-minute count (the ranges are nested). The window bounds
   * must not wrap around, and the counts must fit an `int`.
   */
  lemma TrackCounts(st: StoreState, userId: string, transactionId: string, eventTimeMillis: int)
    requires IsLong(eventTimeMillis - FIVE_MINUTE_MILLIS) && IsLong(eventTimeMillis)
    requires |SetAt(st, VelocityKey(userId))| < INT_MAX
    ensures var stats := Track(st, userId, transactionId, eventTimeMillis, None).1;
      1 <= stats.transactionsPerMinute <= stats.transactionsPerFiveMinutes
  {
    var after := Track(st, userId, transactionId, eventTimeMillis, None).0;
    TrackCountsAfter(st, userId, transactionId, eventTimeMillis);
    WindowCounts(SetAt(after, VelocityKey(userId)), Member(transactionId, eventTimeMillis), eventTimeMillis);
  }

  /**
   * After a successful call the user's set holds the new member scored with the event time,
   * has at most one more member than before, and keeps every other member of the last five
   * minutes; the counts are taken over that set.
   */
  lemma TrackCountsAfter(st: StoreState, userId: string, transactionId: string, eventTimeMillis: int)
    requires IsLong(eventTimeMillis - FIVE_MINUTE_MILLIS) && IsLong(eventTimeMillis)
    requires |SetAt(st, VelocityKey(userId))| < INT_MAX
    ensures var (after, stats) := Track(st, userId, transactionId, eventTimeMillis, None);
      var z := SetAt(after, VelocityKey(userId));
      var member := Member(transactionId, eventTimeMillis);
      member in z && z[member] == eventTimeMillis && |z| <= |SetAt(st, VelocityKey(userId))| + 1 &&
      (forall m :: m in SetAt(st, VelocityKey(userId)) && m != member && SetAt(st, VelocityKey(userId))[m] > eventTimeMillis - FIVE_MINUTE_MILLIS ==>
         m in z && z[m] == SetAt(st, VelocityKey(userId))[m]) &&
      stats.transactionsPerMinute == |InRange(z, eventTimeMillis - ONE_MINUTE_MILLIS, eventTimeMillis)| &&
      stats.transactionsPerFiveMinutes == |InRange(z, eventTimeMillis - FIVE_MINUTE_MILLIS, eventTimeMillis)|
  {
    var key := VelocityKey(userId);
    var member := Member(transactionId, eventTimeMillis);
    var pruned := Recorded(st, key, member, eventTimeMillis);
    RecordedShape(st, key, member, eventTimeMillis);
    WindowCounts(SetAt(pruned, key), member, eventTimeMillis);
  }

  /** The store after adding the member and pruning, before the last-seen write. */
  function Recorded(st: StoreState, key: string, member: string, eventTimeMillis: int): StoreState
  {
    ZRemoveRangeByScore(ZAdd(st, key, member, eventTimeMillis), key, 0, WrapLong(eventTimeMillis - FIVE_MINUTE_MILLIS))
  }

  lemma RecordedShape(st: StoreState, key: string, member: string, eventTimeMillis: int)
    requires IsLong(eventTimeMillis - FIVE_MINUTE_MILLIS)
    ensures var z := SetAt(Recorded(st, key, member, eventTimeMillis), key);
      member in z && z[member] == eventTimeMillis && |z| <= |SetAt(st, key)| + 1 &&
      (forall m :: m in SetAt(st, key) && m != member && SetAt(st, key)[m] > eventTimeMillis - FIVE_MINUTE_MILLIS ==>
         m in z && z[m] == SetAt(st, key)[m])
  {
    var added := ZAdd(st, key, member, eventTimeMillis);
    var z := SetAt(Recorded(st, key, member, eventTimeMillis), key);
    assert SetAt(added, key).Keys == SetAt(st, key).Keys + {member};
    SubsetCardinality(z.Keys, SetAt(added, key).Keys);
  }

  /** Counting a set that holds a member scored `now`: both windows contain it, and they nest. */
  lemma WindowCounts(z: ZSet, member: string, now: int)
    requires member in z && z[member] == now
    ensures 1 <= |InRange(z, now - ONE_MINUTE_MILLIS, now)|
    ensures |InRange(z, now - ONE_MINUTE_MILLIS, now)| <= |InRange(z, now - FIVE_MINUTE_MILLIS, now)| <= |z|
  {
    var minute := InRange(z, now - ONE_MINUTE_MILLIS, now);
    var five := InRange(z, now - FIVE_MINUTE_MILLIS, now);
    assert member in minute;
    SubsetCardinality(minute, five);
    SubsetCardinality(five, z.Keys);
  }

  function UserKeys(userId: string): set<string>
  {
    {VelocityKey(userId), LastSeenKey(userId)}
  }

  /** Keys of different users never collide. */
  lemma UserKeysDisjoint(userId: string, otherUserId: string)
    requires userId != otherUserId
    ensures UserKeys(userId) !! UserKeys(otherUserId)
  {
    assert VelocityKey(userId)[14..] == userId && VelocityKey(otherUserId)[14..] == otherUserId;
    assert LastSeenKey(userId)[19..] == userId && LastSeenKey(otherUserId)[19..] == otherUserId;
    assert VelocityKey(userId)[9] == 'u' && VelocityKey(otherUserId)[9] == 'u';
    assert LastSeenKey(userId)[9] == 'l' && LastSeenKey(otherUserId)[9] == 'l';
  }

  /** A call only touches the calling user's two keys; every other key is as it was. */
  lemma TrackTouchesOnlyUserKeys(st: StoreState, userId: string, transactionId: string, eventTimeMillis: int, failAt: Option<StoreStep>, key: string)
    requires key !in UserKeys(userId)
    ensures var after := Track(st, userId, transactionId, eventTimeMillis, failAt).0;
      SetAt(after, key) == SetAt(st, key) && ValueAt(after, key) == ValueAt(st, key)
  {
  }

  /** Tracking one user leaves every other user's velocity state unchanged. */
  lemma TrackIsolatesUsers(st: StoreState, userId: string, transactionId: string, eventTimeMillis: int, failAt: Option<StoreStep>, otherUserId: string)
    requires userId != otherUserId
    ensures var after := Track(st, userId, transactionId, eventTimeMillis, failAt).0;
      SetAt(after, VelocityKey(otherUserId)) == SetAt(st, VelocityKey(otherUserId)) &&
      ValueAt(after, LastSeenKey(otherUserId)) == ValueAt(st, LastSeenKey(otherUserId))
  {
    UserKeysDisjoint(userId, otherUserId);
    TrackTouchesOnlyUserKeys(st, userId, transactionId, eventTimeMillis, failAt, VelocityKey(otherUserId));
    TrackTouchesOnlyUserKeys(st, userId, transactionId, eventTimeMillis, failAt, LastSeenKey(otherUserId));
  }

  /**
   * The last-seen value a call writes is read back by the next call: the elapsed time is the
   * difference in whole seconds, or 0 when the clock went backwards.
   */
  lemma SecondsSinceWrittenTime(nowMillis: int, previousMillis: int)
    requires IsLong(previousMillis) && IsLong(nowMillis - previousMillis)
    ensures previousMillis <= nowMillis ==> SecondsSinceLast(nowMillis, Some(LongToString(previousMillis))) == (nowMillis - previousMillis) / 1000
    ensures nowMillis < previousMillis ==> SecondsSinceLast(nowMillis, Some(LongToString(previousMillis))) == 0
  {
    ParseLongRoundTrip(previousMillis);
  }

  /** Two successful calls for one user: the second sees the first's time and counts both events. */
  lemma TrackTwice(st: StoreState, userId: string, firstId: string, firstMillis: int, secondId: string, secondMillis: int)
    requires IsLong(firstMillis - FIVE_MINUTE_MILLIS) && IsLong(secondMillis)
    requires firstMillis <= secondMillis <= firstMillis + ONE_MINUTE_MILLIS
    requires Member(firstId, firstMillis) != Member(secondId, secondMillis)
    requires |SetAt(st, VelocityKey(userId))| + 1 < INT_MAX
    ensures var between := Track(st, userId, firstId, firstMillis, None).0;
      var stats := Track(between, userId, secondId, secondMillis, None).1;
      stats.secondsSinceLastTransaction == (secondMillis - firstMillis) / 1000 &&
      2 <= stats.transactionsPerMinute <= stats.transactionsPerFiveMinutes
  {
    var key := VelocityKey(userId);
    var between := Track(st, userId, firstId, firstMillis, None).0;
    var first := Member(firstId, firstMillis);
    SecondsSinceWrittenTime(secondMillis, firstMillis);
    TrackCountsAfter(st, userId, firstId, firstMillis);
    TrackCountsAfter(between, userId, secondId, secondMillis);
    TrackCounts(between, userId, secondId, secondMillis);
    var z := SetAt(Track(between, userId, secondId, secondMillis, None).0, key);
    WindowCountsTwo(z, first, Member(secondId, secondMillis), secondMillis);
  }

  /** Two distinct members scored within the last minute are both counted. */
  lemma WindowCountsTwo(z: ZSet, earlier: string, member: string, now: int)
    requires earlier != member
    requires earlier in z && now - ONE_MINUTE_MILLIS <= z[earlier] <= now
    requires member in z && z[member] == now
    ensures 2 <= |InRange(z, now - ONE_MINUTE_MILLIS, now)|
  {
    assert {earlier, member} <= InRange(z, now - ONE_MINUTE_MILLIS, now);
    SubsetCardinality({earlier, member}, InRange(z, now - ONE_MINUTE_MILLIS, now));
  }
}
