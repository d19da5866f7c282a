/**
 * The dashboard queries: a page of stored decisions, newest first, matching the six filters, and
 * the metrics of a time range (verdict counts, the fraud rate in percent at 2 decimals, the mean
 * risk score at 4 decimals and the decisions per minute). The repository's content is the
 * sequence `stored`; times are epoch milliseconds; scores are integers in units of 1/10000 and
 * the fraud rate in units of 1/100.
 */
module Dashboard {
  import opened Wrappers
  import opened Numeric
  import opened FraudTypes
  import opened FraudDecisionMapping
  import opened FraudDecisionSpecifications
  import Sorting

  /** The range of the metrics when no start is given: one hour. */
  const DEFAULT_METRICS_RANGE_MILLIS: int := 3_600_000
  const MINUTE_MILLIS: int := 60_000

  const AMOUNT_RANGE_ERROR: string := "minAmount must be less than or equal to maxAmount"
  const DATE_RANGE_ERROR: string := "from must be before or equal to to"

  /** `validateAmountRange`: the error raised, if any. */
  function ValidateAmountRange(minAmount: Option<real>, maxAmount: Option<real>): Option<string>
  {
    if minAmount.None? || maxAmount.None? then None
    else if minAmount.value > maxAmount.value then Some(AMOUNT_RANGE_ERROR)
    else None
  }

  /** `validateDateRange`: the error raised, if any; equal instants are accepted. */
  function ValidateDateRange(from: Option<int>, to: Option<int>): Option<string>
  {
    if from.None? || to.None? then None
    else if from.value > to.value then Some(DATE_RANGE_ERROR)
    else None
  }

  /**
   * The two checks reject exactly the filters whose bounds leave no room: when a check fails no
   * decision can match, and when it passes with both bounds given, a decision at the lower bound
   * matches both.
   */
  lemma ValidationRejectsEmptyRanges(filter: DecisionFilter, d: FraudDecision)
    ensures ValidateAmountRange(filter.minAmount, filter.maxAmount).Some? ==> !Build(filter, d)
    ensures ValidateDateRange(filter.from, filter.to).Some? ==> !Build(filter, d)
    ensures ValidateAmountRange(filter.minAmount, filter.maxAmount).None? && filter.minAmount.Some? && filter.maxAmount.Some? ==>
      AmountGte(filter.minAmount, d.(amount := filter.minAmount)) && AmountLte(filter.maxAmount, d.(amount := filter.minAmount))
    ensures ValidateDateRange(filter.from, filter.to).None? && filter.from.Some? && filter.to.Some? ==>
      CreatedAtFrom(filter.from, d.(createdAt := filter.from)) && CreatedAtTo(filter.to, d.(createdAt := filter.from))
  {
  }

  /** A decision as the dashboard shows it. */
  datatype DashboardDecisionDto = DashboardDecisionDto(
    transactionId: string,
    userId: string,
    amount: Option<real>,
    currency: Option<string>,
    merchantId: Option<string>,
    location: Option<string>,
    riskScore: int,
    decision: DecisionType,
    ruleScore: int,
    mlScore: int,
    createdAt: Option<int>)

  /** `toDashboardDecision` */
  function ToDashboardDecision(d: FraudDecision): DashboardDecisionDto
  {
    DashboardDecisionDto(d.transactionId, d.userId, d.amount, d.currency, d.merchantId, d.location,
                         d.riskScore, d.decision, d.ruleScore, d.mlScore, d.createdAt)
  }

  function ToDashboardDecisions(ds: seq<FraudDecision>): (dtos: seq<DashboardDecisionDto>)
    ensures |dtos| == |ds|
    ensures forall i :: 0 <= i < |ds| ==> dtos[i] == ToDashboardDecision(ds[i])
  {
    if |ds| == 0 then [] else ToDashboardDecisions(ds[..|ds| - 1]) + [ToDashboardDecision(ds[|ds| - 1])]
  }

  /** `a` may come before `b` when sorting by creation time, newest first; a missing time sorts first, as SQL puts `NULL` first in descending order. */
  predicate NewerFirst(a: FraudDecision, b: FraudDecision)
  {
    a.createdAt.None? || (b.createdAt.Some? && a.createdAt.value >= b.createdAt.value)
  }

  lemma NewerFirstIsTotalPreorder()
    ensures Sorting.TotalPreorder(NewerFirst)
  {
  }

  /** A page of the result. */
  datatype DecisionPage = DecisionPage(
    content: seq<DashboardDecisionDto>,
    number: int,
    size: int,
    totalElements: int,
    totalPages: int,
    last: bool)

  /** The matching decisions in the order the query returns them. */
  function Ordered(stored: seq<FraudDecision>, filter: DecisionFilter): seq<FraudDecision>
  {
    Sorting.SortBy(Select(stored, filter), NewerFirst)
  }

  /** The block of at most `size` entries from position `start`: what is left there, in order. */
  function Block(ordered: seq<FraudDecision>, start: nat, size: int): (content: seq<DashboardDecisionDto>)
    requires size >= 1
    ensures |content| == Min(size, Max(0, |ordered| - start))
    ensures forall i :: 0 <= i < |content| ==> start + i < |ordered| && content[i] == ToDashboardDecision(ordered[start + i])
  {
    var from := Min(start, |ordered|);
    ToDashboardDecisions(ordered[from..Min(from + size, |ordered|)])
  }

  /** The `pageNumber`-th block of `pageSize` entries of `ordered`, with the totals of a Spring `Page`. */
  function PageOf(ordered: seq<FraudDecision>, pageNumber: nat, pageSize: int): DecisionPage
    requires pageSize >= 1
  {
    var totalPages := (|ordered| + pageSize - 1) / pageSize;
    DecisionPage(Block(ordered, pageNumber * pageSize, pageSize), pageNumber, pageSize, |ordered|, totalPages,
                 pageNumber + 1 >= totalPages)
  }

  /**
   * `fetchDecisions`: the `page`-th block of `size` matching decisions, page numbers below 0 taken
   * as 0 and sizes below 1 as 1.
   */
  function FetchDecisions(stored: seq<FraudDecision>, filter: DecisionFilter, page: int, size: int): Result<DecisionPage, string>
  {
    var amountError := ValidateAmountRange(filter.minAmount, filter.maxAmount);
    var dateError := ValidateDateRange(filter.from, filter.to);
    if amountError.Some? then Failure(amountError.value)
    else if dateError.Some? then Failure(dateError.value)
    else Success(PageOf(Ordered(stored, filter), Max(0, page), Max(1, size)))
  }

  /**
   * A page holds `pageSize` entries, or what is left from position `pageNumber * pageSize` when
   * fewer are left, taken in order from that position; the page count covers all entries, and
   * the page is the last one exactly when no entry lies beyond it.
   */
  lemma PageOfProperties(ordered: seq<FraudDecision>, pageNumber: nat, pageSize: int)
    requires pageSize >= 1
    ensures var p := PageOf(ordered, pageNumber, pageSize);
      && |p.content| == Min(pageSize, Max(0, |ordered| - pageNumber * pageSize))
      && p.totalElements == |ordered|
      && (p.totalPages - 1) * pageSize < |ordered| <= p.totalPages * pageSize
      && (p.last <==> (pageNumber + 1) * pageSize >= |ordered|)
      && (forall i :: 0 <= i < |p.content| ==>
            pageNumber * pageSize + i < |ordered| && p.content[i] == ToDashboardDecision(ordered[pageNumber * pageSize + i]))
  {
    PageOfTotals(ordered, pageNumber, pageSize);
  }

  /** The totals of a page: every entry counted, a page count that covers them, and the last-page flag. */
  lemma PageOfTotals(ordered: seq<FraudDecision>, pageNumber: nat, pageSize: int)
    requires pageSize >= 1
    ensures var p := PageOf(ordered, pageNumber, pageSize);
      && p.totalElements == |ordered|
      && (p.totalPages - 1) * pageSize < |ordered| <= p.totalPages * pageSize
      && (p.last <==> (pageNumber + 1) * pageSize >= |ordered|)
  {
    CeilingDivision(|ordered|, pageSize);
    LastPage(pageNumber, pageSize, |ordered|);
  }

  /**
   * The page is refused exactly when a range is inverted. Otherwise it has the clamped number
   * and size, and a full page of entries unless fewer matching decisions are left; the total
   * counts every matching decision, the pages cover it, and the page is the last one exactly
   * when no matching decision lies beyond it.
   */
  lemma FetchDecisionsPaging(stored: seq<FraudDecision>, filter: DecisionFilter, page: int, size: int)
    ensures var r := FetchDecisions(stored, filter, page, size);
      && (r.Failure? <==> ValidateAmountRange(filter.minAmount, filter.maxAmount).Some? || ValidateDateRange(filter.from, filter.to).Some?)
      && (r.Success? ==>
            var p := r.value;
            && p.number == Max(0, page) && p.size == Max(1, size)
            && |p.content| == Min(p.size, Max(0, p.totalElements - p.number * p.size))
            && p.totalElements == |Select(stored, filter)|
            && (p.totalPages - 1) * p.size < p.totalElements <= p.totalPages * p.size
            && (p.last <==> (p.number + 1) * p.size >= p.totalElements))
  {
    var r := FetchDecisions(stored, filter, page, size);
    if r.Success? {
      var ordered := Ordered(stored, filter);
      assert r.value == PageOf(ordered, Max(0, page), Max(1, size));
      PageOfProperties(ordered, Max(0, page), Max(1, size));
      OrderedLength(stored, filter);
    }
  }

  /** The pages cover every entry: entry `i` is entry `i % pageSize` of page `i / pageSize`. */
  lemma PageCovers(ordered: seq<FraudDecision>, pageSize: int, i: int)
    requires pageSize >= 1 && 0 <= i < |ordered|
    ensures var p := PageOf(ordered, i / pageSize, pageSize);
      i % pageSize < |p.content| && p.content[i % pageSize] == ToDashboardDecision(ordered[i])
  {
    var pageNumber := i / pageSize;
    assert pageNumber * pageSize + i % pageSize == i;
    PageOfProperties(ordered, pageNumber, pageSize);
  }

  /** Sorting keeps every matching decision. */
  lemma OrderedLength(stored: seq<FraudDecision>, filter: DecisionFilter)
    ensures |Ordered(stored, filter)| == |Select(stored, filter)|
  {
    NewerFirstIsTotalPreorder();
    Sorting.SortByCorrect(Select(stored, filter), NewerFirst);
  }

  /** Every entry of `content` shows a stored decision matching the filters, and newer entries come first. */
  predicate ShowsMatchingNewestFirst(stored: seq<FraudDecision>, filter: DecisionFilter, content: seq<DashboardDecisionDto>)
  {
    && (forall i :: 0 <= i < |content| ==>
          exists d :: d in stored && Build(filter, d) && content[i] == ToDashboardDecision(d))
    && (forall i, j :: 0 <= i < j < |content| ==>
          content[i].createdAt.None? || (content[j].createdAt.Some? && content[i].createdAt.value >= content[j].createdAt.value))
  }

  /** Every entry of a page shows a stored decision matching the filters, newest first. */
  lemma FetchDecisionsContent(stored: seq<FraudDecision>, filter: DecisionFilter, page: int, size: int)
    ensures var r := FetchDecisions(stored, filter, page, size);
      r.Success? ==> ShowsMatchingNewestFirst(stored, filter, r.value.content)
  {
    var r := FetchDecisions(stored, filter, page, size);
    if r.Success? {
      var ordered := Ordered(stored, filter);
      var pageNumber, pageSize := Max(0, page), Max(1, size);
      var p := PageOf(ordered, pageNumber, pageSize);
      assert r.value == p;
      var first := pageNumber * pageSize;
      NonNegativeProduct(pageNumber, pageSize);
      var start := Min(first, |ordered|);
      var end := Min(start + pageSize, |ordered|);
      assert p.content == ToDashboardDecisions(ordered[start..end]);
      PageContent(stored, filter, start, end);
    }
  }

  /** Any block of the ordered result holds matching stored decisions, newest first. */
  lemma PageContent(stored: seq<FraudDecision>, filter: DecisionFilter, start: int, end: int)
    requires 0 <= start <= end <= |Ordered(stored, filter)|
    ensures |Ordered(stored, filter)| == |Select(stored, filter)|
    ensures ShowsMatchingNewestFirst(stored, filter, ToDashboardDecisions(Ordered(stored, filter)[start..end]))
  {
    var selected := Select(stored, filter);
    var ordered := Ordered(stored, filter);
    NewerFirstIsTotalPreorder();
    Sorting.SortByCorrect(selected, NewerFirst);
    var slice := ordered[start..end];
    var content := ToDashboardDecisions(slice);
    forall i | 0 <= i < |content|
      ensures exists d :: d in stored && Build(filter, d) && content[i] == ToDashboardDecision(d)
    {
      assert slice[i] == ordered[start + i];
      assert ordered[start + i] in multiset(ordered);
      assert ordered[start + i] in multiset(selected);
      assert slice[i] in stored && Build(filter, slice[i]);
    }
    forall i, j | 0 <= i < j < |content|
      ensures NewerFirst(slice[i], slice[j])
    {
      assert slice[i] == ordered[start + i] && slice[j] == ordered[start + j];
    }
  }

  lemma NonNegativeProduct(a: nat, b: nat)
    ensures a * b >= 0
  {
  }

  lemma CeilingDivision(total: nat, size: int)
    requires size >= 1
    ensures ((total + size - 1) / size - 1) * size < total <= (total + size - 1) / size * size
  {
    var q := (total + size - 1) / size;
    var r := (total + size - 1) % size;
    assert q * size + r == total + size - 1;
  }

  lemma LastPage(number: nat, size: int, total: nat)
    requires size >= 1
    ensures number + 1 >= (total + size - 1) / size <==> (number + 1) * size >= total
  {
    var q := (total + size - 1) / size;
    CeilingDivision(total, size);
    if number + 1 >= q {
      MultiplyMonotone(q, number + 1, size);
    } else {
      MultiplyMonotone(number + 1, q - 1, size);
    }
  }

  /** One bar of the per-minute chart. */
  datatype MinutePoint = MinutePoint(minute: int, count: nat)

  /** The metrics of a range. */
  datatype DashboardMetrics = DashboardMetrics(
    from: int,
    to: int,
    totalTransactions: nat,
    approvedCount: nat,
    reviewCount: nat,
    blockedCount: nat,
    fraudRatePercentage: int,
    averageRiskScore: int,
    transactionsPerMinute: seq<MinutePoint>)

  /** The number of decisions with verdict `t`. */
  function CountOf(ds: seq<FraudDecision>, t: DecisionType): nat
  {
    if |ds| == 0 then 0
    else CountOf(ds[..|ds| - 1], t) + (if ds[|ds| - 1].decision == t then 1 else 0)
  }

  /** The three verdicts account for every decision. */
  lemma {:induction false} VerdictCountsAddUp(ds: seq<FraudDecision>)
    ensures CountOf(ds, APPROVED) + CountOf(ds, REVIEW) + CountOf(ds, BLOCKED) == |ds|
  {
    if |ds| > 0 {
      VerdictCountsAddUp(ds[..|ds| - 1]);
    }
  }

  /** The fraud rate in units of 1/100 of a percent: `flagged * 100 / total` rounded half-up to 2 decimals, 0.00 without decisions. */
  function FraudRate(flagged: nat, total: nat): int
  {
    if total == 0 then 0 else Scale2(flagged as real * 100.0 / total as real)
  }

  /** The rate is a percentage between 0.00 and 100.00, 100.00 when every decision is flagged, 0.00 when none is. */
  lemma FraudRateBounds(flagged: nat, total: nat)
    requires flagged <= total
    ensures 0 <= FraudRate(flagged, total) <= 100 * SCALE2
    ensures total > 0 && flagged == total ==> FraudRate(flagged, total) == 100 * SCALE2
    ensures flagged == 0 ==> FraudRate(flagged, total) == 0
  {
    if total > 0 {
      var rate := flagged as real * 100.0 / total as real;
      DivideBounds(flagged as real * 100.0, total as real, 0.0, 100.0);
      HalfUpMonotone(rate * SCALE2 as real, 100.0 * SCALE2 as real);
      HalfUpOfInt(100 * SCALE2);
      HalfUpOfInt(0);
      if flagged == total {
        DivideOut(100.0, total as real);
        assert flagged as real * 100.0 == 100.0 * total as real;
      }
    }
  }

  /** The sum of the risk scores, in units of 1/10000. */
  function SumRisk(ds: seq<FraudDecision>): int
  {
    if |ds| == 0 then 0 else SumRisk(ds[..|ds| - 1]) + ds[|ds| - 1].riskScore
  }

  /** The mean risk score rounded half-up to 4 decimals; 0.0000 without decisions. */
  function AverageRisk(ds: seq<FraudDecision>): int
  {
    if |ds| == 0 then 0 else HalfUp(SumRisk(ds) as real / |ds| as real)
  }

  lemma {:induction false} SumRiskBounds(ds: seq<FraudDecision>, lo: int, hi: int)
    requires forall i :: 0 <= i < |ds| ==> lo <= ds[i].riskScore <= hi
    ensures lo * |ds| <= SumRisk(ds) <= hi * |ds|
  {
    if |ds| > 0 {
      SumRiskBounds(ds[..|ds| - 1], lo, hi);
    }
  }

  /** The mean lies between the lowest and the highest score; so scores in [0, 1] have a mean in [0, 1]. */
  lemma AverageRiskBetween(ds: seq<FraudDecision>, lo: int, hi: int)
    requires |ds| > 0
    requires forall i :: 0 <= i < |ds| ==> lo <= ds[i].riskScore <= hi
    ensures lo <= AverageRisk(ds) <= hi
  {
    SumRiskBounds(ds, lo, hi);
    var mean := SumRisk(ds) as real / |ds| as real;
    DivideBounds(SumRisk(ds) as real, |ds| as real, lo as real, hi as real);
    HalfUpMonotone(lo as real, mean);
    HalfUpMonotone(mean, hi as real);
    HalfUpOfInt(lo);
    HalfUpOfInt(hi);
  }

  /** `truncatedTo(ChronoUnit.MINUTES)`: the start of the minute, rounding down also before 1970. */
  function TruncateToMinute(t: int): (m: int)
    ensures m <= t < m + MINUTE_MILLIS && m % MINUTE_MILLIS == 0
  {
    t - t % MINUTE_MILLIS
  }

  /** Keys strictly ascending, as a `TreeMap` iterates them. */
  predicate StrictlyAscending(points: seq<MinutePoint>)
  {
    forall i, j :: 0 <= i < j < |points| ==> points[i].minute < points[j].minute
  }

  /** The minutes that have a point. */
  function Minutes(points: seq<MinutePoint>): set<int>
  {
    if |points| == 0 then {} else {points[0].minute} + Minutes(points[1..])
  }

  lemma {:induction false} MinutesAt(points: seq<MinutePoint>, m: int)
    ensures m in Minutes(points) <==> exists i :: 0 <= i < |points| && points[i].minute == m
  {
    if |points| > 0 {
      MinutesAt(points[1..], m);
      if exists i :: 0 <= i < |points| && points[i].minute == m {
        var i :| 0 <= i < |points| && points[i].minute == m;
        if i > 0 {
          assert points[1..][i - 1].minute == m;
        }
      }
      if exists i :: 0 <= i < |points[1..]| && points[1..][i].minute == m {
        var i :| 0 <= i < |points[1..]| && points[1..][i].minute == m;
        assert points[i + 1].minute == m;
      }
    }
  }

  /** Every point counts at least one decision. */
  predicate PositiveCounts(points: seq<MinutePoint>)
  {
    forall i :: 0 <= i < |points| ==> points[i].count >= 1
  }

  function TotalCount(points: seq<MinutePoint>): nat
  {
    if |points| == 0 then 0 else points[0].count + TotalCount(points[1..])
  }

  /** The count of the point for `minute`, or 0 when there is none. */
  function CountAt(points: seq<MinutePoint>, minute: int): nat
  {
    if |points| == 0 then 0
    else if points[0].minute == minute then points[0].count
    else CountAt(points[1..], minute)
  }

  lemma {:induction false} CountAtAbsent(points: seq<MinutePoint>, minute: int)
    requires minute !in Minutes(points)
    ensures CountAt(points, minute) == 0
  {
    if |points| > 0 {
      CountAtAbsent(points[1..], minute);
    }
  }

  /** With ascending keys, the count for a point's minute is that point's count. */
  lemma {:induction false} CountAtIndex(points: seq<MinutePoint>, i: int)
    requires StrictlyAscending(points) && 0 <= i < |points|
    ensures CountAt(points, points[i].minute) == points[i].count
  {
    if i > 0 {
      assert points[0].minute < points[i].minute;
      assert points[1..][i - 1] == points[i];
      CountAtIndex(points[1..], i - 1);
    }
  }

  /** Counts one more decision in `minute`, keeping the keys in order. */
  function AddToMinute(points: seq<MinutePoint>, minute: int): seq<MinutePoint>
  {
    if |points| == 0 then [MinutePoint(minute, 1)]
    else if points[0].minute == minute then [MinutePoint(minute, points[0].count + 1)] + points[1..]
    else if minute < points[0].minute then [MinutePoint(minute, 1)] + points
    else [points[0]] + AddToMinute(points[1..], minute)
  }

  /**
   * Adding a decision keeps the keys ascending and the counts positive, adds its minute, adds one
   * to that minute's count and leaves every other minute's count as it was.
   */
  lemma AddToMinuteProperties(points: seq<MinutePoint>, minute: int)
    requires StrictlyAscending(points) && PositiveCounts(points)
    ensures StrictlyAscending(AddToMinute(points, minute)) && PositiveCounts(AddToMinute(points, minute))
    ensures TotalCount(AddToMinute(points, minute)) == TotalCount(points) + 1
    ensures Minutes(AddToMinute(points, minute)) == Minutes(points) + {minute}
    ensures forall m :: CountAt(AddToMinute(points, minute), m) == CountAt(points, m) + (if m == minute then 1 else 0)
  {
    AddToMinuteMinutes(points, minute);
    AddToMinuteCounts(points, minute);
    AddToMinuteAscending(points, minute);
    forall m
      ensures CountAt(AddToMinute(points, minute), m) == CountAt(points, m) + (if m == minute then 1 else 0)
    {
      AddToMinuteCountAt(points, minute, m);
    }
  }

  lemma {:induction false} AddToMinuteCountAt(points: seq<MinutePoint>, minute: int, m: int)
    requires StrictlyAscending(points)
    ensures CountAt(AddToMinute(points, minute), m) == CountAt(points, m) + (if m == minute then 1 else 0)
  {
    var r := AddToMinute(points, minute);
    if |points| > 0 && points[0].minute == minute {
      assert r[1..] == points[1..];
    } else if |points| > 0 && minute < points[0].minute {
      assert r[1..] == points;
      MinutesAt(points, minute);
      CountAtAbsent(points, minute);
    } else if |points| > 0 {
      assert r[1..] == AddToMinute(points[1..], minute);
      AddToMinuteCountAt(points[1..], minute, m);
    }
  }

  lemma {:induction false} AddToMinuteMinutes(points: seq<MinutePoint>, minute: int)
    ensures Minutes(AddToMinute(points, minute)) == Minutes(points) + {minute}
  {
    var r := AddToMinute(points, minute);
    if |points| > 0 && points[0].minute < minute {
      AddToMinuteMinutes(points[1..], minute);
      assert r[1..] == AddToMinute(points[1..], minute);
    } else if |points| > 0 && points[0].minute == minute {
      assert r[1..] == points[1..];
    } else if |points| > 0 {
      assert r[1..] == points;
    }
  }

  lemma {:induction false} AddToMinuteCounts(points: seq<MinutePoint>, minute: int)
    requires PositiveCounts(points)
    ensures PositiveCounts(AddToMinute(points, minute))
    ensures TotalCount(AddToMinute(points, minute)) == TotalCount(points) + 1
  {
    var r := AddToMinute(points, minute);
    if |points| > 0 && points[0].minute < minute {
      var tail := AddToMinute(points[1..], minute);
      AddToMinuteCounts(points[1..], minute);
      assert r == [points[0]] + tail;
      assert r[1..] == tail;
    } else if |points| > 0 && points[0].minute == minute {
      assert r[1..] == points[1..];
    } else if |points| > 0 {
      assert r[1..] == points;
    }
  }

  lemma {:induction false} AddToMinuteAscending(points: seq<MinutePoint>, minute: int)
    requires StrictlyAscending(points)
    ensures StrictlyAscending(AddToMinute(points, minute))
  {
    var r := AddToMinute(points, minute);
    if |points| > 0 && points[0].minute < minute {
      var tail := AddToMinute(points[1..], minute);
      AddToMinuteAscending(points[1..], minute);
      AddToMinuteMinutes(points[1..], minute);
      assert r == [points[0]] + tail;
      forall j | 0 <= j < |tail|
        ensures points[0].minute < tail[j].minute
      {
        MinutesAt(tail, tail[j].minute);
        if tail[j].minute != minute {
          MinutesAt(points[1..], tail[j].minute);
          var k :| 0 <= k < |points[1..]| && points[1..][k].minute == tail[j].minute;
          assert points[k + 1].minute == tail[j].minute;
        }
      }
    } else if |points| > 0 && points[0].minute == minute {
      assert r[1..] == points[1..];
    } else if |points| > 0 {
      assert r[1..] == points;
    }
  }

  /** The per-minute points of the decisions that have a creation time. */
  function PerMinute(ds: seq<FraudDecision>): seq<MinutePoint>
  {
    if |ds| == 0 then []
    else
      var points := PerMinute(ds[..|ds| - 1]);
      var last := ds[|ds| - 1];
      if last.createdAt.Some? then AddToMinute(points, TruncateToMinute(last.createdAt.value)) else points
  }

  /** The number of decisions created in `minute`. */
  function MinuteCount(ds: seq<FraudDecision>, minute: int): nat
  {
    if |ds| == 0 then 0
    else
      var last := ds[|ds| - 1];
      MinuteCount(ds[..|ds| - 1], minute) + (if last.createdAt.Some? && TruncateToMinute(last.createdAt.value) == minute then 1 else 0)
  }

  lemma {:induction false} PerMinuteAscending(ds: seq<FraudDecision>)
    ensures StrictlyAscending(PerMinute(ds))
  {
    if |ds| > 0 {
      PerMinuteAscending(ds[..|ds| - 1]);
      var last := ds[|ds| - 1];
      if last.createdAt.Some? {
        AddToMinuteAscending(PerMinute(ds[..|ds| - 1]), TruncateToMinute(last.createdAt.value));
      }
    }
  }

  /** The count the points give any minute is the number of decisions created in it, 0 for a minute without any. */
  lemma {:induction false} PerMinuteCounts(ds: seq<FraudDecision>, minute: int)
    ensures CountAt(PerMinute(ds), minute) == MinuteCount(ds, minute)
  {
    if |ds| > 0 {
      var init := ds[..|ds| - 1];
      PerMinuteCounts(init, minute);
      var last := ds[|ds| - 1];
      if last.createdAt.Some? {
        PerMinuteAscending(init);
        AddToMinuteCountAt(PerMinute(init), TruncateToMinute(last.createdAt.value), minute);
      }
    }
  }

  /** Each point counts exactly the decisions created in its minute. */
  lemma PerMinutePointCounts(ds: seq<FraudDecision>)
    ensures forall i :: 0 <= i < |PerMinute(ds)| ==> PerMinute(ds)[i].count == MinuteCount(ds, PerMinute(ds)[i].minute)
  {
    var points := PerMinute(ds);
    PerMinuteAscending(ds);
    forall i | 0 <= i < |points|
      ensures points[i].count == MinuteCount(ds, points[i].minute)
    {
      PerMinuteCounts(ds, points[i].minute);
      CountAtIndex(points, i);
    }
  }

  /** The number of decisions that have a creation time. */
  function CountTimed(ds: seq<FraudDecision>): nat
  {
    if |ds| == 0 then 0 else CountTimed(ds[..|ds| - 1]) + (if ds[|ds| - 1].createdAt.Some? then 1 else 0)
  }

  /** The minutes of the decisions that have a creation time. */
  function TimedMinutes(ds: seq<FraudDecision>): set<int>
  {
    set i | 0 <= i < |ds| && ds[i].createdAt.Some? :: TruncateToMinute(ds[i].createdAt.value)
  }

  /**
   * The points have ascending keys, one per minute in which some decision was created and no
   * other, each counting exactly the decisions created in its minute, at least one, and their
   * counts add up to the number of decisions that have a creation time.
   */
  lemma {:induction false} PerMinuteProperties(ds: seq<FraudDecision>)
    ensures StrictlyAscending(PerMinute(ds)) && PositiveCounts(PerMinute(ds))
    ensures TotalCount(PerMinute(ds)) == CountTimed(ds)
    ensures Minutes(PerMinute(ds)) == TimedMinutes(ds)
    ensures forall i :: 0 <= i < |PerMinute(ds)| ==> PerMinute(ds)[i].count == MinuteCount(ds, PerMinute(ds)[i].minute)
  {
    PerMinutePointCounts(ds);
    if |ds| > 0 {
      var init := ds[..|ds| - 1];
      PerMinuteProperties(init);
      var last := ds[|ds| - 1];
      if last.createdAt.Some? {
        AddToMinuteProperties(PerMinute(init), TruncateToMinute(last.createdAt.value));
      }
      assert TimedMinutes(ds) == TimedMinutes(init) + (if last.createdAt.Some? then {TruncateToMinute(last.createdAt.value)} else {}) by {
        forall m | m in TimedMinutes(ds)
          ensures m in TimedMinutes(init) + (if last.createdAt.Some? then {TruncateToMinute(last.createdAt.value)} else {})
        {
          var i :| 0 <= i < |ds| && ds[i].createdAt.Some? && TruncateToMinute(ds[i].createdAt.value) == m;
          if i < |ds| - 1 {
            assert init[i] == ds[i];
          }
        }
        forall m | m in TimedMinutes(init)
          ensures m in TimedMinutes(ds)
        {
          var i :| 0 <= i < |init| && init[i].createdAt.Some? && TruncateToMinute(init[i].createdAt.value) == m;
          assert ds[i] == init[i];
        }
      }
    }
  }

  /**
   * `fetchMetrics`: the range ends now when no end is given and starts one hour before its end
   * when no start is given; it is refused when its start is after its end.
   */
  function FetchMetrics(stored: seq<FraudDecision>, from: Option<int>, to: Option<int>, nowMillis: int): Result<DashboardMetrics, string>
  {
    var effectiveTo := OrElse(to, nowMillis);
    var effectiveFrom := OrElse(from, effectiveTo - DEFAULT_METRICS_RANGE_MILLIS);
    var dateError := ValidateDateRange(Some(effectiveFrom), Some(effectiveTo));
    if dateError.Some? then Failure(dateError.value)
    else
      Success(MetricsOf(effectiveFrom, effectiveTo, Select(stored, NO_FILTER.(from := Some(effectiveFrom), to := Some(effectiveTo)))))
  }

  /** The metrics of the decisions selected for the range from `from` to `to`. */
  function MetricsOf(from: int, to: int, decisions: seq<FraudDecision>): DashboardMetrics
  {
    var reviewCount := CountOf(decisions, REVIEW);
    var blockedCount := CountOf(decisions, BLOCKED);
    DashboardMetrics(
      from, to, |decisions|,
      CountOf(decisions, APPROVED), reviewCount, blockedCount,
      FraudRate(reviewCount + blockedCount, |decisions|),
      AverageRisk(decisions),
      PerMinute(decisions))
  }

  /**
   * The verdict counts add up to the total; the fraud rate is a percentage; risk scores in [0, 1]
   * average to one in [0, 1]; the per-minute points ascend, each counting exactly the decisions
   * created in its minute; and when every decision has a creation time they count them all.
   */
  lemma MetricsOfProperties(from: int, to: int, decisions: seq<FraudDecision>)
    requires forall i :: 0 <= i < |decisions| ==> 0 <= decisions[i].riskScore <= SCALE4
    requires CountTimed(decisions) == |decisions|
    ensures var m := MetricsOf(from, to, decisions);
      && m.approvedCount + m.reviewCount + m.blockedCount == m.totalTransactions
      && 0 <= m.fraudRatePercentage <= 100 * SCALE2
      && 0 <= m.averageRiskScore <= SCALE4
      && StrictlyAscending(m.transactionsPerMinute)
      && PositiveCounts(m.transactionsPerMinute)
      && TotalCount(m.transactionsPerMinute) == m.totalTransactions
      && (forall i :: 0 <= i < |m.transactionsPerMinute| ==>
            m.transactionsPerMinute[i].count == MinuteCount(decisions, m.transactionsPerMinute[i].minute))
  {
    VerdictCountsAddUp(decisions);
    FraudRateBounds(CountOf(decisions, REVIEW) + CountOf(decisions, BLOCKED), |decisions|);
    if |decisions| > 0 {
      AverageRiskBetween(decisions, 0, SCALE4);
    }
    PerMinuteProperties(decisions);
  }

  /**
   * The metrics are refused only for a given start after the end; the three verdict counts add up
   * to the total; the fraud rate is a percentage between 0.00 and 100.00; the mean risk score of
   * stored scores in [0, 1] is in [0, 1]; and the per-minute points are in ascending order, one
   * per minute with decisions, their counts adding up to the total, as every selected decision
   * has a creation time within the range.
   */
  lemma FetchMetricsProperties(stored: seq<FraudDecision>, from: Option<int>, to: Option<int>, nowMillis: int)
    requires forall i :: 0 <= i < |stored| ==> 0 <= stored[i].riskScore <= SCALE4
    ensures var r := FetchMetrics(stored, from, to, nowMillis);
      var effectiveTo := OrElse(to, nowMillis);
      && (r.Failure? <==> from.Some? && from.value > effectiveTo)
      && (r.Success? ==>
            var m := r.value;
            && m.to == effectiveTo
            && m.from == OrElse(from, effectiveTo - DEFAULT_METRICS_RANGE_MILLIS)
            && m.approvedCount + m.reviewCount + m.blockedCount == m.totalTransactions
            && 0 <= m.fraudRatePercentage <= 100 * SCALE2
            && 0 <= m.averageRiskScore <= SCALE4
            && StrictlyAscending(m.transactionsPerMinute)
            && PositiveCounts(m.transactionsPerMinute)
            && TotalCount(m.transactionsPerMinute) == m.totalTransactions)
  {
    var r := FetchMetrics(stored, from, to, nowMillis);
    if r.Success? {
      var effectiveTo := OrElse(to, nowMillis);
      var effectiveFrom := OrElse(from, effectiveTo - DEFAULT_METRICS_RANGE_MILLIS);
      var filter := NO_FILTER.(from := Some(effectiveFrom), to := Some(effectiveTo));
      var decisions := Select(stored, filter);
      assert r.value == MetricsOf(effectiveFrom, effectiveTo, decisions);
      forall i | 0 <= i < |decisions|
        ensures 0 <= decisions[i].riskScore <= SCALE4
      {
        assert decisions[i] in stored;
      }
      AllTimed(decisions, filter);
      MetricsOfProperties(effectiveFrom, effectiveTo, decisions);
    }
  }

  /** Decisions selected with a time bound all have a creation time. */
  lemma {:induction false} AllTimed(ds: seq<FraudDecision>, filter: DecisionFilter)
    requires filter.from.Some?
    requires forall i :: 0 <= i < |ds| ==> Build(filter, ds[i])
    ensures CountTimed(ds) == |ds|
  {
    if |ds| > 0 {
      AllTimed(ds[..|ds| - 1], filter);
    }
  }
}
