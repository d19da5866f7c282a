/**
 * The dashboard's query over stored decisions: six optional filters, each imposing nothing when
 * absent, joined by conjunction. A stored field that is missing never satisfies a bound on it,
 * as a comparison with SQL `NULL` is never true.
 */
module FraudDecisionSpecifications {
  import opened Wrappers
  import opened Strings
  import opened FraudTypes
  import opened FraudDecisionMapping

  /** The six optional filter arguments of `build`. */
  datatype DecisionFilter = DecisionFilter(
    userId: Option<string>,
    decision: Option<DecisionType>,
    minAmount: Option<real>,
    maxAmount: Option<real>,
    from: Option<int>,
    to: Option<int>)

  /** All six arguments absent. */
  const NO_FILTER: DecisionFilter := DecisionFilter(None, None, None, None, None, None)

  /** `hasUserId`: a missing or blank user id matches everything; otherwise the user id must equal it trimmed. */
  predicate HasUserId(userId: Option<string>, d: FraudDecision)
  {
    userId.None? || IsBlank(userId.value) || d.userId == Trim(userId.value)
  }

  /** `hasDecision` */
  predicate HasDecision(decision: Option<DecisionType>, d: FraudDecision)
  {
    decision.None? || d.decision == decision.value
  }

  /** `amountGte`: an inclusive lower bound. */
  predicate AmountGte(minAmount: Option<real>, d: FraudDecision)
  {
    minAmount.None? || (d.amount.Some? && d.amount.value >= minAmount.value)
  }

  /** `amountLte`: an inclusive upper bound. */
  predicate AmountLte(maxAmount: Option<real>, d: FraudDecision)
  {
    maxAmount.None? || (d.amount.Some? && d.amount.value <= maxAmount.value)
  }

  /** `createdAtFrom`: an inclusive lower bound on the creation time. */
  predicate CreatedAtFrom(from: Option<int>, d: FraudDecision)
  {
    from.None? || (d.createdAt.Some? && d.createdAt.value >= from.value)
  }

  /** `createdAtTo`: an inclusive upper bound on the creation time. */
  predicate CreatedAtTo(to: Option<int>, d: FraudDecision)
  {
    to.None? || (d.createdAt.Some? && d.createdAt.value <= to.value)
  }

  /** `build`: the conjunction of the six filters. */
  predicate Build(filter: DecisionFilter, d: FraudDecision)
  {
    && HasUserId(filter.userId, d)
    && HasDecision(filter.decision, d)
    && AmountGte(filter.minAmount, d)
    && AmountLte(filter.maxAmount, d)
    && CreatedAtFrom(filter.from, d)
    && CreatedAtTo(filter.to, d)
  }

  /** The stored decisions the query selects, in their stored order. */
  function Select(stored: seq<FraudDecision>, filter: DecisionFilter): (selected: seq<FraudDecision>)
    ensures |selected| <= |stored|
    ensures forall i :: 0 <= i < |selected| ==> Build(filter, selected[i]) && selected[i] in stored
    ensures forall d :: d in stored && Build(filter, d) ==> d in selected
  {
    if |stored| == 0 then []
    else
      var rest := Select(stored[..|stored| - 1], filter);
      var last := stored[|stored| - 1];
      assert forall d :: d in stored ==> d in stored[..|stored| - 1] || d == last;
      if Build(filter, last) then rest + [last] else rest
  }

  /**
   * The query keeps the stored order: selecting from two stretches of decisions one after the
   * other gives the selection from the first followed by the selection from the second.
   */
  lemma {:induction false} SelectAppend(a: seq<FraudDecision>, b: seq<FraudDecision>, filter: DecisionFilter)
    ensures Select(a + b, filter) == Select(a, filter) + Select(b, filter)
  {
    if |b| == 0 {
      assert a + b == a;
    } else {
      var init := b[..|b| - 1];
      var last := b[|b| - 1];
      assert (a + b)[..|a + b| - 1] == a + init;
      assert (a + b)[|a + b| - 1] == last;
      SelectAppend(a, init, filter);
    }
  }

  /** A single decision is selected exactly when it matches. */
  lemma SelectSingle(d: FraudDecision, filter: DecisionFilter)
    ensures Select([d], filter) == if Build(filter, d) then [d] else []
  {
    assert [d][..0] == [];
  }

  /**
   * A decision matches exactly when it is within every bound that is given: its user is the
   * trimmed user filter, its verdict the decision filter, its amount within [minAmount, maxAmount]
   * and its creation time within [from, to], both ends included.
   */
  lemma BuildIff(filter: DecisionFilter, d: FraudDecision)
    requires filter.userId.Some? ==> !IsBlank(filter.userId.value)
    ensures Build(filter, d) <==>
      && (filter.userId.Some? ==> d.userId == Trim(filter.userId.value))
      && (filter.decision.Some? ==> d.decision == filter.decision.value)
      && (filter.minAmount.Some? || filter.maxAmount.Some? ==> d.amount.Some?)
      && (filter.minAmount.Some? ==> filter.minAmount.value <= d.amount.value)
      && (filter.maxAmount.Some? ==> d.amount.value <= filter.maxAmount.value)
      && (filter.from.Some? || filter.to.Some? ==> d.createdAt.Some?)
      && (filter.from.Some? ==> filter.from.value <= d.createdAt.value)
      && (filter.to.Some? ==> d.createdAt.value <= filter.to.value)
  {
  }

  /** With every argument absent, or only a blank user id, every decision matches and the query selects everything. */
  lemma NoFilterSelectsAll(stored: seq<FraudDecision>, blank: string)
    requires IsBlank(blank)
    ensures Select(stored, NO_FILTER) == stored
    ensures Select(stored, NO_FILTER.(userId := Some(blank))) == stored
  {
    SelectAllMatching(stored, NO_FILTER);
    SelectAllMatching(stored, NO_FILTER.(userId := Some(blank)));
  }

  /** A filter every stored decision matches selects them all, in order, by induction on the decisions. */
  lemma {:induction false} SelectAllMatching(stored: seq<FraudDecision>, filter: DecisionFilter)
    requires forall i :: 0 <= i < |stored| ==> Build(filter, stored[i])
    ensures Select(stored, filter) == stored
  {
    if |stored| > 0 {
      var init := stored[..|stored| - 1];
      var last := stored[|stored| - 1];
      assert Build(filter, last);
      SelectAllMatching(init, filter);
      assert stored == init + [last];
    }
  }

  /**
   * Surrounding the user id with spaces does not change what it selects, as long as something
   * is left once it is trimmed. (A user id made only of control characters below U+0020 that are
   * not whitespace, such as U+0000, is not blank, so it selects the decisions whose user id is
   * empty, while its trimmed form is blank and selects everything.)
   */
  lemma UserIdTrimmed(filter: DecisionFilter, d: FraudDecision)
    requires filter.userId.Some? && !IsBlank(Trim(filter.userId.value))
    ensures Build(filter.(userId := Some(Trim(filter.userId.value))), d) <==> Build(filter, d)
  {
    TrimIdempotent(filter.userId.value);
    BlankTrimsToBlank(filter.userId.value);
  }

  /** The U+0000 user id is not blank but trims to the empty, blank, user id. */
  lemma ControlCharacterUserId()
    ensures !IsBlank("\0") && Trim("\0") == "" && IsBlank(Trim("\0"))
  {
    assert !IsJavaWhitespace("\0"[0]);
  }

  /** Giving one more filter argument can only narrow what matches. */
  lemma NarrowingFilter(filter: DecisionFilter, d: FraudDecision)
    requires Build(filter, d)
    ensures Build(filter.(userId := None), d)
    ensures Build(filter.(decision := None), d)
    ensures Build(filter.(minAmount := None), d) && Build(filter.(maxAmount := None), d)
    ensures Build(filter.(from := None), d) && Build(filter.(to := None), d)
  {
  }

  /** A decision whose amount or creation time is missing fails every bound on that field. */
  lemma MissingFieldFailsBound(filter: DecisionFilter, d: FraudDecision)
    ensures d.amount.None? && (filter.minAmount.Some? || filter.maxAmount.Some?) ==> !Build(filter, d)
    ensures d.createdAt.None? && (filter.from.Some? || filter.to.Some?) ==> !Build(filter, d)
  {
  }
}
