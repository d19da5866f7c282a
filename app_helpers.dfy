/**
 * The fraud dashboard's client-side logic: which decisions the applied filters let through,
 * how a decision pushed by the live stream is merged into the first page, and how applying or
 * resetting the filters and paging change the view. Times are epoch milliseconds; a filter text
 * field is blank, a number (or time) it parses to, or text that parses to NaN.
 */
module DashboardApp {
  import opened Wrappers
  import opened Numeric
  import opened Strings
  import Sorting

  const PAGE_SIZE: int := 20

  /** A filter field: the empty string, the value the text parses to, or text that parses to NaN. */
  datatype Field<T> = Blank | Parsed(value: T) | NotANumber

  /** The filter bar's fields; an empty `userId` or `decision` sets no condition. */
  datatype DashboardFilters = DashboardFilters(
    userId: string,
    decision: string,
    minAmount: Field<real>,
    maxAmount: Field<real>,
    from: Field<int>,
    to: Field<int>)

  /** A decision row as the dashboard receives it. */
  datatype DashboardDecision = DashboardDecision(
    transactionId: string,
    userId: string,
    amount: Option<real>,
    decision: string,
    createdAt: int)

  /** A page of decisions as the server returns it. */
  datatype DecisionPage = DecisionPage(
    content: seq<DashboardDecision>,
    page: int,
    size: int,
    totalElements: int,
    totalPages: int,
    last: bool)

  /** `buildInitialFilters`: every field empty. */
  const INITIAL_FILTERS: DashboardFilters := DashboardFilters("", "", Blank, Blank, Blank, Blank)

  /** `isAfter`: both times are set and the first is later; an empty or unparsable side is never after. */
  predicate IsAfter(left: Field<int>, right: Field<int>)
  {
    left.Parsed? && right.Parsed? && left.value > right.value
  }

  /** `decision.amount ?? 0` */
  function AmountOrZero(decision: DashboardDecision): real
  {
    if decision.amount.Some? then decision.amount.value else 0.0
  }

  /**
   * `decisionMatchesFilters`: the user id contains the trimmed filter text, ignoring case; the
   * decision is the one asked for; the amount (0 when absent) and the creation time lie within
   * the set bounds, inclusive. An empty field, and a bound that parses to NaN, sets no condition.
   */
  predicate Matches(decision: DashboardDecision, filters: DashboardFilters)
  {
    && (filters.userId == "" || Contains(Lower(decision.userId), Lower(JsTrim(filters.userId))))
    && (filters.decision == "" || decision.decision == filters.decision)
    && (!filters.minAmount.Parsed? || AmountOrZero(decision) >= filters.minAmount.value)
    && (!filters.maxAmount.Parsed? || AmountOrZero(decision) <= filters.maxAmount.value)
    && (!filters.from.Parsed? || decision.createdAt >= filters.from.value)
    && (!filters.to.Parsed? || decision.createdAt <= filters.to.value)
  }

  /** The initial filters let every decision through. */
  lemma InitialFiltersMatchAll(decision: DashboardDecision)
    ensures Matches(decision, INITIAL_FILTERS)
  {
  }

  lemma LowerOfUpper(s: string)
    ensures Lower(Upper(s)) == Lower(s)
  {
  }

  /**
   * The user id filter ignores case on both sides; a missing amount is filtered as 0; and the
   * amount and time bounds are inclusive: a decision exactly at both bounds passes them.
   */
  lemma MatchesProperties(decision: DashboardDecision, filters: DashboardFilters)
    ensures Matches(decision.(userId := Upper(decision.userId)), filters) == Matches(decision, filters)
    ensures filters.userId != "" ==>
      Matches(decision, filters.(userId := Upper(filters.userId))) == Matches(decision, filters)
    ensures Matches(decision.(amount := None), filters) == Matches(decision.(amount := Some(0.0)), filters)
    ensures decision.amount.Some? ==>
      Matches(decision, filters.(minAmount := Parsed(decision.amount.value), maxAmount := Parsed(decision.amount.value)))
        == Matches(decision, filters.(minAmount := Blank, maxAmount := Blank))
    ensures Matches(decision, filters.(from := Parsed(decision.createdAt), to := Parsed(decision.createdAt)))
      == Matches(decision, filters.(from := Blank, to := Blank))
  {
    LowerOfUpper(decision.userId);
    if filters.userId != "" {
      var text := filters.userId;
      assert Upper(text) != "" by { assert |Upper(text)| == |text|; }
      UpperKeepsTrim(text);
      LowerOfUpper(JsTrim(text));
    }
  }

  /** Upper-casing commutes with trimming, since it keeps every white-space character. */
  lemma UpperKeepsTrim(s: string)
    ensures JsTrim(Upper(s)) == Upper(JsTrim(s))
  {
    UpperTrimStart(s);
    UpperTrimEnd(TrimStart(s, IsJsWhitespace));
  }

  lemma UpperTrimStart(s: string)
    ensures TrimStart(Upper(s), IsJsWhitespace) == Upper(TrimStart(s, IsJsWhitespace))
  {
    UpperKeepsLeading(s);
    var k := LeadingCount(s, IsJsWhitespace);
    assert Upper(s)[k..] == Upper(s[k..]);
  }

  lemma UpperTrimEnd(s: string)
    ensures TrimEnd(Upper(s), IsJsWhitespace) == Upper(TrimEnd(s, IsJsWhitespace))
  {
    UpperKeepsTrailing(s);
    UpperPrefix(s, |s| - TrailingCount(s, IsJsWhitespace));
  }

  /** Upper-casing commutes with taking a prefix. */
  lemma UpperPrefix(s: string, n: int)
    requires 0 <= n <= |s|
    ensures Upper(s)[..n] == Upper(s[..n])
  {
    assert forall i :: 0 <= i < n ==> Upper(s)[..n][i] == Upper(s[..n])[i];
  }

  lemma {:induction false} UpperKeepsLeading(s: string)
    ensures LeadingCount(Upper(s), IsJsWhitespace) == LeadingCount(s, IsJsWhitespace)
  {
    if |s| > 0 {
      assert Upper(s)[1..] == Upper(s[1..]);
      UpperKeepsWhitespace(s[0]);
      UpperKeepsLeading(s[1..]);
    }
  }

  lemma {:induction false} UpperKeepsTrailing(s: string)
    ensures TrailingCount(Upper(s), IsJsWhitespace) == TrailingCount(s, IsJsWhitespace)
  {
    if |s| > 0 {
      assert Upper(s)[..|s| - 1] == Upper(s[..|s| - 1]);
      UpperKeepsWhitespace(s[|s| - 1]);
      UpperKeepsTrailing(s[..|s| - 1]);
    }
  }

  /** Upper-casing maps whitespace to itself and nothing else to whitespace. */
  lemma UpperKeepsWhitespace(c: char)
    ensures IsJsWhitespace(UpperChar(c)) == IsJsWhitespace(c)
  {
  }

  /** `sortByCreatedAtDesc` as an order: newer first. */
  predicate NewerFirst(left: DashboardDecision, right: DashboardDecision)
  {
    left.createdAt >= right.createdAt
  }

  lemma NewerFirstIsTotalPreorder()
    ensures Sorting.TotalPreorder(NewerFirst)
  {
  }

  /** Two rows for the same transaction at the same time. */
  predicate SameEntry(a: DashboardDecision, b: DashboardDecision)
  {
    a.transactionId == b.transactionId && a.createdAt == b.createdAt
  }

  /**
   * The rows that are not `next`'s entry, in order: every such row is kept as often as it
   * occurs, and every row for `next`'s entry is dropped.
   */
  function WithoutDuplicate(content: seq<DashboardDecision>, next: DashboardDecision): (rest: seq<DashboardDecision>)
    ensures |rest| <= |content|
    ensures forall x :: x in rest <==> x in content && !SameEntry(x, next)
    ensures forall x :: multiset(rest)[x] == if SameEntry(x, next) then 0 else multiset(content)[x]
  {
    if |content| == 0 then []
    else
      var tail := WithoutDuplicate(content[1..], next);
      assert content == [content[0]] + content[1..];
      assert forall x :: x in content <==> x == content[0] || x in content[1..];
      if SameEntry(content[0], next) then tail else [content[0]] + tail
  }

  /** Filtering a concatenation filters each part and keeps them in order. */
  lemma {:induction false} WithoutDuplicateAppend(a: seq<DashboardDecision>, b: seq<DashboardDecision>, next: DashboardDecision)
    ensures WithoutDuplicate(a + b, next) == WithoutDuplicate(a, next) + WithoutDuplicate(b, next)
  {
    if |a| > 0 {
      assert (a + b)[1..] == a[1..] + b;
      WithoutDuplicateAppend(a[1..], b, next);
    } else {
      assert a + b == b;
    }
  }

  /** A single row is kept exactly when it is not `next`'s entry. */
  lemma WithoutDuplicateSingle(x: DashboardDecision, next: DashboardDecision)
    ensures WithoutDuplicate([x], next) == if SameEntry(x, next) then [] else [x]
  {
    assert [x][1..] == [];
  }

  /** Where `slice(0, size)` ends on `length` rows; a negative size counts back from the end. */
  function SliceEnd(size: int, length: nat): (end: nat)
    ensures end <= length
    ensures size >= 0 ==> end == Min(size, length)
  {
    if size >= 0 then Min(size, length) else Max(length + size, 0)
  }

  /**
   * The stream's page updater: drop the row for the same entry, put the new decision first,
   * sort newest first, keep the page's size, and count one more decision. No page yet, no change.
   */
  function MergeDecision(previous: Option<DecisionPage>, next: DashboardDecision): Option<DecisionPage>
  {
    if previous.None? then None
    else
      var p := previous.value;
      var updated := Sorting.SortBy([next] + WithoutDuplicate(p.content, next), NewerFirst);
      Some(p.(content := updated[..SliceEnd(p.size, |updated|)], totalElements := p.totalElements + 1))
  }

  /**
   * After a merge the page is the start, cut as `slice(0, size)` cuts, of a sequence that holds
   * exactly the new decision and the old rows for other entries, sorted newest first and, among
   * rows created at the same time, in the order the new decision and then the old rows had. The
   * page is newest first and no longer than its size, the total grows by one and everything else
   * about the page is as it was.
   */
  lemma MergeShape(previous: DecisionPage, next: DashboardDecision)
    ensures var merged := MergeDecision(Some(previous), next);
      && merged.Some?
      && var p := merged.value;
      && Sorting.SortedBy(p.content, NewerFirst)
      && |p.content| == SliceEnd(previous.size, |WithoutDuplicate(previous.content, next)| + 1)
      && (previous.size >= 0 ==> |p.content| <= previous.size)
      && p.totalElements == previous.totalElements + 1
      && p.(content := previous.content, totalElements := previous.totalElements) == previous
      && exists u ::
           && p.content == u[..SliceEnd(previous.size, |u|)]
           && Sorting.SortedBy(u, NewerFirst)
           && multiset(u) == multiset([next] + WithoutDuplicate(previous.content, next))
           && forall x :: Sorting.Equivalents(u, x, NewerFirst) == Sorting.Equivalents([next] + WithoutDuplicate(previous.content, next), x, NewerFirst)
  {
    var all := [next] + WithoutDuplicate(previous.content, next);
    NewerFirstIsTotalPreorder();
    Sorting.SortByCorrect(all, NewerFirst);
    var u := Sorting.SortBy(all, NewerFirst);
    forall x
      ensures Sorting.Equivalents(u, x, NewerFirst) == Sorting.Equivalents(all, x, NewerFirst)
    {
      Sorting.SortByStable(all, x, NewerFirst);
    }
    assert MergeDecision(Some(previous), next).value.content == u[..SliceEnd(previous.size, |u|)];
  }

  /**
   * Every merged row is the new decision or an old row for another entry, so the new entry
   * appears at most once, as the new decision; and a decision no older than every row is shown
   * first whenever the page keeps a row, whatever the sign of its size.
   */
  lemma MergeRows(previous: DecisionPage, next: DashboardDecision)
    ensures var content := MergeDecision(Some(previous), next).value.content;
      && (forall i :: 0 <= i < |content| ==>
            content[i] == next || (content[i] in previous.content && !SameEntry(content[i], next)))
      && (forall i :: 0 <= i < |content| && SameEntry(content[i], next) ==> content[i] == next)
      && (SliceEnd(previous.size, |WithoutDuplicate(previous.content, next)| + 1) >= 1
          && (forall x :: x in previous.content ==> x.createdAt <= next.createdAt) ==>
            |content| >= 1 && content[0] == next)
  {
    var all := [next] + WithoutDuplicate(previous.content, next);
    NewerFirstIsTotalPreorder();
    Sorting.SortByCorrect(all, NewerFirst);
    var updated := Sorting.SortBy(all, NewerFirst);
    var content := updated[..SliceEnd(previous.size, |updated|)];
    forall i | 0 <= i < |content|
      ensures content[i] == next || (content[i] in previous.content && !SameEntry(content[i], next))
    {
      assert content[i] in multiset(all);
    }
    if SliceEnd(previous.size, |updated|) >= 1 && (forall x :: x in previous.content ==> x.createdAt <= next.createdAt) {
      NewestGoesFirst(WithoutDuplicate(previous.content, next), next);
    }
  }

  /** A decision no older than every other row is placed first. */
  lemma NewestGoesFirst(rest: seq<DashboardDecision>, next: DashboardDecision)
    requires forall x :: x in rest ==> x.createdAt <= next.createdAt
    ensures Sorting.SortBy([next] + rest, NewerFirst)[0] == next
  {
    var all := [next] + rest;
    assert all[1..] == rest;
    var sorted := Sorting.SortBy(rest, NewerFirst);
    NewerFirstIsTotalPreorder();
    Sorting.SortByCorrect(rest, NewerFirst);
    if |sorted| > 0 {
      assert sorted[0] in multiset(rest);
    }
  }

  /** What the dashboard shows and edits. */
  datatype AppView = AppView(
    draftFilters: DashboardFilters,
    appliedFilters: DashboardFilters,
    page: int,
    decisionPage: Option<DecisionPage>)

  const INITIAL_VIEW: AppView := AppView(INITIAL_FILTERS, INITIAL_FILTERS, 0, None)

  /** A decision from the stream: merged only into the first page, and only when it matches the applied filters. */
  function OnStreamDecision(view: AppView, next: DashboardDecision): AppView
  {
    if view.page != 0 || !Matches(next, view.appliedFilters) then view
    else view.(decisionPage := MergeDecision(view.decisionPage, next))
  }

  /** `applyFilters`: refused while the draft's "from" is after its "to"; otherwise back to the first page with the draft applied. */
  function ApplyFilters(view: AppView): AppView
  {
    if IsAfter(view.draftFilters.from, view.draftFilters.to) then view
    else view.(page := 0, appliedFilters := view.draftFilters)
  }

  /** `resetFilters` */
  function ResetFilters(view: AppView): AppView
  {
    view.(draftFilters := INITIAL_FILTERS, appliedFilters := INITIAL_FILTERS, page := 0)
  }

  /** The "Previous" button. */
  function PreviousPage(view: AppView): AppView
  {
    view.(page := Max(0, view.page - 1))
  }

  /** The "Next" button: nothing on the last page. */
  function NextPage(view: AppView): AppView
  {
    if view.decisionPage.Some? && view.decisionPage.value.last then view else view.(page := view.page + 1)
  }

  /**
   * A streamed decision changes only the shown page, and only on the first page for a decision
   * the applied filters let through; then the page is merged as `MergeDecision` says.
   */
  lemma OnStreamDecisionProperties(view: AppView, next: DashboardDecision)
    ensures var after := OnStreamDecision(view, next);
      && after.(decisionPage := view.decisionPage) == view
      && (after != view ==> view.page == 0 && Matches(next, view.appliedFilters) && view.decisionPage.Some?)
      && (view.page == 0 && Matches(next, view.appliedFilters) ==> after.decisionPage == MergeDecision(view.decisionPage, next))
  {
  }

  /**
   * Applying the filters does nothing when both draft dates are set and "from" is after
   * "to"; otherwise the draft is applied and the first page shown, and the draft's dates then
   * never describe an empty range. Resetting shows the first page with every decision let through.
   */
  lemma FilterActionsProperties(view: AppView, decision: DashboardDecision)
    ensures var after := ApplyFilters(view);
      && (after == view <== IsAfter(view.draftFilters.from, view.draftFilters.to))
      && (!IsAfter(view.draftFilters.from, view.draftFilters.to) ==>
            after == view.(page := 0, appliedFilters := view.draftFilters)
            && !(after.appliedFilters.from.Parsed? && after.appliedFilters.to.Parsed?
                 && after.appliedFilters.from.value > after.appliedFilters.to.value))
    ensures !IsAfter(Blank, Parsed(0)) && !IsAfter(Parsed(0), NotANumber)
    ensures var reset := ResetFilters(view);
      reset.page == 0 && Matches(decision, reset.appliedFilters) && reset.draftFilters == reset.appliedFilters
  {
  }

  /**
   * "Previous" never goes below the first page and steps back one page otherwise; "Next" steps
   * forward unless the shown page is the last, and "Previous" undoes it.
   */
  lemma NavigationProperties(view: AppView)
    ensures PreviousPage(view).page >= 0
    ensures view.page >= 1 ==> PreviousPage(view).page == view.page - 1
    ensures view.page <= 0 ==> PreviousPage(view).page == 0
    ensures view.decisionPage.Some? && view.decisionPage.value.last ==> NextPage(view) == view
    ensures !(view.decisionPage.Some? && view.decisionPage.value.last) ==> NextPage(view).page == view.page + 1
    ensures view.page >= 0 && !(view.decisionPage.Some? && view.decisionPage.value.last) ==>
      PreviousPage(NextPage(view)) == view
  {
  }

  /** The component's state, updated by its setters. */
  class Dashboard {
    var draftFilters: DashboardFilters
    var appliedFilters: DashboardFilters
    var page: int
    var decisionPage: Option<DecisionPage>

    function View(): AppView
      reads this
    {
      AppView(draftFilters, appliedFilters, page, decisionPage)
    }

    constructor ()
      ensures View() == INITIAL_VIEW
    {
      draftFilters := INITIAL_FILTERS;
      appliedFilters := INITIAL_FILTERS;
      page := 0;
      decisionPage := None;
    }

    /** The stream's "decision" listener. */
    method ReceiveDecision(next: DashboardDecision)
      modifies this
      ensures View() == OnStreamDecision(old(View()), next)
    {
      if page != 0 || !Matches(next, appliedFilters) {
        return;
      }
      decisionPage := MergeDecision(decisionPage, next);
    }

    method Apply()
      modifies this
      ensures View() == ApplyFilters(old(View()))
    {
      if IsAfter(draftFilters.from, draftFilters.to) {
        return;
      }
      page := 0;
      appliedFilters := draftFilters;
    }

    method Reset()
      modifies this
      ensures View() == ResetFilters(old(View()))
    {
      draftFilters := INITIAL_FILTERS;
      appliedFilters := INITIAL_FILTERS;
      page := 0;
    }

    method Previous()
      modifies this
      ensures View() == PreviousPage(old(View()))
    {
      page := Max(0, page - 1);
    }

    method Next()
      modifies this
      ensures View() == NextPage(old(View()))
    {
      if decisionPage.Some? && decisionPage.value.last {
        return;
      }
      page := page + 1;
    }
  }
}
