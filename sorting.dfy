/**
 * Stable insertion sort by a total preorder, used where the services sort records by a
 * timestamp: Python's `sorted` and JavaScript's `Array.prototype.sort` are both stable.
 */
module Sorting {
  /** `le` is total and transitive, so it orders any sequence. */
  ghost predicate TotalPreorder<T(!new)>(le: (T, T) -> bool)
  {
    (forall a, b :: le(a, b) || le(b, a))
    && (forall a, b, c :: le(a, b) && le(b, c) ==> le(a, c))
  }

  /** Every element is `le` every later element. */
  ghost predicate SortedBy<T>(s: seq<T>, le: (T, T) -> bool)
  {
    forall i, j :: 0 <= i < j < |s| ==> le(s[i], s[j])
  }

  /** Inserts `x` before the first element it is `le` to; an element equal in order stays behind `x`. */
  function Insert<T>(x: T, s: seq<T>, le: (T, T) -> bool): seq<T>
  {
    if |s| == 0 then [x]
    else if le(x, s[0]) then [x] + s
    else [s[0]] + Insert(x, s[1..], le)
  }

  /** Sorts `s`; elements equal in order keep their relative position. */
  function SortBy<T>(s: seq<T>, le: (T, T) -> bool): seq<T>
  {
    if |s| == 0 then [] else Insert(s[0], SortBy(s[1..], le), le)
  }

  lemma {:induction false} InsertPermutes<T>(x: T, s: seq<T>, le: (T, T) -> bool)
    ensures multiset(Insert(x, s, le)) == multiset(s) + multiset{x}
  {
    if |s| > 0 && !le(x, s[0]) {
      InsertPermutes(x, s[1..], le);
      assert s == [s[0]] + s[1..];
    }
  }

  lemma {:induction false} InsertSorted<T(!new)>(x: T, s: seq<T>, le: (T, T) -> bool)
    requires TotalPreorder(le)
    requires SortedBy(s, le)
    ensures SortedBy(Insert(x, s, le), le)
  {
    if |s| > 0 && !le(x, s[0]) {
      InsertSorted(x, s[1..], le);
      var rest := Insert(x, s[1..], le);
      InsertPermutes(x, s[1..], le);
      forall j | 0 <= j < |rest|
        ensures le(s[0], rest[j])
      {
        assert rest[j] in multiset(rest);
        assert rest[j] in multiset(s[1..]) || rest[j] == x;
        if rest[j] != x {
          var k :| 0 <= k < |s[1..]| && s[1..][k] == rest[j];
          assert le(s[0], s[k + 1]);
        }
      }
    }
  }

  /** The result of `SortBy` is ordered and holds exactly the input's elements. */
  lemma {:induction false} SortByCorrect<T(!new)>(s: seq<T>, le: (T, T) -> bool)
    requires TotalPreorder(le)
    ensures SortedBy(SortBy(s, le), le)
    ensures multiset(SortBy(s, le)) == multiset(s)
    ensures |SortBy(s, le)| == |s|
  {
    if |s| > 0 {
      SortByCorrect(s[1..], le);
      InsertSorted(s[0], SortBy(s[1..], le), le);
      InsertPermutes(s[0], SortBy(s[1..], le), le);
      assert s == [s[0]] + s[1..];
      assert |SortBy(s, le)| == |multiset(SortBy(s, le))|;
    }
  }

  /** The elements of `s` equivalent to `x` under `le` (each `le` the other), in the order of `s`. */
  function Equivalents<T>(s: seq<T>, x: T, le: (T, T) -> bool): seq<T>
  {
    if |s| == 0 then []
    else (if le(s[0], x) && le(x, s[0]) then [s[0]] else []) + Equivalents(s[1..], x, le)
  }

  /**
   * Inserting `y` puts it in front of every element equivalent to it, and moves no other element
   * past another.
   */
  lemma {:induction false} InsertKeepsEquivalents<T(!new)>(y: T, t: seq<T>, x: T, le: (T, T) -> bool)
    requires TotalPreorder(le)
    ensures Equivalents(Insert(y, t, le), x, le) == (if le(y, x) && le(x, y) then [y] else []) + Equivalents(t, x, le)
  {
    var Y := if le(y, x) && le(x, y) then [y] else [];
    if |t| == 0 {
      assert Equivalents([y], x, le) == Y + Equivalents([y][1..], x, le);
      assert [y][1..] == [];
    } else if le(y, t[0]) {
      assert Equivalents([y] + t, x, le) == Y + Equivalents(([y] + t)[1..], x, le);
      assert ([y] + t)[1..] == t;
    } else {
      var t0, rest := t[0], Insert(y, t[1..], le);
      var H := if le(t0, x) && le(x, t0) then [t0] else [];
      InsertKeepsEquivalents(y, t[1..], x, le);
      assert Equivalents([t0] + rest, x, le) == H + Equivalents(([t0] + rest)[1..], x, le);
      assert ([t0] + rest)[1..] == rest;
      assert le(y, x) && le(x, t0) ==> le(y, t0);
      assert Y == [] || H == [];
      assert H + (Y + Equivalents(t[1..], x, le)) == Y + (H + Equivalents(t[1..], x, le));
    }
  }

  /**
   * `SortBy` is stable: among the elements equivalent to any `x`, such as records with equal
   * timestamps, the sorted sequence keeps the input's relative order.
   */
  lemma {:induction false} SortByStable<T(!new)>(s: seq<T>, x: T, le: (T, T) -> bool)
    requires TotalPreorder(le)
    ensures Equivalents(SortBy(s, le), x, le) == Equivalents(s, x, le)
  {
    if |s| > 0 {
      SortByStable(s[1..], x, le);
      InsertKeepsEquivalents(s[0], SortBy(s[1..], le), x, le);
    }
  }

  /** A sequence already in order is left as it is. */
  lemma {:induction false} SortBySortedIsIdentity<T>(s: seq<T>, le: (T, T) -> bool)
    requires SortedBy(s, le)
    ensures SortBy(s, le) == s
  {
    if |s| > 0 {
      assert SortedBy(s[1..], le);
      SortBySortedIsIdentity(s[1..], le);
      if |s| > 1 {
        assert le(s[0], s[1]);
      }
      assert s == [s[0]] + s[1..];
    }
  }
}
