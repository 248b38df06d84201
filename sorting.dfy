/**
 * A stable sort by a comparison, standing for the standard library's
 * `sort_by` / `sort_unstable` the crate calls.
 */
module Sorting {

  /** `le` is total and transitive: what a comparator of `sort_by` must be. */
  ghost predicate TotalPreorder<T(!new)>(le: (T, T) -> bool)
  {
    && (forall a, b :: le(a, b) || le(b, a))
    && (forall a, b, c :: le(a, b) && le(b, c) ==> le(a, c))
  }

  /** `le` is transitive; stability needs no more of the comparator. */
  ghost predicate Transitive<T(!new)>(le: (T, T) -> bool)
  {
    forall a, b, c :: le(a, b) && le(b, c) ==> le(a, c)
  }

  ghost predicate SortedBy<T>(s: seq<T>, le: (T, T) -> bool)
  {
    forall i, j :: 0 <= i < j < |s| ==> le(s[i], s[j])
  }

  /** Puts `x` in front of the first element it is not above. */
  function Insert<T(!new)>(x: T, s: seq<T>, le: (T, T) -> bool): (r: seq<T>)
    ensures |r| == |s| + 1
    ensures multiset(r) == multiset(s) + multiset{x}
  {
    if s == [] then [x]
    else if le(x, s[0]) then [x] + s
    else
      assert s == [s[0]] + s[1..];
      [s[0]] + Insert(x, s[1..], le)
  }

  /** Inserting into a sorted sequence keeps it sorted. */
  lemma {:induction false} InsertSorted<T(!new)>(x: T, s: seq<T>, le: (T, T) -> bool)
    requires TotalPreorder(le) && SortedBy(s, le)
    ensures SortedBy(Insert(x, s, le), le)
  {
    if s != [] && !le(x, s[0]) {
      var rest := Insert(x, s[1..], le);
      InsertSorted(x, s[1..], le);
      assert s == [s[0]] + s[1..];
      forall j | 0 <= j < |rest|
        ensures le(s[0], rest[j])
      {
        assert rest[j] in multiset(rest);
        if rest[j] != x {
          assert rest[j] in multiset(s[1..]);
          var k :| 0 <= k < |s[1..]| && s[1..][k] == rest[j];
          assert s[k + 1] == rest[j];
        }
      }
      assert Insert(x, s, le) == [s[0]] + rest;
    }
  }

  /** Insertion sort: a sorted permutation of `s`, equal elements in their input order. */
  function SortBy<T(!new)>(s: seq<T>, le: (T, T) -> bool): (r: seq<T>)
    ensures |r| == |s|
    ensures multiset(r) == multiset(s)
  {
    if s == [] then []
    else
      assert s == [s[0]] + s[1..];
      Insert(s[0], SortBy(s[1..], le), le)
  }

  /** Under a total preorder the result is sorted. */
  lemma {:induction false} SortBySorted<T(!new)>(s: seq<T>, le: (T, T) -> bool)
    requires TotalPreorder(le)
    ensures SortedBy(SortBy(s, le), le)
  {
    if s != [] {
      SortBySorted(s[1..], le);
      InsertSorted(s[0], SortBy(s[1..], le), le);
    }
  }

  /** `a` and `b` compare equal under `le`. */
  predicate Equivalent<T>(le: (T, T) -> bool, a: T, b: T)
  {
    le(a, b) && le(b, a)
  }

  /** The elements of `s` that compare equal to `c`, in their order in `s`. */
  function ClassOf<T>(s: seq<T>, le: (T, T) -> bool, c: T): seq<T>
    decreases |s|
  {
    if s == [] then []
    else (if Equivalent(le, s[0], c) then [s[0]] else []) + ClassOf(s[1..], le, c)
  }

  /** Under a transitive `le`, an element strictly below another is not in the same class as it. */
  lemma ClassesAreOrdered<T(!new)>(x: T, y: T, le: (T, T) -> bool, c: T)
    requires Transitive(le) && !le(x, y)
    ensures !(Equivalent(le, x, c) && Equivalent(le, y, c))
  {
  }

  /** `ClassOf` of a sequence with a known first element. */
  lemma ClassOfCons<T>(e: T, t: seq<T>, le: (T, T) -> bool, c: T)
    ensures ClassOf([e] + t, le, c) == (if Equivalent(le, e, c) then [e] else []) + ClassOf(t, le, c)
  {
    assert ([e] + t)[1..] == t;
  }

  /**
   * `Insert` passes over only elements strictly below `x`, so among the
   * elements equal to any `c` it puts `x` first.
   */
  lemma {:induction false} InsertClass<T(!new)>(x: T, s: seq<T>, le: (T, T) -> bool, c: T)
    requires Transitive(le)
    ensures ClassOf(Insert(x, s, le), le, c)
         == (if Equivalent(le, x, c) then [x] else []) + ClassOf(s, le, c)
    decreases |s|
  {
    if s == [] || le(x, s[0]) {
      assert Insert(x, s, le) == [x] + s;
      ClassOfCons(x, s, le, c);
    } else {
      var rest := Insert(x, s[1..], le);
      InsertClass(x, s[1..], le, c);
      ClassesAreOrdered(x, s[0], le, c);
      assert Insert(x, s, le) == [s[0]] + rest;
      ClassOfCons(s[0], rest, le, c);
      assert s == [s[0]] + s[1..];
      ClassOfCons(s[0], s[1..], le, c);
    }
  }

  /** The sort is stable: elements that compare equal keep their input order. */
  lemma {:induction false} SortByStable<T(!new)>(s: seq<T>, le: (T, T) -> bool, c: T)
    requires Transitive(le)
    ensures ClassOf(SortBy(s, le), le, c) == ClassOf(s, le, c)
    decreases |s|
  {
    if s != [] {
      SortByStable(s[1..], le, c);
      InsertClass(s[0], SortBy(s[1..], le), le, c);
    }
  }
}
