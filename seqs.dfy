/** Sequence utilities shared by the classifier and the pipeline: the list
    comprehensions, column projections and reductions (count, sum, min, max)
    that the Python code writes with list comprehensions and pandas. Every
    recursive definition peels the LAST element, matching the loops that
    append to a list one element at a time. */
module Seqs {

  /** `[x for x in s if p(x)]` */
  function Filter<T(==,!new)>(p: T -> bool, s: seq<T>): (r: seq<T>)
    ensures |r| <= |s|
    ensures forall x :: x in r <==> x in s && p(x)
  {
    if s == [] then []
    else
      var init := Filter(p, s[..|s| - 1]);
      assert s == s[..|s| - 1] + [s[|s| - 1]];
      if p(s[|s| - 1]) then init + [s[|s| - 1]] else init
  }

  /** `[f(x) for x in s]`, a column of a table of records. */
  function Project<A, B>(s: seq<A>, f: A -> B): (r: seq<B>)
    ensures |r| == |s|
    ensures forall i :: 0 <= i < |s| ==> r[i] == f(s[i])
  {
    if s == [] then [] else Project(s[..|s| - 1], f) + [f(s[|s| - 1])]
  }

  /** `[v for x in s if (v := f(x)) is not None]` */
  function FilterMap<A(==,!new), B(==,!new)>(s: seq<A>, f: A -> Option<B>): (r: seq<B>)
    ensures |r| <= |s|
    ensures forall y :: y in r <==> exists x :: x in s && f(x) == Some(y)
  {
    if s == [] then []
    else
      var init := FilterMap(s[..|s| - 1], f);
      var x := s[|s| - 1];
      assert s == s[..|s| - 1] + [x];
      match f(x)
      case None => init
      case Some(y) => init + [y]
  }

  datatype Option<T> = None | Some(value: T)

  /** How many times `x` occurs in `s` (a pandas `value_counts` entry). */
  function Occurrences<T(==,!new)>(s: seq<T>, x: T): nat
  {
    if s == [] then 0
    else Occurrences(s[..|s| - 1], x) + (if s[|s| - 1] == x then 1 else 0)
  }

  function Sum(s: seq<int>): int
  {
    if s == [] then 0 else Sum(s[..|s| - 1]) + s[|s| - 1]
  }

  /** The smallest element of a non-empty column. */
  function MinOf(s: seq<int>): (m: int)
    requires |s| > 0
    ensures m in s
    ensures forall x :: x in s ==> m <= x
  {
    if |s| == 1 then s[0]
    else
      var init, last := s[..|s| - 1], s[|s| - 1];
      var m' := MinOf(init);
      assert forall x :: x in s ==> x in init || x == last by {
        assert s == init + [last];
      }
      if last < m' then last else m'
  }

  /** The largest element of a non-empty column. */
  function MaxOf(s: seq<int>): (m: int)
    requires |s| > 0
    ensures m in s
    ensures forall x :: x in s ==> x <= m
  {
    if |s| == 1 then s[0]
    else
      var init, last := s[..|s| - 1], s[|s| - 1];
      var m' := MaxOf(init);
      assert forall x :: x in s ==> x in init || x == last by {
        assert s == init + [last];
      }
      if last > m' then last else m'
  }

  /** `a` is obtained from `b` by deleting elements: same order, each
      element of `b` used at most once. */
  predicate IsSubsequence<T(==)>(a: seq<T>, b: seq<T>)
    decreases |b|
  {
    a == [] ||
    (b != [] &&
     (IsSubsequence(a, b[..|b| - 1]) ||
      (a[|a| - 1] == b[|b| - 1] && IsSubsequence(a[..|a| - 1], b[..|b| - 1]))))
  }

  // ---------------------------------------------------------------------
  // Lemmas

  lemma {:induction false} SubsequenceLength<T>(a: seq<T>, b: seq<T>)
    requires IsSubsequence(a, b)
    ensures |a| <= |b|
    decreases |b|
  {
    if a != [] {
      if IsSubsequence(a, b[..|b| - 1]) {
        SubsequenceLength(a, b[..|b| - 1]);
      } else {
        SubsequenceLength(a[..|a| - 1], b[..|b| - 1]);
      }
    }
  }

  /** A filtered list keeps the order of its source. */
  lemma {:induction false} FilterIsSubsequence<T(!new)>(p: T -> bool, s: seq<T>)
    ensures IsSubsequence(Filter(p, s), s)
    decreases |s|
  {
    if s != [] {
      var init := s[..|s| - 1];
      FilterIsSubsequence(p, init);
      if p(s[|s| - 1]) {
        var r := Filter(p, s);
        assert r[..|r| - 1] == Filter(p, init);
      }
    }
  }

  /** Filtering twice is filtering once by the conjunction. */
  lemma {:induction false} FilterFilter<T(!new)>(p: T -> bool, q: T -> bool, both: T -> bool, s: seq<T>)
    requires forall x :: both(x) == (p(x) && q(x))
    ensures Filter(q, Filter(p, s)) == Filter(both, s)
    decreases |s|
  {
    if s != [] {
      var init := s[..|s| - 1];
      FilterFilter(p, q, both, init);
      if p(s[|s| - 1]) {
        var f := Filter(p, s);
        assert f[..|f| - 1] == Filter(p, init);
      }
    }
  }

  /** How often each value survives a filter. */
  lemma {:induction false} FilterMultiset<T(!new)>(p: T -> bool, s: seq<T>, x: T)
    ensures multiset(Filter(p, s))[x] == if p(x) then multiset(s)[x] else 0
    decreases |s|
  {
    if s != [] {
      var init := s[..|s| - 1];
      assert s == init + [s[|s| - 1]];
      FilterMultiset(p, init, x);
    }
  }

  /** Splitting a list by a predicate and its negation loses and duplicates
      nothing. */
  lemma {:induction false} FilterPartition<T(!new)>(p: T -> bool, q: T -> bool, s: seq<T>)
    requires forall x :: q(x) == !p(x)
    ensures multiset(Filter(p, s)) + multiset(Filter(q, s)) == multiset(s)
    ensures |Filter(p, s)| + |Filter(q, s)| == |s|
  {
    forall x ensures (multiset(Filter(p, s)) + multiset(Filter(q, s)))[x] == multiset(s)[x] {
      FilterMultiset(p, s, x);
      FilterMultiset(q, s, x);
    }
    assert multiset(Filter(p, s)) + multiset(Filter(q, s)) == multiset(s);
    assert |multiset(Filter(p, s)) + multiset(Filter(q, s))| == |multiset(s)|;
  }

  lemma {:induction false} FilterPermutation<T(!new)>(p: T -> bool, a: seq<T>, b: seq<T>)
    requires multiset(a) == multiset(b)
    ensures multiset(Filter(p, a)) == multiset(Filter(p, b))
  {
    forall x ensures multiset(Filter(p, a))[x] == multiset(Filter(p, b))[x] {
      FilterMultiset(p, a, x);
      FilterMultiset(p, b, x);
    }
  }

  /** Counting by recursion agrees with multiset multiplicity. */
  lemma {:induction false} OccurrencesMultiset<T(!new)>(s: seq<T>, x: T)
    ensures Occurrences(s, x) == multiset(s)[x]
    decreases |s|
  {
    if s != [] {
      var init := s[..|s| - 1];
      assert s == init + [s[|s| - 1]];
      OccurrencesMultiset(init, x);
    }
  }

  /** Removing the element at position `i`. */
  lemma RemoveAt<T>(b: seq<T>, i: nat)
    requires i < |b|
    ensures b == b[..i] + [b[i]] + b[i + 1..]
    ensures multiset(b[..i] + b[i + 1..]) == multiset(b) - multiset{b[i]}
  {
    assert b == b[..i] + [b[i]] + b[i + 1..];
  }

  lemma {:induction false} ProjectConcat<A, B>(a: seq<A>, b: seq<A>, f: A -> B)
    ensures Project(a + b, f) == Project(a, f) + Project(b, f)
    decreases |b|
  {
    if b != [] {
      var n := |b| - 1;
      assert (a + b)[..|a + b| - 1] == a + b[..n];
      ProjectConcat(a, b[..n], f);
    } else {
      assert a + b == a;
    }
  }

  /** Projecting a list with one element taken out. */
  lemma ProjectRemoveAt<A, B>(b: seq<A>, i: nat, f: A -> B)
    requires i < |b|
    ensures multiset(Project(b, f)) == multiset(Project(b[..i] + b[i + 1..], f)) + multiset{f(b[i])}
  {
    RemoveAt(b, i);
    ProjectConcat(b[..i] + [b[i]], b[i + 1..], f);
    ProjectConcat(b[..i], [b[i]], f);
    ProjectConcat(b[..i], b[i + 1..], f);
    assert [b[i]][..0] == [];
  }

  lemma {:induction false} ProjectPermutation<A, B>(a: seq<A>, b: seq<A>, f: A -> B)
    requires multiset(a) == multiset(b)
    ensures multiset(Project(a, f)) == multiset(Project(b, f))
    decreases |a|
  {
    if a == [] {
      assert |b| == |multiset(b)| == 0;
    } else {
      var n := |a| - 1;
      var x := a[n];
      assert a == a[..n] + [x];
      assert x in multiset(b);
      var i :| 0 <= i < |b| && b[i] == x;
      RemoveAt(b, i);
      ProjectPermutation(a[..n], b[..i] + b[i + 1..], f);
      ProjectRemoveAt(b, i, f);
    }
  }

  lemma {:induction false} FilterMapConcat<A(!new), B(!new)>(a: seq<A>, b: seq<A>, f: A -> Option<B>)
    ensures FilterMap(a + b, f) == FilterMap(a, f) + FilterMap(b, f)
    decreases |b|
  {
    if b != [] {
      var n := |b| - 1;
      assert (a + b)[..|a + b| - 1] == a + b[..n];
      FilterMapConcat(a, b[..n], f);
    } else {
      assert a + b == a;
    }
  }

  /** When `f` keeps every element, nothing is dropped. */
  lemma {:induction false} FilterMapTotal<A(!new), B(!new)>(s: seq<A>, f: A -> Option<B>)
    requires forall x :: x in s ==> f(x).Some?
    ensures |FilterMap(s, f)| == |s|
    decreases |s|
  {
    if s != [] {
      assert forall x :: x in s[..|s| - 1] ==> x in s;
      FilterMapTotal(s[..|s| - 1], f);
      assert s[|s| - 1] in s;
    }
  }

  /** Filter-mapping a list with one element taken out. */
  lemma FilterMapRemoveAt<A(!new), B(!new)>(b: seq<A>, i: nat, f: A -> Option<B>)
    requires i < |b|
    ensures multiset(FilterMap(b, f)) == multiset(FilterMap(b[..i] + b[i + 1..], f)) + multiset(FilterMap([b[i]], f))
  {
    RemoveAt(b, i);
    FilterMapConcat(b[..i] + [b[i]], b[i + 1..], f);
    FilterMapConcat(b[..i], [b[i]], f);
    FilterMapConcat(b[..i], b[i + 1..], f);
  }

  lemma {:induction false} FilterMapPermutation<A(!new), B(!new)>(a: seq<A>, b: seq<A>, f: A -> Option<B>)
    requires multiset(a) == multiset(b)
    ensures multiset(FilterMap(a, f)) == multiset(FilterMap(b, f))
    decreases |a|
  {
    if a == [] {
      assert |b| == |multiset(b)| == 0;
    } else {
      var n := |a| - 1;
      var x := a[n];
      assert a == a[..n] + [x];
      assert x in multiset(b);
      var i :| 0 <= i < |b| && b[i] == x;
      RemoveAt(b, i);
      FilterMapPermutation(a[..n], b[..i] + b[i + 1..], f);
      FilterMapRemoveAt(b, i, f);
      FilterMapConcat(a[..n], [x], f);
    }
  }

  lemma {:induction false} SumConcat(a: seq<int>, b: seq<int>)
    ensures Sum(a + b) == Sum(a) + Sum(b)
    decreases |b|
  {
    if b != [] {
      var n := |b| - 1;
      assert (a + b)[..|a + b| - 1] == a + b[..n];
      SumConcat(a, b[..n]);
    } else {
      assert a + b == a;
    }
  }

  /** Summing a list with one element taken out. */
  lemma SumRemoveAt(b: seq<int>, i: nat)
    requires i < |b|
    ensures Sum(b) == Sum(b[..i] + b[i + 1..]) + b[i]
  {
    RemoveAt(b, i);
    SumConcat(b[..i] + [b[i]], b[i + 1..]);
    SumConcat(b[..i], [b[i]]);
    SumConcat(b[..i], b[i + 1..]);
    assert [b[i]][..0] == [];
  }

  /** A sum does not depend on the order of its terms. */
  lemma {:induction false} SumPermutation(a: seq<int>, b: seq<int>)
    requires multiset(a) == multiset(b)
    ensures Sum(a) == Sum(b)
    decreases |a|
  {
    if a == [] {
      assert |b| == |multiset(b)| == 0;
    } else {
      var n := |a| - 1;
      var x := a[n];
      assert a == a[..n] + [x];
      assert x in multiset(b);
      var i :| 0 <= i < |b| && b[i] == x;
      RemoveAt(b, i);
      SumPermutation(a[..n], b[..i] + b[i + 1..]);
      SumRemoveAt(b, i);
    }
  }

  /** The minimum and maximum depend only on which values occur. */
  lemma MinMaxPermutation(a: seq<int>, b: seq<int>)
    requires |a| > 0 && multiset(a) == multiset(b)
    ensures |b| > 0 && MinOf(a) == MinOf(b) && MaxOf(a) == MaxOf(b)
  {
    assert |b| == |multiset(b)| == |a|;
    assert forall x :: x in a <==> x in b by {
      forall x ensures x in a <==> x in b {
        assert x in a <==> x in multiset(a);
        assert x in b <==> x in multiset(b);
      }
    }
  }
}
