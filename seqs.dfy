/** Sequence combinators shared by the list screens: `Array.prototype.filter`,
    the `reduce((sum, x) => sum + (x.amount || 0), 0)` summation and the notion of
    an order-preserving subsequence. */
module Seqs {
  import opened Wrappers

  /** `xs.filter(keep)`: the elements that pass, in their original order. */
  function Filter<T>(s: seq<T>, keep: T -> bool): (r: seq<T>)
    ensures |r| <= |s|
    ensures forall i :: 0 <= i < |r| ==> r[i] in s && keep(r[i])
    ensures forall i :: 0 <= i < |s| && keep(s[i]) ==> s[i] in r
    decreases |s|
  {
    if s == [] then [] else (if keep(s[0]) then [s[0]] else []) + Filter(s[1..], keep)
  }

  lemma {:induction false} FilterAppend<T>(a: seq<T>, b: seq<T>, keep: T -> bool)
    ensures Filter(a + b, keep) == Filter(a, keep) + Filter(b, keep)
    decreases |a|
  {
    if a == [] {
      assert a + b == b;
    } else {
      assert (a + b)[0] == a[0];
      assert (a + b)[1..] == a[1..] + b;
      FilterAppend(a[1..], b, keep);
    }
  }

  lemma SeqAssoc<T>(a: seq<T>, b: seq<T>, c: seq<T>)
    ensures a + (b + c) == (a + b) + c
  {
  }

  /** One more element at the end passes or not on its own. */
  lemma FilterSnoc<T>(p: seq<T>, x: T, keep: T -> bool)
    ensures Filter(p + [x], keep) == Filter(p, keep) + (if keep(x) then [x] else [])
  {
    FilterAppend(p, [x], keep);
    assert [x][1..] == [];
  }

  /** A filter whose predicate holds of no element returns nothing. */
  lemma {:induction false} FilterNone<T>(s: seq<T>, keep: T -> bool)
    requires forall i :: 0 <= i < |s| ==> !keep(s[i])
    ensures Filter(s, keep) == []
    decreases |s|
  {
    if s != [] {
      FilterNone(s[1..], keep);
    }
  }

  /** A filter whose predicate holds of every element returns the input unchanged. */
  lemma {:induction false} FilterKeepsAll<T>(s: seq<T>, keep: T -> bool)
    requires forall i :: 0 <= i < |s| ==> keep(s[i])
    ensures Filter(s, keep) == s
    decreases |s|
  {
    if s != [] {
      FilterKeepsAll(s[1..], keep);
    }
  }

  /** `r` is obtained from `s` by deleting elements, without reordering. */
  predicate Subsequence<T(==)>(r: seq<T>, s: seq<T>)
    decreases |s|
  {
    if r == [] then true
    else if s == [] then false
    else (r[0] == s[0] && Subsequence(r[1..], s[1..])) || Subsequence(r, s[1..])
  }

  lemma {:induction false} FilterIsSubsequence<T>(s: seq<T>, keep: T -> bool)
    ensures Subsequence(Filter(s, keep), s)
    decreases |s|
  {
    if s != [] {
      FilterIsSubsequence(s[1..], keep);
      var r := Filter(s, keep);
      if keep(s[0]) {
        assert r[0] == s[0] && r[1..] == Filter(s[1..], keep);
      } else {
        assert r == Filter(s[1..], keep);
      }
    }
  }

  /** JavaScript's `x || 0` on a nullable amount. */
  function OrZero(a: Option<int>): int
  {
    if a.Some? then a.value else 0
  }

  /** `s.reduce((sum, x) => sum + (amount(x) || 0), 0)`: a left fold. */
  function SumBy<T>(s: seq<T>, amount: T -> Option<int>): int
    decreases |s|
  {
    if s == [] then 0 else SumBy(s[..|s| - 1], amount) + OrZero(amount(s[|s| - 1]))
  }

  lemma {:induction false} SumByAppend<T>(a: seq<T>, b: seq<T>, amount: T -> Option<int>)
    ensures SumBy(a + b, amount) == SumBy(a, amount) + SumBy(b, amount)
    decreases |b|
  {
    if b == [] {
      assert a + b == a;
    } else {
      var b' := b[..|b| - 1];
      assert (a + b)[..|a + b| - 1] == a + b';
      assert (a + b)[|a + b| - 1] == b[|b| - 1];
      SumByAppend(a, b', amount);
    }
  }

  /** One more element at the end adds its amount. */
  lemma SumBySnoc<T>(p: seq<T>, x: T, amount: T -> Option<int>)
    ensures SumBy(p + [x], amount) == SumBy(p, amount) + OrZero(amount(x))
  {
    assert (p + [x])[..|p|] == p;
  }

  lemma SumBySingle<T>(x: T, amount: T -> Option<int>)
    ensures SumBy([x], amount) == OrZero(amount(x))
  {
    assert [x][..0] == [];
  }

  /** The complement of a filter's test. */
  function Not<T>(keep: T -> bool): T -> bool
  {
    x => !keep(x)
  }

  /** Summing the kept elements and the rejected elements separately gives the whole sum. */
  lemma {:induction false} SumBySplit<T>(s: seq<T>, keep: T -> bool, amount: T -> Option<int>)
    ensures SumBy(Filter(s, keep), amount) + SumBy(Filter(s, Not(keep)), amount) == SumBy(s, amount)
    decreases |s|
  {
    if s != [] {
      var rest := s[1..];
      SumBySplit(rest, keep, amount);
      SumBySplitStep(s, keep, amount);
    }
  }

  lemma SumBySplitStep<T>(s: seq<T>, keep: T -> bool, amount: T -> Option<int>)
    requires s != []
    requires SumBy(Filter(s[1..], keep), amount) + SumBy(Filter(s[1..], Not(keep)), amount) == SumBy(s[1..], amount)
    ensures SumBy(Filter(s, keep), amount) + SumBy(Filter(s, Not(keep)), amount) == SumBy(s, amount)
  {
    FilterHeadSum(s, keep, amount);
    FilterHeadSum(s, Not(keep), amount);
    assert Not(keep)(s[0]) == !keep(s[0]);
    SumByHead(s, amount);
  }

  /** The sum of a non-empty list: the head's amount plus the sum of the rest. */
  lemma SumByHead<T>(s: seq<T>, amount: T -> Option<int>)
    requires s != []
    ensures SumBy(s, amount) == OrZero(amount(s[0])) + SumBy(s[1..], amount)
  {
    assert s == [s[0]] + s[1..];
    SumByAppend([s[0]], s[1..], amount);
    SumBySingle(s[0], amount);
  }

  /** The filtered sum of a non-empty list: the head's amount if it passes,
      plus the filtered sum of the rest. */
  lemma FilterHeadSum<T>(s: seq<T>, keep: T -> bool, amount: T -> Option<int>)
    requires s != []
    ensures SumBy(Filter(s, keep), amount)
         == (if keep(s[0]) then OrZero(amount(s[0])) else 0) + SumBy(Filter(s[1..], keep), amount)
  {
    var head := if keep(s[0]) then [s[0]] else [];
    assert Filter(s, keep) == head + Filter(s[1..], keep);
    SumByAppend(head, Filter(s[1..], keep), amount);
    if keep(s[0]) {
      SumBySingle(s[0], amount);
    }
  }

  /** With no negative amounts the sum is never negative. */
  lemma {:induction false} SumByNonnegative<T>(s: seq<T>, amount: T -> Option<int>)
    requires forall i :: 0 <= i < |s| ==> OrZero(amount(s[i])) >= 0
    ensures SumBy(s, amount) >= 0
    decreases |s|
  {
    if s != [] {
      SumByNonnegative(s[..|s| - 1], amount);
    }
  }

  /** Filtering keeps the "no negative amounts" property. */
  lemma FilterNonnegative<T>(s: seq<T>, keep: T -> bool, amount: T -> Option<int>)
    requires forall i :: 0 <= i < |s| ==> OrZero(amount(s[i])) >= 0
    ensures forall i :: 0 <= i < |Filter(s, keep)| ==> OrZero(amount(Filter(s, keep)[i])) >= 0
  {
    var r := Filter(s, keep);
    forall i | 0 <= i < |r| ensures OrZero(amount(r[i])) >= 0 {
      var j :| 0 <= j < |s| && s[j] == r[i];
    }
  }

  /** With no negative amounts, a filtered sum never exceeds the whole sum. */
  lemma SumByFilterAtMost<T>(s: seq<T>, keep: T -> bool, amount: T -> Option<int>)
    requires forall i :: 0 <= i < |s| ==> OrZero(amount(s[i])) >= 0
    ensures SumBy(Filter(s, keep), amount) <= SumBy(s, amount)
  {
    SumBySplit(s, keep, amount);
    FilterNonnegative(s, Not(keep), amount);
    SumByNonnegative(Filter(s, Not(keep)), amount);
  }
}
