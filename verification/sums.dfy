/** Left-to-right sums of a per-element quantity over a sequence, the shape of
    every `reduce((acc, x) => acc + f(x), 0)` and `forEach(... += ...)` in the
    dashboards, with the facts the aggregations need: sums split over
    concatenation and do not depend on the order of the elements. */
module Sums {

  /** `f(s[0]) + f(s[1]) + ...`, accumulated from the left. */
  function Sum<T>(s: seq<T>, f: T -> int): int
    decreases |s|
  {
    if |s| == 0 then 0 else Sum(s[..|s| - 1], f) + f(s[|s| - 1])
  }

  /** Splitting the sequence splits the sum. */
  lemma {:induction false} SumAppend<T>(a: seq<T>, b: seq<T>, f: T -> int)
    ensures Sum(a + b, f) == Sum(a, f) + Sum(b, f)
    decreases |b|
  {
    if |b| == 0 {
      assert a + b == a;
    } else {
      var b' := b[..|b| - 1];
      assert (a + b)[..|a + b| - 1] == a + b';
      SumAppend(a, b', f);
    }
  }

  /** Dropping the element at `j` removes one copy of it from the multiset. */
  lemma RemoveOne<T>(s: seq<T>, j: nat)
    requires j < |s|
    ensures multiset(s[..j] + s[j + 1..]) == multiset(s) - multiset{s[j]}
  {
    assert s == s[..j] + [s[j]] + s[j + 1..];
  }

  /** The sum is the dropped element's share plus the sum of the others. */
  lemma SumRemove<T>(s: seq<T>, j: nat, f: T -> int)
    requires j < |s|
    ensures Sum(s, f) == Sum(s[..j] + s[j + 1..], f) + f(s[j])
  {
    var pre, one, post := s[..j], [s[j]], s[j + 1..];
    assert one + post == s[j..];
    assert s == pre + (one + post);
    assert s[..j] + s[j + 1..] == pre + post;
    SumAppend(pre, one + post, f);
    SumAppend(one, post, f);
    SumAppend(pre, post, f);
    assert one[..0] == [];
    assert Sum(one, f) == f(s[j]);
  }

  /** The sum does not depend on the order of the elements. */
  lemma {:induction false} SumPermutation<T>(a: seq<T>, b: seq<T>, f: T -> int)
    requires multiset(a) == multiset(b)
    ensures Sum(a, f) == Sum(b, f)
    decreases |a|
  {
    if |a| == 0 {
      assert |b| == |multiset(b)| == 0;
    } else {
      var x := a[|a| - 1];
      assert x in multiset(b);
      var j :| 0 <= j < |b| && b[j] == x;
      RemoveOne(a, |a| - 1);
      RemoveOne(b, j);
      assert a[..|a| - 1] + a[|a|..] == a[..|a| - 1];
      SumPermutation(a[..|a| - 1], b[..j] + b[j + 1..], f);
      SumRemove(b, j, f);
    }
  }

  /** Shares between 0 and `bound` add up to between 0 and `bound` times the length. */
  lemma {:induction false} SumBounds<T>(s: seq<T>, f: T -> int, bound: int)
    requires forall i :: 0 <= i < |s| ==> 0 <= f(s[i]) <= bound
    ensures 0 <= Sum(s, f) <= bound * |s|
    decreases |s|
  {
    if |s| > 0 {
      SumBounds(s[..|s| - 1], f, bound);
      assert bound * |s| == bound * (|s| - 1) + bound;
    }
  }

  /** With no negative shares the sum is not negative. */
  lemma {:induction false} SumNonNegative<T>(s: seq<T>, f: T -> int)
    requires forall i :: 0 <= i < |s| ==> f(s[i]) >= 0
    ensures Sum(s, f) >= 0
    decreases |s|
  {
    if |s| > 0 {
      SumNonNegative(s[..|s| - 1], f);
    }
  }

  /** With no negative shares, one element's share is at most the sum. */
  lemma {:induction false} SumAtLeastShare<T>(s: seq<T>, f: T -> int, j: nat)
    requires j < |s|
    requires forall i :: 0 <= i < |s| ==> f(s[i]) >= 0
    ensures Sum(s, f) >= f(s[j])
    decreases |s|
  {
    var init := s[..|s| - 1];
    if j < |s| - 1 {
      assert init[j] == s[j];
      SumAtLeastShare(init, f, j);
    } else {
      SumNonNegative(init, f);
    }
  }

  /** All shares zero: the sum is zero. */
  lemma {:induction false} SumOfZeros<T>(s: seq<T>, f: T -> int)
    requires forall i :: 0 <= i < |s| ==> f(s[i]) == 0
    ensures Sum(s, f) == 0
    decreases |s|
  {
    if |s| > 0 {
      SumOfZeros(s[..|s| - 1], f);
    }
  }

  /** All shares one: the sum is the length. */
  lemma {:induction false} AllOnes<T>(s: seq<T>, f: T -> int)
    requires forall i :: 0 <= i < |s| ==> f(s[i]) == 1
    ensures Sum(s, f) == |s|
    decreases |s|
  {
    if |s| > 0 {
      AllOnes(s[..|s| - 1], f);
    }
  }

  /** Shares that are pointwise no larger give a sum that is no larger. */
  lemma {:induction false} SumMonotone<T>(s: seq<T>, f: T -> int, g: T -> int)
    requires forall i :: 0 <= i < |s| ==> f(s[i]) <= g(s[i])
    ensures Sum(s, f) <= Sum(s, g)
    decreases |s|
  {
    if |s| > 0 {
      SumMonotone(s[..|s| - 1], f, g);
    }
  }

  /** A sum over seven elements written out term by term. */
  lemma SumOfSeven<T>(s: seq<T>, f: T -> int)
    requires |s| == 7
    ensures Sum(s, f) == f(s[0]) + f(s[1]) + f(s[2]) + f(s[3]) + f(s[4]) + f(s[5]) + f(s[6])
  {
    assert s[..7] == s;
    forall k | 0 <= k < 7
      ensures Sum(s[..k + 1], f) == Sum(s[..k], f) + f(s[k])
    {
      assert s[..k + 1][..k] == s[..k];
    }
  }
}
