/** Folds, filters and order relations over sequences, shared by every page of the client. */
module Seqs {

  /** `s.reduce((acc, x) => acc + m(x), acc)`: the left fold the pages use for their totals. */
  function Reduce<T>(s: seq<T>, acc: int, m: T -> int): int
    decreases |s|
  {
    if |s| == 0 then acc else Reduce(s[1..], acc + m(s[0]), m)
  }

  /** Reference sum of `m` over `s`, written independently of `Reduce`. */
  function Sum<T>(s: seq<T>, m: T -> int): int
    decreases |s|
  {
    if |s| == 0 then 0 else m(s[0]) + Sum(s[1..], m)
  }

  /** Reference sum of `m` over the elements of `s` that satisfy `p`. */
  function SumWhere<T>(s: seq<T>, p: T -> bool, m: T -> int): int
    decreases |s|
  {
    if |s| == 0 then 0
    else (if p(s[0]) then m(s[0]) else 0) + SumWhere(s[1..], p, m)
  }

  /** Reference count of the elements of `s` that satisfy `p`. */
  function Count<T>(s: seq<T>, p: T -> bool): nat
    decreases |s|
  {
    if |s| == 0 then 0
    else (if p(s[0]) then 1 else 0) + Count(s[1..], p)
  }

  /** `a` is obtained from `b` by deleting elements, keeping the rest in order. */
  predicate IsSubsequence<T(==)>(a: seq<T>, b: seq<T>)
    decreases |b|
  {
    if |a| == 0 then true
    else if |b| == 0 then false
    else (a[0] == b[0] && IsSubsequence(a[1..], b[1..])) || IsSubsequence(a, b[1..])
  }

  /** No element occurs twice. */
  predicate NoDup<T(==)>(s: seq<T>)
  {
    forall i, j :: 0 <= i < j < |s| ==> s[i] != s[j]
  }

  /** `Array.prototype.filter`: the elements satisfying `p`, in their original order. */
  function Filter<T(==,!new)>(s: seq<T>, p: T -> bool): (r: seq<T>)
    ensures |r| <= |s|
    ensures forall x :: x in r ==> x in s && p(x)
    ensures forall x :: x in s && p(x) ==> x in r
    ensures forall x :: multiset(r)[x] == if p(x) then multiset(s)[x] else 0
    ensures IsSubsequence(r, s)
    decreases |s|
  {
    if |s| == 0 then []
    else
      var rest := Filter(s[1..], p);
      assert s == [s[0]] + s[1..];
      if p(s[0]) then
        assert ([s[0]] + rest)[1..] == rest;
        [s[0]] + rest
      else
        rest
  }

  /** Both folds agree: `Reduce` from any start value adds `Sum` to it. */
  lemma {:induction false} ReduceIsSum<T>(s: seq<T>, acc: int, m: T -> int)
    ensures Reduce(s, acc, m) == acc + Sum(s, m)
    decreases |s|
  {
    if |s| > 0 {
      ReduceIsSum(s[1..], acc + m(s[0]), m);
    }
  }

  /** Sums are additive over concatenation. */
  lemma {:induction false} SumConcat<T>(a: seq<T>, b: seq<T>, m: T -> int)
    ensures Sum(a + b, m) == Sum(a, m) + Sum(b, m)
    decreases |a|
  {
    if |a| == 0 {
      assert a + b == b;
    } else {
      assert (a + b)[1..] == a[1..] + b;
      SumConcat(a[1..], b, m);
    }
  }

  /** Summing the filtered elements is summing the elements that satisfy the filter. */
  lemma {:induction false} SumFilter<T(!new)>(s: seq<T>, p: T -> bool, m: T -> int)
    ensures Sum(Filter(s, p), m) == SumWhere(s, p, m)
    decreases |s|
  {
    if |s| > 0 {
      SumFilter(s[1..], p, m);
      if p(s[0]) {
        assert ([s[0]] + Filter(s[1..], p))[1..] == Filter(s[1..], p);
      }
    }
  }

  /** The length of a filtered list is the number of elements that satisfy the filter. */
  lemma {:induction false} FilterLength<T(!new)>(s: seq<T>, p: T -> bool)
    ensures |Filter(s, p)| == Count(s, p)
    decreases |s|
  {
    if |s| > 0 {
      FilterLength(s[1..], p);
    }
  }

  /** Replacing one element moves the count by what the old and new elements contribute. */
  lemma {:induction false} CountUpdate<T>(s: seq<T>, k: nat, x: T, p: T -> bool)
    requires k < |s|
    ensures Count(s[k := x], p) + (if p(s[k]) then 1 else 0) == Count(s, p) + (if p(x) then 1 else 0)
    decreases |s|
  {
    if k == 0 {
      assert s[k := x][1..] == s[1..];
    } else {
      CountUpdate(s[1..], k - 1, x, p);
      assert s[k := x][1..] == s[1..][k - 1 := x];
    }
  }

  /** The position of the first occurrence of `x` in `s`. */
  function FirstIndex<T(==)>(s: seq<T>, x: T): (r: nat)
    requires x in s
    ensures r < |s| && s[r] == x
    ensures forall k :: 0 <= k < r ==> s[k] != x
    decreases |s|
  {
    if s[0] == x then 0 else 1 + FirstIndex(s[1..], x)
  }

  /** The first occurrence of `x` inside a prefix is its first occurrence in the whole sequence. */
  lemma FirstIndexInPrefix<T>(s: seq<T>, n: nat, x: T)
    requires n <= |s| && x in s[..n]
    ensures FirstIndex(s, x) == FirstIndex(s[..n], x)
  {
    var i := FirstIndex(s[..n], x);
    var j := FirstIndex(s, x);
    assert s[i] == s[..n][i];
    assert j <= i;
    assert s[..n][j] == s[j];
  }
}
