/** Sequence helpers shared by the storefront model: the optional value the
    source expresses with `null`, and the two array methods the source
    relies on, `Array.prototype.filter` and a summing `Array.prototype.reduce`. */
module Prelude {

  datatype Option<T> = None | Some(value: T)

  /** No element occurs twice. */
  predicate NoDup<T(==)>(s: seq<T>)
  {
    forall i, j :: 0 <= i < j < |s| ==> s[i] != s[j]
  }

  /** `r` is `s` with some elements deleted, the rest kept in their order. */
  predicate IsSubsequence<T(==)>(r: seq<T>, s: seq<T>)
    decreases |s|
  {
    r == [] || (s != [] && ((r[0] == s[0] && IsSubsequence(r[1..], s[1..])) || IsSubsequence(r, s[1..])))
  }

  /** `s.filter(keep)`: the elements of `s` that satisfy `keep`, in order. */
  function Filter<T(==,!new)>(s: seq<T>, keep: T -> bool): (r: seq<T>)
    ensures forall x :: x in r <==> x in s && keep(x)
    ensures IsSubsequence(r, s)
    ensures |r| <= |s|
    ensures NoDup(s) ==> NoDup(r)
    ensures (forall x :: x in s ==> keep(x)) ==> r == s
  {
    if s == [] then []
    else
      var rest := Filter(s[1..], keep);
      assert forall x :: x in s[1..] ==> x in s;
      if keep(s[0]) then [s[0]] + rest else rest
  }

  /** `filter` keeps every copy of a kept element and no copy of a dropped one. */
  lemma {:induction false} FilterCounts<T(!new)>(s: seq<T>, keep: T -> bool)
    ensures forall x :: multiset(Filter(s, keep))[x] == if keep(x) then multiset(s)[x] else 0
    decreases |s|
  {
    if s != [] {
      FilterCounts(s[1..], keep);
      assert s == [s[0]] + s[1..];
    }
  }

  /** Filtering a sequence with one more element at its end. */
  lemma {:induction false} FilterAppend<T(!new)>(s: seq<T>, x: T, keep: T -> bool)
    ensures Filter(s + [x], keep) == Filter(s, keep) + (if keep(x) then [x] else [])
  {
    if s == [] {
      assert s + [x] == [x];
    } else {
      assert (s + [x])[1..] == s[1..] + [x];
      FilterAppend(s[1..], x, keep);
    }
  }

  /** `xs.reduce((sum, x) => sum + f(x), acc)`: the left fold the source writes. */
  function Reduce<T>(acc: int, xs: seq<T>, f: T -> int): (r: int)
    decreases |xs|
  {
    if xs == [] then acc else Reduce(acc + f(xs[0]), xs[1..], f)
  }

  /** The reference sum Σ f(x) over `xs`, built from the last element back. */
  function SumOf<T>(xs: seq<T>, f: T -> int): (r: int)
    decreases |xs|
  {
    if xs == [] then 0 else SumOf(xs[..|xs| - 1], f) + f(xs[|xs| - 1])
  }

  /** Σ splits off the first element as well as the last. */
  lemma {:induction false} SumOfCons<T>(xs: seq<T>, f: T -> int)
    requires xs != []
    ensures SumOf(xs, f) == f(xs[0]) + SumOf(xs[1..], f)
    decreases |xs|
  {
    if |xs| > 1 {
      var init := xs[..|xs| - 1];
      SumOfCons(init, f);
      assert init[1..] == xs[1..][..|xs[1..]| - 1];
    }
  }

  /** The source's left fold computes the reference sum, offset by its seed. */
  lemma {:induction false} ReduceIsSumOf<T>(acc: int, xs: seq<T>, f: T -> int)
    ensures Reduce(acc, xs, f) == acc + SumOf(xs, f)
    decreases |xs|
  {
    if xs != [] {
      ReduceIsSumOf(acc + f(xs[0]), xs[1..], f);
      SumOfCons(xs, f);
    }
  }

  /** Σ over a sequence with one more element at its end. */
  lemma SumOfAppend<T>(xs: seq<T>, x: T, f: T -> int)
    ensures SumOf(xs + [x], f) == SumOf(xs, f) + f(x)
  {
    assert (xs + [x])[..|xs|] == xs;
  }

  /** Σ of non-negative terms is non-negative. */
  lemma {:induction false} SumOfNonNegative<T>(xs: seq<T>, f: T -> int)
    requires forall i :: 0 <= i < |xs| ==> f(xs[i]) >= 0
    ensures SumOf(xs, f) >= 0
    decreases |xs|
  {
    if xs != [] {
      SumOfNonNegative(xs[..|xs| - 1], f);
    }
  }
}
