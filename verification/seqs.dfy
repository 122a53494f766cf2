/** Sequence helpers shared by the store model: a table scan with a WHERE predicate. */
module Seqs {

  /** The elements of `xs` satisfying `p`, in their original order. */
  function Filter<T(==,!new)>(xs: seq<T>, p: T -> bool): (r: seq<T>)
    ensures |r| <= |xs|
    ensures forall x :: x in r <==> x in xs && p(x)
    ensures forall x :: multiset(r)[x] == if p(x) then multiset(xs)[x] else 0
  {
    if |xs| == 0 then []
    else
      assert xs == [xs[0]] + xs[1..];
      if p(xs[0]) then [xs[0]] + Filter(xs[1..], p) else Filter(xs[1..], p)
  }

  /** A weaker predicate keeps at least as many elements. */
  lemma {:induction false} FilterWeaker<T(!new)>(xs: seq<T>, p: T -> bool, q: T -> bool)
    requires forall x :: p(x) ==> q(x)
    ensures |Filter(xs, p)| <= |Filter(xs, q)|
  {
    if |xs| > 0 {
      FilterWeaker(xs[1..], p, q);
    }
  }

  /** A predicate every element satisfies keeps the whole sequence. */
  lemma {:induction false} FilterKeepsAll<T(!new)>(xs: seq<T>, p: T -> bool)
    requires forall i :: 0 <= i < |xs| ==> p(xs[i])
    ensures Filter(xs, p) == xs
  {
    if |xs| > 0 {
      FilterKeepsAll(xs[1..], p);
    }
  }

  /** Predicates that agree on every element select the same elements. */
  lemma {:induction false} FilterSame<T(!new)>(xs: seq<T>, p: T -> bool, q: T -> bool)
    requires forall i :: 0 <= i < |xs| ==> p(xs[i]) == q(xs[i])
    ensures Filter(xs, p) == Filter(xs, q)
  {
    if |xs| > 0 {
      FilterSame(xs[1..], p, q);
    }
  }

  /** `[f(0), ..., f(n-1)]`, built by appending one element at a time. */
  function Tabulate<T>(f: nat -> T, n: nat): seq<T>
  {
    if n == 0 then [] else Tabulate(f, n - 1) + [f(n - 1)]
  }

  /** The k-th element of `Tabulate(f, n)` is `f(k)`. */
  lemma {:induction false} TabulateAt<T>(f: nat -> T, n: nat)
    ensures |Tabulate(f, n)| == n
    ensures forall k :: 0 <= k < n ==> Tabulate(f, n)[k] == f(k)
  {
    if n > 0 {
      TabulateAt(f, n - 1);
    }
  }
}
