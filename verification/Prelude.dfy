/** Small shared vocabulary: optional values, results, and a few sequence functions. */
module Prelude {
  datatype Option<+T> = None | Some(value: T)

  datatype Result<+T, +E> = Success(value: T) | Failure(error: E)

  function Map<A, B>(f: A -> B, xs: seq<A>): (ys: seq<B>)
    ensures |ys| == |xs|
    ensures forall i :: 0 <= i < |xs| ==> ys[i] == f(xs[i])
  {
    seq(|xs|, i requires 0 <= i < |xs| => f(xs[i]))
  }

  /** The subsequence of `xs` satisfying `p`, in order. */
  function Filter<A(!new)>(p: A -> bool, xs: seq<A>): (ys: seq<A>)
    ensures forall x :: x in ys <==> x in xs && p(x)
    ensures |ys| <= |xs|
  {
    if |xs| == 0 then []
    else
      var front := Filter(p, xs[..|xs| - 1]);
      if p(xs[|xs| - 1]) then front + [xs[|xs| - 1]] else front
  }

  lemma {:induction false} FilterConcat<A(!new)>(p: A -> bool, xs: seq<A>, ys: seq<A>)
    ensures Filter(p, xs + ys) == Filter(p, xs) + Filter(p, ys)
  {
    if |ys| == 0 {
      assert xs + ys == xs;
    } else {
      assert (xs + ys)[..|xs + ys| - 1] == xs + ys[..|ys| - 1];
      FilterConcat(p, xs, ys[..|ys| - 1]);
    }
  }

  ghost predicate Distinct<A>(xs: seq<A>) {
    forall i, j :: 0 <= i < j < |xs| ==> xs[i] != xs[j]
  }

  /** A page of `xs`: skip `offset` elements, then take at most `limit`. */
  function Page<A>(xs: seq<A>, limit: nat, offset: nat): (page: seq<A>)
  {
    var rest := if offset <= |xs| then xs[offset..] else [];
    if limit <= |rest| then rest[..limit] else rest
  }

  /** A page holds the elements from `offset` on, as many as there are up to `limit`, in order. */
  lemma PageHolds<A>(xs: seq<A>, limit: nat, offset: nat)
    ensures var page := Page(xs, limit, offset);
            && |page| == Min(limit, if offset <= |xs| then |xs| - offset else 0)
            && forall i :: 0 <= i < |page| ==> offset + i < |xs| && page[i] == xs[offset + i]
  {
  }

  function Min(a: nat, b: nat): nat {
    if a <= b then a else b
  }

  function Sum(xs: seq<nat>): nat {
    if |xs| == 0 then 0 else Sum(xs[..|xs| - 1]) + xs[|xs| - 1]
  }

  /** A sequence without repetitions has as many elements as the set of its elements. */
  lemma {:induction false} DistinctCardinality<A>(xs: seq<A>)
    requires Distinct(xs)
    ensures |set x | x in xs| == |xs|
  {
    if |xs| > 0 {
      var front := xs[..|xs| - 1];
      DistinctCardinality(front);
      assert (set x | x in xs) == (set x | x in front) + {xs[|xs| - 1]};
    }
  }
}
