/** Sequence helpers standing for JavaScript's `Array.prototype.filter`
    and `slice(-n)`. */
module Seqs {

  /** The elements of `xs` that `keep` accepts, in their original order. */
  function Filter<T>(xs: seq<T>, keep: T -> bool): (r: seq<T>)
    ensures |r| <= |xs|
    ensures forall i :: 0 <= i < |r| ==> r[i] in xs && keep(r[i])
    ensures forall i :: 0 <= i < |xs| && keep(xs[i]) ==> xs[i] in r
    decreases |xs|
  {
    if xs == [] then []
    else (if keep(xs[0]) then [xs[0]] else []) + Filter(xs[1..], keep)
  }

  /** Filtering a concatenation filters each part. */
  lemma {:induction false} FilterAppend<T>(a: seq<T>, b: seq<T>, keep: T -> bool)
    ensures Filter(a + b, keep) == Filter(a, keep) + Filter(b, keep)
    decreases |a|
  {
    if a == [] {
      assert a + b == b;
    } else {
      assert (a + b)[1..] == a[1..] + b;
      FilterAppend(a[1..], b, keep);
    }
  }

  /** A filter that accepts every element is the identity. */
  lemma {:induction false} FilterKeepsAll<T>(xs: seq<T>, keep: T -> bool)
    requires forall i :: 0 <= i < |xs| ==> keep(xs[i])
    ensures Filter(xs, keep) == xs
    decreases |xs|
  {
    if xs != [] {
      FilterKeepsAll(xs[1..], keep);
    }
  }

  /** How many elements of `xs` satisfy `p`. */
  function Count<T>(xs: seq<T>, p: T -> bool): (n: nat)
    ensures n <= |xs|
    decreases |xs|
  {
    if xs == [] then 0 else (if p(xs[0]) then 1 else 0) + Count(xs[1..], p)
  }

  lemma {:induction false} CountAppend<T>(a: seq<T>, b: seq<T>, p: T -> bool)
    ensures Count(a + b, p) == Count(a, p) + Count(b, p)
    decreases |a|
  {
    if a == [] {
      assert a + b == b;
    } else {
      assert (a + b)[1..] == a[1..] + b;
      CountAppend(a[1..], b, p);
    }
  }

  /** After filtering out everything `p` accepts, nothing counted by `p` is left. */
  lemma {:induction false} CountFilteredOut<T>(xs: seq<T>, p: T -> bool, keep: T -> bool)
    requires forall x :: keep(x) ==> !p(x)
    ensures Count(Filter(xs, keep), p) == 0
    decreases |xs|
  {
    if xs != [] {
      CountFilteredOut(xs[1..], p, keep);
      CountAppend(if keep(xs[0]) then [xs[0]] else [], Filter(xs[1..], keep), p);
    }
  }

  /** Filtering by `keep` leaves the count of a predicate that implies `keep` unchanged. */
  lemma {:induction false} CountFilterKept<T>(xs: seq<T>, p: T -> bool, keep: T -> bool)
    requires forall x :: p(x) ==> keep(x)
    ensures Count(Filter(xs, keep), p) == Count(xs, p)
    decreases |xs|
  {
    if xs != [] {
      CountFilterKept(xs[1..], p, keep);
      CountAppend(if keep(xs[0]) then [xs[0]] else [], Filter(xs[1..], keep), p);
    }
  }

  /** `xs.slice(-n)` for a positive `n`: the last `n` elements, or all of them. */
  function LastN<T>(xs: seq<T>, n: nat): (r: seq<T>)
    requires n > 0
    ensures |r| == if |xs| < n then |xs| else n
    ensures r == xs[|xs| - |r|..]
  {
    if |xs| <= n then xs else xs[|xs| - n..]
  }
}
