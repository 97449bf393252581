/** Selecting part of a history. */
module Sequences {

  /** The elements of `xs` marked in `keep`, in order. */
  function Kept<T>(xs: seq<T>, keep: seq<bool>): (ys: seq<T>)
    requires |xs| == |keep|
  {
    if xs == [] then []
    else
      var n := |xs| - 1;
      Kept(xs[..n], keep[..n]) + (if keep[n] then [xs[n]] else [])
  }

  lemma KeptExtends<T>(xs: seq<T>, keep: seq<bool>)
    requires 0 < |xs| == |keep|
    ensures var n := |xs| - 1;
            Kept(xs, keep) == if keep[n] then Kept(xs[..n], keep[..n]) + [xs[n]] else Kept(xs[..n], keep[..n])
  {
  }

  /** What holds of every selected element holds of every element of the selection. */
  lemma {:induction false} KeptSatisfies<T>(xs: seq<T>, keep: seq<bool>, p: T -> bool)
    requires |xs| == |keep|
    requires forall i :: 0 <= i < |xs| && keep[i] ==> p(xs[i])
    ensures forall i :: 0 <= i < |Kept(xs, keep)| ==> p(Kept(xs, keep)[i])
  {
    if xs != [] {
      KeptSatisfies(xs[..|xs| - 1], keep[..|xs| - 1], p);
    }
  }

  /** `after` begins with all of `before`. */
  ghost predicate Extends<T(!new)>(before: seq<T>, after: seq<T>) {
    |before| <= |after| && forall i :: 0 <= i < |before| ==> after[i] == before[i]
  }

  // ---------------------------------------------------------------------------------------------
  // Totals over a sequence
  // ---------------------------------------------------------------------------------------------

  function Total<T>(xs: seq<T>, f: T -> int): int {
    if xs == [] then 0 else Total(xs[..|xs| - 1], f) + f(xs[|xs| - 1])
  }

  function Sum<T>(xs: seq<T>, f: T -> real): real {
    if xs == [] then 0.0 else Sum(xs[..|xs| - 1], f) + f(xs[|xs| - 1])
  }

  lemma TotalAppend<T>(xs: seq<T>, x: T, f: T -> int)
    ensures Total(xs + [x], f) == Total(xs, f) + f(x)
  {
    assert (xs + [x])[..|xs|] == xs;
  }

  lemma SumAppend<T>(xs: seq<T>, x: T, f: T -> real)
    ensures Sum(xs + [x], f) == Sum(xs, f) + f(x)
  {
    assert (xs + [x])[..|xs|] == xs;
  }

  lemma {:induction false} TotalUpdate<T>(xs: seq<T>, i: nat, x: T, f: T -> int)
    requires i < |xs|
    ensures Total(xs[i := x], f) == Total(xs, f) - f(xs[i]) + f(x)
  {
    var n := |xs| - 1;
    if i < n {
      TotalUpdate(xs[..n], i, x, f);
      assert xs[i := x][..n] == xs[..n][i := x];
    } else {
      assert xs[i := x][..n] == xs[..n];
    }
  }

  lemma {:induction false} SumUpdate<T>(xs: seq<T>, i: nat, x: T, f: T -> real)
    requires i < |xs|
    ensures Sum(xs[i := x], f) == Sum(xs, f) - f(xs[i]) + f(x)
  {
    var n := |xs| - 1;
    if i < n {
      SumUpdate(xs[..n], i, x, f);
      assert xs[i := x][..n] == xs[..n][i := x];
    } else {
      assert xs[i := x][..n] == xs[..n];
    }
  }
}
