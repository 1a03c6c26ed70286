/** Sums of lists of numbers. */
module Sums {

  function Sum(xs: seq<nat>): (n: nat)
  {
    if xs == [] then 0 else Sum(xs[..|xs| - 1]) + xs[|xs| - 1]
  }

  lemma {:induction false} SumUpdate(xs: seq<nat>, ys: seq<nat>, k: nat)
    requires k < |xs| == |ys| && forall j :: 0 <= j < |xs| && j != k ==> ys[j] == xs[j]
    ensures Sum(ys) + xs[k] == Sum(xs) + ys[k]
  {
    var n := |xs| - 1;
    if k == n {
      assert ys[..n] == xs[..n];
    } else {
      SumUpdate(xs[..n], ys[..n], k);
    }
  }

  lemma {:induction false} SumLess(xs: seq<nat>, ys: seq<nat>)
    requires |xs| == |ys| && forall j :: 0 <= j < |xs| ==> ys[j] <= xs[j]
    ensures Sum(ys) <= Sum(xs)
  {
    if xs != [] {
      SumLess(xs[..|xs| - 1], ys[..|xs| - 1]);
    }
  }

  lemma SumSnoc(xs: seq<nat>, x: nat)
    ensures Sum(xs + [x]) == Sum(xs) + x
  {
    assert (xs + [x])[..|xs|] == xs;
  }

  /** A smaller sum is smaller somewhere. */
  lemma {:induction false} SumDiffers(xs: seq<nat>, ys: seq<nat>) returns (k: nat)
    requires |xs| == |ys| && Sum(ys) < Sum(xs)
    ensures k < |xs| && ys[k] < xs[k]
  {
    var n := |xs| - 1;
    if ys[n] < xs[n] {
      k := n;
    } else {
      k := SumDiffers(xs[..n], ys[..n]);
    }
  }

  lemma {:induction false} SumZero(xs: seq<nat>)
    requires forall j :: 0 <= j < |xs| ==> xs[j] == 0
    ensures Sum(xs) == 0
  {
    if xs != [] {
      SumZero(xs[..|xs| - 1]);
    }
  }
}
