/**
 Integer sums over sequences, and how one insertion or one update moves them. Every balance, usage and total
 of the model is such a sum, so that a proof about a whole run reduces to the weight of the rows one step touches.
 */
module Sums {
  function Sum<T>(xs: seq<T>, f: T -> int): int
  {
    if |xs| == 0 then 0 else Sum(xs[..|xs| - 1], f) + f(xs[|xs| - 1])
  }

  lemma SumSnoc<T>(xs: seq<T>, x: T, f: T -> int)
    ensures Sum(xs + [x], f) == Sum(xs, f) + f(x)
  {
    assert (xs + [x])[..|xs|] == xs;
  }

  lemma {:induction false} SumConcat<T>(xs: seq<T>, ys: seq<T>, f: T -> int)
    ensures Sum(xs + ys, f) == Sum(xs, f) + Sum(ys, f)
  {
    if |ys| == 0 {
      assert xs + ys == xs;
    } else {
      var init := ys[..|ys| - 1];
      SumConcat(xs, init, f);
      assert xs + ys == (xs + init) + [ys[|ys| - 1]];
      SumSnoc(xs + init, ys[|ys| - 1], f);
    }
  }

  lemma {:induction false} SumUpdate<T>(xs: seq<T>, i: nat, x: T, f: T -> int)
    requires i < |xs|
    ensures Sum(xs[i := x], f) == Sum(xs, f) - f(xs[i]) + f(x)
  {
    var n := |xs| - 1;
    if i == n {
      assert xs[i := x][..n] == xs[..n];
    } else {
      SumUpdate(xs[..n], i, x, f);
      assert xs[i := x][..n] == xs[..n][i := x];
    }
  }

  /** Two weights that agree everywhere but at position i. */
  lemma {:induction false} SumDiffersAt<T>(xs: seq<T>, i: nat, f: T -> int, g: T -> int)
    requires i < |xs|
    requires forall k :: 0 <= k < |xs| && k != i ==> f(xs[k]) == g(xs[k])
    ensures Sum(xs, g) == Sum(xs, f) - f(xs[i]) + g(xs[i])
  {
    var n := |xs| - 1;
    if i == n {
      SumCongruent(xs[..n], f, g);
    } else {
      SumDiffersAt(xs[..n], i, f, g);
    }
  }

  lemma {:induction false} SumCongruent<T>(xs: seq<T>, f: T -> int, g: T -> int)
    requires forall k :: 0 <= k < |xs| ==> f(xs[k]) == g(xs[k])
    ensures Sum(xs, f) == Sum(xs, g)
  {
    if |xs| > 0 {
      SumCongruent(xs[..|xs| - 1], f, g);
    }
  }

  lemma {:induction false} SumAtMost<T>(xs: seq<T>, f: T -> int, g: T -> int)
    requires forall k :: 0 <= k < |xs| ==> f(xs[k]) <= g(xs[k])
    ensures Sum(xs, f) <= Sum(xs, g)
  {
    if |xs| > 0 {
      SumAtMost(xs[..|xs| - 1], f, g);
    }
  }

  lemma {:induction false} SumOfZeros<T>(xs: seq<T>, f: T -> int)
    requires forall k :: 0 <= k < |xs| ==> f(xs[k]) == 0
    ensures Sum(xs, f) == 0
  {
    if |xs| > 0 {
      SumOfZeros(xs[..|xs| - 1], f);
    }
  }

  /** A sum of non-negative weights is at least each of them. */
  lemma {:induction false} SumBoundsMember<T>(xs: seq<T>, i: nat, f: T -> int)
    requires i < |xs|
    requires forall k :: 0 <= k < |xs| ==> f(xs[k]) >= 0
    ensures Sum(xs, f) >= f(xs[i])
  {
    var n := |xs| - 1;
    if i == n {
      SumNonNegative(xs[..n], f);
    } else {
      SumBoundsMember(xs[..n], i, f);
    }
  }

  lemma {:induction false} SumNonNegative<T>(xs: seq<T>, f: T -> int)
    requires forall k :: 0 <= k < |xs| ==> f(xs[k]) >= 0
    ensures Sum(xs, f) >= 0
  {
    if |xs| > 0 {
      SumNonNegative(xs[..|xs| - 1], f);
    }
  }

  /** A sum of sums is the sum of the pointwise sum. */
  lemma {:induction false} SumSplits<T>(xs: seq<T>, f: T -> int, g: T -> int, h: T -> int)
    requires forall k :: 0 <= k < |xs| ==> h(xs[k]) == f(xs[k]) + g(xs[k])
    ensures Sum(xs, h) == Sum(xs, f) + Sum(xs, g)
  {
    if |xs| > 0 {
      SumSplits(xs[..|xs| - 1], f, g, h);
    }
  }

  /** Two sequences that weigh the same position by position. */
  lemma {:induction false} SumPointwise<T>(xs: seq<T>, ys: seq<T>, f: T -> int)
    requires |xs| == |ys| && forall k :: 0 <= k < |xs| ==> f(xs[k]) == f(ys[k])
    ensures Sum(xs, f) == Sum(ys, f)
  {
    if |xs| > 0 {
      SumPointwise(xs[..|xs| - 1], ys[..|ys| - 1], f);
    }
  }

  lemma SumOfTwo<T>(x: T, y: T, f: T -> int)
    ensures Sum([x, y], f) == f(x) + f(y)
  {
    SumSnoc([], x, f);
    SumSnoc([x], y, f);
    assert [] + [x] == [x] && [x] + [y] == [x, y];
  }

  lemma SumOfThree<T>(x: T, y: T, z: T, f: T -> int)
    ensures Sum([x, y, z], f) == f(x) + f(y) + f(z)
  {
    SumOfTwo(x, y, f);
    SumSnoc([x, y], z, f);
    assert [x, y] + [z] == [x, y, z];
  }
}
