/** `xs.reduce((s, x) => s + f(x), 0n)`. */
module Sums {

  function Sum<T>(xs: seq<T>, f: T -> int): int {
    if xs == [] then 0 else Sum(xs[..|xs| - 1], f) + f(xs[|xs| - 1])
  }

  lemma {:induction false} SumConcat<T>(xs: seq<T>, ys: seq<T>, f: T -> int)
    ensures Sum(xs + ys, f) == Sum(xs, f) + Sum(ys, f)
  {
    if ys == [] {
      assert xs + ys == xs;
    } else {
      var k := |ys| - 1;
      SumConcat(xs, ys[..k], f);
      assert (xs + ys)[..|xs + ys| - 1] == xs + ys[..k];
    }
  }

  lemma SumOne<T>(x: T, f: T -> int)
    ensures Sum([x], f) == f(x)
  {
    assert [x][..0] == [];
  }

  /** Taking one item out of the middle. */
  lemma SumWithout<T>(xs: seq<T>, i: nat, f: T -> int)
    requires i < |xs|
    ensures Sum(xs, f) == Sum(xs[..i] + xs[i + 1..], f) + f(xs[i])
    ensures multiset(xs[..i] + xs[i + 1..]) == multiset(xs) - multiset{xs[i]}
  {
    hide Sum;
    assert xs == xs[..i] + ([xs[i]] + xs[i + 1..]);
    SumConcat(xs[..i], [xs[i]] + xs[i + 1..], f);
    SumConcat([xs[i]], xs[i + 1..], f);
    SumOne(xs[i], f);
    SumConcat(xs[..i], xs[i + 1..], f);
  }

  /** A sum does not depend on the order of its terms. */
  lemma {:induction false} SumPermutation<T>(xs: seq<T>, ys: seq<T>, f: T -> int)
    requires multiset(xs) == multiset(ys)
    ensures Sum(xs, f) == Sum(ys, f)
    decreases |xs|
  {
    assert |multiset(xs)| == |multiset(ys)|;
    if xs != [] {
      var k := |xs| - 1;
      assert xs == xs[..k] + [xs[k]];
      assert xs[k] in multiset(ys);
      var i :| 0 <= i < |ys| && ys[i] == xs[k];
      SumWithout(ys, i, f);
      SumPermutation(xs[..k], ys[..i] + ys[i + 1..], f);
    }
  }

  /** Replacing one term. */
  lemma SumUpdate<T>(xs: seq<T>, i: nat, x: T, f: T -> int)
    requires i < |xs|
    ensures Sum(xs[i := x], f) == Sum(xs, f) - f(xs[i]) + f(x)
  {
    SumWithout(xs, i, f);
    SumWithout(xs[i := x], i, f);
    assert xs[i := x][..i] == xs[..i] && xs[i := x][i + 1..] == xs[i + 1..];
  }

  lemma {:induction false} SumNonNegative<T>(xs: seq<T>, f: T -> int)
    requires forall x :: x in xs ==> f(x) >= 0
    ensures Sum(xs, f) >= 0
  {
    if xs != [] { SumNonNegative(xs[..|xs| - 1], f); }
  }
}
