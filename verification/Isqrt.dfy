/** Newton's integer square root and the threshold estimate built on it
    (apps/web/lib/server/issuance.ts). */
module Isqrt {

  const ILLUSTRATIVE_SOLD_FRACTION_BPS: nat := 8000

  ghost predicate IsRoot(r: int, n: int) {
    0 <= r && r * r <= n < (r + 1) * (r + 1)
  }

  /** One Newton step never falls below the root: 4(y+1)^2 >= (x+q+1)^2 >= 4x(q+1) > 4n. */
  lemma StepStaysAbove(n: nat, x: nat, y: nat)
    requires x > 0 && y == (x + n / x) / 2
    ensures n < (y + 1) * (y + 1) && (n > 0 ==> y > 0)
  {
    var q := n / x;
    Quotient(n, x);
    var s := x + q + 1;
    assert s <= 2 * (y + 1);
    Squares(s, 2 * (y + 1));
    assert (2 * (y + 1)) * (2 * (y + 1)) == 4 * ((y + 1) * (y + 1));
    MeanInequality(x, q + 1);
  }

  lemma Times(k: nat, a: int, b: int)
    requires a <= b
    ensures k * a <= k * b && a * k <= b * k
  {
  }

  lemma Squares(a: nat, b: nat)
    requires a <= b
    ensures a * a <= b * b
  {
    Times(a, a, b);
    Times(b, a, b);
  }

  lemma Quotient(n: nat, x: nat)
    requires x > 0
    ensures x * (n / x) <= n < x * (n / x + 1)
  {
  }

  lemma MeanInequality(a: int, b: int)
    ensures 4 * (a * b) <= (a + b) * (a + b)
  {
    var d := a - b;
    assert (a + b) * (a + b) == d * d + 4 * (a * b);
  }

  /** Where the step stops going down, the root is reached. */
  lemma StopsAtRoot(n: nat, x: nat)
    requires x > 0 && (x + n / x) / 2 >= x
    ensures x * x <= n
  {
    Quotient(n, x);
    Times(x, x, n / x);
  }

  /** `isqrt`. Below 2, negative numbers included, the argument comes back as it is. */
  method Isqrt(n: int) returns (r: int)
    ensures n >= 0 ==> IsRoot(r, n)
    ensures n < 2 ==> r == n
  {
    if n < 2 { return n; }
    var x := n;
    var y := (x + 1) / 2;
    assert n / n == 1;
    Times(n + 1, 1, n + 1);
    while y < x
      invariant x > 0 && y == (x + n / x) / 2
      invariant n < (x + 1) * (x + 1)
      decreases x
    {
      StepStaysAbove(n, x, y);
      x := y;
      y := (x + n / x) / 2;
    }
    StopsAtRoot(n, x);
    r := x;
  }

  /** There is only one root to return. */
  lemma RootIsUnique(r: int, s: int, n: int)
    requires IsRoot(r, n) && IsRoot(s, n)
    ensures r == s
  {
    if r < s { Squares(r + 1, s); }
    if s < r { Squares(s + 1, r); }
  }

  /** The root of a product lies between its factors. */
  lemma GeometricMean(low: nat, high: nat, r: int)
    requires low <= high && IsRoot(r, low * high)
    ensures low <= r <= high
  {
    Times(low, low, high);
    Times(high, low, high);
    if r < low { Squares(r + 1, low); }
    if high < r {
      Squares(high + 1, r);
      Times(high + 1, high, high + 1);
    }
  }

  /** The illustrative share of the geometric mean of the two market caps: it lies between that
      share of the starting cap and that share of the graduation cap. */
  method EstimatedThreshold(startingMarketCap: nat, graduationMarketCap: nat) returns (t: int)
    ensures startingMarketCap <= graduationMarketCap ==>
      && startingMarketCap * ILLUSTRATIVE_SOLD_FRACTION_BPS / 10_000 <= t
      && t <= graduationMarketCap * ILLUSTRATIVE_SOLD_FRACTION_BPS / 10_000
    ensures forall r :: IsRoot(r, startingMarketCap * graduationMarketCap) ==>
      t == r * ILLUSTRATIVE_SOLD_FRACTION_BPS / 10_000
  {
    var r := Isqrt(startingMarketCap * graduationMarketCap);
    if startingMarketCap <= graduationMarketCap {
      GeometricMean(startingMarketCap, graduationMarketCap, r);
    }
    forall s | IsRoot(s, startingMarketCap * graduationMarketCap) ensures s == r {
      RootIsUnique(r, s, startingMarketCap * graduationMarketCap);
    }
    t := r * ILLUSTRATIVE_SOLD_FRACTION_BPS / 10_000;
  }
}
