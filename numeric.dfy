// Integer arithmetic behind costs and the prestige formulas: powers,
// ceiling division, the 15% cost growth, integer square roots and
// integer base-10 logarithms.
module Numeric {

  function Pow(b: nat, n: nat): (r: nat)
    ensures b >= 1 ==> r >= 1
  {
    if n == 0 then 1 else b * Pow(b, n - 1)
  }

  lemma MulLeft(a: nat, b: nat, c: nat)
    requires a <= b
    ensures c * a <= c * b
  {}

  lemma MulRight(a: nat, b: nat, c: nat)
    requires a <= b
    ensures a * c <= b * c
  {}

  lemma {:induction false} PowMono(b: nat, m: nat, n: nat)
    requires b >= 1 && m <= n
    ensures Pow(b, m) <= Pow(b, n)
  {
    if m < n {
      PowMono(b, m, n - 1);
      MulRight(1, b, Pow(b, n - 1));
    }
  }

  /** A larger power has the larger exponent. */
  lemma PowInverse(b: nat, m: nat, n: nat)
    requires b >= 1 && Pow(b, m) > Pow(b, n)
    ensures m > n
  {
    if m <= n {
      PowMono(b, m, n);
    }
  }

  /** Smallest q with q * d >= a, i.e. ceil(a / d). */
  function CeilDiv(a: nat, d: nat): (q: nat)
    requires d > 0
    ensures q * d >= a && (q == 0 || (q - 1) * d < a)
  {
    (a + d - 1) / d
  }

  lemma CeilDivLeast(a: nat, d: nat, x: nat)
    requires d > 0 && x * d >= a
    ensures x >= CeilDiv(a, d)
  {
    var q := CeilDiv(a, d);
    if x < q {
      MulRight(x, q - 1, d);
    }
  }

  /** One purchase: Math.ceil(cost * 1.15), exact on integers. */
  function Grow(c: nat): (r: nat)
    ensures 100 * r >= 115 * c && 100 * r < 115 * c + 100
  {
    CeilDiv(115 * c, 100)
  }

  lemma GrowMono(a: nat, b: nat)
    requires a <= b
    ensures Grow(a) <= Grow(b)
  {}

  /** The cost after n purchases made one at a time from `base`. */
  function Ladder(base: nat, n: nat): nat
  {
    if n == 0 then base else Grow(Ladder(base, n - 1))
  }

  /** The cost recomputed from the count: Math.ceil(base * 1.15^n). */
  function Scaled(base: nat, n: nat): nat
  {
    CeilDiv(base * Pow(115, n), Pow(100, n))
  }

  /**
   * A cost c reached from `base` after n purchases lies between the
   * cost recomputed on load and the compounded one.
   */
  ghost predicate CostBounds(base: nat, n: nat, c: nat)
  {
    Scaled(base, n) <= c <= Ladder(base, n)
  }

  lemma ScaledAtZero(base: nat)
    ensures Scaled(base, 0) == base && Ladder(base, 0) == base
  {}

  /** A cost at or above the recomputed one dominates the exact product. */
  lemma AboveScaled(base: nat, n: nat, c: nat)
    requires Scaled(base, n) <= c
    ensures c * Pow(100, n) >= base * Pow(115, n)
  {
    MulRight(Scaled(base, n), c, Pow(100, n));
  }

  lemma GrowStep(c: nat, d: nat, t: nat)
    requires c * d >= t
    ensures Grow(c) * (100 * d) >= 115 * t
  {
    calc {
      Grow(c) * (100 * d);
      == (100 * Grow(c)) * d;
      >= { MulRight(115 * c, 100 * Grow(c), d); }
      (115 * c) * d;
      == 115 * (c * d);
      >= { MulLeft(t, c * d, 115); }
      115 * t;
    }
  }

  lemma PowStep(base: nat, n: nat)
    ensures Pow(100, n + 1) == 100 * Pow(100, n)
    ensures base * Pow(115, n + 1) == 115 * (base * Pow(115, n))
  {
    assert Pow(115, n + 1) == 115 * Pow(115, n);
  }

  /** Each purchase keeps the bounds: the compounding never drops below the exact product. */
  lemma GrowKeepsBounds(base: nat, n: nat, c: nat)
    requires CostBounds(base, n, c)
    ensures CostBounds(base, n + 1, Grow(c))
  {
    AboveScaled(base, n, c);
    GrowStep(c, Pow(100, n), base * Pow(115, n));
    PowStep(base, n);
    CeilDivLeast(base * Pow(115, n + 1), Pow(100, n + 1), Grow(c));
    GrowMono(c, Ladder(base, n));
  }

  lemma {:induction false} LadderBounds(base: nat, n: nat)
    ensures CostBounds(base, n, Ladder(base, n))
  {
    if n > 0 {
      LadderBounds(base, n - 1);
      GrowKeepsBounds(base, n - 1, Ladder(base, n - 1));
    }
  }

  /** The integer square root: r*r <= n < (r+1)*(r+1). */
  function FloorSqrt(n: nat): (r: nat)
    ensures r * r <= n < (r + 1) * (r + 1)
  {
    if n == 0 then 0
    else
      var p := FloorSqrt(n - 1);
      if (p + 1) * (p + 1) <= n then p + 1 else p
  }

  lemma SqrtUnique(n: nat, r: nat)
    requires r * r <= n < (r + 1) * (r + 1)
    ensures FloorSqrt(n) == r
  {
    var q := FloorSqrt(n);
    if q < r {
      MulLeft(q + 1, r, q + 1);
      MulRight(q + 1, r, r);
    } else if r < q {
      MulLeft(r + 1, q, r + 1);
      MulRight(r + 1, q, q);
    }
  }

  /** The integer base-10 logarithm: 10^r <= n < 10^(r+1). */
  function Log10Floor(n: nat): (r: nat)
    requires n >= 1
    ensures Pow(10, r) <= n < Pow(10, r + 1)
  {
    if n < 10 then 0 else 1 + Log10Floor(n / 10)
  }

  lemma LogUnique(n: nat, r: nat)
    requires n >= 1 && Pow(10, r) <= n < Pow(10, r + 1)
    ensures Log10Floor(n) == r
  {
    var q := Log10Floor(n);
    PowInverse(10, q + 1, r);
    PowInverse(10, r + 1, q);
  }

  lemma LogMono(a: nat, b: nat)
    requires 1 <= a <= b
    ensures Log10Floor(a) <= Log10Floor(b)
  {
    var p, q := Log10Floor(a), Log10Floor(b);
    PowInverse(10, q + 1, p);
  }
}
