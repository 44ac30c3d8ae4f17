/**
  Binary floating-point formats as integers.  A magnitude is given by its bit pattern; its value is
  counted in units of the format's smallest subnormal number.  `unit` is the weight of the implicit
  leading bit: 2^10 for binary16, 2^23 for binary32.
 */
module Floats {
  import opened Arithmetic

  function Pow2(k: nat): (p: nat)
    ensures p >= 1
  {
    if k == 0 then 1 else 2 * Pow2(k - 1)
  }

  lemma {:induction false} Pow2Add(a: nat, b: nat)
    ensures Pow2(a + b) == Pow2(a) * Pow2(b)
  {
    if a > 0 { Pow2Add(a - 1, b); }
  }

  lemma {:induction false} Pow2Monotone(a: nat, b: nat)
    requires a <= b
    ensures Pow2(a) <= Pow2(b)
  {
    if a < b { Pow2Monotone(a, b - 1); }
  }

  /** A larger power has a larger exponent. */
  lemma {:induction false} Pow2Larger(a: nat, b: nat)
    requires Pow2(a) < Pow2(b)
    ensures a < b
  {
    if b <= a { Pow2Monotone(b, a); }
  }

  function Exponent(unit: nat, i: nat): nat
    requires unit > 0
  {
    if i < unit then 0 else i / unit - 1
  }

  function Significand(unit: nat, i: nat): nat
    requires unit > 0
  {
    if i < unit then i else unit + i % unit
  }

  /** The value of the bit pattern `i`. */
  function Val(unit: nat, i: nat): nat
    requires unit > 0
  {
    Significand(unit, i) * Pow2(Exponent(unit, i))
  }

  /** The value at a given exponent and fraction. */
  lemma {:induction false} ValAt(unit: nat, e: nat, f: nat)
    requires e >= 1 && f < unit
    ensures unit * e + f >= unit && Val(unit, unit * e + f) == (unit + f) * Pow2(e - 1)
      && Exponent(unit, unit * e + f) == e - 1
  {
    DivMod(unit, e, f);
    assert unit * e >= unit;
  }

  lemma {:induction false} GapInside(unit: nat, e: nat, f: nat)
    requires e >= 1 && f + 1 < unit
    ensures Val(unit, unit * e + (f + 1)) == Val(unit, unit * e + f) + Pow2(Exponent(unit, unit * e + f))
  {
    ValAt(unit, e, f);
    ValAt(unit, e, f + 1);
    hide Val, Exponent;
    GapWithin(unit + f, Pow2(e - 1));
  }

  lemma {:induction false} GapAtEnd(unit: nat, e: nat, f: nat)
    requires e >= 1 && f + 1 == unit
    ensures Val(unit, unit * (e + 1) + 0) == Val(unit, unit * e + f) + Pow2(Exponent(unit, unit * e + f))
  {
    ValAt(unit, e, f);
    ValAt(unit, e + 1, 0);
    hide Val, Exponent;
    GapAcross(unit, f, Pow2(e - 1), Pow2(e));
  }

  lemma {:induction false} GapSubnormal(unit: nat, i: nat)
    requires i < unit
    ensures Val(unit, i + 1) == Val(unit, i) + Pow2(Exponent(unit, i))
  {
    if i + 1 == unit { DivMod(unit, 1, 0); }
  }

  lemma {:induction false} AboveOne(unit: nat, i: nat)
    requires unit > 0 && i >= unit
    ensures i / unit >= 1 && i == unit * (i / unit) + i % unit && i % unit < unit
  {
  }

  lemma {:induction false} NextMultiple(unit: nat, e: nat, f: nat)
    requires f + 1 == unit
    ensures unit * e + f + 1 == unit * (e + 1) + 0
  {
  }

  /** Neighbours differ by the weight of the last place. */
  lemma {:induction false} Gap(unit: nat, i: nat)
    requires unit > 0
    ensures Val(unit, i + 1) == Val(unit, i) + Pow2(Exponent(unit, i))
  {
    hide Val, Exponent;
    if i < unit {
      GapSubnormal(unit, i);
    } else {
      AboveOne(unit, i);
      var e, f := i / unit, i % unit;
      if f + 1 < unit {
        GapInside(unit, e, f);
      } else {
        NextMultiple(unit, e, f);
        GapAtEnd(unit, e, f);
      }
    }
  }

  lemma {:induction false} GapWithin(s: nat, p: nat)
    ensures (s + 1) * p == s * p + p
  {
  }

  lemma {:induction false} GapAcross(unit: nat, f: nat, p: nat, q: nat)
    requires f + 1 == unit && q == 2 * p
    ensures unit * q == (unit + f) * p + p
  {
    assert (unit + f) * p + p == (unit + f + 1) * p == 2 * unit * p;
    assert unit * q == unit * (2 * p);
  }

  /** The value of the pattern i, counted in units 2^g times smaller. */
  function Scaled(unit: nat, i: nat, g: nat): nat
    requires unit > 0
  {
    Val(unit, i) * Pow2(g)
  }

  lemma {:induction false} ValMonotone(unit: nat, i: nat, j: nat)
    requires unit > 0 && i <= j
    ensures Val(unit, i) + (j - i) <= Val(unit, j)
  {
    if i < j {
      ValMonotone(unit, i, j - 1);
      Gap(unit, j - 1);
    }
  }

  lemma {:induction false} ScaledMonotone(unit: nat, i: nat, j: nat, g: nat)
    requires unit > 0 && i <= j
    ensures Scaled(unit, i, g) <= Scaled(unit, j, g)
    ensures i < j ==> Scaled(unit, i, g) < Scaled(unit, j, g)
  {
    if i < j {
      ValMonotone(unit, i, j);
      ProductLess(Pow2(g), Val(unit, i), Val(unit, j));
    }
  }

  /** Twice the midpoint between the numbers with patterns i and i + 1. */
  function Middle(unit: nat, i: nat, g: nat): nat
    requires unit > 0
  {
    Scaled(unit, i, g) + Scaled(unit, i + 1, g)
  }

  // ---------------------------------------------------------------------
  // Rounding
  // ---------------------------------------------------------------------

  /** `u` is z / 2^g rounded to nearest, ties to even; from the pattern `inf` on numbers overflow. */
  ghost predicate Rounded(unit: nat, inf: nat, z: nat, g: nat, u: nat)
    requires unit > 0
  {
    && u <= inf
    && (u > 0 ==> Below(Middle(unit, u - 1, g), 2 * z, u % 2 == 0))
    && (u < inf ==> Below(2 * z, Middle(unit, u, g), u % 2 == 0))
  }

  /** a < b, or a == b if ties are allowed. */
  predicate Below(a: nat, b: nat, ties: bool) {
    a < b || (ties && a == b)
  }

  function Distance(a: nat, b: nat): nat {
    if a <= b then b - a else a - b
  }

  /** The meaning of rounding: no number of the format is nearer, and at equal distance the even one is taken. */
  lemma {:induction false} RoundedNearest(unit: nat, inf: nat, z: nat, g: nat, u: nat, i: nat)
    requires unit > 0 && Rounded(unit, inf, z, g, u) && u < inf && i < inf && i != u
    ensures Distance(z, Scaled(unit, u, g)) <= Distance(z, Scaled(unit, i, g))
    ensures Distance(z, Scaled(unit, u, g)) == Distance(z, Scaled(unit, i, g)) ==> u % 2 == 0
  {
    hide Scaled;
    if i < u {
      ScaledMonotone(unit, i, u, g);
      ScaledMonotone(unit, i, u - 1, g);
    } else {
      ScaledMonotone(unit, u, i, g);
      ScaledMonotone(unit, u + 1, i, g);
    }
  }

  /** There is only one way to round. */
  lemma {:induction false} RoundedUnique(unit: nat, inf: nat, z: nat, g: nat, u: nat, v: nat)
    requires unit > 0 && Rounded(unit, inf, z, g, u) && Rounded(unit, inf, z, g, v)
    ensures u == v
  {
    RoundedOrder(unit, inf, z, g, u, v);
    RoundedOrder(unit, inf, z, g, v, u);
  }

  lemma {:induction false} RoundedOrder(unit: nat, inf: nat, z: nat, g: nat, u: nat, v: nat)
    requires unit > 0 && Rounded(unit, inf, z, g, u) && Rounded(unit, inf, z, g, v)
    ensures v <= u
  {
    hide Scaled;
    if u < v {
      ScaledMonotone(unit, u, v - 1, g);
      ScaledMonotone(unit, u + 1, v, g);
    }
  }

  /** Rounding down or up from the neighbour below, by the usual rule. */
  lemma {:induction false} RoundFrom(unit: nat, inf: nat, z: nat, g: nat, u: nat, up: bool)
    requires unit > 0 && u < inf
    requires Scaled(unit, u, g) <= z < Scaled(unit, u + 1, g)
    requires up <==> 2 * z > Middle(unit, u, g) || (2 * z == Middle(unit, u, g) && u % 2 == 1)
    ensures Rounded(unit, inf, z, g, if up then u + 1 else u)
  {
    hide Scaled;
    ScaledMonotone(unit, u + 1, u + 2, g);
    if u > 0 { ScaledMonotone(unit, u - 1, u, g); }
  }
}
