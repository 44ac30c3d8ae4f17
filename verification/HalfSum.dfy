/**
  Sums of binary16 arrays through binary32.  The binary32 addition is the correctly rounded one, so
  a sum is rounded twice; for binary16 operands that does no harm.
 */
module HalfSum {
  import opened Arithmetic
  import opened Floats
  import opened Half

  // ---------------------------------------------------------------------
  // Binary32 addition
  // ---------------------------------------------------------------------

  /** Digits by which `m` exceeds a significand below 2 * unit. */
  function Excess(unit: nat, m: nat): (k: nat)
    requires unit > 0
    ensures m < 2 * (unit * Pow2(k))
    ensures k > 0 ==> unit * Pow2(k) <= m
    decreases m
  {
    if m < 2 * unit then 0
    else
      var k := Excess(unit, m / 2);
      DoubleUnit(unit, k);
      if k > 0 then 1 + k else 1
  }

  lemma {:induction false} DoubleUnit(unit: nat, k: nat)
    ensures unit * Pow2(k + 1) == 2 * (unit * Pow2(k))
    ensures unit * Pow2(0) == unit
  {
    assert Pow2(k + 1) == 2 * Pow2(k);
  }

  /** The pattern nearest to `m` units, on a tie the even one. */
  function RoundInt(unit: nat, m: nat): nat
    requires unit > 0
  {
    var k := Excess(unit, m);
    var p := Pow2(k);
    var u := unit * k + Quotient(m, p);
    if 2 * (m % p) > p || (2 * (m % p) == p && u % 2 == 1) then u + 1 else u
  }

  function Minimum(a: nat, b: nat): nat { if a < b then a else b }

  const FLOAT_NAN := 0x7fc0_0000

  /** The number a finite pattern stands for. */
  function SignedVal(x: nat): int {
    if x / FLOAT_SIGN % 2 == 1 then 0 - FloatVal(x % FLOAT_SIGN) else FloatVal(x % FLOAT_SIGN)
  }

  function Magnitude(z: int): nat { if z < 0 then -z else z }

  /** Sums are negative below zero, and at zero if both operands carry the sign. */
  predicate NegativeSum(z: int, bothNegative: bool) { z < 0 || (z == 0 && bothNegative) }

  function AddFloats(x: nat, y: nat): nat {
    var a, b := x % FLOAT_SIGN, y % FLOAT_SIGN;
    if a > FLOAT_INF || b > FLOAT_INF then FLOAT_NAN
    else if a == FLOAT_INF then (if b == FLOAT_INF && x != y then FLOAT_NAN else x)
    else if b == FLOAT_INF then y
    else
      var z := SignedVal(x) + SignedVal(y);
      (if NegativeSum(z, x >= FLOAT_SIGN && y >= FLOAT_SIGN) then FLOAT_SIGN else 0)
        + Minimum(RoundInt(FLOAT_UNIT, Magnitude(z)), FLOAT_INF)
  }

  /** Patterns of the form unit * k + q stand for multiples of 2^k. */
  lemma {:induction false} Neighbours(unit: nat, k: nat, q: nat)
    requires q < 2 * unit && (k > 0 ==> unit <= q)
    ensures Val(unit, unit * k + q) == q * Pow2(k) && Val(unit, unit * k + q + 1) == (q + 1) * Pow2(k)
  {
    hide Val, Pow2, Exponent;
    var u := unit * k + q;
    Gap(unit, u);
    NextSignificand(q, Pow2(k));
    if k > 0 {
      assert unit * (k + 1) + (q - unit) == u;
      Pattern(unit, k + 1, q - unit);
    } else {
      LowPattern(unit, q);
    }
  }

  lemma {:induction false} Divides(m: nat, p: nat)
    requires p >= 1
    ensures m == p * Quotient(m, p) + m % p && m % p < p
  {
  }

  /** Below 2 * unit a pattern is its own value. */
  lemma {:induction false} LowPattern(unit: nat, i: nat)
    requires i < 2 * unit
    ensures Exponent(unit, i) == 0 && Val(unit, i) == i && Pow2(0) == 1
  {
    assert Pow2(0) == 1;
    if i >= unit { Pattern(unit, 1, i - unit); }
  }

  lemma {:induction false} QuotientBound(unit: nat, p: nat, q: nat, m: nat)
    requires p >= 1 && p * q <= m < p * q + p && m < 2 * (unit * p)
    ensures q < 2 * unit
    ensures unit * p <= m ==> unit <= q
  {
    if q >= 2 * unit { Mono(p, 2 * unit, q); }
    if q < unit { Spread(p, q, unit); }
  }

  /** The division behind rounding: quotient, remainder and the neighbours' values. */
  lemma {:induction false} RoundIntParts(unit: nat, m: nat) returns (k: nat, p: nat, q: nat, r: nat)
    requires unit > 0
    ensures k == Excess(unit, m) && p == Pow2(k) && q == Quotient(m, p) && r == m % p
    ensures m == q * p + r && r < p && q < 2 * unit && (k > 0 ==> unit <= q)
    ensures Val(unit, unit * k + q) == q * p && Val(unit, unit * k + q + 1) == q * p + p
  {
    hide Val, Quotient;
    k := Excess(unit, m);
    p := Pow2(k);
    hide Pow2, Excess;
    q, r := Quotient(m, p), m % p;
    Divides(m, p);
    QuotientBound(unit, p, q, m);
    Neighbours(unit, k, q);
    NextSignificand(q, p);
  }

  /** Binary32 addition rounds to nearest, ties to even, and overflows to infinity. */
  lemma {:induction false} RoundIntRounded(unit: nat, inf: nat, m: nat)
    requires unit > 0
    ensures Rounded(unit, inf, m, 0, Minimum(RoundInt(unit, m), inf))
  {
    var k, p, q, r := RoundIntParts(unit, m);
    var u := unit * k + q;
    Unscaled(unit, u);
    Unscaled(unit, u + 1);
    hide Val, Pow2, Scaled, Excess, Quotient;
    if u < inf {
      RoundFrom(unit, inf, m, 0, u, 2 * r > p || (2 * r == p && u % 2 == 1));
    } else {
      ScaledMonotone(unit, inf, u, 0);
      if inf > 0 { ScaledMonotone(unit, inf - 1, inf, 0); }
    }
  }

  lemma {:induction false} Unscaled(unit: nat, i: nat)
    requires unit > 0
    ensures Scaled(unit, i, 0) == Val(unit, i)
  {
    assert Pow2(0) == 1;
  }

  // ---------------------------------------------------------------------
  // Rounding twice
  // ---------------------------------------------------------------------

  /** A binary16 number is a short significand times a power of two. */
  lemma {:induction false} HalfParts(i: nat) returns (s: nat, e: nat)
    ensures s < 2048 && HalfVal(i) == s * Pow2(e) && e == Exponent(HALF_UNIT, i)
  {
    s, e := Significand(HALF_UNIT, i), Exponent(HALF_UNIT, i);
  }

  /** A short significand times a power of two that reaches n is a multiple of every much smaller power. */
  lemma {:induction false} Multiple(s: nat, e: nat, k: nat, j: nat, bound: nat) returns (c: nat)
    requires bound >= 1 && s < bound && s * Pow2(e) >= bound * Pow2(j) && j + 1 == k
    ensures s * Pow2(e) == c * Pow2(k)
  {
    if Pow2(e) <= Pow2(j) {
      Mono(s, Pow2(e), Pow2(j));
      ProductLess(Pow2(j), s, bound);
      assert false;
    }
    Pow2Larger(j, e);
    Pow2Add(e - k, k);
    c := s * Pow2(e - k);
    Assoc(s, Pow2(e - k), Pow2(k));
  }

  /** What rounding to binary32 does to n, in units of the smallest binary16 number: it stays where it is,
      or moves by less than 2^k to a multiple of 2^k. */
  ghost predicate Moves(n: nat, t: nat, k: nat) {
    && FLOAT_UNIT * Pow2(k) <= n < 2 * FLOAT_UNIT * Pow2(k)
    && FLOAT_UNIT * Pow2(k) <= t <= 2 * FLOAT_UNIT * Pow2(k)
    && Distance(n, t) < Pow2(k)
    && (n % Pow2(k) == 0 ==> t == n)
  }

  /** The midpoints of binary16 near n are multiples of 2^(k+12), and no binary16 number is among them. */
  lemma {:induction false} MiddleMultiple(i: nat, k: nat) returns (c: nat)
    requires Middle(HALF_UNIT, i, 0) >= 2 * FLOAT_UNIT * Pow2(k)
    ensures Middle(HALF_UNIT, i, 0) == c * Pow2(k + 13)
  {
    var s, e := HalfParts(i);
    Gap(HALF_UNIT, i);
    Unscaled(HALF_UNIT, i);
    Unscaled(HALF_UNIT, i + 1);
    hide Val, Scaled;
    OddHalf(s, Pow2(e));
    assert Middle(HALF_UNIT, i, 0) == (2 * s + 1) * Pow2(e);
    TwelveMore(k);
    c := Multiple(2 * s + 1, e, k + 13, k + 12, 4096);
  }

  lemma {:induction false} OddHalf(s: nat, p: nat)
    ensures s * p + (s * p + p) == (2 * s + 1) * p
  {
  }

  lemma {:induction false} TwelveMore(k: nat)
    ensures Pow2(k + 12) == 4096 * Pow2(k) && Pow2(k + 11) == 2048 * Pow2(k) && Pow2(k + 13) == 8192 * Pow2(k)
  {
    Pow2Add(12, k);
    Pow2Add(11, k);
    Pow2Add(13, k);
    assert Pow2(11) == 2048;
    assert Pow2(12) == 4096;
    assert Pow2(13) == 8192;
  }

  /** The operands of a sum or difference n that is rounded to a multiple of 2^k. */
  ghost predicate Operands(a: nat, b: nat, n: nat, t: nat, k: nat) {
    HalfVal(b) <= HalfVal(a) && Moves(n, t, k) && (n == HalfVal(a) + HalfVal(b) || n == HalfVal(a) - HalfVal(b))
  }

  /** The larger operand is a multiple of 2^(k+12). */
  lemma {:induction false} LargerOperand(a: nat, b: nat, n: nat, t: nat, k: nat) returns (c: nat)
    requires Operands(a, b, n, t, k)
    ensures HalfVal(a) == c * Pow2(k + 12)
  {
    var s, e := HalfParts(a);
    hide Val;
    TwelveMore(k);
    hide Pow2;
    c := Multiple(s, e, k + 12, k + 11, 2048);
  }

  /** The smaller one is below 2^(k+11), unless the result is exact. */
  lemma {:induction false} SmallerOperand(a: nat, b: nat, n: nat, t: nat, k: nat)
    requires Operands(a, b, n, t, k) && t != n
    ensures HalfVal(b) < 2048 * Pow2(k)
  {
    var v, d := HalfParts(b);
    if d < k {
      Pow2Monotone(d, k);
      Small(v, Pow2(d), Pow2(k));
    } else {
      var c := LargerOperand(a, b, n, t, k);
      Exact(a, b, n, t, k, c, v, d);
    }
  }

  lemma {:induction false} Exact(a: nat, b: nat, n: nat, t: nat, k: nat, c: nat, v: nat, d: nat)
    requires Operands(a, b, n, t, k) && HalfVal(a) == c * Pow2(k + 12) && HalfVal(b) == v * Pow2(d) && d >= k
    ensures t == n
  {
    hide Val;
    TwelveMore(k);
    Pow2Add(d - k, k);
    hide Pow2;
    Assoc(v, Pow2(d - k), Pow2(k));
    Assoc(c, 4096, Pow2(k));
    Divisible(c * 4096, v * Pow2(d - k), Pow2(k), n);
  }

  lemma {:induction false} Small(v: nat, p: nat, q: nat)
    requires v < 2048 && 1 <= p <= q
    ensures v * p < 2048 * q
  {
    Mono(v, p, q);
    ProductLess(q, v, 2048);
  }

  lemma {:induction false} Ordered(a: nat, b: nat, p: nat)
    requires p >= 1
    ensures a * p >= b * p ==> a >= b
  {
    if a < b { ProductLess(p, a, b); }
  }

  lemma {:induction false} Divisible(a: nat, b: nat, p: nat, n: nat)
    requires p >= 1 && (n == a * p + b * p || n == a * p - b * p)
    ensures n % p == 0
  {
    Ordered(a, b, p);
    var c: nat := if n == a * p + b * p then a + b else a - b;
    Factor(a, b, p);
    DivMod(p, c, 0);
  }

  lemma {:induction false} Factor(a: nat, b: nat, p: nat)
    ensures a * p + b * p == p * (a + b) && a * p - b * p == p * (a - b)
  {
  }

  /** n and its binary32 neighbour lie on the same side of every binary16 midpoint. */
  lemma {:induction false} SameSide(a: nat, b: nat, n: nat, t: nat, k: nat, i: nat)
    requires Operands(a, b, n, t, k)
    ensures 2 * n < Middle(HALF_UNIT, i, 0) <==> 2 * t < Middle(HALF_UNIT, i, 0)
    ensures 2 * n > Middle(HALF_UNIT, i, 0) <==> 2 * t > Middle(HALF_UNIT, i, 0)
  {
    if t != n && Middle(HALF_UNIT, i, 0) >= 2 * FLOAT_UNIT * Pow2(k) {
      SmallerOperand(a, b, n, t, k);
      var c := LargerOperand(a, b, n, t, k);
      var d := MiddleMultiple(i, k);
      TwelveMore(k);
      NotMiddle(a, i);
      hide Pow2, Val, Scaled, Middle;
      Apart(c, d, Pow2(k));
    }
  }

  /** No number of the format is a midpoint. */
  lemma {:induction false} NotMiddle(a: nat, i: nat)
    ensures 2 * HalfVal(a) != Middle(HALF_UNIT, i, 0)
  {
    Unscaled(HALF_UNIT, i);
    Unscaled(HALF_UNIT, i + 1);
    ValMonotone(HALF_UNIT, i, i + 1);
    if a <= i { ValMonotone(HALF_UNIT, a, i); } else { ValMonotone(HALF_UNIT, i + 1, a); }
  }

  /** Different multiples of 8192 p. */
  lemma {:induction false} Apart(c: nat, d: nat, p: nat)
    requires p >= 1
    ensures
      var x, y := 2 * (c * (4096 * p)), d * (8192 * p);
      x != y ==> Distance(x, y) >= 8192 * p
  {
    Assoc(c, 4096, p);
    assert 2 * (c * (4096 * p)) == c * (8192 * p);
    if c < d { ProductLess(8192 * p, c, d); }
    if d < c { ProductLess(8192 * p, d, c); }
  }

  /** n units of binary16 in units of binary32. */
  function Finer(n: nat): nat {
    n * Pow2(STEP)
  }

  lemma {:induction false} RoundingExact(n: nat, l: nat, p: nat, q: nat, r: nat)
    requires l <= STEP && p == Pow2(l) && Finer(n) == q * p + r && r < p
    ensures r == 0
  {
    Pow2Add(STEP - l, l);
    hide Pow2;
    Assoc(n, Pow2(STEP - l), p);
    Remainder(n * Pow2(STEP - l), p, q, r);
  }

  lemma {:induction false} RoundingInexact(n: nat, l: nat, p: nat, q: nat, r: nat, up: bool) returns (t: nat, k: nat)
    requires l > STEP && p == Pow2(l) && Finer(n) == q * p + r && r < p && FLOAT_UNIT <= q < 2 * FLOAT_UNIT
    requires up ==> r > 0
    ensures Moves(n, t, k) && (if up then q * p + p else q * p) == Finer(t)
  {
    k := l - STEP;
    var g := Pow2(STEP);
    Pow2Add(k, STEP);
    assert Finer(n) == n * g;
    hide Pow2, Finer, Moves;
    var rest := ScaledRemainder(n, g, q, Pow2(k), r);
    t := if up then (q + 1) * Pow2(k) else q * Pow2(k);
    assert up ==> rest > 0;
    MovedTo(n, t, k, q, rest, up);
    NextSignificand(q, p);
    Assoc(q, Pow2(k), g);
    Assoc(q + 1, Pow2(k), g);
    FinerIs(t, g);
  }

  lemma {:induction false} FinerIs(n: nat, g: nat)
    requires g == Pow2(STEP)
    ensures Finer(n) == n * g
  {
  }

  /** Rounding n to binary32 leaves it alone or moves it within its last place. */
  lemma {:induction false} RoundingMoves(n: nat) returns (t: nat, k: nat)
    ensures FloatVal(RoundInt(FLOAT_UNIT, Finer(n))) == Finer(t)
    ensures t == n || Moves(n, t, k)
  {
    var l, p, q, r := RoundIntParts(FLOAT_UNIT, Finer(n));
    hide Val, Pow2, Finer, Moves, Excess, Quotient;
    t, k := n, 0;
    if l <= STEP {
      RoundingExact(n, l, p, q, r);
    } else {
      t, k := RoundingInexact(n, l, p, q, r, 2 * r > p || (2 * r == p && (FLOAT_UNIT * l + q) % 2 == 1));
    }
  }

  lemma {:induction false} Remainder(c: nat, p: nat, q: nat, r: nat)
    requires c * p == q * p + r && r < p
    ensures r == 0
  {
    DivMod(p, c, 0);
    DivMod(p, q, r);
  }

  lemma {:induction false} ScaledRemainder(n: nat, g: nat, q: nat, p: nat, r: nat) returns (rest: nat)
    requires g >= 1 && n * g == q * (p * g) + r && r < p * g
    ensures n == q * p + rest && rest < p && r == rest * g
  {
    Assoc(q, p, g);
    Ordered(n, q * p, g);
    rest := n - q * p;
    assert rest * g == r by { assert (n - q * p) * g == n * g - q * p * g; }
    Ordered(rest, p, g);
    if rest >= p { Mono(g, p, rest); }
  }

  lemma {:induction false} MovedTo(n: nat, t: nat, k: nat, q: nat, rest: nat, up: bool)
    requires n == q * Pow2(k) + rest && rest < Pow2(k) && FLOAT_UNIT <= q < 2 * FLOAT_UNIT
    requires t == (if up then (q + 1) * Pow2(k) else q * Pow2(k)) && (up ==> rest > 0)
    ensures Moves(n, t, k)
  {
    var p := Pow2(k);
    hide Pow2;
    NextSignificand(q, p);
    Mono(p, FLOAT_UNIT, q);
    ProductLess(p, q, 2 * FLOAT_UNIT);
    DivMod(p, q, rest);
  }

  /** Whether rounded through binary32 or at once, the sum or difference of two binary16 numbers is the same. */
  lemma {:induction false} DoubleRounding(a: nat, b: nat, n: nat, u: nat)
    requires HalfVal(b) <= HalfVal(a) && (n == HalfVal(a) + HalfVal(b) || n == HalfVal(a) - HalfVal(b))
    requires Rounded(HALF_UNIT, HALF_INF, FloatVal(RoundInt(FLOAT_UNIT, Finer(n))), STEP, u)
    ensures Rounded(HALF_UNIT, HALF_INF, n, 0, u)
  {
    hide Val, RoundInt, Finer, Moves, Pow2, Middle;
    var t, k := RoundingMoves(n);
    forall i: nat
      ensures 2 * n < Middle(HALF_UNIT, i, 0) <==> 2 * Finer(t) < Middle(HALF_UNIT, i, STEP)
      ensures 2 * n > Middle(HALF_UNIT, i, 0) <==> 2 * Finer(t) > Middle(HALF_UNIT, i, STEP)
    {
      if t != n { SameSide(a, b, n, t, k, i); }
      MiddleFiner(i, t);
    }
  }

  lemma {:induction false} MiddleFiner(i: nat, t: nat)
    ensures 2 * t < Middle(HALF_UNIT, i, 0) <==> 2 * Finer(t) < Middle(HALF_UNIT, i, STEP)
    ensures 2 * t > Middle(HALF_UNIT, i, 0) <==> 2 * Finer(t) > Middle(HALF_UNIT, i, STEP)
  {
    var g := Pow2(STEP);
    FinerIs(t, g);
    ScaledIs(i, g);
    ScaledIs(i + 1, g);
    Unscaled(HALF_UNIT, i);
    Unscaled(HALF_UNIT, i + 1);
    hide Pow2, Val, Finer, Scaled;
    Distribute(HalfVal(i), HalfVal(i + 1), g);
    Assoc(2, t, g);
    Compare(2 * t, HalfVal(i) + HalfVal(i + 1), g);
  }

  lemma {:induction false} ScaledIs(i: nat, g: nat)
    requires g == Pow2(STEP)
    ensures Scaled(HALF_UNIT, i, STEP) == HalfVal(i) * g
  {
    hide Pow2, Val;
  }

  lemma {:induction false} Distribute(a: nat, b: nat, g: nat)
    ensures (a + b) * g == a * g + b * g
  {
  }

  lemma {:induction false} Compare(a: nat, b: nat, g: nat)
    requires g >= 1
    ensures a < b <==> a * g < b * g
    ensures a > b <==> a * g > b * g
  {
    if a < b { ProductLess(g, a, b); }
    if b < a { ProductLess(g, b, a); }
  }

  // ---------------------------------------------------------------------
  // One slot
  // ---------------------------------------------------------------------

  function SignedHalf(h: nat): int {
    if h / HALF_SIGN % 2 == 1 then 0 - HalfVal(h % HALF_SIGN) else HalfVal(h % HALF_SIGN)
  }

  function ExactSum(g: nat, h: nat): int {
    SignedHalf(g) + SignedHalf(h)
  }

  /** `d` is the binary16 sum: a NaN, an infinity, or the exact sum rounded once. */
  ghost predicate Summed(g: nat, h: nat, d: nat) {
    var i, j := g % HALF_SIGN, h % HALF_SIGN;
    if i > HALF_INF || j > HALF_INF || (i == HALF_INF && j == HALF_INF && g != h) then d == HALF_NAN
    else if i == HALF_INF then d == g
    else if j == HALF_INF then d == h
    else
      && d / HALF_SIGN == (if NegativeSum(ExactSum(g, h), g >= HALF_SIGN && h >= HALF_SIGN) then 1 else 0)
      && Rounded(HALF_UNIT, HALF_INF, Magnitude(ExactSum(g, h)), 0, d % HALF_SIGN)
  }

  lemma {:induction false} SignedFiner(h: nat, x: nat)
    requires h < 0x1_0000 && h % HALF_SIGN < HALF_INF && Widened(h, x)
    ensures SignedVal(x) == (if SignedHalf(h) < 0 then 0 - Finer(0 - SignedHalf(h)) else Finer(SignedHalf(h)))
    ensures x < 0x1_0000_0000 ==> (x >= FLOAT_SIGN <==> h >= HALF_SIGN)
  {
    hide Val, Pow2;
    FinerIs(HalfVal(h % HALF_SIGN), Pow2(STEP));
    FinerIs(0, Pow2(STEP));
  }

  lemma {:induction false} FinerSum(a: nat, b: nat)
    ensures Finer(a) + Finer(b) == Finer(a + b)
    ensures b <= a ==> Finer(a) - Finer(b) == Finer(a - b)
    ensures a > 0 ==> Finer(a) > 0
  {
    FinerIs(a, Pow2(STEP));
    FinerIs(b, Pow2(STEP));
    FinerIs(a + b, Pow2(STEP));
    if b <= a { FinerIs(a - b, Pow2(STEP)); }
    var g := Pow2(STEP);
    hide Pow2, Finer;
    Distribute(a, b, g);
    if b <= a { Distribute(a - b, b, g); }
    if a > 0 { ProductLess(g, 0, a); }
  }

  /** Signed sums in finer units. */
  lemma {:induction false} FinerSigned(a: int, b: int)
    ensures
      var x := if a < 0 then 0 - Finer(0 - a) else Finer(a);
      var y := if b < 0 then 0 - Finer(0 - b) else Finer(b);
      && Magnitude(x + y) == Finer(Magnitude(a + b)) && (x + y < 0 <==> a + b < 0) && (x + y == 0 <==> a + b == 0)
  {
    hide Finer;
    var m, n := Magnitude(a), Magnitude(b);
    FinerSum(m, n);
    FinerSum(n, m);
    FinerSum(m + n, 0);
    FinerSum(0, 0);
    if m <= n { FinerSum(n - m, 0); }
    if n <= m { FinerSum(m - n, 0); }
  }

  /** The exact sum is the sum or the difference of the magnitudes. */
  lemma {:induction false} SumParts(g: nat, h: nat) returns (a: nat, b: nat)
    requires g < 0x1_0000 && h < 0x1_0000
    ensures HalfVal(b) <= HalfVal(a)
    ensures Magnitude(ExactSum(g, h)) == HalfVal(a) + HalfVal(b) || Magnitude(ExactSum(g, h)) == HalfVal(a) - HalfVal(b)
  {
    hide HalfVal;
    a, b := g % HALF_SIGN, h % HALF_SIGN;
    if HalfVal(a) < HalfVal(b) { a, b := b, a; }
  }

  /** Sums of binary16 numbers are far from binary32 overflow. */
  lemma {:induction false} SumSmall(g: nat, h: nat)
    requires g % HALF_SIGN < HALF_INF && h % HALF_SIGN < HALF_INF
    ensures RoundInt(FLOAT_UNIT, Finer(Magnitude(ExactSum(g, h)))) < FLOAT_INF
  {
    HalfBound(g % HALF_SIGN);
    HalfBound(h % HALF_SIGN);
    RoundSmall(Magnitude(ExactSum(g, h)));
  }

  lemma {:induction false} HalfBound(i: nat)
    requires i < HALF_INF
    ensures HalfVal(i) < Pow2(40)
  {
    hide Val, Pow2;
    ValMonotone(HALF_UNIT, i, HALF_INF);
    Pattern(HALF_UNIT, 31, 0);
    assert HALF_UNIT * 31 + 0 == HALF_INF;
    KibiWeight(30);
  }

  lemma {:induction false} KibiWeight(k: nat)
    ensures HALF_UNIT * Pow2(k) == Pow2(k + 10)
  {
    Pow2Add(10, k);
    assert Pow2(10) == HALF_UNIT;
  }

  lemma {:induction false} RoundSmall(n: nat)
    requires n < 2 * Pow2(40)
    ensures RoundInt(FLOAT_UNIT, Finer(n)) < FLOAT_INF
  {
    hide Val, Finer, Excess, Pow2;
    FinerSmall(n);
    var l, p, q, r := RoundIntParts(FLOAT_UNIT, Finer(n));
    if l > 0 {
      Mono(p, FLOAT_UNIT, q);
      UnitWeight(l);
      Pow2Larger(22 + l, 166);
    }
  }

  lemma {:induction false} UnitWeight(l: nat)
    requires l > 0
    ensures Pow2(22 + l) < FLOAT_UNIT * Pow2(l)
  {
    Pow2Add(23, l);
    Weights();
    assert Pow2(23 + l) == 2 * Pow2(22 + l);
  }

  lemma {:induction false} FinerSmall(n: nat)
    requires n < 2 * Pow2(40)
    ensures Finer(n) < Pow2(166)
  {
    hide Pow2, Finer;
    var g := Pow2(STEP);
    FinerIs(n, g);
    SixtySix(g);
    ProductLess(g, n, 2 * Pow2(40));
  }

  lemma {:induction false} SixtySix(g: nat)
    requires g == Pow2(STEP)
    ensures 2 * Pow2(40) * g == Pow2(166)
  {
    Pow2Add(41, STEP);
    assert Pow2(41) == 2 * Pow2(40);
  }

  /** Widening, adding and narrowing round the exact sum once. */
  lemma {:induction false} SlotSummed(g: nat, h: nat, x: nat, y: nat, d: nat)
    requires g < 0x1_0000 && h < 0x1_0000 && x < 0x1_0000_0000 && y < 0x1_0000_0000
    requires Widened(g, x) && Widened(h, y) && Narrowed(AddFloats(x, y), d)
    ensures Summed(g, h, d)
  {
    if g % HALF_SIGN < HALF_INF && h % HALF_SIGN < HALF_INF {
      FiniteSummed(g, h, x, y, d);
    } else {
      SpecialSummed(g, h, x, y, d);
    }
  }

  lemma {:induction false} SpecialSummed(g: nat, h: nat, x: nat, y: nat, d: nat)
    requires g < 0x1_0000 && h < 0x1_0000 && x < 0x1_0000_0000 && y < 0x1_0000_0000
    requires Widened(g, x) && Widened(h, y) && Narrowed(AddFloats(x, y), d)
    requires g % HALF_SIGN >= HALF_INF || h % HALF_SIGN >= HALF_INF
    ensures Summed(g, h, d)
  {
    hide Rounded, Val, Pow2, RoundInt;
  }

  lemma {:induction false} FiniteSummed(g: nat, h: nat, x: nat, y: nat, d: nat)
    requires g < 0x1_0000 && h < 0x1_0000 && x < 0x1_0000_0000 && y < 0x1_0000_0000
    requires Widened(g, x) && Widened(h, y) && Narrowed(AddFloats(x, y), d)
    requires g % HALF_SIGN < HALF_INF && h % HALF_SIGN < HALF_INF
    ensures Summed(g, h, d)
  {
    hide Val, Pow2, RoundInt, Finer, Rounded;
    SignedFiner(g, x);
    SignedFiner(h, y);
    FinerSigned(SignedHalf(g), SignedHalf(h));
    SumSmall(g, h);
    var n := Magnitude(ExactSum(g, h));
    var a, b := SumParts(g, h);
    hide SignedHalf, SignedVal;
    var t := RoundInt(FLOAT_UNIT, Finer(n));
    assert AddFloats(x, y) % FLOAT_SIGN == t;
    DoubleRounding(a, b, n, d % HALF_SIGN);
  }

  /** Adds `input` to `inout`, slot by slot. */
  method Float16Sum(input: array<nat>, inout: array<nat>, len: nat)
    requires len <= input.Length && len <= inout.Length
    requires forall i :: 0 <= i < input.Length ==> input[i] < 0x1_0000
    requires forall i :: 0 <= i < inout.Length ==> inout[i] < 0x1_0000
    modifies inout
    ensures forall i :: 0 <= i < len ==> Summed(old(inout[i]), old(input[i]), inout[i])
    ensures forall i :: len <= i < inout.Length ==> inout[i] == old(inout[i])
  {
    var i := 0;
    while i < len
      invariant i <= len
      invariant forall j :: 0 <= j < i ==> Summed(old(inout[j]), old(input[j]), inout[j])
      invariant forall j :: i <= j < inout.Length ==> inout[j] == old(inout[j])
      invariant forall j :: i <= j < input.Length ==> input[j] == old(input[j])
    {
      hide Widened, Narrowed, Summed, AddFloats;
      var inFloat := HalfBits2Float(input[i]);
      var inoutFloat := HalfBits2Float(inout[i]);
      var sum := AddFloats(inoutFloat, inFloat);
      AddRange(inoutFloat, inFloat);
      var narrowed := Float2HalfBits(sum);
      SlotSummed(inout[i], input[i], inoutFloat, inFloat, narrowed);
      inout[i] := narrowed;
      i := i + 1;
    }
  }

  lemma {:induction false} AddRange(x: nat, y: nat)
    requires x < 0x1_0000_0000 && y < 0x1_0000_0000
    ensures AddFloats(x, y) < 0x1_0000_0000
  {
    hide RoundInt, SignedVal;
  }
}
