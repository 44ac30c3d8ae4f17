/**
  binary16 arithmetic in software: widening to binary32, adding there, and narrowing back.
  Bit fields of machine words do not overlap, so they are combined by addition.
 */
module Half {
  import opened Arithmetic
  import opened Floats

  const HALF_UNIT := 0x400
  const HALF_INF := 0x7c00
  const HALF_SIGN := 0x8000
  const FLOAT_UNIT := 0x80_0000
  const FLOAT_INF := 0x7f80_0000
  const FLOAT_SIGN := 0x8000_0000
  const HALF_NAN := 0x7fff

  /** The smallest subnormal binary16 number is 2^125 times the smallest binary32 one. */
  const STEP := 125

  function HalfVal(i: nat): nat { Val(HALF_UNIT, i) }

  function FloatVal(i: nat): nat { Val(FLOAT_UNIT, i) }

  lemma {:induction false} Pattern(unit: nat, e: nat, f: nat)
    requires e >= 1 && f < unit
    ensures Exponent(unit, unit * e + f) == e - 1 && Significand(unit, unit * e + f) == unit + f
    ensures Val(unit, unit * e + f) == (unit + f) * Pow2(e - 1)
  {
    DivMod(unit, e, f);
    Spread1(unit, e);
  }

  lemma {:induction false} Spread1(unit: nat, e: nat)
    requires e >= 1
    ensures unit * e >= unit
  {
    assert unit * (e - 1) >= 0;
  }

  lemma {:induction false} WidenNormal(e: nat, f: nat)
    requires 1 <= e < 31 && f < HALF_UNIT
    ensures FloatVal(FLOAT_UNIT * (e + 112) + f * 8192) == HalfVal(HALF_UNIT * e + f) * Pow2(STEP)
  {
    hide Pow2, Val;
    Pattern(FLOAT_UNIT, e + 112, f * 8192);
    Pattern(HALF_UNIT, e, f);
    Rescale(HALF_UNIT + f, e - 1, 13, STEP, e + 111);
  }

  /** s * 2^a * 2^g == (s * 2^b) * 2^c */
  lemma {:induction false} Rescale(s: nat, a: nat, b: nat, g: nat, c: nat)
    requires a + g == b + c
    ensures s * Pow2(b) * Pow2(c) == s * Pow2(a) * Pow2(g)
    ensures b == 13 ==> Pow2(b) == 8192
  {
    Pow2Add(a, g);
    Pow2Add(b, c);
    Assoc(s, Pow2(a), Pow2(g));
    Assoc(s, Pow2(b), Pow2(c));
    assert Pow2(13) == 8192;
  }

  lemma {:induction false} Assoc(a: nat, b: nat, c: nat)
    ensures a * b * c == a * (b * c)
  {
  }

  lemma {:induction false} WidenSubnormal(m: nat, k: nat, f: nat)
    requires 0 < m < HALF_UNIT && k <= 10 && m * Pow2(k) == HALF_UNIT + f && f < HALF_UNIT
    ensures FloatVal(FLOAT_UNIT * (113 - k) + f * 8192) == HalfVal(m) * Pow2(STEP)
  {
    hide Pow2, Val;
    Pattern(FLOAT_UNIT, 113 - k, f * 8192);
    Weights();
    SmallVal(m);
    Rescale(m * Pow2(k), 0, 13, STEP - k, 112 - k);
    Pow2Add(k, STEP - k);
    Assoc(m, Pow2(k), Pow2(STEP - k));
  }

  /** What widening should yield: the same sign and value, an infinity, or a NaN. */
  ghost predicate Widened(h: nat, f: nat) {
    if h % HALF_SIGN < HALF_INF then
      f / FLOAT_SIGN == h / HALF_SIGN && f % FLOAT_SIGN < FLOAT_INF
        && FloatVal(f % FLOAT_SIGN) == HalfVal(h % HALF_SIGN) * Pow2(STEP)
    else if h % HALF_SIGN == HALF_INF then f == h / HALF_SIGN * FLOAT_SIGN + FLOAT_INF
    else f == 0x7fff_ffff
  }

  lemma {:induction false} WidenedFinite(sign: nat, i: nat, s: nat)
    requires sign < 2 && i < HALF_INF && s < FLOAT_INF && FloatVal(s) == HalfVal(i) * Pow2(STEP)
    ensures Widened(sign * HALF_SIGN + i, sign * FLOAT_SIGN + s)
  {
    hide Pow2, Val;
    DivMod(HALF_SIGN, sign, i);
    DivMod(FLOAT_SIGN, sign, s);
  }

  lemma {:induction false} WidenedZero(sign: nat)
    requires sign < 2
    ensures Widened(sign * HALF_SIGN, sign * FLOAT_SIGN)
  {
    hide Pow2, Widened;
    WidenedFinite(sign, 0, 0);
  }

  lemma {:induction false} WidenedSpecial(sign: nat, mantissa: nat)
    requires sign < 2 && mantissa < HALF_UNIT
    ensures
      var h := sign * HALF_SIGN + HALF_INF + mantissa;
      Widened(h, if mantissa == 0 then sign * FLOAT_SIGN + FLOAT_INF else 0x7fff_ffff)
  {
    DivMod(HALF_SIGN, sign, HALF_INF + mantissa);
  }

  /** Widening is exact. */
  method HalfBits2Float(h: nat) returns (f: nat)
    requires h < 0x1_0000
    ensures f < 0x1_0000_0000 && Widened(h, f)
  {
    hide Widened, HalfVal, FloatVal, Pow2;
    var sign := h / 0x8000 % 2;
    var exp := h / 0x400 % 0x20;
    var mantissa := h % 0x400;
    f := 0;
    assert h == sign * HALF_SIGN + HALF_UNIT * exp + mantissa;
    if exp > 0 && exp < 31 {
      WidenNormal(exp, mantissa);
      WidenedFinite(sign, HALF_UNIT * exp + mantissa, FLOAT_UNIT * (exp + 112) + mantissa * 8192);
      exp := exp + 112;
      f := sign * 0x8000_0000 + exp * 0x80_0000 + mantissa * 0x2000;
    } else if exp == 0 {
      if mantissa != 0 {
        ghost var m, k := mantissa, 0;
        NotDoubled(m);
        exp := exp + 113;
        while mantissa / 0x400 % 2 == 0
          invariant 0 < m <= mantissa < 0x800 && exp + k == 113 && DoubledTo(m, k, mantissa)
          decreases 0x800 - mantissa
        {
          DoubleNext(m, k, mantissa);
          mantissa := mantissa * 2;
          exp := exp - 1;
          k := k + 1;
        }
        DoubledAtMost(m, k, mantissa);
        WidenSubnormal(m, k, mantissa - 0x400);
        WidenedFinite(sign, m, FLOAT_UNIT * (113 - k) + (mantissa - 0x400) * 8192);
        mantissa := mantissa % 0x400;
        f := sign * 0x8000_0000 + exp * 0x80_0000 + mantissa * 0x2000;
      } else {
        WidenedZero(sign);
        f := sign * 0x8000_0000;
      }
    } else if exp == 31 {
      WidenedSpecial(sign, mantissa);
      if mantissa != 0 {
        f := 0x7fff_ffff;
      } else {
        f := 0xff * 0x80_0000 + sign * 0x8000_0000;
      }
    }
  }

  /** `mantissa` is `m` shifted left `k` times. */
  ghost predicate DoubledTo(m: nat, k: nat, mantissa: nat) {
    mantissa == m * Pow2(k)
  }

  lemma {:induction false} NotDoubled(m: nat)
    ensures DoubledTo(m, 0, m)
  {
  }

  lemma {:induction false} DoubleNext(m: nat, k: nat, mantissa: nat)
    requires DoubledTo(m, k, mantissa)
    ensures DoubledTo(m, k + 1, 2 * mantissa)
  {
    assert Pow2(k + 1) == 2 * Pow2(k);
  }

  lemma {:induction false} DoubledAtMost(m: nat, k: nat, mantissa: nat)
    requires DoubledTo(m, k, mantissa) && 0 < m && mantissa < 0x800
    ensures k <= 10 && mantissa == m * Pow2(k)
  {
    assert m * Pow2(k) >= Pow2(k);
    assert Pow2(11) == 0x800;
    Pow2Larger(k, 11);
  }

  // ---------------------------------------------------------------------
  // Narrowing
  // ---------------------------------------------------------------------

  /** What narrowing should yield: the same sign and the rounded magnitude, or the one NaN. */
  ghost predicate Narrowed(s: nat, d: nat) {
    if s % FLOAT_SIGN <= FLOAT_INF then
      && d / HALF_SIGN == s / FLOAT_SIGN
      && (if s % FLOAT_SIGN == FLOAT_INF then d % HALF_SIGN == HALF_INF
          else Rounded(HALF_UNIT, HALF_INF, FloatVal(s % FLOAT_SIGN), STEP, d % HALF_SIGN))
    else d == HALF_NAN
  }

  lemma {:induction false} NarrowedFinite(sign: nat, i: nat, u: nat)
    requires sign < 2 && i < FLOAT_INF && Rounded(HALF_UNIT, HALF_INF, FloatVal(i), STEP, u)
    ensures Narrowed(sign * FLOAT_SIGN + i, sign * HALF_SIGN + u)
  {
    hide Rounded, Val, Pow2;
    RoundedRange(HALF_UNIT, HALF_INF, FloatVal(i), STEP, u);
    DivMod(HALF_SIGN, sign, u);
    DivMod(FLOAT_SIGN, sign, i);
  }

  lemma {:induction false} RoundedRange(unit: nat, inf: nat, z: nat, g: nat, u: nat)
    requires unit > 0 && Rounded(unit, inf, z, g, u)
    ensures u <= inf
  {
  }

  lemma {:induction false} NarrowedSpecial(sign: nat, mantissa: nat)
    requires sign < 2 && mantissa < FLOAT_UNIT
    ensures Narrowed(sign * FLOAT_SIGN + FLOAT_INF + mantissa, if mantissa == 0 then sign * HALF_SIGN + HALF_INF
      else HALF_NAN)
  {
    DivMod(FLOAT_SIGN, sign, FLOAT_INF + mantissa);
    DivMod(HALF_SIGN, sign, HALF_INF);
  }

  /** w + r / d lies between neighbours w and w + 1, nearer to the upper one if r passes the half of d. */
  lemma {:induction false} RoundQuotient(w: nat, d: nat, r: nat, p: nat, g: nat, u: nat, up: bool)
    requires r < d && p >= 1 && u < HALF_INF
    requires Scaled(HALF_UNIT, u, g) == w * d * p && Scaled(HALF_UNIT, u + 1, g) == (w + 1) * d * p
    requires up <==> 2 * r > d || (2 * r == d && u % 2 == 1)
    ensures Rounded(HALF_UNIT, HALF_INF, (w * d + r) * p, g, if up then u + 1 else u)
  {
    hide Scaled, Pow2, Val;
    QuotientParts(w, d, r, p);
    if 2 * r < d {
      ProductLess(p, 2 * r, d);
    } else if 2 * r > d {
      ProductLess(p, d, 2 * r);
    }
    ProductLess(p, r, d);
    RoundFrom(HALF_UNIT, HALF_INF, (w * d + r) * p, g, u, up);
  }

  lemma {:induction false} QuotientParts(w: nat, d: nat, r: nat, p: nat)
    ensures (w * d + r) * p == w * d * p + r * p
    ensures (w + 1) * d * p == w * d * p + d * p
    ensures 2 * r * p == 2 * (r * p)
  {
    assert (w + 1) * d == w * d + d;
  }

  lemma {:induction false} Weights()
    ensures Pow2(0) == 1 && Pow2(13) == 8192 && Pow2(23) == FLOAT_UNIT
  {
  }

  lemma {:induction false} ScaledPattern(e: nat, f: nat, c: nat)
    requires e >= 1 && f < HALF_UNIT && e - 1 + STEP == 13 + c
    ensures Scaled(HALF_UNIT, HALF_UNIT * e + f, STEP) == (HALF_UNIT + f) * 8192 * Pow2(c)
    ensures Scaled(HALF_UNIT, HALF_UNIT * e + f + 1, STEP) == (HALF_UNIT + f + 1) * 8192 * Pow2(c)
  {
    hide Pow2, Val;
    Pattern(HALF_UNIT, e, f);
    Gap(HALF_UNIT, HALF_UNIT * e + f);
    NextSignificand(HALF_UNIT + f, Pow2(e - 1));
    Weights();
    Rescale(HALF_UNIT + f, e - 1, 13, STEP, c);
    Rescale(HALF_UNIT + f + 1, e - 1, 13, STEP, c);
  }

  /** Normal binary16 results: 13 bits are cut off. */
  lemma {:induction false} NarrowNormal(e: nat, f: nat, up: bool)
    requires 113 <= e <= 142 && f < FLOAT_UNIT
    requires up <==> 2 * (f % 8192) > 8192 || (2 * (f % 8192) == 8192 && f / 8192 % 2 == 1)
    ensures
      var u := HALF_UNIT * (e - 112) + f / 8192;
      Rounded(HALF_UNIT, HALF_INF, FloatVal(FLOAT_UNIT * e + f), STEP, if up then u + 1 else u)
  {
    hide Rounded, Pow2, Val, Scaled;
    var c := f / 8192;
    Pattern(FLOAT_UNIT, e, f);
    ScaledPattern(e - 112, c, e - 1);
    RoundQuotient(HALF_UNIT + c, 8192, f % 8192, Pow2(e - 1), STEP, HALF_UNIT * (e - 112) + c, up);
  }

  lemma {:induction false} NextSignificand(s: nat, p: nat)
    ensures s * p + p == (s + 1) * p
  {
  }

  /** What is cut off a significand for a subnormal result. */
  function Cut(r: nat): (d: nat)
    ensures d >= 1
  {
    8192 * Pow2(r)
  }

  /** Subnormal binary16 results: another `r` bits are cut off. */
  lemma {:induction false} NarrowSubnormal(e: nat, f: nat, r: nat, u: nat, d: nat, rest: nat, up: bool)
    requires e + r == 113 && 1 <= r < 32 && f < FLOAT_UNIT
    requires FLOAT_UNIT + f == u * d + rest && rest < d && d == Cut(r)
    requires up <==> 2 * rest > d || (2 * rest == d && u % 2 == 1)
    ensures u < HALF_UNIT && Rounded(HALF_UNIT, HALF_INF, FloatVal(FLOAT_UNIT * e + f), STEP, if up then u + 1 else u)
  {
    hide Rounded, Pow2, Val, Scaled, Cut;
    Pattern(FLOAT_UNIT, e, f);
    CutAtLeast(r);
    Mono(u, 16384, d);
    CutScaled(u, r, e);
    CutScaled(u + 1, r, e);
    RoundQuotient(u, d, rest, Pow2(e - 1), STEP, u, up);
  }

  lemma {:induction false} CutAtLeast(r: nat)
    requires r >= 1
    ensures Cut(r) >= 16384
  {
  }

  lemma {:induction false} CutScaled(u: nat, r: nat, e: nat)
    requires u <= HALF_UNIT && e + r == 113 && e >= 1
    ensures Scaled(HALF_UNIT, u, STEP) == u * Cut(r) * Pow2(e - 1)
  {
    hide Pow2, Val;
    SmallVal(u);
    Weights();
    Pow2Add(13, r);
    Pow2Add(13 + r, e - 1);
    Assoc(u, Cut(r), Pow2(e - 1));
  }

  lemma {:induction false} Mono(q: nat, a: nat, b: nat)
    requires a <= b
    ensures q * a <= b * q
  {
  }

  lemma {:induction false} SmallVal(u: nat)
    requires u <= HALF_UNIT
    ensures HalfVal(u) == u
  {
    hide Pow2;
    Weights();
    if u == HALF_UNIT {
      Pattern(HALF_UNIT, 1, 0);
    }
  }

  /** Anything below half of the smallest subnormal number becomes zero. */
  lemma {:induction false} NarrowTiny(i: nat)
    requires i < FLOAT_UNIT * 82
    ensures Rounded(HALF_UNIT, HALF_INF, FloatVal(i), STEP, 0)
  {
    hide Pow2, Val;
    ValMonotone(FLOAT_UNIT, i, FLOAT_UNIT * 82 + 0);
    Pattern(FLOAT_UNIT, 82, 0);
    SmallVal(0);
    SmallVal(1);
    Weights();
    Pow2Add(23, 81);
    TinyPowers();
  }

  lemma {:induction false} TinyPowers()
    ensures 2 * Pow2(23 + 81) < Pow2(STEP)
  {
    Pow2Monotone(105, 124);
    assert Pow2(105) == 2 * Pow2(104);
    assert Pow2(125) == 2 * Pow2(124);
  }

  /** From 2^16 on binary16 overflows. */
  lemma {:induction false} NarrowHuge(i: nat)
    requires i >= FLOAT_UNIT * 143
    ensures Rounded(HALF_UNIT, HALF_INF, FloatVal(i), STEP, HALF_INF)
  {
    hide Pow2, Val;
    ValMonotone(FLOAT_UNIT, FLOAT_UNIT * 143 + 0, i);
    Pattern(FLOAT_UNIT, 143, 0);
    ScaledPattern(31, 0, 142);
    ScaledMonotone(HALF_UNIT, HALF_INF - 1, HALF_INF, STEP);
  }

  /** The digits below the last place: a round bit and sticky ones. */
  lemma {:induction false} RoundBit(f: nat)
    ensures f / 4096 % 2 == 1 <==> 2 * (f % 8192) >= 8192
    ensures f / 4096 % 2 == 1 ==> (f % 4096 != 0 <==> 2 * (f % 8192) > 8192)
  {
  }

  /** The same after a shift, with the bits shifted out counting as sticky. */
  lemma {:induction false} ShiftedRoundBit(a: nat, q: nat, d: nat) returns (rest: nat)
    requires q >= 1 && d == 8192 * q
    ensures
      var m := a / q;
      && m >= 0 && a == m / 8192 * d + rest && rest < d
      && (m / 4096 % 2 == 1 <==> 2 * rest >= d)
      && (m / 4096 % 2 == 1 ==> (m % 4096 != 0 || a % q != 0 <==> 2 * rest > d))
  {
    var m, w := a / q, a % q;
    assert a == q * m + w;
    var c, n := m / 8192, m % 8192;
    assert m == 8192 * c + n;
    rest := q * n + w;
    assert q * m == c * d + q * n by { Spreads(q, c, n); }
    RoundBit(m);
    ProductLess(q, n, 8192);
    if n < 4096 {
      ProductLess(q, n, 4096);
    } else if n > 4096 {
      ProductLess(q, 4096, n);
    }
  }

  lemma {:induction false} Spreads(q: nat, c: nat, n: nat)
    ensures q * (8192 * c + n) == c * (8192 * q) + q * n
  {
  }

  /** Rounding `u` by its round bit and the sticky bits below yields the result for the pattern `i`. */
  ghost predicate Poised(i: nat, u: nat, roundBit: nat, sticky: bool) {
    Rounded(HALF_UNIT, HALF_INF, FloatVal(i), STEP, if roundBit == 1 && (sticky || u % 2 == 1) then u + 1 else u)
  }

  lemma {:induction false} PoisedResult(i: nat, u: nat, roundBit: nat, sticky: bool)
    requires Poised(i, u, roundBit, sticky)
    ensures Rounded(HALF_UNIT, HALF_INF, FloatVal(i), STEP, if roundBit == 1 && (sticky || u % 2 == 1) then u + 1
      else u)
  {
  }

  lemma {:induction false} PoisedNormal(e: nat, f: nat)
    requires 113 <= e <= 142 && f < FLOAT_UNIT
    ensures Poised(FLOAT_UNIT * e + f, HALF_UNIT * (e - 112) + f / 0x2000, f / 0x1000 % 2, f % 0x1000 != 0)
  {
    hide Rounded, Val, Pow2;
    RoundBit(f);
    NarrowNormal(e, f, f / 0x1000 % 2 == 1 && (f % 0x1000 != 0 || f / 0x2000 % 2 == 1));
  }

  function Quotient(a: nat, d: nat): nat
    requires d >= 1
  {
    a / d
  }

  function ShiftRight(x: nat, k: nat): nat {
    Quotient(x, Pow2(k))
  }

  /** The bits that a shift right by `k` loses. */
  function LowBits(x: nat, k: nat): nat {
    x % Pow2(k)
  }

  lemma {:induction false} PoisedSubnormal(e: nat, f: nat, r: nat)
    requires e + r == 113 && 1 <= r < 32 && f < FLOAT_UNIT
    ensures
      var m := ShiftRight(FLOAT_UNIT + f, r);
      m / 0x2000 < HALF_UNIT
        && Poised(FLOAT_UNIT * e + f, m / 0x2000, m / 0x1000 % 2, LowBits(FLOAT_UNIT + f, r) != 0 || m % 0x1000 != 0)
  {
    hide Rounded, Val, Pow2;
    var rest := ShiftedRoundBit(FLOAT_UNIT + f, Pow2(r), Cut(r));
    var m := ShiftRight(FLOAT_UNIT + f, r);
    var sticky := LowBits(FLOAT_UNIT + f, r) != 0 || m % 0x1000 != 0;
    NarrowSubnormal(e, f, r, m / 0x2000, Cut(r), rest, m / 0x1000 % 2 == 1 && (sticky || m / 0x2000 % 2 == 1));
  }

  lemma {:induction false} PoisedTiny(i: nat)
    requires i < FLOAT_UNIT * 82
    ensures Poised(i, 0, 0, false)
  {
    NarrowTiny(i);
  }

  /** Narrowing rounds to nearest, ties to even, with subnormal results and overflow. */
  method Float2HalfBits(s: nat) returns (d: nat)
    requires s < 0x1_0000_0000
    ensures d < 0x1_0000 && Narrowed(s, d)
  {
    hide Narrowed, FloatVal, HalfVal, Pow2, Rounded, Poised, ShiftRight, LowBits;
    var sign := s / 0x8000_0000 % 2 * 0x8000;
    var exp := s / 0x80_0000 % 0x100 - 127;
    var mantissa := s % 0x80_0000;
    ghost var negative, e, f := s / 0x8000_0000 % 2, s / 0x80_0000 % 0x100, mantissa;
    assert s == negative * FLOAT_SIGN + (FLOAT_UNIT * e + f);
    if s % 0x8000_0000 == 0 {
      NarrowTiny(0);
      NarrowedFinite(negative, 0, 0);
      return sign;
    }

    if exp > 15 {
      if exp == 128 && mantissa != 0 {
        NarrowedSpecial(negative, f);
        return 0x7fff;
      } else {
        if e == 255 {
          NarrowedSpecial(negative, 0);
        } else {
          NarrowHuge(FLOAT_UNIT * e + f);
          NarrowedFinite(negative, FLOAT_UNIT * e + f, HALF_INF);
        }
        return sign + 0x7c00;
      }
    }

    var u := 0;
    var stickyBit := false;
    if exp >= -14 {
      exp := exp + 15;
      u := exp % 0x20 * 0x400;
      u := u + mantissa / 0x2000;
      PoisedNormal(e, f);
      assert u == HALF_UNIT * (e - 112) + f / 0x2000;
    } else {
      var rshift := -14 - exp;
      if rshift < 32 {
        mantissa := mantissa + 0x80_0000;
        PoisedSubnormal(e, f, rshift);
        stickyBit := LowBits(mantissa, rshift) != 0;
        mantissa := ShiftRight(mantissa, rshift);
        u := mantissa / 0x2000 % 0x400;
        assert mantissa / 0x2000 < HALF_UNIT && u == mantissa / 0x2000;
        assert Poised(FLOAT_UNIT * e + f, u, mantissa / 0x1000 % 2, stickyBit || mantissa % 0x1000 != 0);
      } else {
        PoisedTiny(FLOAT_UNIT * e + f);
        mantissa := 0;
        u := 0;
      }
    }

    var roundBit := mantissa / 0x1000 % 2;
    stickyBit := stickyBit || mantissa % 0x1000 != 0;
    PoisedResult(FLOAT_UNIT * e + f, u, roundBit, stickyBit);
    if (roundBit == 1 && stickyBit) || (roundBit == 1 && u % 2 == 1) {
      u := u + 1;
    }
    assert Rounded(HALF_UNIT, HALF_INF, FloatVal(FLOAT_UNIT * e + f), STEP, u);
    NarrowedFinite(negative, FLOAT_UNIT * e + f, u);
    d := u + sign;
  }
}
