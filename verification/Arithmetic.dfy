/** A few facts about products and division that the solver does not find by itself. */
module Arithmetic {

  lemma {:induction false} ProductLess(d: nat, a: int, b: int)
    requires a < b && d >= 1
    ensures a * d + d <= b * d
  {
    var c := b - a - 1;
    assert b * d == (a + 1 + c) * d == a * d + d + c * d;
  }

  lemma {:induction false} Spread(d: nat, a: int, b: int)
    requires d >= 1
    ensures a < b ==> d * a + d <= d * b
  {
    if a < b { ProductLess(d, a, b); }
  }

  /** Quotient and remainder are unique. */
  lemma {:induction false} DivMod(d: nat, q: int, r: nat)
    requires r < d
    ensures (d * q + r) / d == q && (d * q + r) % d == r
  {
    var x := d * q + r;
    var p := x / d;
    assert x == d * p + x % d;
    Spread(d, q, p);
    Spread(d, p, q);
  }

  lemma {:induction false} OneLess(d: nat, x: int)
    requires d > 0
    ensures (x - d) % d == x % d
  {
    assert x - d == d * (x / d - 1) + x % d;
    DivMod(d, x / d - 1, x % d);
  }
}
