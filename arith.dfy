/** Facts about integer division that the decimal-digit reasoning needs. */
module Arith {

  lemma MulMono(x: nat, y: nat, p: nat)
    requires x <= y
    ensures x * p <= y * p
  {
  }

  /** The quotient brackets the dividend. */
  lemma DivBounds(a: nat, p: nat)
    requires p >= 1
    ensures (a / p) * p <= a < (a / p + 1) * p
  {
    assert a == (a / p) * p + a % p;
  }

  /** Integer division is determined by the bracket its quotient sits in. */
  lemma DivBetween(a: nat, p: nat, d: nat)
    requires p >= 1 && d * p <= a < (d + 1) * p
    ensures a / p == d
  {
    var q := a / p;
    DivBounds(a, p);
    if q > d { MulMono(d + 1, q, p); }
    if q < d { MulMono(q + 1, d, p); }
  }

  lemma MulAssoc(x: nat, y: nat, z: nat)
    ensures (x * y) * z == x * (z * y)
  {
  }

  lemma DivDiv(a: nat, b: nat, c: nat)
    requires b >= 1 && c >= 1
    ensures a / (b * c) == (a / b) / c
  {
    var q := a / b;
    var d := q / c;
    DivBounds(q, c);
    DivBounds(a, b);
    MulMono(d * c, q, b);
    MulMono(q + 1, (d + 1) * c, b);
    MulAssoc(d, c, b);
    MulAssoc(d + 1, c, b);
    DivBetween(a, b * c, d);
  }
}
