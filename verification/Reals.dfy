/** Facts about products and quotients of reals. */
module Reals {

  lemma Cancel(d: real, x: real)
    requires d != 0.0 && x * d == 0.0
    ensures x == 0.0
  {
  }

  lemma SquareSign(x: real)
    ensures x * x >= 0.0
    ensures x * x == 0.0 <==> x == 0.0
  {
    if x < 0.0 {
      var y := -x;
      assert y * y >= 0.0;
      assert x * x == y * y;
    }
    if x != 0.0 && x * x == 0.0 { Cancel(x, x); }
  }

  lemma QuotientIs(x: real, d: real, q: real)
    requires d != 0.0 && x == q * d
    ensures x / d == q
  {
    var r := x / d;
    assert r * d == x;
    assert (r - q) * d == r * d - q * d;
    Cancel(d, r - q);
  }

  lemma TimesGrows(d: real, a: real, b: real)
    requires d >= 0.0 && a <= b
    ensures d * a <= d * b
  {
  }

  lemma TimesKeepsOrder(q: real, a: real, b: real)
    requires q > 0.0
    ensures (q * a >= q * b <==> a >= b) && (q * a > q * b <==> a > b)
  {
    if a > b { assert q * (a - b) > 0.0; }
    if a < b { assert q * (b - a) > 0.0; }
  }

  lemma QuotientIsPositive(x: real, d: real)
    requires x >= 0.0 && d > 0.0
    ensures x / d >= 0.0
  {
    var q := x / d;
    assert d * q == x;
    TimesKeepsOrder(d, q, 0.0);
  }
}
