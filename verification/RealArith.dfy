/** Sign and cancellation facts about products of reals. */
module RealArith {

  lemma ProductPositive(a: real, b: real)
    requires a > 0.0 && b > 0.0
    ensures a * b > 0.0
  {
  }

  lemma ProductNonNegative(a: real, b: real)
    requires a >= 0.0 && b >= 0.0
    ensures a * b >= 0.0
  {
  }

  lemma Shrinks(w: real, d: real)
    requires 0.0 < w < 1.0 && d > 0.0
    ensures w * d < d
  {
    ProductPositive(1.0 - w, d);
    assert (1.0 - w) * d == d - w * d;
  }

  lemma ShrinksOrKeeps(w: real, d: real)
    requires w <= 1.0 && d >= 0.0
    ensures w * d <= d
  {
    var g := 1.0 - w;
    ProductNonNegative(g, d);
    assert g * d == d - w * d;
  }

  lemma CancelLess(a: real, b: real, p: real)
    requires p > 0.0 && a * p < b * p
    ensures a < b
  {
    assert (b - a) * p > 0.0;
  }

  lemma CancelAtMost(a: real, b: real, p: real)
    requires p > 0.0 && a * p <= b * p
    ensures a <= b
  {
    if a > b { ProductPositive(a - b, p); }
  }

  lemma Quotient(x: real, y: real, q: real)
    requires y != 0.0 && q * y == x
    ensures x / y == q
  {
  }

  lemma CancelFrom(a: real, b: real, p: real, ap: real, bp: real)
    requires p > 0.0 && a * p == ap && b * p == bp && ap <= bp
    ensures a <= b
  {
    CancelAtMost(a, b, p);
  }

  lemma CancelLessFrom(a: real, b: real, p: real, ap: real, bp: real)
    requires p > 0.0 && a * p == ap && b * p == bp && ap < bp
    ensures a < b
  {
    CancelLess(a, b, p);
  }

  lemma UnitFactor(s: real, r: real, t: real)
    requires s > 0.0 && t == s * r && t == s
    ensures r == 1.0
  {
    CancelFrom(r, 1.0, s, t, s);
    CancelFrom(1.0, r, s, s, t);
  }
}
