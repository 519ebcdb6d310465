/** Signs of products, and quotients by a positive number. */
module Reals {

  lemma ProductSign(x: real, y: real)
    requires y > 0.0
    ensures x * y > 0.0 <==> x > 0.0
    ensures x * y < 0.0 <==> x < 0.0
    ensures x * y == 0.0 <==> x == 0.0
  {
  }

  lemma ProductNonNegative(x: real, y: real)
    requires x >= 0.0 && y >= 0.0
    ensures x * y >= 0.0
  {
  }

  lemma QuotientOrder(a: real, b: real, r: real)
    requires r > 0.0
    ensures a / r < b / r <==> a < b
    ensures a / r == b / r <==> a == b
  {
    var x, y := a / r, b / r;
    assert x * r == a && y * r == b;
    assert (x - y) * r == a - b;
    ProductSign(x - y, r);
  }
}
