/** Small facts about real multiplication and division that the solver does
    not find on its own. Each names the product it speaks about, so that the
    fact is stated about that name rather than about a bare monomial. */
module RealFacts {

  function Sq(x: real): real
  {
    x * x
  }

  lemma ProductPositive(a: real, b: real, m: real)
    requires 0.0 < a && 0.0 < b && m == a * b
    ensures 0.0 < m
  {
  }

  lemma SqSign(x: real)
    ensures 0.0 <= Sq(x)
    ensures x != 0.0 ==> 0.0 < Sq(x)
    ensures Sq(x) == 0.0 <==> x == 0.0
  {
    var m := Sq(x);
    if x > 0.0 {
      ProductPositive(x, x, m);
    } else if x < 0.0 {
      assert m == (-x) * (-x);
      ProductPositive(-x, -x, m);
    }
  }

  /** The quotient a / b is the one r with r·b = a. */
  lemma QuotientUnique(a: real, b: real, r: real)
    requires b != 0.0 && r * b == a
    ensures a / b == r
  {
  }

  /** A positive factor does not change the sign of the other. */
  lemma PositiveFactor(a: real, b: real, m: real)
    requires 0.0 < a && m == a * b
    ensures 0.0 < m <==> 0.0 < b
    ensures m == 0.0 <==> b == 0.0
  {
    if 0.0 < b {
      ProductPositive(a, b, m);
    } else if b < 0.0 {
      ProductPositive(a, -b, -m);
    }
  }

  /** r·d = a with d ≥ 1 keeps r between 0 and a when a ≥ 0, and r = a only
      when a = 0 or d = 1. */
  lemma QuotientBounds(a: real, d: real, r: real)
    requires 1.0 <= d && r * d == a
    ensures 0.0 <= a ==> 0.0 <= r <= a
    ensures d == 1.0 ==> r == a
  {
    if 0.0 <= a {
      if r < 0.0 {
        ProductPositive(-r, d, -r * d);
      }
      var e := d - 1.0;
      assert a - r == r * e;
      if 0.0 < r && 0.0 < e {
        ProductPositive(r, e, r * e);
      }
    }
  }

  /** A nonzero factor cancels. */
  lemma CancelFactor(a: real, b: real, c: real)
    requires a != 0.0 && a * b == a * c
    ensures b == c
  {
    assert a * (b - c) == 0.0;
  }
}
