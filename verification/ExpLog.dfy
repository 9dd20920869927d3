/** Exponential and logarithm, passed in as functions of which three laws are assumed. */
module ExpLog {
  import opened Maths

  datatype Curves = Curves(exp: real -> real, ln: real -> real)

  ghost predicate AddsAt(exp: real -> real, x: real, y: real) {
    exp(x + y) == exp(x) * exp(y)
  }

  ghost predicate AboveTangent(exp: real -> real, x: real) {
    exp(x) >= 1.0 + x
  }

  ghost predicate InverseAt(c: Curves, x: real) {
    x > 0.0 ==> c.exp(c.ln(x)) == x
  }

  ghost predicate Exponential(c: Curves) {
    && (forall x: real, y: real :: AddsAt(c.exp, x, y))
    && (forall x: real :: AboveTangent(c.exp, x))
    && (forall x: real :: InverseAt(c, x))
  }

  lemma ExpZero(c: Curves)
    requires Exponential(c)
    ensures c.exp(0.0) == 1.0
  {
    assert AddsAt(c.exp, 0.0, 0.0) && AboveTangent(c.exp, 0.0);
    var e := c.exp(0.0);
    assert e == e * e && e >= 1.0;
    if e > 1.0 {
      MulStrict(e, 1.0, e);
    }
  }

  lemma ExpPositive(c: Curves, x: real)
    requires Exponential(c)
    ensures c.exp(x) > 0.0
  {
    ExpZero(c);
    assert AddsAt(c.exp, x, -x) && AddsAt(c.exp, x / 2.0, x / 2.0);
    SquareNonNeg(c.exp(x / 2.0));
    assert c.exp(x) * c.exp(-x) == 1.0;
  }

  lemma SquareNonNeg(x: real)
    ensures x * x >= 0.0
  {}

  lemma ExpIncreasing(c: Curves, x: real, y: real)
    requires Exponential(c) && x < y
    ensures c.exp(x) < c.exp(y)
  {
    var d := y - x;
    ExpPositive(c, x);
    assert AboveTangent(c.exp, d);
    MulStrict(c.exp(x), 1.0, c.exp(d));
    assert AddsAt(c.exp, x, d) && x + d == y;
  }

  lemma LnExp(c: Curves, x: real)
    requires Exponential(c)
    ensures c.ln(c.exp(x)) == x
  {
    ExpPositive(c, x);
    var y := c.ln(c.exp(x));
    assert InverseAt(c, c.exp(x));
    if x < y {
      ExpIncreasing(c, x, y);
    } else if y < x {
      ExpIncreasing(c, y, x);
    }
  }

  lemma LnIncreasing(c: Curves, x: real, y: real)
    requires Exponential(c) && 0.0 < x < y
    ensures c.ln(x) < c.ln(y)
  {
    assert InverseAt(c, x) && InverseAt(c, y);
    if c.ln(x) > c.ln(y) {
      ExpIncreasing(c, c.ln(y), c.ln(x));
    }
  }

  lemma LnMul(c: Curves, x: real, y: real)
    requires Exponential(c) && x > 0.0 && y > 0.0
    ensures x * y > 0.0 && c.ln(x * y) == c.ln(x) + c.ln(y)
  {
    MulStrict(x, 0.0, y);
    assert InverseAt(c, x) && InverseAt(c, y) && AddsAt(c.exp, c.ln(x), c.ln(y));
    assert c.exp(c.ln(x)) == x && c.exp(c.ln(y)) == y;
    assert c.exp(c.ln(x) + c.ln(y)) == x * y;
    LnExp(c, c.ln(x) + c.ln(y));
  }

  lemma LnProduct(c: Curves, x: real, y: real, p: real)
    requires Exponential(c) && x > 0.0 && y > 0.0 && p == x * y
    ensures c.ln(p) == c.ln(x) + c.ln(y)
  {
    LnMul(c, x, y);
  }

  lemma LnBelow(c: Curves, x: real)
    requires Exponential(c) && x > 0.0
    ensures c.ln(x) <= x - 1.0
  {
    assert InverseAt(c, x) && AboveTangent(c.exp, c.ln(x));
  }

  /** ln grows from y to x by at least (x - y) / x. */
  lemma LnRatio(c: Curves, x: real, y: real)
    requires Exponential(c) && x > 0.0 && y > 0.0
    ensures c.ln(x) - c.ln(y) >= 1.0 - y / x
  {
    var r := y / x;
    DivStrict(0.0, y, x);
    LnBelow(c, r);
    LnMul(c, r, x);
    assert r * x == y by { Cancel(y, x); }
    assert c.ln(r * x) == c.ln(y);
  }

  lemma LnPositive(c: Curves, x: real)
    requires Exponential(c) && x > 1.0
    ensures c.ln(x) > 0.0
  {
    ExpZero(c);
    LnExp(c, 0.0);
    LnIncreasing(c, 1.0, x);
  }
}
