/** The real functions the market models need, passed in as a record so that nothing about
    them is assumed beyond the laws stated here. Amounts are exact reals. */
module Maths {

  /** `sp` is softplus, x -> log(1 + e^x): `log1p(exp(-t))` in the source is `sp(-t)`.
      `sqrt` is the square root used by the Genesis buy quote. */
  datatype Functions = Functions(sp: real -> real, sqrt: real -> real)

  ghost predicate PositiveAt(sp: real -> real, x: real) {
    sp(x) > 0.0
  }

  ghost predicate ReflectsAt(sp: real -> real, x: real) {
    sp(x) - sp(-x) == x
  }

  ghost predicate IncreasesFrom(sp: real -> real, x: real, y: real) {
    x < y ==> sp(x) < sp(y)
  }

  ghost predicate RootOf(sqrt: real -> real, x: real) {
    x >= 0.0 ==> sqrt(x) >= 0.0 && sqrt(x) * sqrt(x) == x
  }

  ghost predicate Softplus(sp: real -> real) {
    && (forall x: real :: PositiveAt(sp, x))
    && (forall x: real :: ReflectsAt(sp, x))
    && (forall x: real, y: real :: IncreasesFrom(sp, x, y))
    && sp(0.0) < 1.0
  }

  ghost predicate SquareRoot(sqrt: real -> real) {
    forall x: real :: RootOf(sqrt, x)
  }

  ghost predicate Lawful(f: Functions) {
    Softplus(f.sp) && SquareRoot(f.sqrt)
  }

  function Max(x: real, y: real): real {
    if x >= y then x else y
  }

  function Min(x: real, y: real): real {
    if x <= y then x else y
  }

  function Abs(x: real): real {
    if x >= 0.0 then x else -x
  }

  /** Least whole number that is at least x. */
  function Ceil(x: real): int {
    -((-x).Floor)
  }

  /** The part of `amount` that belongs to `part` of `whole`. */
  function ProRata(amount: real, part: real, whole: real): real
    requires whole != 0.0
  {
    amount * part / whole
  }

  function Rate(amount: real, whole: real): real {
    if whole > 0.0 then amount / whole else 0.0
  }

  /** x halved n times. */
  function Halved(x: real, n: nat): real {
    if n == 0 then x else Halved(x, n - 1) / 2.0
  }

  lemma {:induction false} HalvedPositive(x: real, n: nat)
    requires x > 0.0
    ensures 0.0 < Halved(x, n) <= x
  {
    if n > 0 {
      HalvedPositive(x, n - 1);
    }
  }

  lemma {:induction false} HalvedOnce(x: real, n: nat)
    ensures Halved(x / 2.0, n) == Halved(x, n + 1)
  {
    if n > 0 {
      HalvedOnce(x, n - 1);
    }
  }

  lemma ProRataIsRate(amount: real, part: real, whole: real)
    requires whole > 0.0
    ensures ProRata(amount, part, whole) == Rate(amount, whole) * part
  {}

  lemma RateOfWhole(amount: real, whole: real)
    ensures Rate(amount, whole) * whole == if whole > 0.0 then amount else 0.0
  {
    if whole > 0.0 {
      Cancel(amount, whole);
    }
  }

  lemma RateNonNeg(amount: real, whole: real)
    requires amount >= 0.0
    ensures Rate(amount, whole) >= 0.0
  {
    if whole > 0.0 {
      DivNonNeg(amount, whole);
    }
  }

  lemma RateAtLeastOne(amount: real, whole: real)
    requires whole > 0.0 && amount >= whole
    ensures Rate(amount, whole) >= 1.0
  {}

  lemma MulNonNeg(x: real, y: real)
    requires x >= 0.0 && y >= 0.0
    ensures x * y >= 0.0
  {}

  lemma DivNonNeg(x: real, y: real)
    requires x >= 0.0 && y > 0.0
    ensures x / y >= 0.0
  {}

  lemma MulMonotone(c: real, x: real, y: real)
    requires c >= 0.0 && x <= y
    ensures c * x <= c * y
  {}

  lemma DivMonotone(x: real, y: real, c: real)
    requires c > 0.0 && x <= y
    ensures x / c <= y / c
  {}

  lemma DivStrict(x: real, y: real, c: real)
    requires c > 0.0 && x < y
    ensures x / c < y / c
  {}

  lemma MulCongruent(c: real, x: real, y: real)
    requires x == y
    ensures c * x == c * y
  {}

  lemma MulStrict(c: real, x: real, y: real)
    requires c > 0.0 && x < y
    ensures c * x < c * y
  {}

  lemma Distribute(c: real, x: real, y: real)
    ensures c * (x + y) == c * x + c * y
    ensures c * (x - y) == c * x - c * y
  {}

  lemma Cancel(x: real, y: real)
    requires y != 0.0
    ensures x / y * y == x
    ensures x * y / y == x
  {}

  lemma Scale(x: real, y: real, z: real)
    requires z != 0.0
    ensures x * y / z == x / z * y
  {}

  lemma AddDiv(x: real, y: real, z: real)
    requires z != 0.0
    ensures (x + y) / z == x / z + y / z
  {}

  /** The square root used by a Genesis buy exceeds the supply it started from. */
  lemma RootAbove(sqrt: real -> real, x: real, s: real)
    requires SquareRoot(sqrt) && s >= 0.0 && x > s * s
    ensures sqrt(x) > s
  {
    assert RootOf(sqrt, x);
    if sqrt(x) <= s {
      assert x >= 0.0;
      MulMonotone(sqrt(x), sqrt(x), s);
      MulMonotone(s, sqrt(x), s);
    }
  }
}
