/** The LMSR potential of the Formal phase and the side-by-side cost delta the quotes use. */
module Lmsr {
  import opened Maths

  /** Potential of holding (y, n) outstanding outcome tokens with depth b. */
  function Cost(f: Functions, y: real, n: real, b: real): real
    requires b > 0.0
  {
    Max(y, n) + b * f.sp(-(Abs(y - n) / b))
  }

  /** Single-side cost delta of adding `tokens` to `own`, written so that floating point
      never subtracts two large costs. */
  function CurveDelta(f: Functions, own: real, other: real, tokens: real, b: real): real
    requires b > 0.0
  {
    var d := (own - other) / b;
    var end := d + tokens / b;
    if d >= 0.0 then tokens + b * (f.sp(-end) - f.sp(-d))
    else b * ((if end >= 0.0 then end + f.sp(-end) else f.sp(end)) - f.sp(d))
  }

  function Ln2(f: Functions): real {
    f.sp(0.0)
  }

  /** Both branches of the potential are one formula. */
  lemma CostForm(f: Functions, own: real, other: real, b: real)
    requires Lawful(f) && b > 0.0
    ensures Cost(f, own, other, b) == other + b * f.sp((own - other) / b)
    ensures Cost(f, own, other, b) == Cost(f, other, own, b)
  {
    var d := (own - other) / b;
    Cancel(own - other, b);
    assert (other - own) / b == -d;
    assert ReflectsAt(f.sp, d);
    MulCongruent(b, f.sp(d), f.sp(-d) + d);
  }

  lemma CostSymmetric(f: Functions, y: real, n: real, b: real)
    requires Lawful(f) && b > 0.0
    ensures Cost(f, y, n, b) == Cost(f, n, y, b)
  {
    CostForm(f, y, n, b);
  }

  lemma ShiftOut(b: real, t: real, tokens: real, x: real, y: real)
    requires b * t == tokens && x == y - t
    ensures tokens + b * x == b * y
  {
    Distribute(b, y, t);
    MulCongruent(b, x, y - t);
  }

  /** In each of its branches the stable delta is depth times the rise of softplus. */
  lemma DeltaIsRise(f: Functions, own: real, other: real, tokens: real, b: real)
    requires Lawful(f) && b > 0.0
    ensures var d, t := (own - other) / b, tokens / b;
      CurveDelta(f, own, other, tokens, b) == b * (f.sp(d + t) - f.sp(d))
  {
    var d, t := (own - other) / b, tokens / b;
    assert ReflectsAt(f.sp, d + t) && ReflectsAt(f.sp, d);
    if d >= 0.0 {
      assert b * t == tokens by { Cancel(tokens, b); }
      ShiftOut(b, t, tokens, f.sp(-(d + t)) - f.sp(-d), f.sp(d + t) - f.sp(d));
    }
  }

  /** The stable delta is exactly the difference of the potential. */
  lemma DeltaIsCostDifference(f: Functions, own: real, other: real, tokens: real, b: real)
    requires Lawful(f) && b > 0.0
    ensures CurveDelta(f, own, other, tokens, b)
         == Cost(f, own + tokens, other, b) - Cost(f, own, other, b)
  {
    hide CurveDelta, Cost, Lawful;
    var d, t := (own - other) / b, tokens / b;
    DeltaIsRise(f, own, other, tokens, b);
    AddDiv(own - other, tokens, b);
    assert own + tokens - other == own - other + tokens;
    CostForm(f, own, other, b);
    CostForm(f, own + tokens, other, b);
    Distribute(b, f.sp(d + t), f.sp(d));
  }

  lemma CostAtOrigin(f: Functions, b: real)
    requires Lawful(f) && b > 0.0
    ensures Cost(f, 0.0, 0.0, b) == b * Ln2(f)
  {
    assert 0.0 / b == 0.0;
  }

  lemma CostAboveMax(f: Functions, y: real, n: real, b: real)
    requires Lawful(f) && b > 0.0
    ensures Cost(f, y, n, b) > Max(y, n)
  {
    assert PositiveAt(f.sp, -(Abs(y - n) / b));
  }

  lemma CostBelow(f: Functions, y: real, n: real, b: real)
    requires Lawful(f) && b > 0.0
    ensures Cost(f, y, n, b) <= Max(y, n) + b * Ln2(f)
  {
    var x := -(Abs(y - n) / b);
    DivNonNeg(Abs(y - n), b);
    assert IncreasesFrom(f.sp, x, 0.0);
    MulMonotone(b, f.sp(x), Ln2(f));
  }

  lemma CostMonotone(f: Functions, own: real, more: real, other: real, b: real)
    requires Lawful(f) && b > 0.0 && own < more
    ensures Cost(f, own, other, b) < Cost(f, more, other, b)
  {
    CostForm(f, own, other, b);
    CostForm(f, more, other, b);
    DivStrict(own - other, more - other, b);
    assert IncreasesFrom(f.sp, (own - other) / b, (more - other) / b);
    MulStrict(b, f.sp((own - other) / b), f.sp((more - other) / b));
  }

  /** A complete pair is worth exactly one, whatever the position. */
  lemma CostShift(f: Functions, y: real, n: real, p: real, b: real)
    requires Lawful(f) && b > 0.0
    ensures Cost(f, y - p, n - p, b) == Cost(f, y, n, b) - p
  {
    assert (y - p) - (n - p) == y - n;
  }
}
