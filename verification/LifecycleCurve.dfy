/** The two curves of the lifecycle demo: one reversible potential per side in Genesis, and one
    joint LMSR cost after graduation; and the condition under which moving from the first to the
    second never hurts a seller. */
module LifecycleCurve {
  import opened Maths
  import opened Wrappers
  import opened Accounts
  import opened ExpLog

  type Depth = b: real | 1.0 <= b <= 1000.0 witness 1.0

  datatype Pair = Pair(yes: real, no: real) {
    function At(side: Outcome): real {
      if side == YES then yes else no
    }

    function Other(side: Outcome): real {
      if side == YES then no else yes
    }

    function With(side: Outcome, v: real): Pair {
      if side == YES then this.(yes := v) else this.(no := v)
    }
  }

  const SLOPE := 0.009

  function Cost(c: Curves, q: Pair, b: Depth): real {
    Max(q.yes, q.no) + b * c.ln(1.0 + c.exp(-(Abs(q.yes - q.no) / b)))
  }

  function Slope(b: Depth): (k: real)
    ensures k > 0.0
  {
    SLOPE * b
  }

  /** Cash the Genesis curve of one side holds at quantity q. */
  function Potential(c: Curves, q: real, b: Depth): real {
    Slope(b) * (c.exp(q / b) - 1.0)
  }

  function Weight(c: Curves, q: Pair, b: Depth): real {
    c.exp(q.yes / b) + c.exp(q.no / b)
  }

  function Potentials(c: Curves, q: Pair, b: Depth): real {
    Potential(c, q.yes, b) + Potential(c, q.no, b)
  }

  /** Enough money for every outcome, and still steep enough that exits are protected. */
  predicate Eligible(c: Curves, q: Pair, R: real, b: Depth) {
    R >= Cost(c, q, b) && SLOPE * Weight(c, q, b) <= 1.0
  }

  /** Quantity that fills the joint weight up to exp(C) when the other side weighs exp(C + gap). */
  function FillTo(c: Curves, b: Depth, C: real, gap: real): real {
    b * (C + c.ln(-(c.exp(gap) - 1.0)))
  }

  /** The position at which the joint cost is C times the depth. */
  function QuantityAtCost(c: Curves, q: Pair, b: Depth, C: real, side: Outcome): Option<Pair> {
    var gap := q.Other(side) / b - C;
    if gap >= 0.0 then None
    else Some(q.With(side, FillTo(c, b, C, gap)))
  }

  /** The position after paying `paid` in Genesis, of which nine tenths go to the curve. */
  function BuyPoint(c: Curves, q: Pair, b: Depth, side: Outcome, paid: real): Pair {
    q.With(side, b * c.ln(c.exp(q.At(side) / b) + 0.9 * paid / Slope(b)))
  }

  function SellPoint(q: Pair, side: Outcome, sold: real): Pair {
    q.With(side, Max(0.0, q.At(side) - sold))
  }

  function SellCash(c: Curves, q: Pair, b: Depth, side: Outcome, sold: real): real {
    Max(0.0, Potential(c, q.At(side), b) - Potential(c, SellPoint(q, side, sold).At(side), b))
  }

  // ---- the joint cost ----

  lemma WeightPositive(c: Curves, q: Pair, b: Depth)
    requires Exponential(c)
    ensures Weight(c, q, b) > 0.0
  {
    ExpPositive(c, q.yes / b);
    ExpPositive(c, q.no / b);
  }

  /** The cost is depth times the logarithm of the joint weight. */
  lemma CostIsLog(c: Curves, q: Pair, b: Depth)
    requires Exponential(c)
    ensures Cost(c, q, b) == b * c.ln(Weight(c, q, b))
  {
    var hi, lo := Max(q.yes, q.no), Min(q.yes, q.no);
    CostIsLogOf(c, hi, lo, b);
    assert Abs(q.yes - q.no) == hi - lo;
    assert Weight(c, q, b) == c.exp(hi / b) + c.exp(lo / b);
  }

  lemma CostIsLogOf(c: Curves, hi: real, lo: real, b: Depth)
    requires Exponential(c)
    ensures hi + b * c.ln(1.0 + c.exp(-((hi - lo) / b))) == b * c.ln(c.exp(hi / b) + c.exp(lo / b))
  {
    var x, d := hi / b, -((hi - lo) / b);
    AddDiv(hi, -(hi - lo), b);
    assert x + d == lo / b;
    assert AddsAt(c.exp, x, d);
    ExpPositive(c, x);
    ExpPositive(c, d);
    var whole := c.exp(hi / b) + c.exp(lo / b);
    Distribute(c.exp(x), 1.0, c.exp(d));
    LnProduct(c, c.exp(x), 1.0 + c.exp(d), whole);
    LnExp(c, x);
    var rest := c.ln(1.0 + c.exp(d));
    assert c.ln(whole) == x + rest;
    Distribute(b, x, rest);
    MulCongruent(b, c.ln(whole), x + rest);
    assert b * x == hi by { Cancel(hi, b); }
  }

  lemma CostAboveMax(c: Curves, q: Pair, b: Depth)
    requires Exponential(c)
    ensures Cost(c, q, b) > Max(q.yes, q.no)
  {
    var e := c.exp(-(Abs(q.yes - q.no) / b));
    ExpPositive(c, -(Abs(q.yes - q.no) / b));
    LnPositive(c, 1.0 + e);
    MulStrict(b, 0.0, c.ln(1.0 + e));
  }

  lemma ExpNotLess(c: Curves, x: real, y: real)
    requires Exponential(c) && x <= y
    ensures c.exp(x) <= c.exp(y)
  {
    if x < y {
      ExpIncreasing(c, x, y);
    }
  }

  lemma WeightOrdered(c: Curves, less: Pair, more: Pair, b: Depth)
    requires Exponential(c) && less.yes <= more.yes && less.no <= more.no
    ensures Weight(c, less, b) <= Weight(c, more, b)
  {
    DivMonotone(less.yes, more.yes, b);
    DivMonotone(less.no, more.no, b);
    ExpNotLess(c, less.yes / b, more.yes / b);
    ExpNotLess(c, less.no / b, more.no / b);
  }

  lemma CostOrdered(c: Curves, less: Pair, more: Pair, b: Depth)
    requires Exponential(c) && less.yes <= more.yes && less.no <= more.no
    ensures Cost(c, less, b) <= Cost(c, more, b)
  {
    var w, v := Weight(c, less, b), Weight(c, more, b);
    WeightPositive(c, less, b);
    WeightOrdered(c, less, more, b);
    CostIsLog(c, less, b);
    CostIsLog(c, more, b);
    if w < v {
      LnIncreasing(c, w, v);
      MulMonotone(b, c.ln(w), c.ln(v));
    }
  }

  /** Filling up to a joint weight of exp(C) next to a side that already weighs exp(o). */
  lemma Fill(c: Curves, C: real, o: real)
    requires Exponential(c) && o < C
    ensures c.exp(o - C) < 1.0
    ensures c.exp(C + c.ln(-(c.exp(o - C) - 1.0))) + c.exp(o) == c.exp(C)
  {
    var gap := o - C;
    ExpZero(c);
    ExpIncreasing(c, gap, 0.0);
    var u := -(c.exp(gap) - 1.0);
    assert AddsAt(c.exp, C, c.ln(u)) && InverseAt(c, u);
    assert AddsAt(c.exp, C, gap) && C + gap == o;
    Distribute(c.exp(C), 1.0, c.exp(gap));
    MulCongruent(c.exp(C), c.exp(c.ln(u)), u);
  }

  lemma FillAt(c: Curves, b: Depth, C: real, gap: real)
    ensures FillTo(c, b, C, gap) / b == C + c.ln(-(c.exp(gap) - 1.0))
  {
    Cancel(C + c.ln(-(c.exp(gap) - 1.0)), b);
  }

  lemma CostOfWeight(c: Curves, q: Pair, b: Depth, cost: real)
    requires Exponential(c) && Weight(c, q, b) == c.exp(cost / b)
    ensures Cost(c, q, b) == cost
  {
    CostIsLog(c, q, b);
    LnExp(c, cost / b);
    Cancel(cost, b);
    MulCongruent(b, c.ln(Weight(c, q, b)), cost / b);
  }

  /** Buying `gain` worth of the joint curve raises its cost by exactly `gain`. */
  lemma QuantityExact(c: Curves, q: Pair, b: Depth, gain: real, side: Outcome)
    requires Exponential(c) && gain > 0.0
    ensures var r := QuantityAtCost(c, q, b, (Cost(c, q, b) + gain) / b, side);
      && r.Some? && Cost(c, r.value, b) == Cost(c, q, b) + gain
      && r.value.At(side) > q.At(side) && r.value.Other(side) == q.Other(side)
  {
    hide Cost, FillTo;
    var cost := Cost(c, q, b) + gain;
    var C, o := cost / b, q.Other(side) / b;
    CostAboveMax(c, q, b);
    DivStrict(q.Other(side), cost, b);
    Fill(c, C, o);
    var r := q.With(side, FillTo(c, b, C, o - C));
    FillAt(c, b, C, o - C);
    assert Weight(c, r, b) == c.exp(C);
    CostOfWeight(c, r, b, cost);
    if r.At(side) <= q.At(side) {
      CostOrdered(c, r, q, b);
    }
  }

  // ---- the Genesis curves ----

  /** Adding d to a side's weight moves it up its curve by Slope(b) * d. */
  lemma PotentialGain(c: Curves, q: real, b: Depth, d: real, r: real)
    requires Exponential(c) && d > 0.0 && r == b * c.ln(c.exp(q / b) + d)
    ensures r > q && Potential(c, r, b) == Potential(c, q, b) + Slope(b) * d
  {
    hide Slope;
    var e, x := c.exp(q / b), c.ln(c.exp(q / b) + d);
    ExpPositive(c, q / b);
    assert r / b == x by { Cancel(x, b); }
    assert InverseAt(c, e + d);
    assert c.exp(r / b) == e + d;
    SlopeShift(Slope(b), c.exp(r / b), e, d);
    LnIncreasing(c, e, e + d);
    LnExp(c, q / b);
    MulStrict(b, q / b, x);
    Cancel(q, b);
  }

  lemma SlopeShift(k: real, more: real, less: real, d: real)
    requires more == less + d
    ensures k * (more - 1.0) == k * (less - 1.0) + k * d
  {}

  /** Paying raises the side's potential by exactly the nine tenths that go to the curve. */
  lemma BuyExact(c: Curves, q: Pair, b: Depth, side: Outcome, paid: real)
    requires Exponential(c) && paid > 0.0 && side != INVALID
    ensures var r := BuyPoint(c, q, b, side, paid);
      && r.At(side) > q.At(side) && r.Other(side) == q.Other(side)
      && Potentials(c, r, b) == Potentials(c, q, b) + 0.9 * paid
  {
    hide Potential, Slope;
    var d := 0.9 * paid / Slope(b);
    DivStrict(0.0, 0.9 * paid, Slope(b));
    PotentialGain(c, q.At(side), b, d, BuyPoint(c, q, b, side, paid).At(side));
    assert Slope(b) * d == 0.9 * paid by { Cancel(0.9 * paid, Slope(b)); }
  }

  lemma PotentialOrdered(c: Curves, less: real, more: real, b: Depth)
    requires Exponential(c) && less <= more
    ensures Potential(c, less, b) <= Potential(c, more, b)
  {
    DivMonotone(less, more, b);
    ExpNotLess(c, less / b, more / b);
    MulMonotone(Slope(b), c.exp(less / b) - 1.0, c.exp(more / b) - 1.0);
  }

  lemma PotentialAtZero(c: Curves, b: Depth)
    requires Exponential(c)
    ensures Potential(c, 0.0, b) == 0.0
  {
    ExpZero(c);
    assert 0.0 / b == 0.0;
  }

  lemma PotentialNonNegative(c: Curves, q: real, b: Depth)
    requires Exponential(c) && q >= 0.0
    ensures Potential(c, q, b) >= 0.0
  {
    PotentialAtZero(c, b);
    PotentialOrdered(c, 0.0, q, b);
  }

  lemma PotentialsAreWeight(c: Curves, q: Pair, b: Depth)
    ensures Potentials(c, q, b) == Slope(b) * (Weight(c, q, b) - 2.0)
  {
    Distribute(Slope(b), c.exp(q.yes / b) - 1.0, c.exp(q.no / b) - 1.0);
  }

  // ---- graduation protects exits ----

  /** While SLOPE times the weight is at most one, every reduction of holdings is worth at least as
      much on the joint curve as on the Genesis curves. */
  lemma ExitProtected(c: Curves, from: Pair, to: Pair, b: Depth)
    requires Exponential(c) && SLOPE * Weight(c, from, b) <= 1.0
    requires to.yes <= from.yes && to.no <= from.no
    ensures Cost(c, from, b) - Cost(c, to, b) >= Potentials(c, from, b) - Potentials(c, to, b)
  {
    hide Cost, Weight, Potential, Slope;
    var w, v := Weight(c, from, b), Weight(c, to, b);
    WeightPositive(c, from, b);
    WeightPositive(c, to, b);
    WeightOrdered(c, to, from, b);
    CostIsLog(c, from, b);
    CostIsLog(c, to, b);
    PotentialsAreWeight(c, from, b);
    PotentialsAreWeight(c, to, b);
    LogFallsFaster(c, b, w, v);
  }

  lemma LogFallsFaster(c: Curves, b: Depth, w: real, v: real)
    requires Exponential(c) && 0.0 < v <= w && SLOPE * w <= 1.0
    ensures b * c.ln(w) - b * c.ln(v) >= Slope(b) * (w - 2.0) - Slope(b) * (v - 2.0)
  {
    LnRatio(c, w, v);
    SlopeBound(w, v);
    MulMonotone(b, SLOPE * (w - v), c.ln(w) - c.ln(v));
    Distribute(b, c.ln(w), c.ln(v));
    Regroup(SLOPE, b, w, v);
  }

  lemma SlopeBound(w: real, v: real)
    requires 0.0 < v <= w && SLOPE * w <= 1.0
    ensures 1.0 - v / w >= SLOPE * (w - v)
  {
    var r := v / w;
    Cancel(v, w);
    assert r <= 1.0 by { DivMonotone(v, w, w); }
    MulMonotone(1.0 - r, SLOPE * w, 1.0);
    assert (1.0 - r) * (SLOPE * w) == SLOPE * (w - r * w);
  }

  lemma Regroup(k: real, b: real, w: real, v: real)
    ensures k * b * (w - 2.0) - k * b * (v - 2.0) == b * (k * (w - v))
  {}

  /** Selling on after the two conditions hold keeps them. */
  lemma EligibleFurther(c: Curves, from: Pair, to: Pair, R: real, b: Depth)
    requires Exponential(c) && Eligible(c, from, R, b) && to.yes <= from.yes && to.no <= from.no
    ensures Eligible(c, to, R - (Potentials(c, from, b) - Potentials(c, to, b)), b)
  {
    ExitProtected(c, from, to, b);
    WeightOrdered(c, to, from, b);
    MulMonotone(SLOPE, Weight(c, to, b), Weight(c, from, b));
  }

  /** A market can only graduate on capital beyond what its curves hold. */
  lemma EligibleNeedsCapital(c: Curves, q: Pair, R: real, b: Depth)
    requires Exponential(c) && Eligible(c, q, R, b) && q.yes >= 0.0 && q.no >= 0.0
    ensures R > Potentials(c, q, b)
  {
    var origin := Pair(0.0, 0.0);
    ExitProtected(c, q, origin, b);
    CostAboveMax(c, origin, b);
    PotentialAtZero(c, b);
  }
}
