/** Where a Genesis purchase graduates: the search for the first payment at which the conditions
    hold finds it, because a market that is still in Genesis has not passed it unnoticed. */
module LifecycleGate {
  import opened Maths
  import opened Wrappers
  import opened Sums
  import opened Accounts
  import opened Ledger
  import opened ExpLog
  import opened LifecycleCurve
  import opened Lifecycle
  import opened LifecycleSafe
  import opened LifecycleRuns

  /** The part of the protected range that the search looks at. */
  const INSIDE := 1.0 - 0.000000000001

  /** A market that could graduate has done so, but for the last hair of the protected range. */
  ghost predicate NotPassed(c: Curves, m: Market) {
    (m.phase == CREATE || m.phase == GENESIS) && Eligible(c, m.q, m.R, m.b) ==> SLOPE * Weight(c, m.q, m.b) > INSIDE
  }

  // ---- along a purchase ----

  /** Weight that a payment adds. */
  function Added(b: Depth, paid: real): real {
    0.9 * paid / Slope(b)
  }

  lemma AddedScaled(b: Depth, paid: real)
    ensures SLOPE * Added(b, paid) == 0.9 * paid / b
    ensures paid >= 0.0 ==> Added(b, paid) >= 0.0
  {
    var k := Slope(b);
    Cancel(0.9 * paid, k);
    assert SLOPE * Added(b, paid) * b == 0.9 * paid;
    Cancel(SLOPE * Added(b, paid), b);
    if paid >= 0.0 {
      DivNonNeg(0.9 * paid, k);
    }
  }

  /** A payment adds to the joint weight in proportion. */
  lemma PointWeight(c: Curves, q: Pair, b: Depth, side: Outcome, paid: real)
    requires Exponential(c) && paid >= 0.0 && side != INVALID
    ensures Weight(c, BuyPoint(c, q, b, side, paid), b) == Weight(c, q, b) + Added(b, paid)
  {
    hide Slope;
    var e := c.exp(q.At(side) / b);
    ExpPositive(c, q.At(side) / b);
    AddedScaled(b, paid);
    var x := c.ln(e + Added(b, paid));
    assert InverseAt(c, e + Added(b, paid));
    Cancel(x, b);
    assert BuyPoint(c, q, b, side, paid).At(side) / b == x;
  }

  lemma AddedSum(b: Depth, x: real, d: real)
    ensures Added(b, x + d) == Added(b, x) + Added(b, d)
  {
    AddDiv(0.9 * x, 0.9 * d, Slope(b));
  }

  lemma PlusOver(u: real, g: real)
    requires u > 0.0
    ensures (u + g) / u == 1.0 + g / u
  {
    AddDiv(u, g, u);
    Itself(u);
  }

  lemma Itself(u: real)
    requires u != 0.0
    ensures u / u == 1.0
  {}

  lemma LnGain(c: Curves, u: real, v: real, g: real)
    requires Exponential(c) && u > 0.0 && g >= 0.0 && v == u + g
    ensures c.ln(v) - c.ln(u) <= g / u
  {
    LnRatio(c, u, v);
    PlusOver(u, g);
  }

  /** Near the protected edge a further payment is worth more than the cost it adds. */
  lemma SteepGain(c: Curves, b: Depth, u: real, v: real, d: real)
    requires Exponential(c) && u > 0.0 && d >= 0.0 && v == u + Added(b, d) && SLOPE * u >= 10.0 / 11.0
    ensures b * c.ln(v) - b * c.ln(u) <= 0.99 * d
  {
    hide Added, Exponential;
    AddedScaled(b, d);
    var r := Added(b, d) / u;
    LnGain(c, u, v, Added(b, d));
    GainTimesWeight(b, u, d);
    HighWeight(b * r, SLOPE * u, d);
    RiseBelow(b, c.ln(v), c.ln(u), r, 0.99 * d);
  }

  lemma RiseBelow(b: real, more: real, less: real, r: real, bound: real)
    requires b > 0.0 && more - less <= r && b * r <= bound
    ensures b * more - b * less <= bound
  {
    MulMonotone(b, more - less, r);
    Distribute(b, more, less);
  }

  /** The cost a payment adds, times the share of the weight the curve allows, is what reaches the curve. */
  lemma GainTimesWeight(b: Depth, u: real, d: real)
    requires d >= 0.0 && u > 0.0
    ensures b * (Added(b, d) / u) >= 0.0 && (d > 0.0 ==> b * (Added(b, d) / u) > 0.0)
    ensures (b * (Added(b, d) / u)) * (SLOPE * u) == 0.9 * d
  {
    hide Added;
    var g := Added(b, d);
    AddedScaled(b, d);
    assert SLOPE * g * b == 0.9 * d by { Cancel(0.9 * d, b); }
    var r := g / u;
    assert r * u == g by { Cancel(g, u); }
    Regrouped(b, r, u, g);
    assert r >= 0.0 by { DivNonNeg(g, u); }
    MulNonNeg(b, r);
    if b * r == 0.0 {
      assert 0.0 * (SLOPE * u) == 0.0;
    }
  }

  lemma HighWeight(p: real, w: real, x: real)
    requires p >= 0.0 && w >= 10.0 / 11.0 && p * w == 0.9 * x
    ensures p <= 0.99 * x
  {
    MulMonotone(p, 10.0 / 11.0, w);
  }

  lemma LowWeight(p: real, w: real, x: real)
    requires p > 0.0 && w < 10.0 / 11.0 && p * w == 0.9 * x
    ensures p > 0.99 * x
  {
    MulStrict(p, w, 10.0 / 11.0);
  }

  lemma Regrouped(b: real, r: real, u: real, g: real)
    requires r * u == g
    ensures (b * r) * (SLOPE * u) == SLOPE * g * b
  {
    assert (b * r) * (SLOPE * u) == SLOPE * (r * u) * b;
  }

  /** A payment that turns the balance in favour of graduating has made the curve steep. */
  lemma TurnedSteep(c: Curves, b: Depth, W: real, R: real, x: real)
    requires Exponential(c) && W > 0.0 && x > 0.0
    requires R < b * c.ln(W) && R + 0.99 * x >= b * c.ln(W + Added(b, x))
    ensures SLOPE * (W + Added(b, x)) >= 10.0 / 11.0
  {
    hide Added, Exponential;
    var g := Added(b, x);
    var u := W + g;
    AddedScaled(b, x);
    assert b * (g / u) <= 0.99 * x by {
      LnRise(c, u, W, g);
      MulMonotone(b, g / u, c.ln(u) - c.ln(W));
      Distribute(b, c.ln(u), c.ln(W));
    }
    GainTimesWeight(b, u, x);
    if SLOPE * u < 10.0 / 11.0 {
      LowWeight(b * (g / u), SLOPE * u, x);
    }
  }

  lemma LnRise(c: Curves, u: real, W: real, g: real)
    requires Exponential(c) && W > 0.0 && g >= 0.0 && u == W + g
    ensures c.ln(u) - c.ln(W) >= g / u
  {
    LnRatio(c, u, W);
    PlusOver(u, -g);
    assert -g / u == -(g / u);
  }

  /** The conditions after a payment, in terms of the weight alone. */
  lemma EligibleByWeight(c: Curves, m: Market, side: Outcome, paid: real)
    requires Exponential(c) && paid >= 0.0 && side != INVALID
    ensures var u := Weight(c, m.q, m.b) + Added(m.b, paid);
      && u > 0.0 && Weight(c, BuyPoint(c, m.q, m.b, side, paid), m.b) == u
      && (BuyEligible(c, m, side, paid) <==> m.R + 0.99 * paid >= m.b * c.ln(u) && SLOPE * u <= 1.0)
  {
    hide Cost, Weight, BuyPoint, Added;
    PointWeight(c, m.q, m.b, side, paid);
    WeightPositive(c, BuyPoint(c, m.q, m.b, side, paid), m.b);
    CostIsLog(c, BuyPoint(c, m.q, m.b, side, paid), m.b);
  }

  lemma EligibleNow(c: Curves, m: Market)
    requires Exponential(c)
    ensures var u := Weight(c, m.q, m.b);
      && u > 0.0 && (Eligible(c, m.q, m.R, m.b) <==> m.R >= m.b * c.ln(u) && SLOPE * u <= 1.0)
  {
    hide Cost, Weight;
    WeightPositive(c, m.q, m.b);
    CostIsLog(c, m.q, m.b);
  }

  lemma AddedOrdered(b: Depth, x: real, y: real)
    requires 0.0 <= x <= y
    ensures 0.0 <= Added(b, x) <= Added(b, y) && Added(b, 0.0) == 0.0
  {
    DivMonotone(0.9 * x, 0.9 * y, Slope(b));
    AddedScaled(b, x);
  }

  /** Where a market that has not passed the gate becomes eligible, its curve is steep. */
  lemma SteepWhereEligible(c: Curves, m: Market, side: Outcome, x: real)
    requires Exponential(c) && NotPassed(c, m) && m.phase == GENESIS && side != INVALID
    requires x >= 0.0 && BuyEligible(c, m, side, x)
    ensures SLOPE * (Weight(c, m.q, m.b) + Added(m.b, x)) >= 10.0 / 11.0
  {
    hide Cost, Weight, BuyPoint, Added, BuyEligible, Eligible, Exponential;
    EligibleByWeight(c, m, side, x);
    EligibleNow(c, m);
    AddedOrdered(m.b, 0.0, x);
    var W := Weight(c, m.q, m.b);
    MulMonotone(SLOPE, W, W + Added(m.b, x));
    if m.R < m.b * c.ln(W) {
      if x == 0.0 {
        assert false;
      } else {
        TurnedSteep(c, m.b, W, m.R, x);
      }
    }
  }

  /** Inside the protected range the conditions, once met by a payment, are met by every larger one. */
  lemma BuyEligibleFurther(c: Curves, m: Market, side: Outcome, x: real, y: real)
    requires Exponential(c) && NotPassed(c, m) && m.phase == GENESIS && side != INVALID
    requires 0.0 <= x <= y && BuyEligible(c, m, side, x)
    requires SLOPE * Weight(c, BuyPoint(c, m.q, m.b, side, y), m.b) <= 1.0
    ensures BuyEligible(c, m, side, y)
  {
    hide Cost, Weight, BuyPoint, Added, BuyEligible, Eligible, Exponential, NotPassed;
    EligibleByWeight(c, m, side, x);
    EligibleByWeight(c, m, side, y);
    EligibleNow(c, m);
    SteepWhereEligible(c, m, side, x);
    AddedSum(m.b, x, y - x);
    AddedOrdered(m.b, 0.0, x);
    var W := Weight(c, m.q, m.b);
    SteepGain(c, m.b, W + Added(m.b, x), W + Added(m.b, y), y - x);
  }

  /** What may still be paid, by the weight: up to a hair below the edge of the protected range. */
  function Room(W: real, b: Depth): real {
    Max(0.0, (1.0 / SLOPE - W) * SLOPE * b / 0.9) * INSIDE
  }

  lemma ProbeIsRoom(c: Curves, m: Market, amount: real)
    ensures Probe(c, m, amount) == Min(amount, Room(Weight(c, m.q, m.b), m.b))
  {
    hide Weight;
  }

  /** Payments up to the probe are exactly those that stay inside the protected range. */
  lemma ProbeCovers(c: Curves, m: Market, side: Outcome, amount: real, x: real)
    requires Exponential(c) && side != INVALID && 0.0 < x <= amount
    requires SLOPE * Weight(c, BuyPoint(c, m.q, m.b, side, x), m.b) <= INSIDE
    ensures x <= Probe(c, m, amount)
    ensures SLOPE * Weight(c, BuyPoint(c, m.q, m.b, side, Probe(c, m, amount)), m.b) <= 1.0
  {
    hide Weight, BuyPoint, Added, Exponential, Room, Probe;
    ProbeIsRoom(c, m, amount);
    var W, p := Weight(c, m.q, m.b), Probe(c, m, amount);
    PointWeight(c, m.q, m.b, side, x);
    AddedScaled(m.b, x);
    EligibleNow(c, m);
    ProbeRange(W, m.b, x);
    PointWeight(c, m.q, m.b, side, p);
    AddedScaled(m.b, p);
    ProbeInside(W, m.b, p);
  }

  lemma ProbeRange(W: real, b: Depth, x: real)
    requires W > 0.0 && SLOPE * W + 0.9 * x / b <= INSIDE
    ensures x <= Room(W, b)
  {
    var s, t := SLOPE * W, 0.9 * x / b;
    Cancel(0.9 * x, b);
    assert (1.0 / SLOPE - W) * SLOPE == 1.0 - s;
    var room := (1.0 - s) * INSIDE;
    assert t <= room;
    MulMonotone(b, t, room);
    assert b * room == (1.0 - s) * b * INSIDE;
  }

  lemma ProbeInside(W: real, b: Depth, p: real)
    requires 0.0 < p <= Room(W, b)
    ensures SLOPE * W + 0.9 * p / b <= 1.0
  {
    var s := SLOPE * W;
    assert (1.0 / SLOPE - W) * SLOPE == 1.0 - s;
    assert 0.9 * p <= (1.0 - s) * b;
    DivMonotone(0.9 * p, (1.0 - s) * b, b);
    Cancel(1.0 - s, b);
  }

  /** If any payment within an order meets the conditions inside the protected range, the order
      graduates, and it pays in Genesis at most 2^-60 of the range looked at more than the smallest
      such payment. */
  lemma BuyStopsAtFirstGate(c: Curves, m: Market, side: Outcome, amount: real, x: real)
    requires Exponential(c) && NotPassed(c, m) && m.phase == GENESIS && side != INVALID
    requires 0.0 < x <= amount && BuyEligible(c, m, side, x)
    requires SLOPE * Weight(c, BuyPoint(c, m.q, m.b, side, x), m.b) <= INSIDE
    ensures BuyReaches(c, m, side, amount)
    ensures BuyStop(c, m, side, amount) <= x + Halved(Probe(c, m, amount), 60)
  {
    hide Weight, BuyPoint, BuyEligible, Exponential, NotPassed, Halved, Gate, Probe;
    var p := Probe(c, m, amount);
    ProbeCovers(c, m, side, amount, x);
    BuyEligibleFurther(c, m, side, x, p);
    var test := BuyTest(c, m, side);
    forall y, z | 0.0 <= y <= z <= p && test(y) ensures test(z) {
      PointOrdered(c, m, side, z, p);
      BuyEligibleFurther(c, m, side, y, z);
    }
    GateIsFirst(test, 0.0, p, 60, x);
  }

  lemma PointOrdered(c: Curves, m: Market, side: Outcome, x: real, y: real)
    requires Exponential(c) && side != INVALID && 0.0 <= x <= y
    ensures SLOPE * Weight(c, BuyPoint(c, m.q, m.b, side, x), m.b)
         <= SLOPE * Weight(c, BuyPoint(c, m.q, m.b, side, y), m.b)
  {
    hide Weight, BuyPoint, Added, Exponential;
    PointWeight(c, m.q, m.b, side, x);
    PointWeight(c, m.q, m.b, side, y);
    AddedOrdered(m.b, x, y);
  }

  // ---- no run passes the gate unnoticed ----

  lemma SameBook(c: Curves, m: Market, owner: int, side: Outcome, q: Pair, actual: real)
    requires m.Has(owner) && m.phase == GENESIS
    ensures var n := Charged(Paid(m, owner, side, q, actual), 0.01 * actual, false);
      n.Ok? && n.value.q == q && n.value.R == m.R + 0.99 * actual && n.value.b == m.b && n.value.phase == GENESIS
  {}

  lemma BuyNotPassed(c: Curves, m: Market, owner: int, side: Outcome, amount: real)
    requires Exponential(c) && NotPassed(c, m) && m.phase == GENESIS && TradeFault(m, owner, side, amount).None?
    requires Bought(c, m, owner, side, amount).Ok?
    ensures NotPassed(c, Bought(c, m, owner, side, amount).value)
  {
    hide Weight, BuyPoint, Exponential, Probe, Paid, Charged, Cost, Sum;
    if !BuyReaches(c, m, side, amount) {
      var q := BuyPoint(c, m.q, m.b, side, amount);
      SameBook(c, m, owner, side, q, amount);
      if BuyEligible(c, m, side, amount) && SLOPE * Weight(c, q, m.b) <= INSIDE {
        BuyStopsAtFirstGate(c, m, side, amount, amount);
      }
    }
  }

  lemma SellNotPassed(c: Curves, m: Market, owner: int, side: Outcome, amount: real)
    requires m.phase == GENESIS && TradeFault(m, owner, side, amount).None?
    requires Sold(c, m, owner, side, amount).Ok? && Sold(c, m, owner, side, amount).value.0.Has(owner)
    ensures var s := Sold(c, m, owner, side, amount).value;
      NotPassed(c, PaidOut(s.0, owner, side, amount, s.1))
  {
    hide Weight, SellPoint, SellCash, Cost, Sum, Gate, Eligible;
  }

  lemma FormalStays(c: Curves, m: Market, a: Move)
    requires a.Order? && m.phase != GENESIS
    ensures After(c, m, a).phase == m.phase && (m.phase == CREATE ==> After(c, m, a) == m)
  {
    hide Sum, Cost, LedgerHolds, QuantityAtCost, RewardAll, Eligible;
  }

  lemma StepNotPassed(c: Curves, m: Market, a: Move)
    requires Exponential(c) && NotPassed(c, m)
    ensures NotPassed(c, After(c, m, a))
  {
    hide Bought, Sold, PaidOut, Weight, Cost, Sum, LedgerHolds, PayoutsOf, TerminalPayouts;
    match a {
      case Order(owner, side, mode, amount) =>
        if m.phase != GENESIS {
          FormalStays(c, m, a);
        } else if Trade(c, m, owner, side, mode, amount).Ok? {
          if mode == BUY {
            BuyNotPassed(c, m, owner, side, amount);
          } else {
            SellNotPassed(c, m, owner, side, amount);
          }
        }
      case _ =>
    }
  }

  lemma {:induction false} RunNotPassed(c: Curves, m: Market, moves: seq<Move>)
    requires Exponential(c) && NotPassed(c, m)
    ensures NotPassed(c, Run(c, m, moves))
    decreases |moves|
  {
    hide After, NotPassed, Exponential;
    if moves != [] {
      StepNotPassed(c, m, moves[0]);
      RunNotPassed(c, After(c, m, moves[0]), moves[1..]);
    }
  }

  /** No run leaves a market in Genesis that could have graduated, but for the last hair of the
      protected range. */
  lemma NewMarketNotPassed(c: Curves, b: real, moves: seq<Move>)
    requires Exponential(c) && NewMarket(b).Ok?
    ensures NotPassed(c, Run(c, NewMarket(b).value, moves))
  {
    hide Run, Cost, Weight;
    var m := NewMarket(b).value;
    CostAboveMax(c, m.q, m.b);
    RunNotPassed(c, m, moves);
  }
}
