/** The smallest budget that buys a number of Genesis shares, through the contract's roundings. */
module ShareQuote {
  import opened Wrappers

  /** On-chain amounts are unsigned; the gap to graduation is a difference of two of them. */
  datatype BuyState = BuyState(virtualQuote: nat, reserve: nat, tokenReserve: nat, cumulative: nat,
                               locked: nat, gap: int, capitalBps: Option<nat>)
  {
    function Bps(): nat {
      if capitalBps.Some? then capitalBps.value else 900
    }
  }

  datatype Answer = Answer(budget: int, maximum: int)

  datatype Refusal = NOTHING_TO_BUY

  function CeilDiv(a: int, b: int): int
    requires b > 0
  {
    (a + b - 1) / b
  }

  /** The budget that closes the gap to graduation; more is never retained. */
  function Cap(s: BuyState): (c: int)
    ensures s.gap > 0 ==> c >= 1
  {
    CeilDiv(s.gap * 10000, 9900)
  }

  function Retained(s: BuyState, budget: nat): int {
    var retained := budget * 9900 / 10000;
    if retained < s.gap then retained else s.gap
  }

  function Curve(s: BuyState, retained: int): int {
    retained - ((s.cumulative + retained) * s.Bps() / 9900 - s.locked)
  }

  function Tokens(s: BuyState, curve: int): int {
    if curve <= 0 then 0 else s.tokenReserve * curve / (s.virtualQuote + s.reserve + curve)
  }

  function Output(s: BuyState, budget: nat): int {
    Tokens(s, Curve(s, Retained(s, budget)))
  }

  // ---- what a budget buys, by the contract's inequalities ----

  /** `r` is retained: 99% of the budget, rounded down, but never more than the gap. */
  predicate Retains(s: BuyState, budget: nat, r: int) {
    && 100 * r <= 99 * budget && r <= s.gap
    && (r == s.gap || 99 * budget < 100 * (r + 1))
  }

  /** `k` of it is locked as capital: the capital share of everything retained so far, rounded down,
      less what is locked already. */
  predicate Locks(s: BuyState, r: int, k: int) {
    var bps := match s.capitalBps case Some(b) => b case None => 900;
    9900 * (k + s.locked) <= (s.cumulative + r) * bps < 9900 * (k + s.locked + 1)
  }

  /** `n` shares are the most that `c` buys along the constant product of both reserves. */
  predicate MostShares(s: BuyState, c: int, n: int) {
    var reserves := s.virtualQuote + s.reserve + c;
    if c <= 0 then n == 0
    else n * reserves <= s.tokenReserve * c < (n + 1) * reserves
  }

  /** A budget buys `n` shares: what is retained and not locked buys them. */
  ghost predicate Buys(s: BuyState, budget: nat, n: int) {
    exists r, k :: Retains(s, budget, r) && Locks(s, r, k) && MostShares(s, r - k, n)
  }

  /** `cap` is the smallest budget of which the whole gap is retained. */
  predicate Closes(s: BuyState, cap: int) {
    99 * cap >= 100 * s.gap && 99 * (cap - 1) < 100 * s.gap
  }

  lemma RetainsExact(s: BuyState, budget: nat, r: int)
    ensures Retains(s, budget, r) <==> r == Retained(s, budget)
  {
    FloorSpan(budget * 9900, 10000);
  }

  lemma LocksExact(s: BuyState, r: int, k: int)
    ensures Locks(s, r, k) <==> k == r - Curve(s, r)
  {
    var v := (s.cumulative + r) * s.Bps();
    FloorSpan(v, 9900);
    if Locks(s, r, k) {
      FloorIs(k + s.locked, 9900, v);
    }
  }

  lemma MostSharesExact(s: BuyState, c: int, n: int)
    ensures MostShares(s, c, n) <==> n == Tokens(s, c)
  {
    if c > 0 {
      var d := s.virtualQuote + s.reserve + c;
      FloorSpan(s.tokenReserve * c, d);
      assert (n + 1) * d == n * d + d;
      if MostShares(s, c, n) {
        FloorIs(n, d, s.tokenReserve * c);
      }
    }
  }

  /** A budget buys exactly one number of shares, and the quoted output is that number. */
  lemma BuysOutput(s: BuyState, budget: nat, n: int)
    ensures Buys(s, budget, n) <==> n == Output(s, budget)
  {
    hide Retained, Curve, Tokens, Retains, Locks, MostShares;
    var r := Retained(s, budget);
    var k := r - Curve(s, r);
    RetainsExact(s, budget, r);
    LocksExact(s, r, k);
    MostSharesExact(s, r - k, n);
    if n == Output(s, budget) {
      assert Retains(s, budget, r) && Locks(s, r, k) && MostShares(s, r - k, n);
    }
    if Buys(s, budget, n) {
      var r', k' :| Retains(s, budget, r') && Locks(s, r', k') && MostShares(s, r' - k', n);
      RetainsExact(s, budget, r');
      LocksExact(s, r', k');
    }
  }

  lemma CapCloses(s: BuyState)
    requires s.gap > 0
    ensures Closes(s, Cap(s))
  {
    FloorSpan(s.gap * 10000 + 9899, 9900);
  }

  /** The search is sound for `s`: no budget buys more than the cap does. */
  ghost predicate MaximumBounds(s: BuyState)
    requires s.gap > 0
  {
    forall b: nat :: Output(s, b) <= Output(s, Cap(s))
  }

  // ---- monotonicity, floor by floor ----

  lemma FloorSpan(x: int, d: int)
    requires d > 0
    ensures x / d * d <= x < x / d * d + d
  {
    assert x == x / d * d + x % d;
  }

  lemma FloorIs(q: int, d: int, x: int)
    requires d > 0 && q * d <= x < q * d + d
    ensures x / d == q
  {
    FloorSpan(x, d);
    Between(q, x / d, d);
    Between(x / d, q, d);
  }

  lemma Between(q: int, p: int, d: int)
    requires d > 0 && q * d < p * d + d
    ensures q <= p
  {
    assert (p + 1) * d == p * d + d;
    if q > p {
      Ordered(d, p + 1, q);
    }
  }

  lemma FloorMonotone(x: int, y: int, d: int)
    requires x <= y && d > 0
    ensures x / d <= y / d
  {
    FloorSpan(x, d);
    FloorSpan(y, d);
    Between(x / d, y / d, d);
  }

  lemma RetainedMonotone(s: BuyState, b: nat, c: nat)
    requires b <= c
    ensures Retained(s, b) <= Retained(s, c)
  {
    FloorMonotone(b * 9900, c * 9900, 10000);
  }

  lemma CapClosesGap(s: BuyState)
    requires s.gap > 0
    ensures Cap(s) >= 1 && Retained(s, Cap(s)) == s.gap
  {
    FloorMonotone(s.gap * 10000, Cap(s) * 9900, 10000);
  }

  /** At most 9900 of every 9900 retained units go to capital, so the curve part never shrinks. */
  lemma {:induction false} CurveMonotone(s: BuyState, r: int, t: int)
    requires s.Bps() <= 9900 && r <= t
    ensures Curve(s, r) <= Curve(s, t)
    decreases t - r
  {
    if r < t {
      CurveMonotone(s, r, t - 1);
      var x := (s.cumulative + t - 1) * s.Bps();
      assert (s.cumulative + t) * s.Bps() == x + s.Bps();
      FloorMonotone(x + s.Bps(), x + 9900, 9900);
    }
  }

  lemma QuotientMonotone(a: int, b: int, c: int, d: int)
    requires b > 0 && d > 0 && a * d <= c * b
    ensures a / b <= c / d
  {
    var q := a / b;
    FloorSpan(a, b);
    Ordered(d, q * b, a);
    Regroup(q, b, d);
    assert (c + 1) * b == c * b + b;
    if c < q * d {
      Ordered(b, c + 1, q * d);
    }
    FloorSpan(c, d);
    Between(q, c / d, d);
  }

  lemma Regroup(x: int, y: int, z: int)
    ensures x * y * z == x * z * y
  {}

  lemma Ordered(k: int, x: int, y: int)
    requires k >= 0 && x <= y
    ensures x * k <= y * k
  {}

  lemma TokensMonotone(s: BuyState, x: int, y: int)
    requires x <= y
    ensures Tokens(s, x) <= Tokens(s, y)
  {
    var V := s.virtualQuote + s.reserve;
    if x > 0 {
      CrossProduct(s.tokenReserve, V, x, y);
      QuotientMonotone(s.tokenReserve * x, V + x, s.tokenReserve * y, V + y);
    } else if y > 0 {
      FloorMonotone(0, s.tokenReserve * y, V + y);
    }
  }

  lemma CrossProduct(T: nat, V: nat, x: int, y: int)
    requires 0 <= x <= y
    ensures (T * x) * (V + y) <= (T * y) * (V + x)
  {
    Ordered(V * T, x, y);
    assert (T * x) * (V + y) == x * (V * T) + T * x * y;
    assert (T * y) * (V + x) == y * (V * T) + T * x * y;
  }

  lemma OutputMonotone(s: BuyState, b: nat, c: nat)
    requires s.Bps() <= 9900 && b <= c
    ensures Output(s, b) <= Output(s, c)
  {
    RetainedMonotone(s, b, c);
    CurveMonotone(s, Retained(s, b), Retained(s, c));
    TokensMonotone(s, Curve(s, Retained(s, b)), Curve(s, Retained(s, c)));
  }

  /** No budget buys more than the cap does. */
  lemma MaximumIsBound(s: BuyState)
    requires s.Bps() <= 9900 && s.gap > 0
    ensures MaximumBounds(s)
  {
    CapClosesGap(s);
    forall b: nat ensures Output(s, b) <= Output(s, Cap(s)) {
      if b <= Cap(s) {
        OutputMonotone(s, b, Cap(s));
      } else {
        RetainedMonotone(s, Cap(s), b);
      }
    }
  }

  /** A larger capital share breaks the search: here one unit buys 3 shares, and the largest
      budget that is looked at buys 2. */
  function Breaking(bps: nat): BuyState
    requires bps > 9900
  {
    BuyState(2 * (bps - 9900), 0, 6, 0, 2 * (bps - 9900), 9900, Some(bps))
  }

  lemma BreakingOutputs(bps: nat)
    requires bps > 9900
    ensures Output(Breaking(bps), 1) == 3
    ensures Cap(Breaking(bps)) == 10000 && Output(Breaking(bps), 10000) == 2
  {
    var s, d := Breaking(bps), bps - 9900;
    assert Curve(s, 0) == 2 * d;
    assert 6 * (2 * d) / (2 * d + 2 * d) == 3 by { FloorIs(3, 4 * d, 12 * d); }
    assert (0 + 9900) * bps / 9900 == bps by { FloorIs(bps, 9900, 9900 * bps); }
    assert Curve(s, 9900) == d;
    assert 6 * d / (2 * d + d) == 2 by { FloorIs(2, 3 * d, 6 * d); }
  }

  /** The quote is right for every market with this capital share exactly when the share is at
      most 9900 basis points. */
  lemma SoundExactlyTo9900(bps: nat)
    ensures (forall s: BuyState :: s.gap > 0 && s.Bps() == bps ==> MaximumBounds(s)) <==> bps <= 9900
  {
    if bps <= 9900 {
      forall s: BuyState | s.gap > 0 && s.Bps() == bps ensures MaximumBounds(s) {
        MaximumIsBound(s);
      }
    } else {
      var s := Breaking(bps);
      BreakingOutputs(bps);
      assert s.gap > 0 && s.Bps() == bps;
      assert Output(s, 1) > Output(s, Cap(s));
    }
  }

  /** The answer in terms of what budgets buy: `maximum` is bought by the budget that closes the gap;
      a budget is given exactly if that suffices; it buys the shares and one unit less does not. Up to
      9900 basis points of capital no budget buys more than `maximum`, and no smaller positive budget
      than the one given, or none at all, buys the shares. */
  ghost predicate Quotes(s: BuyState, shares: int, r: Answer) {
    && (exists cap: nat :: Closes(s, cap) && Buys(s, cap, r.maximum))
    && (r.budget == 0 <==> shares > r.maximum) && r.budget >= 0
    && (r.budget > 0 ==> exists n :: Buys(s, r.budget, n) && n >= shares)
    && (forall b: nat, n :: 0 < b == r.budget - 1 && Buys(s, b, n) ==> n < shares)
    && (s.capitalBps.None? || s.capitalBps.value <= 9900 ==>
          forall b: nat, n :: Buys(s, b, n) ==>
            n <= r.maximum && (b > 0 && (r.budget == 0 || b < r.budget) ==> n < shares))
  }

  lemma QuotesIf(s: BuyState, shares: int, r: Answer)
    requires s.gap > 0 && r.maximum == Output(s, Cap(s)) && (r.budget == 0 <==> shares > r.maximum) && r.budget >= 0
    requires r.budget > 0 ==> Output(s, r.budget) >= shares
    requires r.budget > 1 ==> Output(s, r.budget - 1) < shares
    ensures Quotes(s, shares, r)
  {
    hide Output, Buys, Closes;
    CapCloses(s);
    BuysOutput(s, Cap(s), r.maximum);
    if r.budget > 0 {
      BuysOutput(s, r.budget, Output(s, r.budget));
    }
    forall b: nat, n | 0 < b == r.budget - 1 && Buys(s, b, n) ensures n < shares {
      BuysOutput(s, b, n);
    }
    if s.Bps() <= 9900 {
      MaximumIsBound(s);
      forall b: nat, n | Buys(s, b, n)
        ensures n <= r.maximum && (b > 0 && (r.budget == 0 || b < r.budget) ==> n < shares)
      {
        BuysOutput(s, b, n);
        if 0 < b < r.budget {
          OutputMonotone(s, b, r.budget - 1);
        }
      }
    }
  }

  /** The budget found buys the shares and one unit less does not; up to 9900 basis points of
      capital no smaller budget buys them, and `maximum` is the most any budget buys. A budget of
      0 says that the shares cannot be had before graduation. */
  method BudgetForGenesisShares(s: BuyState, shares: int) returns (r: Result<Answer, Refusal>)
    ensures r.Err? <==> shares <= 0 || s.gap <= 0
    ensures r.Ok? ==> r.value.maximum == Output(s, Cap(s)) && (r.value.budget == 0 <==> shares > r.value.maximum)
    ensures r.Ok? && r.value.budget != 0 ==>
      && 1 <= r.value.budget <= Cap(s) && Output(s, r.value.budget) >= shares
      && (r.value.budget > 1 ==> Output(s, r.value.budget - 1) < shares)
    ensures r.Ok? && s.Bps() <= 9900 ==>
      && (forall b: nat :: Output(s, b) <= r.value.maximum)
      && (r.value.budget == 0 ==> forall b: nat :: Output(s, b) < shares)
      && (r.value.budget != 0 ==> forall b: nat :: 0 < b < r.value.budget ==> Output(s, b) < shares)
    ensures r.Ok? ==> Quotes(s, shares, r.value)
  {
    hide Output, Quotes;
    if shares <= 0 || s.gap <= 0 {
      return Err(NOTHING_TO_BUY);
    }
    CapClosesGap(s);
    if s.Bps() <= 9900 {
      MaximumIsBound(s);
    }
    var cap := Cap(s);
    var maximum := Output(s, cap);
    if shares > maximum {
      QuotesIf(s, shares, Answer(0, maximum));
      return Ok(Answer(0, maximum));
    }
    var low, high := 1, cap;
    while low < high
      invariant 1 <= low <= high <= cap && Output(s, high) >= shares
      invariant low > 1 ==> Output(s, low - 1) < shares
    {
      var middle := (low + high) / 2;
      if Output(s, middle) >= shares {
        high := middle;
      } else {
        low := middle + 1;
      }
    }
    if s.Bps() <= 9900 && low > 1 {
      forall b: nat | 0 < b < low ensures Output(s, b) < shares {
        OutputMonotone(s, b, low - 1);
      }
    }
    QuotesIf(s, shares, Answer(low, maximum));
    return Ok(Answer(low, maximum));
  }
}
