/** Inverting the Formal buy price: how many tokens a budget buys, and how many can be sold. */
module BudgetQuote {
  import opened Maths
  import opened Wrappers
  import opened Sums
  import opened Accounts
  import opened Lmsr
  import opened Ledger
  import opened TopicMarket
  import opened Invariant
  import opened KeepFormal
  import opened Runs

  datatype Budgeted = Budgeted(quote: Quote, unused: real)

  predicate Affordable(f: Functions, s: State, side: Outcome, budget: real, tokens: real) {
    var q := QuoteFormalBuy(f, s, side, tokens);
    q.Ok? && q.value.gross <= budget
  }

  function Other(s: State, side: Outcome): real {
    s.Yes() + s.No() - s.Supply(side)
  }

  /** What the budget would buy if the price had no curvature to help, plus one. */
  function Uncapped(f: Functions, s: State, side: Outcome, budget: real): real {
    0.98 * budget + Max(0.0, Other(s, side) - s.Supply(side)) + s.pool.b * Ln2(f) + 1.0
  }

  /** Upper end of the search. */
  function Bracket(f: Functions, s: State, side: Outcome, budget: real): real {
    Min(MAX_OUTCOME_SUPPLY - s.Supply(side), Uncapped(f, s, side, budget))
  }

  /** A larger purchase never costs less. */
  lemma AffordableDown(f: Functions, s: State, side: Outcome, budget: real, less: real, more: real)
    requires Lawful(f) && s.pool.b > 0.0 && 0.0 < less <= more && Affordable(f, s, side, budget, more)
    ensures Affordable(f, s, side, budget, less)
  {
    hide Sum, Cost, CurveDelta, QuoteFormalBuy;
    assert side != INVALID by { NoSide(f, s, more); }
    BuyQuoteExact(f, s, side, less);
    BuyQuoteExact(f, s, side, more);
    if less < more {
      var own, other := s.Supply(side), Other(s, side);
      CostMonotone(f, own + less, own + more, other, s.pool.b);
      CostSymmetric(f, own + less, other, s.pool.b);
      CostSymmetric(f, own + more, other, s.pool.b);
    }
  }

  lemma NoSide(f: Functions, s: State, tokens: real)
    ensures QuoteFormalBuy(f, s, INVALID, tokens).Err?
  {}

  /** The uncapped end of the search costs more than the budget. */
  lemma UncappedUnaffordable(f: Functions, s: State, side: Outcome, budget: real)
    requires Lawful(f) && s.pool.b > 0.0 && budget > 0.0
    ensures Uncapped(f, s, side, budget) > 0.0
    ensures !Affordable(f, s, side, budget, Uncapped(f, s, side, budget))
  {
    hide Sum, Cost, CurveDelta, QuoteFormalBuy;
    var own, other, b := s.Supply(side), Other(s, side), s.pool.b;
    var hi := Uncapped(f, s, side, budget);
    assert PositiveAt(f.sp, 0.0);
    MulNonNeg(b, Ln2(f));
    if side == INVALID {
      NoSide(f, s, hi);
    } else {
      BuyQuoteExact(f, s, side, hi);
      CostAboveMax(f, own + hi, other, b);
      CostBelow(f, own, other, b);
      CostSymmetric(f, own, other, b);
      CostSymmetric(f, own + hi, other, b);
    }
  }

  /** So an affordable bracket is one the supply cap cut off. */
  lemma BracketAffordable(f: Functions, s: State, side: Outcome, budget: real)
    requires Lawful(f) && s.pool.b > 0.0 && budget > 0.0
    ensures Affordable(f, s, side, budget, Bracket(f, s, side, budget))
        ==> Bracket(f, s, side, budget) == MAX_OUTCOME_SUPPLY - s.Supply(side)
    ensures Bracket(f, s, side, budget) > 0.0 <==> MAX_OUTCOME_SUPPLY - s.Supply(side) > 0.0
  {
    hide Uncapped, Affordable;
    UncappedUnaffordable(f, s, side, budget);
  }

  /** No affordable purchase exceeds this one by more than 2^-70 of the bracket. */
  ghost predicate NearlyBest(f: Functions, s: State, side: Outcome, budget: real, tokens: real) {
    && Affordable(f, s, side, budget, tokens)
    && forall t :: Affordable(f, s, side, budget, t) ==> t <= tokens + Halved(Bracket(f, s, side, budget), 70)
  }

  lemma AboveUnaffordable(f: Functions, s: State, side: Outcome, budget: real, hi: real)
    requires Lawful(f) && s.pool.b > 0.0 && hi > 0.0 && !Affordable(f, s, side, budget, hi)
    ensures forall t :: Affordable(f, s, side, budget, t) ==> t < hi
  {
    hide Affordable;
    forall t | Affordable(f, s, side, budget, t) ensures t < hi {
      if t >= hi {
        AffordableDown(f, s, side, budget, hi, t);
      }
    }
  }

  lemma WithinCap(f: Functions, s: State, side: Outcome, budget: real)
    requires Lawful(f) && s.pool.b > 0.0
    ensures forall t :: Affordable(f, s, side, budget, t) ==> t <= MAX_OUTCOME_SUPPLY - s.Supply(side)
  {
    hide Sum, CurveDelta;
  }

  function Raised(q: Result<Quote, Error>): Result<Budgeted, Error> {
    match q
    case Err(e) => Err(e)
    case Ok(_) => Err(NUMERIC)
  }

  /** Bisection for the largest purchase the budget pays for. It costs at most the budget; no
      affordable purchase exceeds it by more than 2^-70 of the initial bracket, and it is exactly
      the supply cap when the cap is affordable. It reports TINY only when even that last step is
      too dear. */
  method QuoteFormalBuyBudget(f: Functions, s: State, side: Outcome, budget: real) returns (r: Result<Budgeted, Error>)
    requires Lawful(f)
    ensures budget <= 0.0 ==> r == Err(AMOUNT)
    ensures budget > 0.0 && side == INVALID ==> r == Err(SIDE)
    ensures r.Ok? ==>
      && s.pool.b > 0.0 && !s.pool.liquidityClosed
      && QuoteFormalBuy(f, s, side, r.value.quote.quantity) == Ok(r.value.quote)
      && r.value.quote.gross + r.value.unused == budget && r.value.unused >= 0.0
      && NearlyBest(f, s, side, budget, r.value.quote.quantity)
    ensures budget > 0.0 && side != INVALID && s.pool.b > 0.0 ==>
      (r == Err(SUPPLY_LIMIT) <==> s.pool.liquidityClosed || s.Supply(side) >= MAX_OUTCOME_SUPPLY)
    ensures budget > 0.0 && side != INVALID && s.pool.b > 0.0 && !s.pool.liquidityClosed && s.Supply(side) < MAX_OUTCOME_SUPPLY ==>
      && (r.Ok? <==> Affordable(f, s, side, budget, Halved(Bracket(f, s, side, budget), 70)))
      && (r.Err? ==> r.error == TINY)
  {
    hide QuoteFormalBuy, Uncapped, Halved;
    if budget <= 0.0 {
      return Err(AMOUNT);
    }
    if side == INVALID {
      return Err(SIDE);
    }
    var lo, hi := 0.0, Bracket(f, s, side, budget);
    ghost var hi0 := hi;
    if s.pool.b > 0.0 {
      BracketAffordable(f, s, side, budget);
      WithinCap(f, s, side, budget);
    }
    if hi <= 0.0 || s.pool.liquidityClosed {
      return Err(SUPPLY_LIMIT);
    }
    var all := QuoteFormalBuy(f, s, side, hi);
    if s.pool.b <= 0.0 {
      assert all.Err? by { NoDepth(f, s, side, hi); }
    } else {
      BuyQuoteExact(f, s, side, hi);
      HalvedPositive(hi0, 70);
    }
    if all.Err? {
      return Err(all.error);
    }
    if all.value.gross <= budget {
      AffordableDown(f, s, side, budget, Halved(hi0, 70), hi0);
      return Ok(Budgeted(all.value, budget - all.value.gross));
    }
    AboveUnaffordable(f, s, side, budget, hi);
    var n := 0;
    HalvedZero(hi0);
    while n < 70
      invariant n <= 70 && 0.0 <= lo < hi <= hi0 && hi - lo == Halved(hi0, n)
      invariant lo > 0.0 ==> Affordable(f, s, side, budget, lo) && lo >= Halved(hi0, n)
      invariant forall t :: Affordable(f, s, side, budget, t) ==> t < hi
      invariant lo == 0.0 ==> !Affordable(f, s, side, budget, hi)
    {
      var mid := (lo + hi) / 2.0;
      HalvedNext(hi0, n);
      BuyQuoteExact(f, s, side, mid);
      var q := QuoteFormalBuy(f, s, side, mid);
      if q == Err(TINY) || (q.Ok? && q.value.gross <= budget) {
        lo := mid;
      } else if q.Ok? {
        AboveUnaffordable(f, s, side, budget, mid);
        hi := mid;
      } else {
        return Raised(q);
      }
      n := n + 1;
    }
    if lo <= 0.0 {
      return Err(TINY);
    }
    AffordableDown(f, s, side, budget, Halved(hi0, 70), lo);
    var q := QuoteFormalBuy(f, s, side, lo);
    BuyQuoteExact(f, s, side, lo);
    if q.Err? {
      return Raised(q);
    }
    if q.value.gross <= 0.0 {
      return Err(TINY);
    }
    return Ok(Budgeted(q.value, budget - q.value.gross));
  }

  lemma NoDepth(f: Functions, s: State, side: Outcome, tokens: real)
    requires s.pool.b <= 0.0
    ensures QuoteFormalBuy(f, s, side, tokens).Err?
    ensures QuoteFormalBuy(f, s, side, tokens).error.SIDE? || QuoteFormalBuy(f, s, side, tokens).error.AMOUNT?
  {}

  lemma HalvedZero(x: real)
    ensures Halved(x, 0) == x
  {}

  lemma HalvedNext(x: real, n: nat)
    ensures Halved(x, n + 1) == Halved(x, n) / 2.0
  {}

  // ---- spending a budget ----

  lemma BoughtHolding(s: State, id: int, side: Outcome, q: Quote)
    requires s.Has(id) && side != INVALID && FormalShell(s) && Frame(s) && FormalFees(q)
    ensures FormalBought(s, id, side, q).Has(id)
    ensures FormalBought(s, id, side, q).accounts[id].Held(side) == s.accounts[id].Held(side) + q.quantity
    ensures FormalBought(s, id, side, q).accounts[id].wallet == s.accounts[id].wallet - q.gross
  {
    hide Sum, ProRata;
    var t := TradeBooks(Pay(s, id, q.gross), q, q.net);
    assert t.accounts[id] == s.accounts[id].Paying(q.gross);
    assert AccrueCoreFee(t, q.coreFee).accounts[id] == EarnedInAll(t.core, q.coreFee, t.accounts[id]);
  }

  /** Spending a budget buys the quoted quantity and takes no more than the budget. */
  method FormalBuyBudget(f: Functions, s: State, id: int, side: Outcome, budget: real) returns (r: Result<State, Error>)
    requires Lawful(f) && Inv(f, s)
    ensures r.Err? ==> !BookError(r.error) || r.error == TINY
    ensures r.Ok? ==> Inv(f, r.value) && s.Has(id) && r.value.Has(id)
    ensures r.Ok? ==>
      var bought := r.value.accounts[id].Held(side) - s.accounts[id].Held(side);
      && r == Apply(f, s, FormalBuy(id, side, bought)) && NearlyBest(f, s, side, budget, bought)
    ensures r.Ok? ==> s.accounts[id].wallet - budget <= r.value.accounts[id].wallet < s.accounts[id].wallet
    ensures r.Ok? ==> 0.0 < budget <= s.accounts[id].wallet && s.phase == FORMAL && side != INVALID
  {
    hide Inv, NearlyBest, LedgerFault, Effect, QuoteFormalBuy, Affordable;
    if FormalFault(s).Some? {
      return Err(FormalFault(s).value);
    }
    if !s.Has(id) {
      return Err(ACCOUNT);
    }
    if budget > s.accounts[id].wallet {
      return Err(BALANCE);
    }
    var q := QuoteFormalBuyBudget(f, s, side, budget);
    if q.Err? {
      OpenDepth(f, s);
      return Err(q.error);
    }
    ghost var bought := q.value.quote.quantity;
    r := Apply(f, s, FormalBuy(id, side, q.value.quote.quantity));
    StepSafe(f, s, FormalBuy(id, side, bought));
    if r.Ok? {
      QuotePositive(f, s, side, bought);
      SpentBudget(f, s, id, side, q.value.quote);
    }
  }

  lemma OpenDepth(f: Functions, s: State)
    requires Inv(f, s) && s.Trading()
    ensures s.pool.b > 0.0 && !s.pool.liquidityClosed
  {}

  lemma QuotePositive(f: Functions, s: State, side: Outcome, tokens: real)
    requires QuoteFormalBuy(f, s, side, tokens).Ok?
    ensures tokens > 0.0 && side != INVALID
  {}

  lemma SpentBudget(f: Functions, s: State, id: int, side: Outcome, q: Quote)
    requires Lawful(f) && Inv(f, s) && s.Trading() && s.Has(id) && side != INVALID && q.quantity > 0.0
    requires QuoteFormalBuy(f, s, side, q.quantity) == Ok(q) && Apply(f, s, FormalBuy(id, side, q.quantity)).Ok?
    ensures var t := Apply(f, s, FormalBuy(id, side, q.quantity)).value;
            && t.Has(id) && t.accounts[id].Held(side) == s.accounts[id].Held(side) + q.quantity
            && t.accounts[id].wallet == s.accounts[id].wallet - q.gross && q.gross > 0.0
  {
    hide LedgerFault, QuoteFormalBuy, FormalBought, LmsrCash;
    PositiveDepth(f, s);
    BuyQuoteExact(f, s, side, q.quantity);
    BoughtHolding(s, id, side, q);
  }

  // ---- what can be sold ----

  predicate SellingOpen(s: State) {
    s.phase == FORMAL && s.now < s.TF && !s.pool.liquidityClosed
  }

  /** The largest sale offered to an account: the whole holding when its quote is accepted, else
      the largest part a bisection finds. What it offers is always accepted by the quote, and in a
      market with good books the search is never needed. */
  method MaxFormalSellTokens(f: Functions, s: State, id: int, side: Outcome) returns (r: Result<real, Error>)
    ensures side == INVALID ==> r == Err(SIDE)
    ensures side != INVALID && !s.Has(id) ==> r == Err(ACCOUNT)
    ensures side != INVALID && s.Has(id) ==> r.Ok? && 0.0 <= r.value <= Max(0.0, s.accounts[id].Held(side))
    ensures r.Ok? && r.value > 0.0 ==> QuoteFormalSell(f, s, side, r.value).Ok?
    ensures Lawful(f) && Inv(f, s) && side != INVALID && s.Has(id) ==>
      r == Ok(if SellingOpen(s) then s.accounts[id].Held(side) else 0.0)
  {
    hide Inv, QuoteFormalSell;
    if side == INVALID {
      return Err(SIDE);
    }
    if !s.Has(id) {
      return Err(ACCOUNT);
    }
    if Lawful(f) && Inv(f, s) {
      WholeHolding(f, s, id, side);
    }
    if !SellingOpen(s) {
      return Ok(0.0);
    }
    var lo, hi := 0.0, s.accounts[id].Held(side);
    if hi <= 0.0 {
      return Ok(0.0);
    }
    if QuoteFormalSell(f, s, side, hi).Ok? {
      return Ok(hi);
    }
    for n := 0 to 64
      invariant 0.0 <= lo < hi <= s.accounts[id].Held(side)
      invariant lo > 0.0 ==> QuoteFormalSell(f, s, side, lo).Ok?
      invariant QuoteFormalSell(f, s, side, hi).Err?
    {
      var mid := (lo + hi) / 2.0;
      if QuoteFormalSell(f, s, side, mid).Ok? {
        lo := mid;
      } else {
        hi := mid;
      }
    }
    return Ok(lo);
  }

  lemma WholeHolding(f: Functions, s: State, id: int, side: Outcome)
    requires Lawful(f) && Inv(f, s) && s.Has(id) && side != INVALID
    ensures s.accounts[id].Held(side) >= 0.0
    ensures SellingOpen(s) && s.accounts[id].Held(side) > 0.0 ==> QuoteFormalSell(f, s, side, s.accounts[id].Held(side)).Ok?
  {
    hide Sum, Cost, CurveDelta, LmsrCash, QuoteFormalSell;
    assert GoodAccount(s.accounts[id]);
    SumsNonNegative(s.accounts);
    if SellingOpen(s) && s.accounts[id].Held(side) > 0.0 {
      SellQuoteExact(f, s, side, s.accounts[id].Held(side));
    }
  }
}
