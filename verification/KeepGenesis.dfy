/** Genesis actions, graduation and failure keep the invariant. */
module KeepGenesis {
  import opened Maths
  import opened Wrappers
  import opened Sums
  import opened Accounts
  import opened Lmsr
  import opened Ledger
  import opened TopicMarket
  import opened Invariant
  import opened KeepFees

  /** The bonding curve before graduation is tested: everything of the invariant but R < rTarget. */
  ghost predicate CurveBooks(s: State) {
    && Conserved(s) && Frame(s) && s.phase == GENESIS && s.now < s.TG && s.S >= 0.0 && OnCurve(s.k, s.R, s.S)
    && Sum(GTokens, s.accounts) == s.S
    && AllIdle(s.accounts) && PoolEmpty(s.pool) && CoreIdle(s) && s.result.None? && s.claims == NO_CLAIMS
  }

  /** The bought quantity is positive and puts supply and reserve back on the curve R = kS^2. */
  lemma BuyQuoteOnCurve(f: Functions, s: State, paid: real)
    requires Lawful(f) && s.k > 0.0 && s.S >= 0.0 && OnCurve(s.k, s.R, s.S)
    requires paid > 0.0
    ensures QuoteBuy(f, s, paid).Ok?
    ensures var q := QuoteBuy(f, s, paid).value;
            && q.gross == paid && q.R == 0.99 * paid
            && q.quantity > 0.0 && OnCurve(s.k, s.R + q.R, s.S + q.quantity)
  {
    var x := (s.R + 0.99 * paid) / s.k;
    Cancel(s.R + 0.99 * paid, s.k);
    assert x > s.S * s.S by {
      assert s.k * s.S * s.S == s.S * s.S * s.k;
      Cancel(s.S * s.S, s.k);
      DivStrict(s.R, s.R + 0.99 * paid, s.k);
    }
    MulNonNeg(s.S, s.S);
    RootAbove(f.sqrt, x, s.S);
    assert RootOf(f.sqrt, x);
    assert s.k * f.sqrt(x) * f.sqrt(x) == x * s.k;
  }

  /** A Genesis trade of one account moves its wallet and its Genesis tokens only. */
  lemma TradeSums(s: State, id: int, c: Account)
    requires AllGood(s.accounts) && AllIdle(s.accounts) && s.Has(id) && c.wallet >= 0.0 && c.g >= 0.0
    requires c == s.accounts[id].(wallet := c.wallet, g := c.g, paid := c.paid, received := c.received)
    ensures var t := s.Put(id, c);
      && AllGood(t.accounts) && AllIdle(t.accounts)
      && Total(t) == Total(s) - s.accounts[id].wallet + c.wallet
      && Sum(GTokens, t.accounts) == Sum(GTokens, s.accounts) - s.accounts[id].g + c.g
  {
    hide Sum;
    assert GoodAccount(s.accounts[id]);
    assert forall o :: c.Earns(o) == s.accounts[id].Earns(o);
    SumUpdate(s.accounts, id, c);
  }

  lemma BuyKeeps(f: Functions, s: State, id: int, paid: real)
    requires Lawful(f) && Inv(f, s) && BuyFault(f, s, id, paid).None?
    ensures CurveBooks(Bought(s, id, QuoteBuy(f, s, paid).value))
  {
    hide OnCurve, QuoteBuy, Sum, AllGood, AllIdle, FormalBooks, FailedBooks, SettledBooks;
    GoodAt(s.accounts, id);
    BuyQuoteOnCurve(f, s, paid);
    var q := QuoteBuy(f, s, paid).value;
    var a := s.accounts[id].Paying(paid);
    TradeSums(s, id, a.(g := a.g + q.quantity));
  }

  /** A sale pays the curve's area and leaves supply and reserve on the curve. */
  lemma SellQuoteOnCurve(s: State, tokens: real)
    requires s.k > 0.0 && s.S >= 0.0 && OnCurve(s.k, s.R, s.S)
    requires QuoteSell(s, tokens).Ok?
    ensures var q := QuoteSell(s, tokens).value;
            && q.quantity == tokens && tokens <= s.S && q.net == 0.99 * q.gross
            && 0.0 <= q.gross <= s.R && OnCurve(s.k, s.R - q.gross, s.S - tokens)
  {
    var rest := s.S - tokens;
    MulNonNeg(rest, rest);
    MulNonNeg(s.k, rest * rest);
    assert s.k * rest * rest == s.k * (rest * rest);
    MulNonNeg(s.k, tokens);
    MulNonNeg(s.k * tokens, 2.0 * s.S - tokens);
    MulNonNeg(s.S, s.S);
    MulNonNeg(s.k, s.S * s.S);
    assert s.k * s.S * s.S - s.k * tokens * (2.0 * s.S - tokens) == s.k * (s.S - tokens) * (s.S - tokens);
  }

  lemma SellKeeps(f: Functions, s: State, id: int, tokens: real)
    requires Lawful(f) && Inv(f, s) && SellFault(s, id, tokens).None?
    ensures CurveBooks(Sold(s, id, QuoteSell(s, tokens).value))
    ensures Sold(s, id, QuoteSell(s, tokens).value).R < s.rTarget
  {
    hide OnCurve, QuoteSell, Sum, AllGood, AllIdle, FormalBooks, FailedBooks, SettledBooks;
    GoodAt(s.accounts, id);
    SellQuoteOnCurve(s, tokens);
    var q := QuoteSell(s, tokens).value;
    var a := s.accounts[id];
    TradeSums(s, id, a.(g := a.g - tokens).Receiving(q.net));
  }

  lemma GraduatedSums(xs: seq<Account>)
    requires AllIdle(xs)
    ensures var ys := Map(Graduated, xs);
            && Sum(Wallet, ys) == Sum(Wallet, xs) && Sum(Refund, ys) == Sum(Refund, xs)
            && Sum(LpTokens, ys) == Sum(GTokens, xs)
            && Sum(YesTokens, ys) == 0.0 && Sum(NoTokens, ys) == 0.0
            && Sum(StakeOnYes, ys) == 0.0 && Sum(StakeOnNo, ys) == 0.0 && Sum(StakeOnInvalid, ys) == 0.0
  {
    var ys := Map(Graduated, xs);
    SumSame(Wallet, xs, Wallet, ys);
    SumSame(Refund, xs, Refund, ys);
    SumSame(GTokens, xs, LpTokens, ys);
    SumZero(YesTokens, ys);
    SumZero(NoTokens, ys);
    SumZero(StakeOnYes, ys);
    SumZero(StakeOnNo, ys);
    SumZero(StakeOnInvalid, ys);
  }

  lemma NoRewards(xs: seq<Account>)
    requires AllGood(xs) && forall i :: 0 <= i < |xs| ==> xs[i].coreSide.None?
    ensures forall o :: Sum(RewardFor(o), xs) == 0.0
  {
    forall o ensures Sum(RewardFor(o), xs) == 0.0 {
      forall i | 0 <= i < |xs| ensures RewardFor(o)(xs[i]) == 0.0 {
        assert GoodAccount(xs[i]);
        assert xs[i].coreRewards.At(o) == 0.0;
      }
      SumZero(RewardFor(o), xs);
    }
  }

  lemma PositiveSupply(k: real, R: real, S: real)
    requires S >= 0.0 && OnCurve(k, R, S) && R > 0.0
    ensures S > 0.0
  {}

  /** Graduation opens the LMSR with exactly the Genesis reserve, or changes nothing. */
  lemma GraduateKeeps(f: Functions, s: State)
    requires Lawful(f) && CurveBooks(s)
    ensures Inv(f, Graduate(s))
    ensures Graduate(s).phase == if s.R >= s.rTarget then FORMAL else GENESIS
  {
    hide OnCurve, LmsrCash;
    if s.R >= s.rTarget {
      var t := Graduate(s);
      PositiveSupply(s.k, s.R, s.S);
      GraduatedSums(s.accounts);
      GraduatedAccounts(s.accounts);
      assert Frame(t);
      FreshPool(f, t);
      assert CoreSums(t);
      assert CoreLedgers(t) by {
        NoRewards(t.accounts);
        assert forall o :: FeeLedger(t, o);
      }
      assert FormalBooks(f, t);
    }
  }

  /** An empty position with depth equal to the capital holds exactly that capital. */
  lemma FreshPool(f: Functions, s: State)
    requires Lawful(f) && s.Yes() == 0.0 && s.No() == 0.0
    requires s.pool.b > 0.0 && s.pool.cash == s.pool.M0
    ensures LmsrCash(f, s)
  {
    CostAtOrigin(f, s.pool.b);
  }

  lemma GraduatedAccounts(xs: seq<Account>)
    requires AllGood(xs) && AllIdle(xs)
    ensures AllGood(Map(Graduated, xs)) && AllTrading(Map(Graduated, xs))
    ensures forall i :: 0 <= i < |xs| ==> Map(Graduated, xs)[i].coreSide.None?
  {
    forall i | 0 <= i < |xs| ensures GoodAccount(Graduated(xs[i])) {
      assert GoodAccount(xs[i]);
    }
  }

  /** Failure moves the whole reserve into the refund budget. */
  lemma FailKeeps(f: Functions, s: State, to_: real)
    requires Lawful(f) && Inv(f, s) && s.phase == GENESIS && to_ >= s.now
    ensures Inv(f, Fail(s.(now := to_)))
  {
    var t := s.(now := to_);
    var u := t.(phase := FAILED, R := 0.0,
                claims := t.claims.(failedBudget := t.R, failedBudgetInitial := t.R, failedSupply := t.S));
    hide OnCurve, FixedRate;
    CurveNonNegative(s.k, s.R, s.S);
    assert Inv(f, u);
    DistributeKeeps(f, u);
  }
}
