/** Formal trading, Core staking and early requests keep the invariant. */
module KeepFormal {
  import opened Maths
  import opened Wrappers
  import opened Sums
  import opened Accounts
  import opened Lmsr
  import opened Ledger
  import opened TopicMarket
  import opened Invariant
  import opened KeepFees

  // ---- fee accrual ----

  function AccrualRate(c: Core, o: Outcome, amount: real): real {
    Rate(amount, c.Base(o))
  }

  /** What one account's stake earns of `amount` in the ledger of outcome `o`. */
  function Share(c: Core, o: Outcome, amount: real, a: Account): real {
    AccrualRate(c, o, amount) * EarningFor(o)(a)
  }

  lemma ShareIsProRata(c: Core, o: Outcome, amount: real, a: Account)
    requires a.coreStake >= 0.0 && amount >= 0.0 && c.Base(o) >= 0.0
    ensures Share(c, o, amount, a) >= 0.0
    ensures Share(c, o, amount, a) == if a.Earns(o) && c.Base(o) != 0.0 then ProRata(amount, a.coreStake, c.Base(o)) else 0.0
  {
    hide ProRata, Rate;
    if c.Base(o) != 0.0 {
      ProRataIsRate(amount, a.coreStake, c.Base(o));
      RateNonNeg(amount, c.Base(o));
      MulNonNeg(Rate(amount, c.Base(o)), a.coreStake);
    } else {
      assert Rate(amount, c.Base(o)) == 0.0 by { RateOfNothing(amount, c.Base(o)); }
    }
  }

  lemma RateOfNothing(amount: real, whole: real)
    requires whole <= 0.0
    ensures Rate(amount, whole) == 0.0
  {}

  lemma EarnedStep(c: Core, o: Outcome, amount: real, a: Account)
    requires GoodAccount(a) && amount >= 0.0 && c.Base(o) >= 0.0
    ensures Earned(c, o, amount, a)
         == a.(coreRewards := a.coreRewards.With(o, a.coreRewards.At(o) + Share(c, o, amount, a)))
    ensures GoodAccount(Earned(c, o, amount, a))
  {
    hide Share;
    ShareIsProRata(c, o, amount, a);
    var e := Earned(c, o, amount, a);
    forall p ensures e.coreRewards.At(p) >= 0.0 && (!e.Earns(p) ==> e.coreRewards.At(p) == 0.0) {
      assert a.coreRewards.At(p) >= 0.0 && (!a.Earns(p) ==> a.coreRewards.At(p) == 0.0);
    }
  }

  lemma ShareKept(c: Core, p: Outcome, amount: real, a: Account, e: Account)
    requires e == a.(coreRewards := e.coreRewards)
    ensures Share(c, p, amount, e) == Share(c, p, amount, a)
  {}

  lemma EarnedOne(c: Core, amount: real, a: Account)
    requires GoodAccount(a) && amount >= 0.0 && c.yes >= 0.0 && c.no >= 0.0
    ensures var e := EarnedInAll(c, amount, a);
            && GoodAccount(e) && e == a.(coreRewards := e.coreRewards)
            && forall o :: e.coreRewards.At(o) == a.coreRewards.At(o) + Share(c, o, amount, a)
  {
    hide Earned, Share, GoodAccount;
    var e1 := Earned(c, YES, amount, a);
    EarnedStep(c, YES, amount, a);
    var e2 := Earned(c, NO, amount, e1);
    EarnedStep(c, NO, amount, e1);
    EarnedStep(c, INVALID, amount, e2);
    ShareKept(c, NO, amount, a, e1);
    ShareKept(c, INVALID, amount, a, e2);
  }

  lemma EarningTotal(s: State, o: Outcome)
    requires CoreSums(s)
    ensures Sum(EarningFor(o), s.accounts) == s.core.Base(o)
  {
    EarningInvalidSplits(s.accounts);
  }

  /** A fee enters every conditional ledger in full, and touches nothing else. */
  lemma AccrualSums(s: State, amount: real)
    requires AllGood(s.accounts) && CoreSums(s) && amount >= 0.0
    ensures var ys := AccrueCoreFee(s, amount).accounts;
            && AllGood(ys)
            && (forall i :: 0 <= i < |ys| ==> ys[i] == s.accounts[i].(coreRewards := ys[i].coreRewards))
            && Sum(Wallet, ys) == Sum(Wallet, s.accounts) && Sum(Refund, ys) == Sum(Refund, s.accounts)
            && Sum(LpTokens, ys) == Sum(LpTokens, s.accounts)
            && Sum(YesTokens, ys) == Sum(YesTokens, s.accounts) && Sum(NoTokens, ys) == Sum(NoTokens, s.accounts)
    ensures CoreSums(AccrueCoreFee(s, amount))
    ensures forall o :: Sum(RewardFor(o), AccrueCoreFee(s, amount).accounts) + OfficialShare(s.core, amount).At(o)
                     == Sum(RewardFor(o), s.accounts) + amount
  {
    hide GoodAccount, Share, OfficialShare, EarnedInAll;
    var xs, ys := s.accounts, AccrueCoreFee(s, amount).accounts;
    SumsNonNegative(xs);
    forall i | 0 <= i < |xs|
      ensures GoodAccount(ys[i]) && ys[i] == xs[i].(coreRewards := ys[i].coreRewards)
      ensures forall o :: ys[i].coreRewards.At(o) == xs[i].coreRewards.At(o) + Share(s.core, o, amount, xs[i])
    {
      EarnedOne(s.core, amount, xs[i]);
    }
    RewardsOnly(xs, ys);
    forall o
      ensures Sum(RewardFor(o), ys) + OfficialShare(s.core, amount).At(o) == Sum(RewardFor(o), xs) + amount
    {
      RewardTotal(s, o, amount, ys);
    }
  }

  lemma RewardTotal(s: State, o: Outcome, amount: real, ys: seq<Account>)
    requires CoreSums(s) && |ys| == |s.accounts| && s.core.Base(o) >= 0.0
    requires forall i :: 0 <= i < |ys| ==>
      ys[i].coreRewards.At(o) == s.accounts[i].coreRewards.At(o) + Share(s.core, o, amount, s.accounts[i])
    ensures Sum(RewardFor(o), ys) + OfficialShare(s.core, amount).At(o) == Sum(RewardFor(o), s.accounts) + amount
  {
    hide AccrualRate, CoreSums, OfficialShare, Sum;
    forall i | 0 <= i < |ys|
      ensures RewardFor(o)(ys[i]) == RewardFor(o)(s.accounts[i]) + AccrualRate(s.core, o, amount) * EarningFor(o)(s.accounts[i])
    {
      assert RewardFor(o)(ys[i]) == ys[i].coreRewards.At(o);
      assert RewardFor(o)(s.accounts[i]) == s.accounts[i].coreRewards.At(o);
    }
    SumLinear(RewardFor(o), s.accounts, ys, AccrualRate(s.core, o, amount), EarningFor(o));
    var rate, total := AccrualRate(s.core, o, amount), Sum(EarningFor(o), s.accounts);
    assert rate * total + OfficialShare(s.core, amount).At(o) == amount by {
      EarningTotal(s, o);
      RateTimesBase(s.core, o, amount, total);
    }
  }

  lemma RateTimesBase(c: Core, o: Outcome, amount: real, base: real)
    requires base == c.Base(o) && base >= 0.0
    ensures AccrualRate(c, o, amount) * base + OfficialShare(c, amount).At(o) == amount
  {
    RateOfWhole(amount, base);
  }

  /** Accounts that differ only in their rewards have all other sums in common. */
  lemma RewardsOnly(xs: seq<Account>, ys: seq<Account>)
    requires |xs| == |ys|
    requires forall i :: 0 <= i < |xs| ==> ys[i] == xs[i].(coreRewards := ys[i].coreRewards)
    ensures Sum(Wallet, ys) == Sum(Wallet, xs) && Sum(Refund, ys) == Sum(Refund, xs)
    ensures Sum(LpTokens, ys) == Sum(LpTokens, xs)
    ensures Sum(YesTokens, ys) == Sum(YesTokens, xs) && Sum(NoTokens, ys) == Sum(NoTokens, xs)
    ensures Sum(StakeOnYes, ys) == Sum(StakeOnYes, xs) && Sum(StakeOnNo, ys) == Sum(StakeOnNo, xs)
    ensures Sum(StakeOnInvalid, ys) == Sum(StakeOnInvalid, xs)
  {
    SumSame(Wallet, xs, Wallet, ys);
    SumSame(Refund, xs, Refund, ys);
    SumSame(LpTokens, xs, LpTokens, ys);
    SumSame(YesTokens, xs, YesTokens, ys);
    SumSame(NoTokens, xs, NoTokens, ys);
    SumSame(StakeOnYes, xs, StakeOnYes, ys);
    SumSame(StakeOnNo, xs, StakeOnNo, ys);
    SumSame(StakeOnInvalid, xs, StakeOnInvalid, ys);
  }

  // ---- Formal trades ----

  /** The bookkeeping step of a Formal trade: cash moves by `delta`, the fees are added. */
  lemma TradeKeeps(s: State, q: Quote, delta: real)
    requires FormalShell(s) && Frame(s) && q.lpFee >= 0.0 && q.creatorFee >= 0.0 && q.protocolFee >= 0.0
    ensures FormalShell(TradeBooks(s, q, delta)) && Frame(TradeBooks(s, q, delta))
    ensures Total(TradeBooks(s, q, delta)) == Total(s) + delta + q.lpFee + q.creatorFee + q.protocolFee
  {
    var t := TradeBooks(s, q, delta);
    assert CoreLedgers(t) by {
      forall o ensures FeeLedger(t, o) {
        assert FeeLedger(s, o);
      }
    }
  }

  /** Fee accrual keeps the books and adds exactly the fee to the money held. */
  lemma AccrueKeeps(s: State, amount: real)
    requires FormalShell(s) && Frame(s) && amount >= 0.0
    ensures FormalShell(AccrueCoreFee(s, amount)) && Frame(AccrueCoreFee(s, amount))
    ensures Total(AccrueCoreFee(s, amount)) == Total(s) + amount
    ensures AccrueCoreFee(s, amount).Yes() == s.Yes() && AccrueCoreFee(s, amount).No() == s.No()
  {
    hide Sum;
    AccrualSums(s, amount);
    var t := AccrueCoreFee(s, amount);
    assert CoreLedgers(t) by {
      forall o ensures t.core.officialRewards.At(o) >= 0.0 && FeeLedger(t, o) {
        assert FeeLedger(s, o);
        assert s.core.officialRewards.At(o) >= 0.0;
      }
    }
    assert AllTrading(t.accounts);
  }

  lemma SideSums(s: State, id: int, side: Outcome, delta: real)
    requires Frame(s) && s.Has(id) && side != INVALID && s.accounts[id].Held(side) + delta >= 0.0
    ensures var t := s.Put(id, s.accounts[id].AddSide(side, delta));
      && Frame(t) && Total(t) == Total(s) && (CoreSums(s) ==> CoreSums(t))
      && t.Yes() == s.Yes() + (if side == YES then delta else 0.0)
      && t.No() == s.No() + (if side == NO then delta else 0.0)
      && Sum(LpTokens, t.accounts) == Sum(LpTokens, s.accounts)
      && forall o :: Sum(RewardFor(o), t.accounts) == Sum(RewardFor(o), s.accounts)
  {
    hide Sum;
    var c := s.accounts[id].AddSide(side, delta);
    assert GoodAccount(s.accounts[id]);
    assert forall o :: s.accounts[id].Earns(o) == c.Earns(o);
    SumUpdate(s.accounts, id, c);
    assert GoodAccount(c);
  }

  /** Adding or removing outcome tokens of one account moves only that side's supply. */
  lemma SideKeeps(s: State, id: int, side: Outcome, delta: real)
    requires FormalShell(s) && Frame(s) && s.Has(id) && side != INVALID
    requires s.accounts[id].Held(side) + delta >= 0.0
    ensures var t := s.Put(id, s.accounts[id].AddSide(side, delta));
            && FormalShell(t) && Frame(t) && Total(t) == Total(s)
            && t.Yes() == s.Yes() + (if side == YES then delta else 0.0)
            && t.No() == s.No() + (if side == NO then delta else 0.0)
  {
    hide Sum, CoreSums, Frame;
    SideSums(s, id, side, delta);
    var t := s.Put(id, s.accounts[id].AddSide(side, delta));
    assert CoreLedgers(t) by {
      forall o ensures FeeLedger(t, o) {
        assert FeeLedger(s, o);
      }
    }
  }

  // ---- quotes against the potential ----

  /** Potential of the outstanding position, now and with `delta` more tokens of one side. */
  function Potential(f: Functions, s: State): real
    requires s.pool.b > 0.0
  {
    Cost(f, s.Yes(), s.No(), s.pool.b)
  }

  function PotentialWith(f: Functions, s: State, side: Outcome, delta: real): real
    requires s.pool.b > 0.0
  {
    Cost(f, s.Yes() + (if side == YES then delta else 0.0), s.No() + (if side == NO then delta else 0.0), s.pool.b)
  }

  /** A trade's fees add up to two percent of its gross amount. */
  ghost predicate FormalFees(q: Quote) {
    && q.gross > 0.0 && q.creatorFee == 0.0
    && q.lpFee == 0.01 * q.gross && q.protocolFee == 0.003 * q.gross && q.coreFee == 0.007 * q.gross
  }

  /** The net price of a buy is the rise of the potential, so it is positive: `TINY` cannot occur. */
  lemma BuyQuoteExact(f: Functions, s: State, side: Outcome, tokens: real)
    requires Lawful(f) && s.pool.b > 0.0 && side != INVALID && tokens > 0.0
    ensures QuoteFormalBuy(f, s, side, tokens).Ok? <==> tokens <= MAX_OUTCOME_SUPPLY - s.Supply(side)
    ensures QuoteFormalBuy(f, s, side, tokens).Ok? ==>
      var q := QuoteFormalBuy(f, s, side, tokens).value;
      && q.net == PotentialWith(f, s, side, tokens) - Potential(f, s) && q.net > 0.0
      && q.quantity == tokens && q.net == 0.98 * q.gross && FormalFees(q)
    ensures QuoteFormalBuy(f, s, side, tokens).Err? ==> QuoteFormalBuy(f, s, side, tokens).error == SUPPLY_LIMIT
  {
    hide CurveDelta, Cost, Sum;
    var own, other := s.Supply(side), s.Yes() + s.No() - s.Supply(side);
    DeltaIsCostDifference(f, own, other, tokens, s.pool.b);
    CostMonotone(f, own, own + tokens, other, s.pool.b);
    CostSymmetric(f, own, other, s.pool.b);
    CostSymmetric(f, own + tokens, other, s.pool.b);
  }

  /** The gross price of a sale is the fall of the potential, which cash always covers: neither
      `TINY` nor `CASH` can occur while the LMSR equation holds. */
  lemma SellQuoteExact(f: Functions, s: State, side: Outcome, tokens: real)
    requires Lawful(f) && LmsrCash(f, s) && s.pool.b == s.pool.M0 && !s.pool.liquidityClosed
    requires side != INVALID && tokens > 0.0 && s.Yes() >= 0.0 && s.No() >= 0.0
    ensures QuoteFormalSell(f, s, side, tokens).Ok? <==> tokens <= s.Supply(side)
    ensures QuoteFormalSell(f, s, side, tokens).Ok? ==>
      var q := QuoteFormalSell(f, s, side, tokens).value;
      && q.gross == Potential(f, s) - PotentialWith(f, s, side, -tokens) && 0.0 < q.gross <= s.pool.cash
      && q.quantity == tokens && q.net == 0.98 * q.gross && FormalFees(q)
    ensures QuoteFormalSell(f, s, side, tokens).Err? ==> QuoteFormalSell(f, s, side, tokens).error == HOLDINGS
  {
    hide CurveDelta, Cost, Sum;
    var own, other, b := s.Supply(side), s.Yes() + s.No() - s.Supply(side), s.pool.b;
    DeltaIsCostDifference(f, own - tokens, other, tokens, b);
    CostMonotone(f, own - tokens, own, other, b);
    CostSymmetric(f, own, other, b);
    CostSymmetric(f, own - tokens, other, b);
    CostAboveMax(f, own - tokens, other, b);
    assert b - b * Ln2(f) >= 0.0 by {
      MulMonotone(b, Ln2(f), 1.0);
    }
  }

  lemma HeldNonNegative(s: State, id: int, side: Outcome)
    requires Frame(s) && s.Has(id)
    ensures s.accounts[id].Held(side) >= 0.0 && s.accounts[id].wallet >= 0.0
  {
    assert GoodAccount(s.accounts[id]);
  }

  /** Cash moving with the potential keeps the LMSR equation. */
  lemma CashFollows(f: Functions, s: State, t: State, side: Outcome, delta: real)
    requires LmsrCash(f, s) && t.pool.b == s.pool.b && t.pool.M0 == s.pool.M0
    requires t.Yes() == s.Yes() + (if side == YES then delta else 0.0)
    requires t.No() == s.No() + (if side == NO then delta else 0.0)
    requires t.pool.cash == s.pool.cash + PotentialWith(f, s, side, delta) - Potential(f, s)
    ensures LmsrCash(f, t)
  {}

  lemma FormalBuyKeepsAt(f: Functions, s: State, id: int, side: Outcome, q: Quote)
    requires Inv(f, s) && s.Trading() && s.pool.b > 0.0 && s.Has(id) && side != INVALID
    requires FormalFees(q) && q.net == 0.98 * q.gross && q.quantity > 0.0 && q.gross <= s.accounts[id].wallet
    requires q.net == PotentialWith(f, s, side, q.quantity) - Potential(f, s)
    ensures Inv(f, FormalBought(s, id, side, q))
  {
    hide Sum, FormalShell, Frame, LmsrCash, Potential, PotentialWith, Reserves;
    var s1 := Pay(s, id, q.gross);
    WalletOnly(f, s, id, s.accounts[id].Paying(q.gross));
    var s2 := TradeBooks(s1, q, q.net);
    TradeKeeps(s1, q, q.net);
    var s3 := AccrueCoreFee(s2, q.coreFee);
    AccrueKeeps(s2, q.coreFee);
    HeldNonNegative(s3, id, side);
    var s4 := FormalBought(s, id, side, q);
    SideKeeps(s3, id, side, q.quantity);
    CashFollows(f, s, s4, side, q.quantity);
  }

  lemma FormalBuyKeeps(f: Functions, s: State, id: int, side: Outcome, tokens: real)
    requires Lawful(f) && Inv(f, s) && FormalBuyFault(f, s, id, side, tokens).None?
    ensures Inv(f, FormalBought(s, id, side, QuoteFormalBuy(f, s, side, tokens).value))
  {
    assert side != INVALID && tokens > 0.0;
    hide QuoteFormalBuy, Cost, Sum, LmsrCash, Inv;
    assert Books(f, s) && s.Trading();
    PositiveDepth(f, s);
    BuyQuoteExact(f, s, side, tokens);
    FormalBuyKeepsAt(f, s, id, side, QuoteFormalBuy(f, s, side, tokens).value);
  }

  lemma FormalSellKeepsAt(f: Functions, s: State, id: int, side: Outcome, q: Quote)
    requires Inv(f, s) && s.Trading() && s.pool.b > 0.0 && s.Has(id) && side != INVALID
    requires FormalFees(q) && q.net == 0.98 * q.gross && q.quantity <= s.accounts[id].Held(side)
    requires q.gross == Potential(f, s) - PotentialWith(f, s, side, -q.quantity)
    ensures Inv(f, FormalSold(s, id, side, q))
  {
    hide Sum, FormalShell, Frame, LmsrCash, Potential, PotentialWith, Reserves;
    var s1 := s.Put(id, s.accounts[id].AddSide(side, -q.quantity));
    SideKeeps(s, id, side, -q.quantity);
    var s2 := TradeBooks(s1, q, -q.gross);
    TradeKeeps(s1, q, -q.gross);
    var s3 := AccrueCoreFee(s2, q.coreFee);
    AccrueKeeps(s2, q.coreFee);
    CashFollows(f, s, s3, side, -q.quantity);
    ReceiveKeeps(f, s3, id, q.net);
  }

  lemma QuotedSell(f: Functions, s: State, side: Outcome, tokens: real)
    requires QuoteFormalSell(f, s, side, tokens).Ok?
    ensures side != INVALID && tokens > 0.0
  {}

  lemma FormalSellKeeps(f: Functions, s: State, id: int, side: Outcome, tokens: real)
    requires Lawful(f) && Inv(f, s) && FormalSellFault(f, s, id, side, tokens).None?
    ensures Inv(f, FormalSold(s, id, side, QuoteFormalSell(f, s, side, tokens).value))
  {
    hide QuoteFormalSell, Cost, Sum, LmsrCash;
    QuotedSell(f, s, side, tokens);
    PositiveDepth(f, s);
    SumsNonNegative(s.accounts);
    SellQuoteExact(f, s, side, tokens);
    FormalSellKeepsAt(f, s, id, side, QuoteFormalSell(f, s, side, tokens).value);
  }
}
