/** Processing requests, the passing of time and every kind of claim keep the invariant. */
module KeepClaims {
  import opened Maths
  import opened Wrappers
  import opened Sums
  import opened Accounts
  import opened Lmsr
  import opened Ledger
  import opened TopicMarket
  import opened Invariant
  import opened KeepFees
  import opened KeepGenesis
  import opened KeepCore
  import opened KeepSettlement

  // ---- requests and finalization ----

  lemma ReadyWithoutRequest(f: Functions, s: State)
    requires Books(f, s) && s.Trading() && s.early.pending.None?
    ensures SettleReady(f, s)
  {
    hide Sum, LmsrCash, CoreSums, CoreLedgers;
    assert AllTrading(s.accounts);
  }

  /** A returned bond becomes a claim of its proposer and moves no other sum. */
  lemma RefundSums(xs: seq<Account>, i: nat, bond: real)
    requires AllGood(xs) && i < |xs| && bond >= 0.0
    ensures var ys := xs[i := xs[i].(bondRefund := xs[i].bondRefund + bond)];
      && AllGood(ys) && Sum(Refund, ys) == Sum(Refund, xs) + bond
      && Sum(Wallet, ys) == Sum(Wallet, xs) && Sum(LpTokens, ys) == Sum(LpTokens, xs)
      && Sum(YesTokens, ys) == Sum(YesTokens, xs) && Sum(NoTokens, ys) == Sum(NoTokens, xs)
      && Sum(StakeOnYes, ys) == Sum(StakeOnYes, xs) && Sum(StakeOnNo, ys) == Sum(StakeOnNo, xs)
      && Sum(StakeOnInvalid, ys) == Sum(StakeOnInvalid, xs)
      && forall o :: Sum(RewardFor(o), ys) == Sum(RewardFor(o), xs)
  {
    hide Sum;
    var c := xs[i].(bondRefund := xs[i].bondRefund + bond);
    assert GoodAccount(xs[i]);
    assert forall o :: c.Earns(o) == xs[i].Earns(o);
    SumUpdate(xs, i, c);
  }

  /** After the bond is booked the state is ready to settle and holds the same money. */
  lemma ProcessedReady(f: Functions, s: State)
    requires Inv(f, s) && s.Trading() && s.early.pending.Some?
    ensures s.Has(s.early.pending.value.proposer)
    ensures SettleReady(f, Processed(s)) && Conserved(Processed(s))
  {
    hide Sum, LmsrCash, AllGood;
    var q, t := s.early.pending.value, Processed(s);
    if s.core.Winner() == q.side {
      RefundSums(s.accounts, q.proposer, q.bond);
    }
    FeeLedgersSame(s, t);
    SamePosition(f, s, t);
  }

  lemma ProcessedKeeps(f: Functions, s: State)
    requires Inv(f, s) && s.Trading() && s.early.pending.Some? && !ProcessSettles(s)
    ensures s.Has(s.early.pending.value.proposer)
    ensures Inv(f, Processed(s))
  {
    hide Sum, LmsrCash;
    FeeLedgersSame(s, Processed(s));
    SamePosition(f, s, Processed(s));
  }

  lemma SettleKeeps(f: Functions, s: State)
    requires Lawful(f) && Conserved(s) && SettleReady(f, s)
    ensures Inv(f, Settle(s)) && Settle(s).phase == SETTLED
  {
    hide Inv, Conserved, SettleReady;
    SettleBooksKeep(f, s);
    DistributeKeeps(f, SettleBooks(s));
  }

  lemma ProcessKeeps(f: Functions, s: State)
    requires Lawful(f) && Inv(f, s) && ProcessFault(s).None?
    ensures Inv(f, ProcessedEarly(s))
  {
    assert s.Trading() && s.early.pending.Some?;
    hide Inv, Processed, SettleReady, Settle;
    if ProcessSettles(s) {
      ProcessedReady(f, s);
      SettleKeeps(f, Processed(s));
    } else {
      ProcessedKeeps(f, s);
    }
  }

  /** The only way a request cannot be processed is that it is not there or not yet due. */
  lemma ProcessAllowed(f: Functions, s: State)
    requires Lawful(f) && Inv(f, s) && s.Trading() && s.early.pending.Some?
    ensures ProcessFault(s) == if s.now < s.early.pending.value.processAfter then Some(EARLY_PENDING_WINDOW) else None
  {
    hide Inv, SettleReady, Processed, Conserved, Nav;
    ProcessedReady(f, s);
    SettleBooksKeep(f, Processed(s));
  }

  lemma AdvanceKeeps(f: Functions, s: State, to_: real)
    requires Lawful(f) && Inv(f, s) && to_ >= s.now
    ensures Inv(f, Advanced(s, to_))
  {
    if s.phase == GENESIS && to_ >= s.TG {
      FailKeeps(f, s, to_);
    } else {
      hide Sum, LmsrCash, OnCurve, FixedRate;
      var t := Advanced(s, to_);
      if s.Trading() {
        SamePosition(f, s, t);
        FeeLedgersSame(s, t);
      }
    }
  }

  // ---- claims ----

  /** Paying `amount` tokens their fixed share leaves the rate as it was. */
  lemma RateAfter(budget: real, initial: real, tokens: real, supply: real, amount: real, after: real)
    requires FixedRate(budget, initial, tokens, supply) && supply > 0.0
    requires after == budget - ProRata(initial, amount, supply)
    ensures FixedRate(after, initial, tokens - amount, supply)
  {
    Cancel(initial * amount, supply);
  }

  lemma BurnMoney(initial: real, amount: real, supply: real)
    requires initial >= 0.0 && amount >= 0.0 && supply > 0.0
    ensures ProRata(initial, amount, supply) >= 0.0
  {
    MulNonNeg(initial, amount);
    DivNonNeg(initial * amount, supply);
  }

  /** The part of a settled account that core payouts depend on. */
  predicate SameCore(a: Account, c: Account) {
    c.coreSide == a.coreSide && c.coreStake == a.coreStake && c.coreRewards == a.coreRewards
  }

  lemma BurnSums(s: State, id: int, amount: real)
    requires AllGood(s.accounts) && s.Has(id) && 0.0 < amount <= s.accounts[id].lp
    requires s.claims.lpClaimSupply > 0.0 && s.claims.lpBudgetInitial >= 0.0
    ensures var xs, ys := s.accounts, BurnLP(s, id, amount).accounts;
            && AllGood(ys)
            && Sum(Wallet, ys) == Sum(Wallet, xs) + ProRata(s.claims.lpBudgetInitial, amount, s.claims.lpClaimSupply)
            && Sum(LpTokens, ys) == Sum(LpTokens, xs) - amount && Sum(Refund, ys) == Sum(Refund, xs)
            && Sum(YesTokens, ys) == Sum(YesTokens, xs) && Sum(NoTokens, ys) == Sum(NoTokens, xs)
  {
    hide Sum;
    BurnMoney(s.claims.lpBudgetInitial, amount, s.claims.lpClaimSupply);
    var a, c := s.accounts[id], BurnLP(s, id, amount).accounts[id];
    assert GoodAccount(a);
    assert forall o :: c.Earns(o) == a.Earns(o);
    SumUpdate(s.accounts, id, c);
  }

  lemma FairUpdate(s: State, id: int, c: Account)
    requires FairPayouts(s) && s.Has(id) && SameCore(s.accounts[id], c)
    ensures FairPayouts(s.Put(id, c))
  {
    assert FairPayout(s.result.value, s.accounts[id], s.claims.corePayouts[id]);
  }

  lemma BurnKeeps(f: Functions, s: State, id: int, amount: real)
    requires Lawful(f) && Inv(f, s) && ClaimLPFault(s, id, amount).None?
    ensures Inv(f, BurnLP(s, id, amount))
  {
    hide Sum, FixedRate, AllGood, FairPayouts;
    var t := BurnLP(s, id, amount);
    BurnSums(s, id, amount);
    RateAfter(s.claims.lpBudget, s.claims.lpBudgetInitial, s.pool.lpSupply, s.claims.lpClaimSupply, amount, t.claims.lpBudget);
    FairUpdate(s, id, t.accounts[id]);
    FairFrame(s.Put(id, t.accounts[id]), t);
    assert s.result.Some? && |s.claims.corePayouts| == |s.accounts| by { FairFrame(s, s); }
    CoreDueUpdate(s.accounts, s.claims.corePayouts, id, t.accounts[id]);
    assert Conserved(t);
    assert NoGenesisTokens(t.accounts);
  }

  lemma FairFrame(s: State, t: State)
    requires FairPayouts(s) && t.accounts == s.accounts && t.result == s.result && t.claims.corePayouts == s.claims.corePayouts
    ensures FairPayouts(t)
    ensures s.result.Some? && |s.claims.corePayouts| == |s.accounts|
  {}

  /** What Claim does after any LP tokens have been burnt. */
  function Redeemables(s: State, id: int): State
    requires s.Has(id)
  {
    var outcomes, failed := OutcomeDue(s, s.accounts[id]), FailedDue(s, s.accounts[id]);
    var a := s.accounts[id];
    s.Put(id, a.(g := 0.0, yes := 0.0, no := 0.0, claimed := true).Receiving(outcomes + failed))
    .(claims := s.claims.(outcomeBudget := s.claims.outcomeBudget - outcomes,
                          failedBudget := s.claims.failedBudget - failed),
      S := if s.phase == FAILED then s.S - a.g else s.S)
  }

  lemma ClaimedInTwoSteps(s: State, id: int)
    requires s.Has(id) && (s.accounts[id].lp > 0.0 && s.phase == SETTLED ==> s.claims.lpClaimSupply > 0.0)
    ensures Claimed(s, id)
         == if s.accounts[id].lp > 0.0 && s.phase == SETTLED
            then Redeemables(BurnLP(s, id, s.accounts[id].lp), id) else Redeemables(s, id)
  {}

  lemma RedeemableSums(s: State, id: int, money: real)
    requires AllGood(s.accounts) && s.Has(id) && money >= 0.0
    ensures var xs := s.accounts;
            var a := xs[id];
            var ys := xs[id := a.(g := 0.0, yes := 0.0, no := 0.0, claimed := true).Receiving(money)];
            && AllGood(ys)
            && Sum(Wallet, ys) == Sum(Wallet, xs) + money && Sum(Refund, ys) == Sum(Refund, xs)
            && Sum(LpTokens, ys) == Sum(LpTokens, xs) && Sum(GTokens, ys) == Sum(GTokens, xs) - a.g
            && Sum(YesTokens, ys) == Sum(YesTokens, xs) - a.yes && Sum(NoTokens, ys) == Sum(NoTokens, xs) - a.no
  {
    hide Sum;
    var a := s.accounts[id];
    var c := a.(g := 0.0, yes := 0.0, no := 0.0, claimed := true).Receiving(money);
    assert GoodAccount(a);
    assert forall o :: c.Earns(o) == a.Earns(o);
    SumUpdate(s.accounts, id, c);
  }

  lemma RedeemablesKeepSettled(f: Functions, s: State, id: int)
    requires Inv(f, s) && s.phase == SETTLED && s.Has(id)
    ensures Inv(f, Redeemables(s, id))
  {
    hide Sum, FixedRate, AllGood, FairPayouts;
    var t := Redeemables(s, id);
    assert s.result.Some? && |s.claims.corePayouts| == |s.accounts| by { FairFrame(s, s); }
    var a := s.accounts[id];
    assert a.yes >= 0.0 && a.no >= 0.0 by { GoodAt(s.accounts, id); }
    RedeemableSums(s, id, OutcomeDue(s, a));
    FairUpdate(s, id, t.accounts[id]);
    FairFrame(s.Put(id, t.accounts[id]), t);
    CoreDueUpdate(s.accounts, s.claims.corePayouts, id, t.accounts[id]);
    assert Conserved(t);
    assert NoGenesisTokens(t.accounts);
  }

  lemma RedeemablesKeepFailed(f: Functions, s: State, id: int)
    requires Inv(f, s) && s.phase == FAILED && s.Has(id)
    ensures Inv(f, Redeemables(s, id))
  {
    hide Sum, FixedRate, AllGood;
    var t := Redeemables(s, id);
    var a := s.accounts[id];
    assert a.g >= 0.0 by { GoodAt(s.accounts, id); }
    if s.claims.failedSupply > 0.0 {
      BurnMoney(s.claims.failedBudgetInitial, a.g, s.claims.failedSupply);
      RateAfter(s.claims.failedBudget, s.claims.failedBudgetInitial, s.S, s.claims.failedSupply, a.g, t.claims.failedBudget);
    } else {
      ZeroRate(t.S);
    }
    RedeemableSums(s, id, FailedDue(s, a));
    assert t.S >= 0.0 by { GTokensNonNegative(t.accounts); }
  }

  lemma ZeroRate(tokens: real)
    ensures FixedRate(0.0, 0.0, tokens, 0.0)
  {}

  lemma GTokensNonNegative(xs: seq<Account>)
    requires AllGood(xs)
    ensures Sum(GTokens, xs) >= 0.0
  {
    forall i | 0 <= i < |xs| ensures GTokens(xs[i]) >= 0.0 {
      assert GoodAccount(xs[i]);
    }
    SumNonNeg(GTokens, xs);
  }

  lemma ClaimKeeps(f: Functions, s: State, id: int)
    requires Lawful(f) && Inv(f, s) && ClaimFault(f, s, id).None?
    ensures Inv(f, Claimed(s, id))
  {
    hide Inv, BurnLP, Redeemables, Claimed;
    assert s.Has(id) && s.Terminal();
    if s.accounts[id].lp > 0.0 && s.phase == SETTLED {
      ClaimedInTwoSteps(s, id);
      BurnKeeps(f, s, id, s.accounts[id].lp);
      BurnStays(s, id, s.accounts[id].lp);
      RedeemablesKeepSettled(f, BurnLP(s, id, s.accounts[id].lp), id);
    } else {
      ClaimedInTwoSteps(s, id);
      if s.phase == SETTLED {
        RedeemablesKeepSettled(f, s, id);
      } else {
        RedeemablesKeepFailed(f, s, id);
      }
    }
  }

  lemma BurnStays(s: State, id: int, amount: real)
    requires s.Has(id) && s.claims.lpClaimSupply > 0.0
    ensures BurnLP(s, id, amount).phase == s.phase && BurnLP(s, id, amount).Has(id)
  {}

  /** The nested ledger check of Claim never fires either. */
  lemma ClaimFaultIsClaim(f: Functions, s: State, id: int)
    requires Lawful(f) && Inv(f, s) && ClaimFault(f, s, id).Some?
    ensures ClaimFault(f, s, id).value == ACCOUNT || ClaimFault(f, s, id).value == CLAIM
  {
    hide Inv, LedgerFault, BurnLP;
    if s.Has(id) && s.phase == SETTLED && ClaimLPFault(s, id, s.accounts[id].lp).None? {
      BurnKeeps(f, s, id, s.accounts[id].lp);
      GuardSilent(f, BurnLP(s, id, s.accounts[id].lp));
    }
  }

  lemma CoreClaimSums(s: State, id: int)
    requires AllGood(s.accounts) && s.Has(id) && id < |s.claims.corePayouts| && s.claims.corePayouts[id] >= 0.0
    ensures var xs, ys, p := s.accounts, CoreClaimed(s, id).accounts, s.claims.corePayouts[id];
            && AllGood(ys) && Sum(Wallet, ys) == Sum(Wallet, xs) + p
            && Sum(LpTokens, ys) == Sum(LpTokens, xs) && Sum(Refund, ys) == Sum(Refund, xs)
            && Sum(YesTokens, ys) == Sum(YesTokens, xs) && Sum(NoTokens, ys) == Sum(NoTokens, xs)
  {
    hide Sum;
    var a, c := s.accounts[id], CoreClaimed(s, id).accounts[id];
    assert GoodAccount(a);
    assert forall o :: c.Earns(o) == a.Earns(o);
    SumUpdate(s.accounts, id, c);
  }

  lemma ClaimCoreKeeps(f: Functions, s: State, id: int)
    requires Lawful(f) && Inv(f, s) && ClaimCoreFault(s, id).None?
    ensures Inv(f, CoreClaimed(s, id))
  {
    assert FairPayout(s.result.value, s.accounts[id], s.claims.corePayouts[id]);
    hide Sum, FixedRate, AllGood, FairPayouts;
    var t := CoreClaimed(s, id);
    CoreClaimSums(s, id);
    FairUpdate(s, id, t.accounts[id]);
    FairFrame(s.Put(id, t.accounts[id]), t);
    FairFrame(s, s);
    CoreDueUpdate(s.accounts, s.claims.corePayouts, id, t.accounts[id]);
    assert Conserved(t);
  }

  lemma OfficialKeeps(f: Functions, s: State, id: int)
    requires Lawful(f) && Inv(f, s) && ClaimOfficialFault(s, id).None?
    ensures Inv(f, OfficialPaid(s, id))
  {
    hide Sum, FixedRate, FairPayouts, AllGood;
    var t := s.Receive(id, s.claims.coreOfficialBudget);
    ReceiveKeeps(f, s, id, s.claims.coreOfficialBudget);
    FairFrame(t, OfficialPaid(s, id));
  }

  lemma FeesKeep(f: Functions, s: State, kind: FeeKind, id: int)
    requires Lawful(f) && Inv(f, s) && ClaimFeesFault(s, kind, id).None?
    ensures Inv(f, FeesPaid(s, kind, id))
  {
    hide Sum, FixedRate, FairPayouts, AllGood, LmsrCash, OnCurve;
    var t := s.Receive(id, FeeAmount(s, kind));
    ReceiveKeeps(f, s, id, FeeAmount(s, kind));
    var u := FeesPaid(s, kind, id);
    if s.Trading() {
      SamePosition(f, t, u);
      FeeLedgersSame(t, u);
    } else if s.phase == SETTLED {
      FairFrame(t, u);
    }
  }
}
