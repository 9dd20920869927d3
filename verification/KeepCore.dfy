/** Token transfers, pair redemption, Core staking, exits and early requests keep the invariant. */
module KeepCore {
  import opened Maths
  import opened Wrappers
  import opened Sums
  import opened Accounts
  import opened Lmsr
  import opened Ledger
  import opened TopicMarket
  import opened Invariant
  import opened KeepFees
  import Text
  import opened KeepFormal

  lemma FeeLedgersSame(s: State, t: State)
    requires CoreLedgers(s) && t.core.feeTotal == s.core.feeTotal
    requires t.core.officialRewards == s.core.officialRewards && t.early.forfeited == s.early.forfeited
    requires forall o :: Sum(RewardFor(o), t.accounts) == Sum(RewardFor(o), s.accounts)
    ensures forall o :: FeeLedger(t, o)
  {
    forall o ensures FeeLedger(t, o) {
      assert FeeLedger(s, o);
    }
  }

  // ---- LP transfer ----

  /** All sums over two account lists agree. */
  ghost predicate SameSums(xs: seq<Account>, ys: seq<Account>) {
    SameButLp(xs, ys) && Sum(LpTokens, ys) == Sum(LpTokens, xs)
  }

  ghost predicate SameButLp(xs: seq<Account>, ys: seq<Account>) {
    && Sum(Wallet, ys) == Sum(Wallet, xs) && Sum(Refund, ys) == Sum(Refund, xs)
    && Sum(GTokens, ys) == Sum(GTokens, xs)
    && Sum(YesTokens, ys) == Sum(YesTokens, xs) && Sum(NoTokens, ys) == Sum(NoTokens, xs)
    && Sum(StakeOnYes, ys) == Sum(StakeOnYes, xs) && Sum(StakeOnNo, ys) == Sum(StakeOnNo, xs)
    && Sum(StakeOnInvalid, ys) == Sum(StakeOnInvalid, xs)
    && forall o :: Sum(RewardFor(o), ys) == Sum(RewardFor(o), xs)
  }

  /** Changing one account's LP tokens changes that sum only. */
  lemma LpSums(xs: seq<Account>, i: nat, lp: real)
    requires AllGood(xs) && i < |xs| && lp >= 0.0
    ensures var ys := xs[i := xs[i].(lp := lp)];
      && AllGood(ys) && SameButLp(xs, ys)
      && Sum(LpTokens, ys) == Sum(LpTokens, xs) - xs[i].lp + lp
  {
    hide Sum;
    var c := xs[i].(lp := lp);
    assert GoodAccount(xs[i]);
    assert forall o :: c.Earns(o) == xs[i].Earns(o);
    SumUpdate(xs, i, c);
  }

  lemma TransferSums(s: State, from: int, to: int, amount: real)
    requires AllGood(s.accounts) && s.Has(from) && s.Has(to) && from != to && 0.0 < amount <= s.accounts[from].lp
    ensures SameSums(s.accounts, Transferred(s, from, to, amount).accounts)
    ensures AllGood(Transferred(s, from, to, amount).accounts)
  {
    hide Sum, AllGood, GoodAccount;
    var a, c := s.accounts[from], s.accounts[to];
    assert c.lp >= 0.0 by { GoodLp(s.accounts, to); }
    LpSums(s.accounts, from, a.lp - amount);
    var mid := s.accounts[from := a.(lp := a.lp - amount)];
    LpSums(mid, to, c.lp + amount);
    assert Transferred(s, from, to, amount).accounts == mid[to := c.(lp := c.lp + amount)];
  }

  lemma GoodLp(xs: seq<Account>, i: nat)
    requires AllGood(xs) && i < |xs|
    ensures xs[i].lp >= 0.0
  {
    assert GoodAccount(xs[i]);
  }

  lemma TransferKeepsSettled(s: State, from: int, to: int, amount: real)
    requires SettledBooks(s) && s.Has(from) && s.Has(to) && from != to
    requires SameSums(s.accounts, Transferred(s, from, to, amount).accounts)
    ensures SettledBooks(Transferred(s, from, to, amount))
  {
    hide Sum, FixedRate;
    var a, c := s.accounts[from], s.accounts[to];
    var a', c' := a.(lp := a.lp - amount), c.(lp := c.lp + amount);
    CoreDueUpdate(s.accounts, s.claims.corePayouts, from, a');
    CoreDueUpdate(s.accounts[from := a'], s.claims.corePayouts, to, c');
    assert FairPayout(s.result.value, a, s.claims.corePayouts[from]);
    assert FairPayout(s.result.value, c, s.claims.corePayouts[to]);
  }

  lemma TransferKeeps(f: Functions, s: State, from: int, to: int, amount: real)
    requires Lawful(f) && Inv(f, s) && TransferFault(s, from, to, amount).None?
    ensures Inv(f, Transferred(s, from, to, amount))
  {
    hide Sum, OnCurve, FixedRate, LmsrCash, AllGood, SettledBooks;
    var t := Transferred(s, from, to, amount);
    TransferSums(s, from, to, amount);
    if s.Trading() {
      FeeLedgersSame(s, t);
      SamePosition(f, s, t);
    } else {
      TransferKeepsSettled(s, from, to, amount);
    }
  }

  // ---- pair redemption ----

  /** Redeeming pairs takes one unit of cash per pair, exactly what the potential falls by. */
  lemma RedeemCash(f: Functions, s: State, t: State, pairs: real)
    requires Lawful(f) && LmsrCash(f, s) && t.pool.b == s.pool.b && t.pool.M0 == s.pool.M0
    requires t.Yes() == s.Yes() - pairs && t.No() == s.No() - pairs && t.pool.cash == s.pool.cash - pairs
    ensures LmsrCash(f, t)
  {
    hide Cost, Sum, Ln2;
    CostShift(f, s.Yes(), s.No(), pairs, s.pool.b);
    assert Cost(f, t.Yes(), t.No(), t.pool.b) == Cost(f, s.Yes() - pairs, s.No() - pairs, s.pool.b);
  }

  lemma RedeemSums(s: State, id: int, pairs: real)
    requires AllGood(s.accounts) && s.Has(id) && 0.0 < pairs <= Min(s.accounts[id].yes, s.accounts[id].no)
    ensures var xs, ys := s.accounts, Redeemed(s, id, pairs).accounts;
            && AllGood(ys) && Sum(Wallet, ys) == Sum(Wallet, xs) + pairs
            && Sum(YesTokens, ys) == Sum(YesTokens, xs) - pairs && Sum(NoTokens, ys) == Sum(NoTokens, xs) - pairs
            && Sum(Refund, ys) == Sum(Refund, xs) && Sum(LpTokens, ys) == Sum(LpTokens, xs)
            && forall o :: Sum(RewardFor(o), ys) == Sum(RewardFor(o), xs)
    ensures CoreSums(s) ==> CoreSums(Redeemed(s, id, pairs))
  {
    hide Sum;
    var a, c := s.accounts[id], Redeemed(s, id, pairs).accounts[id];
    assert GoodAccount(a);
    assert forall o :: c.Earns(o) == a.Earns(o);
    SumUpdate(s.accounts, id, c);
  }

  lemma RedeemKeeps(f: Functions, s: State, id: int, pairs: real)
    requires Lawful(f) && Inv(f, s) && RedeemFault(s, id, pairs).None?
    ensures Inv(f, Redeemed(s, id, pairs))
  {
    hide Sum, LmsrCash, AllGood;
    var t := Redeemed(s, id, pairs);
    RedeemSums(s, id, pairs);
    RedeemCash(f, s, t, pairs);
    FeeLedgersSame(s, t);
  }

  /** Cash always covers a redemption: the `CASH` error of RedeemPairs cannot occur. */
  lemma RedemptionCovered(f: Functions, s: State, id: int, pairs: real)
    requires Lawful(f) && Inv(f, s) && s.Trading() && s.Has(id)
    requires 0.0 < pairs <= Min(s.accounts[id].yes, s.accounts[id].no)
    ensures pairs <= s.pool.cash
  {
    SumsNonNegative(s.accounts);
    LmsrSolvent(f, s);
  }

  // ---- Core stake ----

  lemma StakeSums(s: State, id: int, side: Outcome, amount: real)
    requires AllGood(s.accounts) && CoreSums(s) && s.Has(id) && 0.0 < amount <= s.accounts[id].wallet
    requires s.accounts[id].coreSide.Some? ==> s.accounts[id].coreSide.value == side
    ensures var xs, ys := s.accounts, Staked(s, id, side, amount).accounts;
            && AllGood(ys) && Sum(Wallet, ys) == Sum(Wallet, xs) - amount
            && Sum(YesTokens, ys) == Sum(YesTokens, xs) && Sum(NoTokens, ys) == Sum(NoTokens, xs)
            && Sum(Refund, ys) == Sum(Refund, xs) && Sum(LpTokens, ys) == Sum(LpTokens, xs)
            && forall o :: Sum(RewardFor(o), ys) == Sum(RewardFor(o), xs)
    ensures CoreSums(Staked(s, id, side, amount))
  {
    hide Sum;
    var a, c := s.accounts[id], Staked(s, id, side, amount).accounts[id];
    assert GoodAccount(a);
    forall o ensures c.coreRewards.At(o) >= 0.0 && (!c.Earns(o) ==> c.coreRewards.At(o) == 0.0) {
      assert a.coreRewards.At(o) >= 0.0 && (!a.Earns(o) ==> a.coreRewards.At(o) == 0.0);
    }
    assert GoodAccount(c);
    SumUpdate(s.accounts, id, c);
  }

  lemma StakeKeeps(f: Functions, s: State, id: int, side: Outcome, amount: real)
    requires Lawful(f) && Inv(f, s) && StakeFault(s, id, side, amount).None?
    ensures Inv(f, Staked(s, id, side, amount))
  {
    hide Sum, LmsrCash, AllGood, CoreSums;
    var t := Staked(s, id, side, amount);
    StakeSums(s, id, side, amount);
    FeeLedgersSame(s, t);
    SamePosition(f, s, t);
  }

  // ---- Core exit ----

  /** The exit penalty is at least a tenth of the principal, unless that exceeds what there is,
      and overshoots it by less than 10^-18. */
  lemma PenaltyBounds(principal: real)
    requires principal >= 0.0
    ensures 0.0 <= ExitPenalty(principal) <= principal
    ensures principal / 10.0 <= ExitPenalty(principal) < principal / 10.0 + 1.0 / WAD
  {
    var x := principal * WAD / 10.0;
    assert x <= Ceil(x) as real < x + 1.0;
    assert x / WAD == principal / 10.0;
    DivMonotone(x, Ceil(x) as real, WAD);
    DivStrict(Ceil(x) as real, x + 1.0, WAD);
    AddDiv(x, 1.0, WAD);
  }

  lemma ExitLedgers(s: State, id: int)
    requires CoreLedgers(s) && s.Has(id) && s.accounts[id].coreSide.Some?
    ensures forall o :: FeeLedger(Exited(s, id), o)
  {
    hide Sum, ExitPenalty;
    var t := Exited(s, id);
    SumUpdate(s.accounts, id, t.accounts[id]);
    forall o ensures FeeLedger(t, o) {
      assert FeeLedger(s, o);
      assert RewardFor(o)(s.accounts[id]) == s.accounts[id].coreRewards.At(o);
      assert RewardFor(o)(t.accounts[id]) == 0.0;
    }
  }

  lemma ExitSums(s: State, id: int)
    requires AllGood(s.accounts) && CoreSums(s) && s.Has(id) && s.accounts[id].coreSide.Some?
    ensures var xs, ys, a := s.accounts, Exited(s, id).accounts, s.accounts[id];
            && AllGood(ys) && Sum(Wallet, ys) == Sum(Wallet, xs) + a.coreStake - ExitPenalty(a.coreStake)
            && Sum(YesTokens, ys) == Sum(YesTokens, xs) && Sum(NoTokens, ys) == Sum(NoTokens, xs)
            && Sum(Refund, ys) == Sum(Refund, xs) && Sum(LpTokens, ys) == Sum(LpTokens, xs)
    ensures CoreSums(Exited(s, id))
  {
    hide Sum, ExitPenalty;
    var a, c := s.accounts[id], Exited(s, id).accounts[id];
    assert GoodAccount(a);
    PenaltyBounds(a.coreStake);
    assert GoodAccount(c);
    SumUpdate(s.accounts, id, c);
  }

  lemma ExitKeeps(f: Functions, s: State, id: int)
    requires Lawful(f) && Inv(f, s) && ExitFault(s, id).None?
    ensures Inv(f, Exited(s, id))
  {
    hide Sum, LmsrCash, ExitPenalty, AllGood, CoreSums, GenesisBooks, FailedBooks, SettledBooks;
    var a := s.accounts[id];
    GoodAt(s.accounts, id);
    var t := Exited(s, id);
    PenaltyBounds(a.coreStake);
    forall o ensures t.early.forfeited.At(o) >= 0.0 {
      assert a.coreRewards.At(o) >= 0.0 && s.early.forfeited.At(o) >= 0.0;
    }
    ExitSums(s, id);
    ExitLedgers(s, id);
    SamePosition(f, s, t);
  }

  // ---- early requests ----

  /** Recording a request touches neither the accounts nor the Core totals. */
  lemma RequestKeeps(f: Functions, s: State, e: Early)
    requires Books(f, s) && s.Trading() && e == s.early.(count := e.count, pending := e.pending)
    requires e.pending.Some? && GoodRequest(s, e.pending.value)
    ensures Books(f, s.(early := e))
  {
    hide Sum, LmsrCash, AllGood, CoreSums, AllTrading, GenesisBooks, FailedBooks, SettledBooks;
    var t := s.(early := e);
    CoreSumsFrame(s, t);
    FeeLedgersSame(s, t);
    SamePosition(f, s, t);
  }

  lemma ProposeReady(f: Functions, s: State, id: int, side: Outcome, reason: Text.Units)
    requires Inv(f, s) && ProposeFault(s, id, side, reason).None?
    ensures Conserved(s) && Books(f, s) && s.Trading() && s.Has(id) && side != INVALID
    ensures 0.0 < s.early.bond <= s.accounts[id].wallet && s.now + 3600.0 < s.TC
    ensures s.early.pending.None? && PendingBond(s.early) == 0.0
  {
    hide Sum, Text.Trim, LmsrCash, AllGood;
  }

  lemma ProposeKeeps(f: Functions, s: State, id: int, side: Outcome, reason: Text.Units)
    requires Lawful(f) && Inv(f, s) && ProposeFault(s, id, side, reason).None?
    ensures Inv(f, Proposed(s, id, side, reason))
  {
    hide Sum, Text.Trim, ProposeFault, Books;
    ProposeReady(f, s, id, side, reason);
    WalletOnly(f, s, id, s.accounts[id].Paying(s.early.bond));
    RequestKeeps(f, Pay(s, id, s.early.bond), Proposed(s, id, side, reason).early);
  }

  lemma CoreSumsFrame(s: State, t: State)
    requires CoreSums(s) && t.accounts == s.accounts && t.core == s.core
    ensures CoreSums(t)
  {}

  /** A processed request's bond is either owed back to the proposer or kept as a failed bond. */
  lemma BondSums(s: State, id: int)
    requires AllGood(s.accounts) && s.Has(id) && s.accounts[id].bondRefund > 0.0
    ensures var xs, ys, r := s.accounts, BondReturned(s, id).accounts, s.accounts[id].bondRefund;
            && AllGood(ys) && Sum(Wallet, ys) == Sum(Wallet, xs) + r && Sum(Refund, ys) == Sum(Refund, xs) - r
            && Sum(LpTokens, ys) == Sum(LpTokens, xs)
            && Sum(YesTokens, ys) == Sum(YesTokens, xs) && Sum(NoTokens, ys) == Sum(NoTokens, xs)
  {
    hide Sum;
    var a, c := s.accounts[id], BondReturned(s, id).accounts[id];
    assert GoodAccount(a);
    assert forall o :: c.Earns(o) == a.Earns(o);
    SumUpdate(s.accounts, id, c);
  }

  lemma BondReturnKeeps(f: Functions, s: State, id: int)
    requires Lawful(f) && Inv(f, s) && BondFault(s, id).None?
    ensures Inv(f, BondReturned(s, id))
  {
    assert s.phase == SETTLED by {
      assert GoodAccount(s.accounts[id]);
    }
    assert FairPayout(s.result.value, s.accounts[id], s.claims.corePayouts[id]);
    hide Sum, FixedRate, AllGood;
    BondSums(s, id);
    CoreDueUpdate(s.accounts, s.claims.corePayouts, id, BondReturned(s, id).accounts[id]);
  }
}
