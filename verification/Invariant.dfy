/** What every reachable state of the topic market satisfies. */
module Invariant {
  import opened Maths
  import opened Wrappers
  import opened Sums
  import opened Accounts
  import opened Lmsr
  import opened Ledger
  import opened TopicMarket

  // ---- accounts ----

  ghost predicate GoodAccount(a: Account) {
    && BalanceNonNegative(a) && a.bondRefund >= 0.0
    && (a.coreSide.None? <==> a.coreStake == 0.0)
    && (forall o :: a.coreRewards.At(o) >= 0.0)
    && (forall o :: !a.Earns(o) ==> a.coreRewards.At(o) == 0.0)
  }

  predicate NoMarketTokens(a: Account) {
    a.lp == 0.0 && a.yes == 0.0 && a.no == 0.0
  }

  ghost predicate AllGood(xs: seq<Account>) {
    forall i :: 0 <= i < |xs| ==> GoodAccount(xs[i])
  }

  lemma GoodAt(xs: seq<Account>, i: nat)
    requires AllGood(xs) && i < |xs|
    ensures GoodAccount(xs[i])
  {}

  ghost predicate AllIdle(xs: seq<Account>) {
    forall i :: 0 <= i < |xs| ==>
      NoMarketTokens(xs[i]) && xs[i].coreSide.None? && xs[i].bondRefund == 0.0 && !xs[i].coreClaimed
  }

  ghost predicate AllTrading(xs: seq<Account>) {
    forall i :: 0 <= i < |xs| ==> xs[i].g == 0.0 && xs[i].bondRefund == 0.0 && !xs[i].coreClaimed
  }

  ghost predicate NoGenesisTokens(xs: seq<Account>) {
    forall i :: 0 <= i < |xs| ==> xs[i].g == 0.0
  }

  // ---- parts of the state ----

  ghost predicate Frame(s: State) {
    && s.k > 0.0 && s.rTarget > 0.0 && s.early.bond > 0.0
    && 0.0 < s.TG < s.TF < s.TC && 0.0 <= s.now
    && s.creatorFees >= 0.0 && s.protocolFees >= 0.0
    && AllGood(s.accounts)
  }

  /** Wallets and reserve buckets together still hold the initial capital. */
  ghost predicate Conserved(s: State) {
    Total(s) == s.initialCapital
  }

  ghost predicate PoolEmpty(p: Pool) {
    && p.cash == 0.0 && p.lpFees == 0.0 && p.collateral == 0.0 && p.basis == 0.0 && p.b >= 0.0
    && p.lpSupply == 0.0 && p.inventoryYes == 0.0 && p.inventoryNo == 0.0 && p.redeemedPairs == 0.0
    && !p.liquidityClosed
  }

  ghost predicate CoreIdle(s: State) {
    && s.core == Core(None, 0.0, 0.0, 0.0, 0.0, 0.0, 0.0, ZERO, None)
    && s.early.pending.None? && s.early.penalty == 0.0 && s.early.failedBonds == 0.0
    && s.early.forfeited == ZERO && s.early.terminatedAt.None?
  }

  /** The Core totals are the sums of the accounts' stakes. */
  ghost predicate CoreSums(s: State) {
    && s.core.yes == Sum(StakeOnYes, s.accounts)
    && s.core.no == Sum(StakeOnNo, s.accounts)
    && s.core.invalid == Sum(StakeOnInvalid, s.accounts)
  }

  /** Each conditional ledger splits all fees between accounts, official recipient and exits. */
  ghost predicate FeeLedger(s: State, o: Outcome) {
    Sum(RewardFor(o), s.accounts) + s.core.officialRewards.At(o) + s.early.forfeited.At(o) == s.core.feeTotal
  }

  ghost predicate CoreLedgers(s: State) {
    && s.core.cash == s.core.Total() && s.core.fees == s.core.feeTotal && s.core.feeTotal >= 0.0
    && s.early.penalty >= 0.0 && s.early.failedBonds >= 0.0
    && (forall o :: s.core.officialRewards.At(o) >= 0.0 && s.early.forfeited.At(o) >= 0.0)
    && (forall o :: FeeLedger(s, o))
  }

  ghost predicate GoodRequest(s: State, q: Request) {
    && s.Has(q.proposer) && q.side != INVALID && q.bond >= 0.0
    && q.processAfter == q.proposedAt + 3600.0 && q.processAfter < s.TC && q.proposedAt <= s.now
  }

  /** Genesis bonding curve. */
  predicate OnCurve(k: real, R: real, S: real) {
    R == k * S * S
  }

  /** A budget that pays `tokens` of an initial `supply` at the fixed rate initial / supply. */
  predicate FixedRate(budget: real, initial: real, tokens: real, supply: real) {
    budget * supply == initial * tokens
  }

  // ---- the phases ----

  ghost predicate GenesisBooks(s: State) {
    && s.now < s.TG && s.R < s.rTarget && s.S >= 0.0 && OnCurve(s.k, s.R, s.S)
    && Sum(GTokens, s.accounts) == s.S
    && AllIdle(s.accounts) && PoolEmpty(s.pool) && CoreIdle(s) && s.result.None? && s.claims == NO_CLAIMS
  }

  /** Cash is the graduation capital plus what the LMSR potential has collected since. */
  ghost predicate LmsrCash(f: Functions, s: State) {
    && s.pool.b > 0.0
    && s.pool.cash == s.pool.M0 + Cost(f, s.Yes(), s.No(), s.pool.b) - s.pool.b * Ln2(f)
  }

  ghost predicate FormalShell(s: State) {
    && s.R == 0.0 && s.result.None? && s.claims == NO_CLAIMS && AllTrading(s.accounts)
    && s.core.openedAt.Some? && (s.phase == FORMAL ==> s.now < s.TF)
    && s.pool.b == s.pool.M0 && s.pool.M0 >= s.rTarget && s.pool.basis >= 0.0 && s.pool.lpFees >= 0.0
    && s.pool.collateral == 0.0 && s.pool.inventoryYes == 0.0 && s.pool.inventoryNo == 0.0
    && s.pool.redeemedPairs >= 0.0 && !s.pool.liquidityClosed
    && s.pool.lpSupply > 0.0 && Sum(LpTokens, s.accounts) == s.pool.lpSupply
    && CoreSums(s) && CoreLedgers(s)
    && (s.early.pending.Some? ==> GoodRequest(s, s.early.pending.value))
  }

  ghost predicate FormalBooks(f: Functions, s: State) {
    FormalShell(s) && LmsrCash(f, s)
  }

  /** Failed markets repay Genesis tokens at one fixed rate. */
  ghost predicate FailedBooks(s: State) {
    && s.R == 0.0 && s.S >= 0.0 && Sum(GTokens, s.accounts) == s.S
    && AllIdle(s.accounts) && PoolEmpty(s.pool) && CoreIdle(s) && s.result.None?
    && s.claims.failedBudgetInitial >= 0.0 && s.claims.failedSupply >= 0.0
    && FixedRate(s.claims.failedBudget, s.claims.failedBudgetInitial, s.S, s.claims.failedSupply)
    && (s.claims.failedSupply == 0.0 ==> s.claims.failedBudget == 0.0 && s.claims.failedBudgetInitial == 0.0)
    && s.claims == NO_CLAIMS.(failedBudget := s.claims.failedBudget,
                              failedBudgetInitial := s.claims.failedBudgetInitial,
                              failedSupply := s.claims.failedSupply)
  }

  /** Core payouts not yet taken. */
  function CoreDue(xs: seq<Account>, ps: seq<real>): real
    requires |xs| == |ps|
  {
    if xs == [] then 0.0
    else (if xs[0].coreClaimed then 0.0 else ps[0]) + CoreDue(xs[1..], ps[1..])
  }

  /** Winners get at least their principal and losers get nothing; under INVALID everybody
      gets at least the principal. */
  ghost predicate FairPayout(o: Outcome, a: Account, p: real) {
    && p >= 0.0
    && (o == INVALID || a.StakedOn(o) ==> p >= a.coreStake)
    && (o != INVALID && !a.StakedOn(o) ==> p == 0.0)
  }

  ghost predicate FairPayouts(s: State) {
    && s.result.Some? && |s.claims.corePayouts| == |s.accounts|
    && forall i :: 0 <= i < |s.accounts| ==>
         FairPayout(s.result.value, s.accounts[i], s.claims.corePayouts[i])
  }

  ghost predicate SettledBooks(s: State) {
    && s.R == 0.0 && NoGenesisTokens(s.accounts)
    && s.pool.cash == 0.0 && s.pool.lpFees == 0.0 && s.pool.collateral == 0.0
    && s.pool.inventoryYes == 0.0 && s.pool.inventoryNo == 0.0
    && s.pool.b >= 0.0 && s.pool.basis >= 0.0 && s.pool.redeemedPairs >= 0.0
    && s.core.cash == 0.0 && s.core.fees == 0.0 && s.core.result == s.result
    && s.early.pending.None? && s.early.penalty == 0.0 && s.early.failedBonds == 0.0
    && s.claims.failedBudget == 0.0 && s.claims.coreOfficialBudget >= 0.0
    && s.claims.lpClaimSupply > 0.0 && s.claims.lpBudgetInitial >= 0.0
    && Sum(LpTokens, s.accounts) == s.pool.lpSupply
    && FixedRate(s.claims.lpBudget, s.claims.lpBudgetInitial, s.pool.lpSupply, s.claims.lpClaimSupply)
    && FairPayouts(s)
    && s.claims.coreBudget == CoreDue(s.accounts, s.claims.corePayouts)
    && s.claims.outcomeBudget == OutcomeValue(s.Yes(), s.No(), s.result.value)
  }

  ghost predicate Books(f: Functions, s: State) {
    && Frame(s)
    && (s.phase == CREATE || s.phase == GENESIS ==> GenesisBooks(s))
    && (s.Trading() ==> FormalBooks(f, s))
    && (s.phase == FAILED ==> FailedBooks(s))
    && (s.phase == SETTLED ==> SettledBooks(s))
  }

  ghost predicate Inv(f: Functions, s: State) {
    Conserved(s) && Books(f, s)
  }

  // ---- the guard never fires ----

  lemma SumsNonNegative(xs: seq<Account>)
    requires AllGood(xs)
    ensures Sum(YesTokens, xs) >= 0.0 && Sum(NoTokens, xs) >= 0.0 && Sum(LpTokens, xs) >= 0.0
    ensures Sum(StakeOnYes, xs) >= 0.0 && Sum(StakeOnNo, xs) >= 0.0 && Sum(StakeOnInvalid, xs) >= 0.0
    ensures forall i :: 0 <= i < |xs| ==> xs[i].yes <= Sum(YesTokens, xs) && xs[i].no <= Sum(NoTokens, xs)
  {
    forall i | 0 <= i < |xs| ensures xs[i].coreStake >= 0.0 && xs[i].yes >= 0.0 && xs[i].no >= 0.0 && xs[i].lp >= 0.0 {
      assert GoodAccount(xs[i]);
    }
    SumNonNeg(YesTokens, xs);
    SumNonNeg(NoTokens, xs);
    SumNonNeg(LpTokens, xs);
    SumNonNeg(StakeOnYes, xs);
    SumNonNeg(StakeOnNo, xs);
    SumNonNeg(StakeOnInvalid, xs);
    forall i | 0 <= i < |xs|
      ensures xs[i].yes <= Sum(YesTokens, xs) && xs[i].no <= Sum(NoTokens, xs)
    {
      assert YesTokens(xs[i]) <= Sum(YesTokens, xs) && NoTokens(xs[i]) <= Sum(NoTokens, xs);
    }
  }

  /** LMSR solvency: cash covers either outcome with (1 - ln 2) of the depth to spare. */
  lemma LmsrSolvent(f: Functions, s: State)
    requires Lawful(f) && LmsrCash(f, s) && s.pool.b == s.pool.M0
    ensures s.pool.cash > Max(s.Yes(), s.No()) + (1.0 - Ln2(f)) * s.pool.b
    ensures s.pool.cash > Max(s.Yes(), s.No())
  {
    CostAboveMax(f, s.Yes(), s.No(), s.pool.b);
    Distribute(s.pool.b, 1.0, Ln2(f));
    MulNonNeg(1.0 - Ln2(f), s.pool.b);
  }

  lemma PositiveDepth(f: Functions, s: State)
    requires LmsrCash(f, s)
    ensures s.pool.b > 0.0
  {}

  /** The LMSR equation depends on the outcome supplies and the pool only. */
  lemma SamePosition(f: Functions, s: State, t: State)
    requires LmsrCash(f, s) && t.Yes() == s.Yes() && t.No() == s.No()
    requires t.pool.b == s.pool.b && t.pool.M0 == s.pool.M0 && t.pool.cash == s.pool.cash
    ensures LmsrCash(f, t)
  {}

  lemma {:induction false} CoreDueNonNegative(xs: seq<Account>, ps: seq<real>)
    requires |xs| == |ps| && forall i :: 0 <= i < |ps| ==> ps[i] >= 0.0
    ensures CoreDue(xs, ps) >= 0.0
  {
    if xs != [] {
      CoreDueNonNegative(xs[1..], ps[1..]);
    }
  }

  lemma QuotientNonNegative(x: real, c: real, y: real)
    requires c > 0.0 && y >= 0.0 && x * c == y
    ensures x >= 0.0
  {}

  lemma CurveNonNegative(k: real, R: real, S: real)
    requires k > 0.0 && S >= 0.0 && OnCurve(k, R, S)
    ensures R >= 0.0 && (S == 0.0 ==> R == 0.0) && FixedRate(R, R, S, S)
  {
    MulNonNeg(S, S);
    MulNonNeg(k, S * S);
    assert k * S * S == k * (S * S);
  }

  lemma FixedRateNonNegative(budget: real, initial: real, tokens: real, supply: real)
    requires FixedRate(budget, initial, tokens, supply) && supply > 0.0 && initial >= 0.0 && tokens >= 0.0
    ensures budget >= 0.0
  {
    MulNonNeg(initial, tokens);
    QuotientNonNegative(budget, supply, initial * tokens);
  }

  lemma PayoutsNonNegative(s: State)
    requires FairPayouts(s)
    ensures CoreDue(s.accounts, s.claims.corePayouts) >= 0.0
  {
    forall i | 0 <= i < |s.claims.corePayouts| ensures s.claims.corePayouts[i] >= 0.0 {
      assert FairPayout(s.result.value, s.accounts[i], s.claims.corePayouts[i]);
    }
    CoreDueNonNegative(s.accounts, s.claims.corePayouts);
  }

  lemma BalancesHold(f: Functions, s: State)
    requires Lawful(f) && Books(f, s)
    ensures BalancesNonNegative(s)
  {
    forall i | 0 <= i < |s.accounts| ensures BalanceNonNegative(s.accounts[i]) {
      assert GoodAccount(s.accounts[i]);
    }
    hide Sum, OnCurve, FixedRate, LmsrCash, AllGood, FairPayouts, CoreSums;
    SumsNonNegative(s.accounts);
    if s.phase == CREATE || s.phase == GENESIS {
      CurveNonNegative(s.k, s.R, s.S);
    } else if s.Trading() {
      LmsrSolvent(f, s);
    } else if s.phase == FAILED {
      if s.claims.failedSupply > 0.0 {
        FixedRateNonNegative(s.claims.failedBudget, s.claims.failedBudgetInitial, s.S, s.claims.failedSupply);
      }
    } else {
      FixedRateNonNegative(s.claims.lpBudget, s.claims.lpBudgetInitial, s.pool.lpSupply, s.claims.lpClaimSupply);
      PayoutsNonNegative(s);
    }
  }

  /** In every state that satisfies the invariant, none of the guard's errors is raised. */
  lemma GuardSilent(f: Functions, s: State)
    requires Lawful(f) && Inv(f, s)
    ensures LedgerFault(f, s) == None
    ensures Checked(f, s) == Ok(s)
  {
    BalancesHold(f, s);
    if s.Trading() {
      LmsrSolvent(f, s);
    }
  }
}
