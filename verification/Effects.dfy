/** What each action of the topic market does, in terms of the accounts and buckets it touches. */
module Effects {
  import opened Maths
  import opened Wrappers
  import opened Sums
  import opened Accounts
  import opened Lmsr
  import opened Ledger
  import opened TopicMarket
  import opened Invariant
  import opened KeepCore
  import opened KeepClaims
  import opened Runs
  import opened CoreVerdict
  import Text

  /** Only the account changes, and of it nothing but what `c` says. */
  ghost predicate OnlyAccount(s: State, t: State, id: int) {
    && s.Has(id) && |t.accounts| == |s.accounts|
    && forall i :: 0 <= i < |s.accounts| && i != id ==> t.accounts[i] == s.accounts[i]
  }

  /** Money arrives in a wallet. */
  predicate Receives(a: Account, c: Account, amount: real) {
    c.wallet == a.wallet + amount && c.received == a.received + amount && c.paid == a.paid
  }

  predicate Pays(a: Account, c: Account, amount: real) {
    c.wallet == a.wallet - amount && c.paid == a.paid + amount && c.received == a.received
  }

  predicate SameHoldings(a: Account, c: Account) {
    c.g == a.g && c.lp == a.lp && c.yes == a.yes && c.no == a.no
  }

  predicate SameStake(a: Account, c: Account) {
    && c.coreSide == a.coreSide && c.coreStake == a.coreStake && c.coreRewards == a.coreRewards
    && c.coreClaimed == a.coreClaimed && c.bondRefund == a.bondRefund
  }

  /** What a result pays for outcome tokens. */
  function TokenValue(o: Outcome, yes: real, no: real): real {
    match o
    case YES => yes
    case NO => no
    case INVALID => (yes + no) / 2.0
  }

  ghost predicate LpMoves(s: State, t: State, from: int, to: int, amount: real) {
    && s.Has(from) && s.Has(to) && from != to && t == s.(accounts := t.accounts) && |t.accounts| == |s.accounts|
    && t.accounts[from] == s.accounts[from].(lp := s.accounts[from].lp - amount)
    && t.accounts[to] == s.accounts[to].(lp := s.accounts[to].lp + amount)
    && forall i :: 0 <= i < |s.accounts| && i != from && i != to ==> t.accounts[i] == s.accounts[i]
  }

  /** A YES and a NO token together leave for one unit of pool cash. */
  ghost predicate PairsRedeemed(s: State, t: State, id: int, pairs: real) {
    && OnlyAccount(s, t, id)
    && t == s.(accounts := t.accounts,
               pool := s.pool.(cash := s.pool.cash - pairs, redeemedPairs := t.pool.redeemedPairs))
    && var a, c := s.accounts[id], t.accounts[id];
    && Receives(a, c, pairs) && c.yes == a.yes - pairs && c.no == a.no - pairs
    && c.g == a.g && c.lp == a.lp && SameStake(a, c)
  }

  ghost predicate StakeMade(s: State, t: State, id: int, side: Outcome, amount: real) {
    && OnlyAccount(s, t, id) && t == s.(accounts := t.accounts, core := t.core)
    && var a, c := s.accounts[id], t.accounts[id];
    && Pays(a, c, amount) && c.coreSide == Some(side) && c.coreStake == a.coreStake + amount
    && SameHoldings(a, c) && c.coreRewards == a.coreRewards && c.bondRefund == a.bondRefund
    && t.core == s.core.(yes := s.core.yes + (if side == YES then amount else 0.0),
                         no := s.core.no + (if side == NO then amount else 0.0),
                         invalid := s.core.invalid + (if side == INVALID then amount else 0.0),
                         cash := s.core.cash + amount)
  }

  /** A tenth of the principal, rounded up by less than 10^-18, stays behind with all rewards. */
  ghost predicate StakeExited(s: State, t: State, id: int) {
    && OnlyAccount(s, t, id) && t == s.(accounts := t.accounts, core := t.core, early := t.early)
    && var a, c := s.accounts[id], t.accounts[id];
    && a.coreSide.Some?
    && var penalty := a.coreStake - (c.wallet - a.wallet);
    && penalty <= a.coreStake && a.coreStake <= 10.0 * penalty < a.coreStake + 10.0 / WAD
    && Receives(a, c, a.coreStake - penalty) && SameHoldings(a, c) && c.bondRefund == a.bondRefund
    && c.coreSide.None? && c.coreStake == 0.0 && c.coreRewards == Trio(0.0, 0.0, 0.0)
    && t.core == s.core.(yes := s.core.yes - (if a.coreSide == Some(YES) then a.coreStake else 0.0),
                         no := s.core.no - (if a.coreSide == Some(NO) then a.coreStake else 0.0),
                         invalid := s.core.invalid - (if a.coreSide == Some(INVALID) then a.coreStake else 0.0),
                         cash := s.core.cash - a.coreStake)
    && t.early == s.early.(penalty := s.early.penalty + penalty,
                           forfeited := Trio(s.early.forfeited.yes + a.coreRewards.yes,
                                             s.early.forfeited.no + a.coreRewards.no,
                                             s.early.forfeited.invalid + a.coreRewards.invalid))
  }

  /** The bond moves into a request for the given side, due an hour later. */
  ghost predicate RequestMade(s: State, t: State, id: int, side: Outcome, reason: Text.Units) {
    && OnlyAccount(s, t, id) && t == s.(accounts := t.accounts, early := t.early)
    && var a, c := s.accounts[id], t.accounts[id];
    && Pays(a, c, s.early.bond) && SameHoldings(a, c) && SameStake(a, c)
    && t.early.pending.Some?
    && var q := t.early.pending.value;
    && t.early == s.early.(count := s.early.count + 1, pending := Some(q))
    && q.id == t.early.count && q.proposer == id && q.side == side && q.bond == s.early.bond
    && q.proposedAt == s.now && q.processAfter == s.now + 3600.0 && q.reason == Text.Trim(reason)
  }

  ghost predicate BondPaid(s: State, t: State, id: int) {
    && OnlyAccount(s, t, id) && t == s.(accounts := t.accounts)
    && var a, c := s.accounts[id], t.accounts[id];
    && Receives(a, c, a.bondRefund) && c.bondRefund == 0.0 && SameHoldings(a, c)
    && c.coreSide == a.coreSide && c.coreStake == a.coreStake && c.coreRewards == a.coreRewards
    && c.coreClaimed == a.coreClaimed
  }

  ghost predicate LpBurnt(s: State, t: State, id: int, amount: real) {
    && OnlyAccount(s, t, id) && s.claims.lpClaimSupply > 0.0
    && t == s.(accounts := t.accounts, pool := s.pool.(lpSupply := s.pool.lpSupply - amount),
               claims := s.claims.(lpBudget := t.claims.lpBudget))
    && var a, c := s.accounts[id], t.accounts[id];
    && var money := s.claims.lpBudgetInitial * amount / s.claims.lpClaimSupply;
    && Receives(a, c, money) && t.claims.lpBudget == s.claims.lpBudget - money
    && c.lp == a.lp - amount && c.g == a.g && c.yes == a.yes && c.no == a.no && SameStake(a, c)
  }

  /** All tokens leave: outcome tokens for what the result makes them worth, LP and Genesis tokens
      for their share of the budget set aside for them. */
  ghost predicate TokensClaimed(s: State, t: State, id: int) {
    && OnlyAccount(s, t, id) && s.Terminal()
    && t == s.(accounts := t.accounts, pool := s.pool.(lpSupply := t.pool.lpSupply), S := t.S,
               claims := s.claims.(lpBudget := t.claims.lpBudget, outcomeBudget := t.claims.outcomeBudget,
                                   failedBudget := t.claims.failedBudget))
    && var a, c := s.accounts[id], t.accounts[id];
    && SameStake(a, c) && c.g == 0.0 && c.lp == 0.0 && c.yes == 0.0 && c.no == 0.0 && c.claimed
    && if s.phase == SETTLED then
         && s.result.Some?
         && var tokens, lp := TokenValue(s.result.value, a.yes, a.no),
                              Portion(s.claims.lpBudgetInitial, a.lp, s.claims.lpClaimSupply);
         && Receives(a, c, tokens + lp) && t.claims.outcomeBudget == s.claims.outcomeBudget - tokens
         && t.claims.lpBudget == s.claims.lpBudget - lp && t.pool.lpSupply == s.pool.lpSupply - a.lp && t.S == s.S
         && t.claims.failedBudget == s.claims.failedBudget
       else
         && var refund := Portion(s.claims.failedBudgetInitial, a.g, s.claims.failedSupply);
         && Receives(a, c, refund) && t.claims.failedBudget == s.claims.failedBudget - refund && t.S == s.S - a.g
         && t.claims.outcomeBudget == s.claims.outcomeBudget && t.claims.lpBudget == s.claims.lpBudget
         && t.pool.lpSupply == s.pool.lpSupply
  }

  ghost predicate CorePaid(s: State, t: State, id: int) {
    && OnlyAccount(s, t, id) && id < |s.claims.corePayouts|
    && t == s.(accounts := t.accounts,
               claims := s.claims.(coreBudget := s.claims.coreBudget - s.claims.corePayouts[id]))
    && var a, c := s.accounts[id], t.accounts[id];
    && Receives(a, c, s.claims.corePayouts[id]) && c.coreClaimed && SameHoldings(a, c)
    && c.coreSide == a.coreSide && c.coreStake == a.coreStake && c.coreRewards == a.coreRewards
    && c.bondRefund == a.bondRefund
  }

  ghost predicate OfficialPaidOut(s: State, t: State, id: int) {
    && OnlyAccount(s, t, id) && id == s.protocolAccount
    && t == s.(accounts := t.accounts, claims := s.claims.(coreOfficialBudget := 0.0))
    && Receives(s.accounts[id], t.accounts[id], s.claims.coreOfficialBudget)
    && SameHoldings(s.accounts[id], t.accounts[id]) && SameStake(s.accounts[id], t.accounts[id])
  }

  ghost predicate FeesPaidOut(s: State, t: State, kind: FeeKind, id: int) {
    && OnlyAccount(s, t, id)
    && SameHoldings(s.accounts[id], t.accounts[id]) && SameStake(s.accounts[id], t.accounts[id])
    && match kind
       case CREATOR =>
         && id == s.creatorAccount && t == s.(accounts := t.accounts, creatorFees := 0.0)
         && Receives(s.accounts[id], t.accounts[id], s.creatorFees)
       case PROTOCOL =>
         && id == s.protocolAccount && t == s.(accounts := t.accounts, protocolFees := 0.0)
         && Receives(s.accounts[id], t.accounts[id], s.protocolFees)
  }

  /** Transfers, redemptions, Core actions and claims; trades, time and settlement have their own
      theorems. */
  ghost predicate Does(s: State, t: State, a: Action) {
    match a
    case TransferLP(from, to, amount) => LpMoves(s, t, from, to, amount)
    case RedeemPairs(id, pairs) => PairsRedeemed(s, t, id, pairs)
    case CoreStake(id, side, amount) => StakeMade(s, t, id, side, amount)
    case CoreExit(id) => StakeExited(s, t, id)
    case ProposeEarly(id, side, reason) => RequestMade(s, t, id, side, reason)
    case ClaimEarlyBond(id) => BondPaid(s, t, id)
    case ClaimLP(id, amount) => LpBurnt(s, t, id, amount)
    case Claim(id) => TokensClaimed(s, t, id)
    case ClaimCore(id) => CorePaid(s, t, id)
    case ClaimCoreOfficial(id) => OfficialPaidOut(s, t, id)
    case ClaimFees(kind, id) => FeesPaidOut(s, t, kind, id)
    case _ => true
  }

  lemma ExitDoes(s: State, id: int)
    requires ExitFault(s, id).None?
    ensures StakeExited(s, Exited(s, id), id)
  {
    hide ExitPenalty;
    PenaltyBounds(s.accounts[id].coreStake);
  }

  lemma BurnDoes(s: State, id: int, amount: real)
    requires ClaimLPFault(s, id, amount).None?
    ensures LpBurnt(s, BurnLP(s, id, amount), id, amount)
  {}

  lemma RedeemablesDo(s: State, id: int)
    requires s.Has(id) && s.Terminal() && s.accounts[id].lp == 0.0
    requires s.phase == SETTLED ==> s.result.Some?
    ensures TokensClaimed(s, Redeemables(s, id), id)
  {}

  lemma ClaimDoes(f: Functions, s: State, id: int)
    requires Inv(f, s) && ClaimFault(f, s, id).None?
    ensures TokensClaimed(s, Claimed(s, id), id)
  {
    assert s.Has(id) && s.Terminal();
    assert s.phase == SETTLED ==> s.result.Some? && s.claims.lpClaimSupply > 0.0;
    assert s.phase == FAILED ==> s.accounts[id].lp == 0.0;
    assert s.accounts[id].lp >= 0.0 by { GoodAt(s.accounts, id); }
    hide Inv, LedgerFault, BurnLP, Redeemables, Claimed, TokensClaimed;
    ClaimedInTwoSteps(s, id);
    if s.accounts[id].lp > 0.0 && s.phase == SETTLED {
      var u := BurnLP(s, id, s.accounts[id].lp);
      BurnDoes(s, id, s.accounts[id].lp);
      RedeemablesDo(u, id);
      BothDo(s, u, Redeemables(u, id), id);
    } else {
      RedeemablesDo(s, id);
    }
  }

  lemma BothDo(s: State, u: State, t: State, id: int)
    requires s.phase == SETTLED && s.Has(id) && LpBurnt(s, u, id, s.accounts[id].lp) && TokensClaimed(u, t, id)
    ensures TokensClaimed(s, t, id)
  {}

  lemma CoreActionsDo(f: Functions, s: State, a: Action)
    requires Guard(f, s, a).None? && (a.CoreStake? || a.ProposeEarly? || a.TransferLP? || a.RedeemPairs?)
    ensures Does(s, Effect(f, s, a), a)
  {
    hide Text.Trim;
  }

  lemma ClaimsDo(f: Functions, s: State, a: Action)
    requires Guard(f, s, a).None? && (a.ClaimEarlyBond? || a.ClaimCore?)
    ensures Does(s, Effect(f, s, a), a)
  {}

  lemma FeesDo(f: Functions, s: State, a: Action)
    requires Guard(f, s, a).None? && (a.ClaimCoreOfficial? || a.ClaimFees?)
    ensures Does(s, Effect(f, s, a), a)
  {}

  lemma EffectDoes(f: Functions, s: State, a: Action)
    requires Inv(f, s) && Guard(f, s, a).None?
    ensures Does(s, Effect(f, s, a), a)
  {
    hide Inv, LedgerFault, LpMoves, PairsRedeemed, StakeMade, StakeExited, RequestMade, BondPaid, LpBurnt,
      TokensClaimed, CorePaid, OfficialPaidOut, FeesPaidOut, ExitFault, ClaimLPFault, ClaimFault, QuoteBuy, QuoteSell,
      QuoteFormalBuy, QuoteFormalSell, Nav, ProcessFault;
    if a.CoreStake? || a.ProposeEarly? || a.TransferLP? || a.RedeemPairs? {
      CoreActionsDo(f, s, a);
    } else if a.ClaimEarlyBond? || a.ClaimCore? {
      ClaimsDo(f, s, a);
    } else if a.ClaimCoreOfficial? || a.ClaimFees? {
      FeesDo(f, s, a);
    } else {
      match a {
        case CoreExit(id) => ExitDoes(s, id);
        case ClaimLP(id, amount) => BurnDoes(s, id, amount);
        case Claim(id) => ClaimDoes(f, s, id);
        case _ =>
      }
    }
  }

  /** An accepted action moves exactly the money, tokens and stake it is about, and nothing else. */
  lemma ActionDoes(f: Functions, s: State, a: Action)
    requires Inv(f, s) && Apply(f, s, a).Ok?
    ensures Does(s, Apply(f, s, a).value, a)
  {
    hide Inv, LedgerFault, Guard, Effect, Does;
    AppliedEffect(f, s, a);
    EffectDoes(f, s, a);
    if a.AdvanceTime? {
      TimeDoes(s, Apply(f, s, a).value, a);
    }
  }

  lemma TimeDoes(s: State, t: State, a: Action)
    requires a.AdvanceTime?
    ensures Does(s, t, a)
  {}

  lemma AppliedEffect(f: Functions, s: State, a: Action)
    requires Apply(f, s, a).Ok?
    ensures Guard(f, s, a).None?
    ensures Apply(f, s, a).value == Effect(f, s, a) || a.AdvanceTime?
  {
    hide Guard, Effect, LedgerFault;
  }

  // ---- the ledger every action returns ----

  ghost predicate NoDebts(s: State) {
    && s.R >= 0.0 && s.pool.cash >= 0.0 && s.pool.lpFees >= 0.0 && s.creatorFees >= 0.0 && s.protocolFees >= 0.0
    && s.core.cash >= 0.0 && s.core.fees >= 0.0 && s.claims.coreOfficialBudget >= 0.0 && s.claims.lpBudget >= 0.0
    && s.claims.outcomeBudget >= 0.0 && s.claims.failedBudget >= 0.0 && s.claims.coreBudget >= 0.0
    && forall i :: 0 <= i < |s.accounts| ==>
         var a := s.accounts[i];
         a.wallet >= 0.0 && a.g >= 0.0 && a.lp >= 0.0 && a.yes >= 0.0 && a.no >= 0.0 && a.coreStake >= 0.0
  }

  /** All money, bucket by bucket, is the capital the market was given; tokens and cash fit the curve
      of the phase. */
  ghost predicate AddsUp(f: Functions, s: State) {
    && s.initialCapital
       == Sum(Wallet, s.accounts) + Sum(Refund, s.accounts)
          + (match s.early.pending case Some(q) => q.bond case None => 0.0) + s.early.penalty + s.early.failedBonds
          + s.R + s.pool.collateral + s.pool.cash + s.pool.lpFees + s.creatorFees + s.protocolFees
          + s.core.cash + s.core.fees + s.claims.coreOfficialBudget + s.claims.lpBudget + s.claims.outcomeBudget
          + s.claims.failedBudget + s.claims.coreBudget
    && (s.phase == GENESIS ==> Sum(GTokens, s.accounts) == s.S && s.R == s.k * s.S * s.S)
    && (s.phase == FORMAL || s.phase == WAIT_CORE ==>
          && Sum(LpTokens, s.accounts) == s.pool.lpSupply && s.pool.collateral == 0.0
          && s.pool.cash >= Sum(YesTokens, s.accounts) && s.pool.cash >= Sum(NoTokens, s.accounts) && s.pool.b > 0.0
          && s.pool.cash == s.pool.M0 - s.pool.b * f.sp(0.0)
                            + Cost(f, Sum(YesTokens, s.accounts), Sum(NoTokens, s.accounts), s.pool.b))
  }

  /** From any state whatever, good books or not, an action returns only a state without debts that
      adds up. */
  lemma ResultAddsUp(f: Functions, s: State, a: Action)
    requires Apply(f, s, a).Ok? && !(a.AdvanceTime? && s.phase == CREATE)
    ensures var t := Apply(f, s, a).value; NoDebts(t) && AddsUp(f, t)
  {
    hide Guard, Effect, Cost, Sum;
    var t := Apply(f, s, a).value;
    assert forall i :: 0 <= i < |t.accounts| ==> BalanceNonNegative(t.accounts[i]);
  }
}
