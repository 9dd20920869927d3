/** When each action of the topic market is accepted. */
module Accepted {
  import opened Maths
  import opened Wrappers
  import opened Sums
  import opened Accounts
  import opened Lmsr
  import opened Ledger
  import opened TopicMarket
  import opened Invariant
  import opened KeepGenesis
  import opened KeepFormal
  import opened KeepCore
  import opened KeepSettlement
  import opened KeepClaims
  import opened Runs
  import Text

  /** A request waits for its decision and blocks trading and staking. */
  predicate Blocked(s: State) {
    s.early.pending.Some? && s.now >= s.early.pending.value.processAfter
  }

  predicate Open(s: State) {
    (s.phase == FORMAL || s.phase == WAIT_CORE) && !Blocked(s)
  }

  predicate Within(amount: real, limit: real) {
    0.0 < amount <= limit
  }

  /** What the requester of an action has to have and may ask for, and when. */
  ghost predicate Acceptable(f: Functions, s: State, a: Action) {
    match a
    case Open => s.phase == CREATE
    case Buy(id, paid) => s.phase == GENESIS && s.Has(id) && Within(paid, s.accounts[id].wallet)
    case Sell(id, tokens) => s.phase == GENESIS && s.Has(id) && Within(tokens, s.accounts[id].g)
    case FormalBuy(id, side, tokens) =>
      && s.phase == FORMAL && !Blocked(s) && s.Has(id) && side != INVALID
      && Within(tokens, MAX_OUTCOME_SUPPLY - Sum(TokensOf(side), s.accounts))
      && s.pool.b > 0.0 && PotentialWith(f, s, side, tokens) - Potential(f, s) <= 0.98 * s.accounts[id].wallet
    case FormalSell(id, side, tokens) =>
      && s.phase == FORMAL && !Blocked(s) && s.Has(id) && side != INVALID
      && Within(tokens, if side == YES then s.accounts[id].yes else s.accounts[id].no)
    case TransferLP(from, to, amount) =>
      && (s.phase == FORMAL || s.phase == WAIT_CORE || s.phase == SETTLED)
      && s.Has(from) && s.Has(to) && from != to && Within(amount, s.accounts[from].lp)
    case RedeemPairs(id, pairs) =>
      Open(s) && s.Has(id) && Within(pairs, s.accounts[id].yes) && Within(pairs, s.accounts[id].no)
    case CoreStake(id, side, amount) =>
      && Open(s) && s.now < s.TC && s.Has(id) && Within(amount, s.accounts[id].wallet)
      && (s.accounts[id].coreSide.Some? ==> s.accounts[id].coreSide.value == side)
    case CoreExit(id) => Open(s) && s.now < s.TC && s.Has(id) && s.accounts[id].coreStake > 0.0
    case ProposeEarly(id, side, reason) =>
      && Open(s) && s.early.pending.None? && s.now + 3600.0 < s.TC && side != INVALID
      && !Text.AllSpace(reason)
      && Sum(AnyStake, s.accounts) > 0.0 && s.Has(id) && s.early.bond <= s.accounts[id].wallet
    case ProcessEarly => (s.phase == FORMAL || s.phase == WAIT_CORE) && Blocked(s)
    case ClaimEarlyBond(id) => s.Has(id) && s.accounts[id].bondRefund > 0.0
    case AdvanceTime(to_) => to_ >= s.now
    case Finalize => (s.phase == FORMAL || s.phase == WAIT_CORE) && s.now >= s.TC
    case ClaimLP(id, amount) => s.phase == SETTLED && s.Has(id) && Within(amount, s.accounts[id].lp)
    case Claim(id) =>
      && (s.phase == SETTLED || s.phase == FAILED) && s.Has(id)
      && var a := s.accounts[id]; a.lp > 0.0 || a.g > 0.0 || a.yes > 0.0 || a.no > 0.0
    case ClaimCore(id) => s.phase == SETTLED && s.Has(id) && !s.accounts[id].coreClaimed
    case ClaimCoreOfficial(id) =>
      s.phase == SETTLED && s.Has(id) && id == s.protocolAccount && s.claims.coreOfficialBudget > 0.0
    case ClaimFees(kind, id) =>
      s.Has(id) && if kind == CREATOR then id == s.creatorAccount && s.creatorFees > 0.0
                   else id == s.protocolAccount && s.protocolFees > 0.0
  }

  lemma GenesisAccepted(f: Functions, s: State, a: Action)
    requires Lawful(f) && Inv(f, s) && (a.Buy? || a.Sell?)
    ensures Guard(f, s, a).None? <==> Acceptable(f, s, a)
  {
    hide OnCurve, AllIdle;
    if s.phase == GENESIS && s.Has(a.id) {
      GenesisWithin(s, a.id);
    }
  }

  lemma GenesisWithin(s: State, id: int)
    requires GenesisBooks(s) && AllGood(s.accounts) && s.Has(id)
    ensures s.accounts[id].g <= s.S
  {
    forall i | 0 <= i < |s.accounts| ensures GTokens(s.accounts[i]) >= 0.0 {
      assert GoodAccount(s.accounts[i]);
    }
    SumNonNeg(GTokens, s.accounts);
    assert GTokens(s.accounts[id]) <= Sum(GTokens, s.accounts);
  }

  lemma FormalBuyAccepted(f: Functions, s: State, id: int, side: Outcome, tokens: real)
    requires Lawful(f) && Inv(f, s)
    ensures FormalBuyFault(f, s, id, side, tokens).None? <==> Acceptable(f, s, FormalBuy(id, side, tokens))
  {
    hide QuoteFormalBuy, Cost, CurveDelta, Sum, Potential, PotentialWith;
    if s.phase == FORMAL && side != INVALID && tokens > 0.0 {
      PositiveDepth(f, s);
      BuyQuoteExact(f, s, side, tokens);
      SupplyOf(s, side);
    } else if FormalFault(s).None? {
      BadBuy(f, s, side, tokens);
    }
  }

  lemma BadBuy(f: Functions, s: State, side: Outcome, tokens: real)
    requires side == INVALID || tokens <= 0.0
    ensures QuoteFormalBuy(f, s, side, tokens).Err?
  {}

  lemma SupplyOf(s: State, side: Outcome)
    requires side != INVALID
    ensures s.Supply(side) == Sum(TokensOf(side), s.accounts)
  {}

  lemma FormalSellAccepted(f: Functions, s: State, id: int, side: Outcome, tokens: real)
    requires Lawful(f) && Inv(f, s)
    ensures FormalSellFault(f, s, id, side, tokens).None? <==> Acceptable(f, s, FormalSell(id, side, tokens))
  {
    hide QuoteFormalSell, Cost, CurveDelta, Sum;
    if s.phase == FORMAL && side != INVALID && tokens > 0.0 {
      PositiveDepth(f, s);
      SumsNonNegative(s.accounts);
      SellQuoteExact(f, s, side, tokens);
    } else if FormalFault(s).None? {
      BadSell(f, s, side, tokens);
    }
  }

  lemma BadSell(f: Functions, s: State, side: Outcome, tokens: real)
    requires side == INVALID || tokens <= 0.0
    ensures QuoteFormalSell(f, s, side, tokens).Err?
  {}

  lemma RedeemAccepted(f: Functions, s: State, id: int, pairs: real)
    requires Lawful(f) && Inv(f, s)
    ensures RedeemFault(s, id, pairs).None? <==> Acceptable(f, s, RedeemPairs(id, pairs))
  {
    hide Inv;
    if s.Trading() && s.Has(id) && 0.0 < pairs <= Min(s.accounts[id].yes, s.accounts[id].no) {
      RedemptionCovered(f, s, id, pairs);
    }
  }

  lemma CoreAccepted(f: Functions, s: State, a: Action)
    requires Inv(f, s) && (a.CoreStake? || a.CoreExit?)
    ensures Guard(f, s, a).None? <==> Acceptable(f, s, a)
  {
    hide Sum, LmsrCash;
    if s.Has(a.id) {
      GoodAt(s.accounts, a.id);
    }
  }

  lemma ProposeAccepted(f: Functions, s: State, id: int, side: Outcome, reason: Text.Units)
    requires Inv(f, s)
    ensures ProposeFault(s, id, side, reason).None? <==> Acceptable(f, s, ProposeEarly(id, side, reason))
  {
    hide Text.Trim, Sum, LmsrCash;
    Text.TrimBlank(reason);
    if s.Trading() {
      AnyStakeSplits(s.accounts);
    }
  }

  lemma DecisionAccepted(f: Functions, s: State, a: Action)
    requires Lawful(f) && Inv(f, s) && (a.ProcessEarly? || a.Finalize?)
    ensures Guard(f, s, a).None? <==> Acceptable(f, s, a)
  {
    hide Inv, Processed, Nav, ProcessSettles;
    if s.Trading() && s.early.pending.Some? {
      ProcessAllowed(f, s);
    }
    if a.Finalize? && FinalizeFault(s).Some? {
      FinalizeErrors(f, s);
    }
  }

  lemma ClaimAccepted(f: Functions, s: State, a: Action)
    requires Lawful(f) && Inv(f, s) && (a.ClaimLP? || a.Claim? || a.ClaimCore?)
    ensures Guard(f, s, a).None? <==> Acceptable(f, s, a)
  {
    assert s.phase == SETTLED ==> s.claims.lpClaimSupply > 0.0 && |s.claims.corePayouts| == |s.accounts|;
    if s.Has(a.id) {
      GoodAt(s.accounts, a.id);
    }
    hide Inv, LedgerFault, BurnLP;
    if a.Claim? && s.Has(a.id) && s.phase == SETTLED && ClaimLPFault(s, a.id, s.accounts[a.id].lp).None? {
      BurnKeeps(f, s, a.id, s.accounts[a.id].lp);
      GuardSilent(f, BurnLP(s, a.id, s.accounts[a.id].lp));
    }
  }

  lemma PlainAccepted(f: Functions, s: State, a: Action)
    requires a.Open? || a.TransferLP? || a.ClaimEarlyBond? || a.AdvanceTime? || a.ClaimCoreOfficial? || a.ClaimFees?
    ensures Guard(f, s, a).None? <==> Acceptable(f, s, a)
  {}

  lemma GuardExact(f: Functions, s: State, a: Action)
    requires Lawful(f) && Inv(f, s)
    ensures Guard(f, s, a).None? <==> Acceptable(f, s, a)
  {
    hide Inv, Acceptable, BuyFault, SellFault, FormalBuyFault, FormalSellFault, TransferFault, RedeemFault, StakeFault,
      ExitFault, ProposeFault, ProcessFault, BondFault, FinalizeFault, ClaimLPFault, ClaimFault, ClaimCoreFault,
      ClaimOfficialFault, ClaimFeesFault;
    match a {
      case Buy(_, _) => GenesisAccepted(f, s, a);
      case Sell(_, _) => GenesisAccepted(f, s, a);
      case FormalBuy(id, side, tokens) => FormalBuyAccepted(f, s, id, side, tokens);
      case FormalSell(id, side, tokens) => FormalSellAccepted(f, s, id, side, tokens);
      case RedeemPairs(id, pairs) => RedeemAccepted(f, s, id, pairs);
      case CoreStake(_, _, _) => CoreAccepted(f, s, a);
      case CoreExit(_) => CoreAccepted(f, s, a);
      case ProposeEarly(id, side, reason) => ProposeAccepted(f, s, id, side, reason);
      case ProcessEarly => DecisionAccepted(f, s, a);
      case Finalize => DecisionAccepted(f, s, a);
      case ClaimLP(_, _) => ClaimAccepted(f, s, a);
      case Claim(_) => ClaimAccepted(f, s, a);
      case ClaimCore(_) => ClaimAccepted(f, s, a);
      case _ => PlainAccepted(f, s, a);
    }
  }

  function PowerOfTwo(n: nat): real {
    if n == 0 then 1.0 else 2.0 * PowerOfTwo(n - 1)
  }

  lemma {:induction false} PowersMultiply(m: nat, n: nat)
    ensures PowerOfTwo(m + n) == PowerOfTwo(m) * PowerOfTwo(n)
  {
    if m > 0 {
      PowersMultiply(m - 1, n);
    }
  }

  /** The supply cap is 2^192 - 1 in units of 10^-18. */
  lemma SupplyCap()
    ensures MAX_OUTCOME_SUPPLY * 1000000000000000000.0 == PowerOfTwo(192) - 1.0
  {
    assert PowerOfTwo(8) == 256.0;
    PowersMultiply(8, 8);
    PowersMultiply(16, 16);
    PowersMultiply(32, 32);
    PowersMultiply(64, 64);
    PowersMultiply(128, 64);
  }

  /** In every reachable state an action succeeds exactly when its requester has what it takes, the
      phase allows it and no request waits for its decision; prices, supplies, cash and books never
      stand in the way. */
  lemma AcceptedExactly(f: Functions, s: State, a: Action)
    requires Lawful(f) && Inv(f, s)
    ensures Apply(f, s, a).Ok? <==> Acceptable(f, s, a)
  {
    hide Inv, Acceptable, Guard, Effect, LedgerFault;
    GuardExact(f, s, a);
    StepSafe(f, s, a);
  }

  // ---- why an action is refused ----

  /** The account an action names is not there. */
  predicate NobodyThere(s: State, a: Action) {
    match a
    case TransferLP(from, to, _) => !s.Has(from) || !s.Has(to)
    case Open => false
    case ProcessEarly => false
    case AdvanceTime(_) => false
    case Finalize => false
    case _ => !s.Has(a.id)
  }

  /** What each error says. */
  ghost predicate Reason(f: Functions, s: State, a: Action, e: Error) {
    match e
    case ACCOUNT => NobodyThere(s, a)
    case PHASE =>
      || (a.Open? && s.phase != CREATE) || (a.RedeemPairs? && !s.Trading())
      || (a.TransferLP? && !s.Trading() && s.phase != SETTLED)
    case GENESIS_CLOSED => (a.Buy? || a.Sell?) && s.phase != GENESIS
    case FORMAL_CLOSED => (a.FormalBuy? || a.FormalSell?) && s.phase != FORMAL
    case CORE_CLOSED =>
      || ((a.CoreStake? || a.CoreExit? || a.ProposeEarly?) && (!s.Trading() || s.now >= s.TC))
      || (a.ProcessEarly? && !s.Trading())
    case PROCESS_EARLY_REQUEST =>
      && (a.FormalBuy? || a.FormalSell? || a.RedeemPairs? || a.CoreStake? || a.CoreExit? || a.ProposeEarly?)
      && Blocked(s)
    case BALANCE =>
      (match a
       case Buy(id, paid) => s.Has(id) && paid > s.accounts[id].wallet
       case FormalBuy(id, side, tokens) =>
         && s.Has(id) && s.pool.b > 0.0
         && PotentialWith(f, s, side, tokens) - Potential(f, s) > 0.98 * s.accounts[id].wallet
       case CoreStake(id, _, amount) => s.Has(id) && !Within(amount, s.accounts[id].wallet)
       case ProposeEarly(id, _, _) => s.Has(id) && s.early.bond > s.accounts[id].wallet
       case _ => false)
    case HOLDINGS =>
      (match a
       case Sell(id, tokens) => s.Has(id) && !Within(tokens, s.accounts[id].g)
       case FormalSell(id, side, tokens) =>
         s.Has(id) && tokens > if side == YES then s.accounts[id].yes else s.accounts[id].no
       case TransferLP(from, to, amount) => s.Has(from) && (from == to || !Within(amount, s.accounts[from].lp))
       case RedeemPairs(id, pairs) => s.Has(id) && (pairs > s.accounts[id].yes || pairs > s.accounts[id].no)
       case _ => false)
    case AMOUNT =>
      (a.Buy? && a.paid <= 0.0) || (a.FormalBuy? && a.tokens <= 0.0) || (a.RedeemPairs? && a.pairs <= 0.0)
    case CAPACITY => a.FormalSell? && a.tokens <= 0.0
    case SIDE => (a.FormalBuy? || a.FormalSell?) && a.side == INVALID
    case SUPPLY_LIMIT => a.FormalBuy? && a.tokens > MAX_OUTCOME_SUPPLY - Sum(TokensOf(a.side), s.accounts)
    case SIDE_LOCKED =>
      a.CoreStake? && s.Has(a.id) && s.accounts[a.id].coreSide.Some? && s.accounts[a.id].coreSide.value != a.side
    case NO_STAKE => a.CoreExit? && s.Has(a.id) && s.accounts[a.id].coreStake == 0.0
    case EARLY_OUTCOME => a.ProposeEarly? && a.side == INVALID
    case MISSING_REASON => a.ProposeEarly? && Text.AllSpace(a.reason)
    case EARLY_PENDING => a.ProposeEarly? && s.early.pending.Some?
    case NO_PRINCIPAL => a.ProposeEarly? && Sum(AnyStake, s.accounts) == 0.0
    case EARLY_WINDOW => a.ProposeEarly? && s.now + 3600.0 >= s.TC
    case NO_EARLY_REQUEST => a.ProcessEarly? && s.early.pending.None?
    case EARLY_PENDING_WINDOW => (a.ProcessEarly? || a.Finalize?) && s.early.pending.Some? && !Blocked(s)
    case NO_BOND_REFUND => a.ClaimEarlyBond? && s.Has(a.id) && s.accounts[a.id].bondRefund == 0.0
    case TIME => a.AdvanceTime? && a.to_ < s.now
    case CORE_PENDING => a.Finalize? && (!s.Trading() || s.now < s.TC)
    case CLAIM =>
      (match a
       case ClaimLP(id, amount) => s.phase != SETTLED || (s.Has(id) && !Within(amount, s.accounts[id].lp))
       case Claim(id) =>
         || !s.Terminal()
         || (s.Has(id) && HoldsNothing(s.accounts[id]))
       case _ => false)
    case CORE_CLAIM => a.ClaimCore? && (s.phase != SETTLED || (s.Has(a.id) && s.accounts[a.id].coreClaimed))
    case FEE_OWNER =>
      || (a.ClaimCoreOfficial? && (s.phase != SETTLED || a.id != s.protocolAccount))
      || (a.ClaimFees? && a.id != if a.kind == CREATOR then s.creatorAccount else s.protocolAccount)
    case NO_FEES =>
      || (a.ClaimCoreOfficial? && s.claims.coreOfficialBudget <= 0.0)
      || (a.ClaimFees? && 0.0 >= if a.kind == CREATOR then s.creatorFees else s.protocolFees)
    case _ => false
  }

  predicate HoldsNothing(a: Account) {
    a.lp == 0.0 && a.g == 0.0 && a.yes == 0.0 && a.no == 0.0
  }

  lemma TradeReason(f: Functions, s: State, a: Action)
    requires Lawful(f) && Inv(f, s) && Guard(f, s, a).Some? && (a.FormalBuy? || a.FormalSell?)
    ensures Reason(f, s, a, Guard(f, s, a).value)
  {
    hide QuoteFormalBuy, QuoteFormalSell, Cost, CurveDelta, Sum, Potential, PotentialWith;
    if FormalFault(s).None? {
      PositiveDepth(f, s);
      SumsNonNegative(s.accounts);
      if a.side == INVALID {
        NoSide(f, s, a.tokens);
      } else if a.tokens <= 0.0 {
        NoAmount(f, s, a.side, a.tokens);
      } else if a.FormalBuy? {
        BuyQuoteExact(f, s, a.side, a.tokens);
        SupplyOf(s, a.side);
      } else {
        SellQuoteExact(f, s, a.side, a.tokens);
        HeldWithin(s, a.id, a.side);
      }
    }
  }

  lemma NoSide(f: Functions, s: State, tokens: real)
    ensures QuoteFormalBuy(f, s, INVALID, tokens) == Err(SIDE) && QuoteFormalSell(f, s, INVALID, tokens) == Err(SIDE)
  {}

  lemma NoAmount(f: Functions, s: State, side: Outcome, tokens: real)
    requires side != INVALID && tokens <= 0.0
    ensures QuoteFormalBuy(f, s, side, tokens) == Err(AMOUNT) && QuoteFormalSell(f, s, side, tokens) == Err(CAPACITY)
  {}

  lemma HeldWithin(s: State, id: int, side: Outcome)
    requires AllGood(s.accounts) && side != INVALID
    ensures s.Has(id) ==> s.accounts[id].Held(side) <= s.Supply(side)
  {
    hide Sum;
    SumsNonNegative(s.accounts);
  }

  lemma GenesisReason(f: Functions, s: State, a: Action)
    requires Lawful(f) && Inv(f, s) && Guard(f, s, a).Some? && (a.Buy? || a.Sell?)
    ensures Reason(f, s, a, Guard(f, s, a).value)
  {
    hide OnCurve, AllIdle;
    if s.phase == GENESIS && s.Has(a.id) {
      GenesisWithin(s, a.id);
    }
  }

  lemma RedeemReason(f: Functions, s: State, a: Action)
    requires Lawful(f) && Inv(f, s) && Guard(f, s, a).Some? && a.RedeemPairs?
    ensures Reason(f, s, a, Guard(f, s, a).value)
  {
    hide Inv;
    if s.Trading() && s.Has(a.id) && 0.0 < a.pairs <= Min(s.accounts[a.id].yes, s.accounts[a.id].no) {
      RedemptionCovered(f, s, a.id, a.pairs);
    }
  }

  lemma CoreReason(f: Functions, s: State, a: Action)
    requires Inv(f, s) && Guard(f, s, a).Some? && (a.CoreStake? || a.CoreExit?)
    ensures Reason(f, s, a, Guard(f, s, a).value)
  {
    hide Sum, LmsrCash;
    if s.Has(a.id) {
      GoodAt(s.accounts, a.id);
    }
  }

  lemma ProposeReason(f: Functions, s: State, a: Action)
    requires Inv(f, s) && Guard(f, s, a).Some? && a.ProposeEarly?
    ensures Reason(f, s, a, Guard(f, s, a).value)
  {
    hide Sum, LmsrCash, Text.Trim;
    Text.TrimBlank(a.reason);
    if s.Trading() {
      AnyStakeSplits(s.accounts);
      SumsNonNegative(s.accounts);
    }
  }

  lemma PaidReason(f: Functions, s: State, a: Action)
    requires Inv(f, s) && Guard(f, s, a).Some? && (a.ClaimLP? || a.ClaimCore? || a.ClaimEarlyBond?)
    ensures Reason(f, s, a, Guard(f, s, a).value)
  {
    assert s.phase == SETTLED ==> s.claims.lpClaimSupply > 0.0 && |s.claims.corePayouts| == |s.accounts|;
    if s.Has(a.id) {
      GoodAt(s.accounts, a.id);
    }
    hide Inv;
  }

  lemma ClaimReason(f: Functions, s: State, id: int)
    requires Lawful(f) && Inv(f, s) && ClaimFault(f, s, id).Some?
    ensures Reason(f, s, Claim(id), ClaimFault(f, s, id).value)
  {
    if s.Has(id) {
      GoodAt(s.accounts, id);
    }
    hide Inv, LedgerFault, BurnLP, Acceptable;
    ClaimFaultIsClaim(f, s, id);
    ClaimAccepted(f, s, Claim(id));
    NotAcceptable(f, s, id);
  }

  lemma NotAcceptable(f: Functions, s: State, id: int)
    requires !Acceptable(f, s, Claim(id)) && (s.Has(id) ==> GoodAccount(s.accounts[id]))
    ensures !s.Has(id) || !s.Terminal() || HoldsNothing(s.accounts[id])
  {}

  lemma DecisionReason(f: Functions, s: State, a: Action)
    requires Lawful(f) && Inv(f, s) && Guard(f, s, a).Some? && (a.ProcessEarly? || a.Finalize?)
    ensures Reason(f, s, a, Guard(f, s, a).value)
  {
    hide Inv, Processed, Nav, ProcessSettles;
    if s.Trading() && s.early.pending.Some? {
      ProcessAllowed(f, s);
    }
    if a.Finalize? {
      FinalizeErrors(f, s);
    }
  }

  lemma GuardReason(f: Functions, s: State, a: Action)
    requires Lawful(f) && Inv(f, s) && Guard(f, s, a).Some?
    ensures Reason(f, s, a, Guard(f, s, a).value)
  {
    hide Inv, BuyFault, SellFault, FormalBuyFault, FormalSellFault, RedeemFault, StakeFault, ExitFault, ProposeFault,
      ProcessFault, FinalizeFault, ClaimLPFault, ClaimFault, ClaimCoreFault, Reason;
    if a.Buy? || a.Sell? {
      GenesisReason(f, s, a);
    } else if a.FormalBuy? || a.FormalSell? {
      TradeReason(f, s, a);
    } else if a.RedeemPairs? {
      RedeemReason(f, s, a);
    } else if a.CoreStake? || a.CoreExit? {
      CoreReason(f, s, a);
    } else if a.ProposeEarly? {
      ProposeReason(f, s, a);
    } else if a.ClaimLP? || a.ClaimCore? || a.ClaimEarlyBond? {
      PaidReason(f, s, a);
    } else if a.Claim? {
      ClaimReason(f, s, a.id);
    } else if a.ProcessEarly? || a.Finalize? {
      DecisionReason(f, s, a);
    } else {
      PlainReason(f, s, a);
    }
  }

  lemma PlainReason(f: Functions, s: State, a: Action)
    requires Guard(f, s, a).Some?
    requires a.Open? || a.TransferLP? || a.AdvanceTime? || a.ClaimCoreOfficial? || a.ClaimFees?
    ensures Reason(f, s, a, Guard(f, s, a).value)
  {}

  /** In every reachable state, the error an action is refused with is true of the request. */
  lemma RefusalTrue(f: Functions, s: State, a: Action)
    requires Lawful(f) && Inv(f, s) && Apply(f, s, a).Err?
    ensures Reason(f, s, a, Apply(f, s, a).error)
  {
    hide Inv, Reason, Guard, Effect, LedgerFault;
    StepSafe(f, s, a);
    GuardReason(f, s, a);
  }
}
