/** Theorems over every run of the topic market: an action that raises leaves the state as it
    was, one that succeeds replaces it. */
module Runs {
  import opened Maths
  import opened Wrappers
  import opened Sums
  import opened Accounts
  import opened Lmsr
  import opened Ledger
  import opened TopicMarket
  import opened Invariant
  import opened KeepFees
  import opened KeepGenesis
  import opened KeepFormal
  import opened KeepCore
  import opened KeepSettlement
  import opened KeepClaims
  import Text

  function After(f: Functions, s: State, a: Action): State {
    match Apply(f, s, a)
    case Ok(t) => t
    case Err(_) => s
  }

  function Run(f: Functions, s: State, acts: seq<Action>): State
    decreases |acts|
  {
    if acts == [] then s else Run(f, After(f, s, acts[0]), acts[1..])
  }

  /** Errors that would mean the books are wrong rather than the request. */
  predicate BookError(e: Error) {
    || e.LEDGER? || e.CURVE? || e.LP_LEDGER? || e.OUTCOME_LEDGER? || e.SOLVENCY? || e.LMSR_LEDGER?
    || e.NUMERIC? || e.CASH? || e.TINY? || e.SETTLEMENT_INSOLVENT?
  }

  // ---- start ----

  lemma Sum3(f: Account -> real, a: Account, b: Account, c: Account)
    ensures Sum(f, [a, b, c]) == f(a) + f(b) + f(c)
  {
    assert [a, b, c][1..] == [b, c] && [b, c][1..] == [c] && [c][1..] == [];
    assert Sum(f, [c]) == f(c) + Sum(f, []);
    assert Sum(f, [b, c]) == f(b) + Sum(f, [c]);
  }

  lemma DemoStarts(f: Functions, c: Config)
    requires Lawful(f) && CreateDemo(c).Ok?
    ensures Inv(f, CreateDemo(c).value) && CreateDemo(c).value.phase == CREATE
    ensures |CreateDemo(c).value.accounts| == 3
    ensures forall i :: 0 <= i < 3 ==> CreateDemo(c).value.accounts[i].wallet == 10000.0
  {
    var s := CreateDemo(c).value;
    var a := NewAccount(10000.0);
    Sum3(Wallet, a, a, a);
    Sum3(GTokens, a, a, a);
    Sum3(Refund, a, a, a);
    assert s.accounts == [a, a, a];
    assert GoodAccount(a);
  }

  // ---- one step ----

  lemma OpenKeeps(f: Functions, s: State)
    requires Inv(f, s) && s.phase == CREATE
    ensures Inv(f, s.(phase := GENESIS))
  {
    hide Sum, OnCurve;
  }

  lemma BuyStep(f: Functions, s: State, id: int, paid: real)
    requires Lawful(f) && Inv(f, s) && BuyFault(f, s, id, paid).None?
    ensures Inv(f, Effect(f, s, Buy(id, paid)))
  {
    BuyKeeps(f, s, id, paid);
    GraduateKeeps(f, Bought(s, id, QuoteBuy(f, s, paid).value));
  }

  lemma SellStep(f: Functions, s: State, id: int, tokens: real)
    requires Lawful(f) && Inv(f, s) && SellFault(s, id, tokens).None?
    ensures Inv(f, Effect(f, s, Sell(id, tokens)))
  {
    SellKeeps(f, s, id, tokens);
    GraduateKeeps(f, Sold(s, id, QuoteSell(s, tokens).value));
  }

  lemma FinalizeStep(f: Functions, s: State)
    requires Lawful(f) && Inv(f, s) && FinalizeFault(s).None?
    ensures Inv(f, Effect(f, s, Finalize))
  {
    hide Inv, ProcessFault, Settle, ProcessedEarly, SettleReady, Conserved, Books;
    if s.early.pending.Some? {
      ProcessKeeps(f, s);
    } else {
      SplitInv(f, s);
      ReadyWithoutRequest(f, s);
      SettleKeeps(f, s);
    }
  }

  lemma SplitInv(f: Functions, s: State)
    requires Inv(f, s)
    ensures Conserved(s) && Books(f, s)
  {}

  lemma EffectKeeps(f: Functions, s: State, a: Action)
    requires Lawful(f) && Inv(f, s) && Guard(f, s, a).None?
    ensures Inv(f, Effect(f, s, a))
  {
    hide Inv, BuyFault, SellFault, FormalBuyFault, FormalSellFault, TransferFault, RedeemFault, StakeFault,
      ExitFault, ProposeFault, ProcessFault, BondFault, FinalizeFault, ClaimLPFault, ClaimFault,
      ClaimCoreFault, ClaimOfficialFault, ClaimFeesFault;
    match a {
      case Open => OpenKeeps(f, s);
      case Buy(id, paid) => BuyStep(f, s, id, paid);
      case Sell(id, tokens) => SellStep(f, s, id, tokens);
      case FormalBuy(id, side, tokens) => FormalBuyKeeps(f, s, id, side, tokens);
      case FormalSell(id, side, tokens) => FormalSellKeeps(f, s, id, side, tokens);
      case TransferLP(from, to, amount) => TransferKeeps(f, s, from, to, amount);
      case RedeemPairs(id, pairs) => RedeemKeeps(f, s, id, pairs);
      case CoreStake(id, side, amount) => StakeKeeps(f, s, id, side, amount);
      case CoreExit(id) => ExitKeeps(f, s, id);
      case ProposeEarly(id, side, reason) => ProposeKeeps(f, s, id, side, reason);
      case ProcessEarly => ProcessKeeps(f, s);
      case ClaimEarlyBond(id) => BondReturnKeeps(f, s, id);
      case AdvanceTime(to_) => AdvanceKeeps(f, s, to_);
      case Finalize => FinalizeStep(f, s);
      case ClaimLP(id, amount) => BurnKeeps(f, s, id, amount);
      case Claim(id) => ClaimKeeps(f, s, id);
      case ClaimCore(id) => ClaimCoreKeeps(f, s, id);
      case ClaimCoreOfficial(id) => OfficialKeeps(f, s, id);
      case ClaimFees(kind, id) => FeesKeep(f, s, kind, id);
    }
  }

  // ---- no book error is reachable ----

  lemma FormalBuyErrors(f: Functions, s: State, id: int, side: Outcome, tokens: real)
    requires Lawful(f) && Inv(f, s) && FormalBuyFault(f, s, id, side, tokens).Some?
    ensures !BookError(FormalBuyFault(f, s, id, side, tokens).value)
  {
    hide Cost, CurveDelta, Sum;
    if FormalFault(s).None? && side != INVALID && tokens > 0.0 {
      PositiveDepth(f, s);
      BuyQuoteExact(f, s, side, tokens);
    }
  }

  lemma FormalSellErrors(f: Functions, s: State, id: int, side: Outcome, tokens: real)
    requires Lawful(f) && Inv(f, s) && FormalSellFault(f, s, id, side, tokens).Some?
    ensures !BookError(FormalSellFault(f, s, id, side, tokens).value)
  {
    hide Cost, CurveDelta, Sum;
    if FormalFault(s).None? && side != INVALID && tokens > 0.0 {
      PositiveDepth(f, s);
      SumsNonNegative(s.accounts);
      SellQuoteExact(f, s, side, tokens);
    }
  }

  lemma RedeemErrors(f: Functions, s: State, id: int, pairs: real)
    requires Lawful(f) && Inv(f, s) && RedeemFault(s, id, pairs).Some?
    ensures !BookError(RedeemFault(s, id, pairs).value)
  {
    hide Inv;
    if s.Trading() && s.Has(id) && 0.0 < pairs <= Min(s.accounts[id].yes, s.accounts[id].no) {
      RedemptionCovered(f, s, id, pairs);
    }
  }

  lemma ProcessErrors(f: Functions, s: State)
    requires Lawful(f) && Inv(f, s) && ProcessFault(s).Some?
    ensures !BookError(ProcessFault(s).value)
  {
    hide Inv, Processed, Nav;
    if s.Trading() && s.early.pending.Some? {
      ProcessAllowed(f, s);
    }
  }

  lemma FinalizeErrors(f: Functions, s: State)
    requires Lawful(f) && Inv(f, s) && FinalizeFault(s).Some?
    ensures FinalizeFault(s) == Some(CORE_PENDING) && !(s.Trading() && s.now >= s.TC)
  {
    hide ProcessFault, Nav, LmsrCash, SettleReady;
    if s.Trading() && s.now >= s.TC {
      if s.early.pending.Some? {
        ProcessAllowed(f, s);
      } else {
        ReadyWithoutRequest(f, s);
        NavPositive(f, s);
      }
    }
  }

  /** The remaining guards only name the request, the caller or the phase. */
  lemma GenesisErrors(f: Functions, s: State, id: int, amount: real)
    ensures BuyFault(f, s, id, amount).Some? ==> !BookError(BuyFault(f, s, id, amount).value)
    ensures SellFault(s, id, amount).Some? ==> !BookError(SellFault(s, id, amount).value)
  {}

  lemma TokenErrors(s: State, id: int, to: int, amount: real, kind: FeeKind)
    ensures TransferFault(s, id, to, amount).Some? ==> !BookError(TransferFault(s, id, to, amount).value)
    ensures BondFault(s, id).Some? ==> !BookError(BondFault(s, id).value)
    ensures ClaimLPFault(s, id, amount).Some? ==> !BookError(ClaimLPFault(s, id, amount).value)
    ensures ClaimCoreFault(s, id).Some? ==> !BookError(ClaimCoreFault(s, id).value)
    ensures ClaimOfficialFault(s, id).Some? ==> !BookError(ClaimOfficialFault(s, id).value)
    ensures ClaimFeesFault(s, kind, id).Some? ==> !BookError(ClaimFeesFault(s, kind, id).value)
  {}

  lemma CoreErrors(s: State, id: int, side: Outcome, amount: real, reason: Text.Units)
    ensures StakeFault(s, id, side, amount).Some? ==> !BookError(StakeFault(s, id, side, amount).value)
    ensures ExitFault(s, id).Some? ==> !BookError(ExitFault(s, id).value)
    ensures ProposeFault(s, id, side, reason).Some? ==> !BookError(ProposeFault(s, id, side, reason).value)
  {
    hide Text.Trim;
  }

  lemma GuardErrors(f: Functions, s: State, a: Action)
    requires Lawful(f) && Inv(f, s) && Guard(f, s, a).Some?
    ensures !BookError(Guard(f, s, a).value)
  {
    hide Inv, BuyFault, SellFault, FormalBuyFault, FormalSellFault, TransferFault, RedeemFault, StakeFault,
      ExitFault, ProposeFault, ProcessFault, BondFault, FinalizeFault, ClaimLPFault, ClaimFault,
      ClaimCoreFault, ClaimOfficialFault, ClaimFeesFault;
    match a {
      case Open =>
      case AdvanceTime(_) =>
      case Buy(id, paid) => GenesisErrors(f, s, id, paid);
      case Sell(id, tokens) => GenesisErrors(f, s, id, tokens);
      case FormalBuy(id, side, tokens) => FormalBuyErrors(f, s, id, side, tokens);
      case FormalSell(id, side, tokens) => FormalSellErrors(f, s, id, side, tokens);
      case TransferLP(from, to, amount) => TokenErrors(s, from, to, amount, CREATOR);
      case RedeemPairs(id, pairs) => RedeemErrors(f, s, id, pairs);
      case CoreStake(id, side, amount) => CoreErrors(s, id, side, amount, []);
      case CoreExit(id) => CoreErrors(s, id, YES, 0.0, []);
      case ProposeEarly(id, side, reason) => CoreErrors(s, id, side, 0.0, reason);
      case ProcessEarly => ProcessErrors(f, s);
      case ClaimEarlyBond(id) => TokenErrors(s, id, 0, 0.0, CREATOR);
      case Finalize => FinalizeErrors(f, s);
      case ClaimLP(id, amount) => TokenErrors(s, id, 0, amount, CREATOR);
      case Claim(id) => ClaimFaultIsClaim(f, s, id);
      case ClaimCore(id) => TokenErrors(s, id, 0, 0.0, CREATOR);
      case ClaimCoreOfficial(id) => TokenErrors(s, id, 0, 0.0, CREATOR);
      case ClaimFees(kind, id) => TokenErrors(s, id, 0, 0.0, kind);
    }
  }

  /** One action on a good state: it either succeeds with a good state, or is refused for a
      reason the requester can see; the ledger check at its end never fires. */
  lemma StepSafe(f: Functions, s: State, a: Action)
    requires Lawful(f) && Inv(f, s)
    ensures Inv(f, After(f, s, a))
    ensures Apply(f, s, a).Ok? <==> Guard(f, s, a).None?
    ensures Apply(f, s, a).Err? ==> !BookError(Apply(f, s, a).error)
  {
    hide Inv, Guard, Effect, LedgerFault;
    if Guard(f, s, a).Some? {
      GuardErrors(f, s, a);
    } else {
      EffectKeeps(f, s, a);
      GuardSilent(f, Effect(f, s, a));
    }
  }

  // ---- what no action changes ----

  /** The terms a market was created with. */
  predicate SameTerms(s: State, t: State) {
    && t.TG == s.TG && t.TF == s.TF && t.TC == s.TC && t.k == s.k && t.rTarget == s.rTarget
    && t.creatorAccount == s.creatorAccount && t.protocolAccount == s.protocolAccount
    && t.initialCapital == s.initialCapital && t.early.bond == s.early.bond
    && |t.accounts| == |s.accounts| && t.now >= s.now
  }

  lemma DistributeTerms(s: State)
    ensures SameTerms(s, DistributeOfficialFees(s))
  {}

  lemma SettleTerms(s: State)
    ensures SameTerms(s, Settle(s))
  {
    hide DistributeOfficialFees, SettledClaims;
    DistributeTerms(SettleBooks(s));
  }

  lemma ProcessTerms(s: State)
    requires ProcessFault(s).None?
    ensures SameTerms(s, ProcessedEarly(s))
  {
    hide Settle, Nav;
    SettleTerms(Processed(s));
  }

  lemma AdvanceTerms(s: State, to_: real)
    requires to_ >= s.now
    ensures SameTerms(s, Advanced(s, to_))
  {
    hide DistributeOfficialFees;
    var t := s.(now := to_);
    DistributeTerms(t.(phase := FAILED, R := 0.0,
      claims := t.claims.(failedBudget := t.R, failedBudgetInitial := t.R, failedSupply := t.S)));
  }

  lemma TermsKept(f: Functions, s: State, a: Action)
    requires Guard(f, s, a).None?
    ensures SameTerms(s, Effect(f, s, a))
  {
    hide Sum, QuoteBuy, QuoteSell, QuoteFormalBuy, QuoteFormalSell, ExitPenalty, Settle, ProcessedEarly, Advanced;
    match a {
      case ProcessEarly => ProcessTerms(s);
      case Finalize =>
        if s.early.pending.Some? { ProcessTerms(s); } else { SettleTerms(s); }
      case AdvanceTime(to_) => AdvanceTerms(s, to_);
      case _ =>
    }
  }

  function Rank(p: Phase): nat {
    match p
    case CREATE => 0
    case GENESIS => 1
    case FORMAL => 2
    case WAIT_CORE => 3
    case FAILED => 4
    case SETTLED => 4
  }

  lemma DistributePhase(s: State)
    ensures DistributeOfficialFees(s).phase == s.phase
  {}

  lemma PhaseForward(f: Functions, s: State, a: Action)
    requires Guard(f, s, a).None?
    ensures Rank(Effect(f, s, a).phase) >= Rank(s.phase)
    ensures s.Terminal() ==> Effect(f, s, a).phase == s.phase
  {
    hide Sum, QuoteBuy, QuoteSell, QuoteFormalBuy, QuoteFormalSell, SettledClaims, ExitPenalty, Nav,
      DistributeOfficialFees;
    match a {
      case ProcessEarly => DistributePhase(SettleBooks(Processed(s)));
      case Finalize =>
        DistributePhase(SettleBooks(s));
        if s.early.pending.Some? { DistributePhase(SettleBooks(Processed(s))); }
      case AdvanceTime(to_) =>
        var t := s.(now := to_);
        DistributePhase(t.(phase := FAILED, R := 0.0,
          claims := t.claims.(failedBudget := t.R, failedBudgetInitial := t.R, failedSupply := t.S)));
      case _ =>
    }
  }

  /** Every state of every run from a good state satisfies the invariant, so the runtime guard is
      silent and wallets and reserve buckets together hold exactly the initial capital. Phases
      only move forward, and the terms of the market never change. */
  lemma {:induction false} RunSafe(f: Functions, s: State, acts: seq<Action>)
    requires Lawful(f) && Inv(f, s)
    ensures Inv(f, Run(f, s, acts))
    ensures LedgerFault(f, Run(f, s, acts)) == None
    ensures Total(Run(f, s, acts)) == s.initialCapital
    ensures SameTerms(s, Run(f, s, acts)) && Rank(Run(f, s, acts).phase) >= Rank(s.phase)
    decreases |acts|
  {
    hide LedgerFault, Books, Total, Apply, Guard, Effect, After;
    if acts == [] {
      GuardSilent(f, s);
    } else {
      var t := After(f, s, acts[0]);
      StepSafe(f, s, acts[0]);
      AfterKeepsTerms(f, s, acts[0]);
      RunSafe(f, t, acts[1..]);
    }
  }

  lemma AfterKeepsTerms(f: Functions, s: State, a: Action)
    ensures SameTerms(s, After(f, s, a)) && Rank(After(f, s, a).phase) >= Rank(s.phase)
  {
    hide Guard, Effect, LedgerFault;
    if Guard(f, s, a).None? {
      TermsKept(f, s, a);
      PhaseForward(f, s, a);
    }
  }

  /** The same for a freshly created demo market: no sequence of requests whatever makes the
      ledger check fire or changes the money in the market. */
  lemma DemoRunSafe(f: Functions, c: Config, acts: seq<Action>, last: Action)
    requires Lawful(f) && CreateDemo(c).Ok?
    ensures var t := Run(f, CreateDemo(c).value, acts);
            && LedgerFault(f, t) == None && Total(t) == 30000.0
            && (Apply(f, t, last).Err? ==> !BookError(Apply(f, t, last).error))
  {
    hide Inv, LedgerFault, Apply, Run, Total;
    DemoStarts(f, c);
    RunSafe(f, CreateDemo(c).value, acts);
    StepSafe(f, Run(f, CreateDemo(c).value, acts), last);
  }

  // ---- progress ----

  /** Once the Core deadline has passed, finalization always succeeds and settles, pending
      request or not. */
  lemma FinalizeSucceeds(f: Functions, s: State)
    requires Lawful(f) && Inv(f, s) && s.Trading() && s.now >= s.TC
    ensures Apply(f, s, Finalize).Ok? && Apply(f, s, Finalize).value.phase == SETTLED
    ensures Apply(f, s, Finalize).value.early.pending.None?
  {
    hide Inv, Guard, Effect, LedgerFault, FinalizeFault, Settle, ProcessedEarly;
    assert Guard(f, s, Finalize) == None by { FinalizeGuard(f, s); }
    StepSafe(f, s, Finalize);
    FinalizeSettles(f, s);
    SettledHasNoRequest(f, Effect(f, s, Finalize));
  }

  lemma FinalizeGuard(f: Functions, s: State)
    requires Lawful(f) && Inv(f, s) && s.Trading() && s.now >= s.TC
    ensures Guard(f, s, Finalize) == None && FinalizeFault(s).None?
  {
    hide Inv, FinalizeFault;
    if FinalizeFault(s).Some? {
      FinalizeErrors(f, s);
    }
  }

  lemma FinalizeSettles(f: Functions, s: State)
    requires Guard(f, s, Finalize).None?
    ensures Effect(f, s, Finalize).phase == SETTLED
  {
    hide DistributeOfficialFees, SettleBooks, Processed, Nav;
    DistributePhase(SettleBooks(s));
    SettleBooksPhase(s);
    if s.early.pending.Some? {
      DistributePhase(SettleBooks(Processed(s)));
      SettleBooksPhase(Processed(s));
    }
  }

  lemma SettleBooksPhase(s: State)
    ensures SettleBooks(s).phase == SETTLED
  {
    hide SettledClaims;
  }

  /** No terminal state holds a pending bond. */
  lemma SettledHasNoRequest(f: Functions, s: State)
    requires Inv(f, s) && s.Terminal()
    ensures s.early.pending.None? && PendingBond(s.early) == 0.0
  {}

  /** A whole holding can always be sold while trading is open. */
  lemma HoldingSellable(f: Functions, s: State, id: int, side: Outcome)
    requires Lawful(f) && Inv(f, s) && s.Has(id) && side != INVALID && s.accounts[id].Held(side) > 0.0
    requires s.phase == FORMAL && !s.EarlyDue()
    ensures Apply(f, s, FormalSell(id, side, s.accounts[id].Held(side))).Ok?
  {
    hide LedgerFault, QuoteFormalSell, Cost, Sum, LmsrCash, Effect;
    PositiveDepth(f, s);
    SumsNonNegative(s.accounts);
    SellQuoteExact(f, s, side, s.accounts[id].Held(side));
    StepSafe(f, s, FormalSell(id, side, s.accounts[id].Held(side)));
  }

  /** Genesis sales never graduate the market; a buy graduates it exactly when the reserve
      reaches the target. */
  lemma GraduationByBuyOnly(f: Functions, s: State, id: int, amount: real)
    requires Lawful(f) && Inv(f, s)
    ensures SellFault(s, id, amount).None? ==> Effect(f, s, Sell(id, amount)).phase == GENESIS
    ensures BuyFault(f, s, id, amount).None? ==>
      (Effect(f, s, Buy(id, amount)).phase == FORMAL <==> s.R + 0.99 * amount >= s.rTarget)
  {
    if SellFault(s, id, amount).None? {
      SellKeeps(f, s, id, amount);
    }
    if BuyFault(f, s, id, amount).None? {
      BuyKeeps(f, s, id, amount);
    }
  }
}
