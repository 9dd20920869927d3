/** After settlement or failure the order of claims does not matter: every account has a fixed
    entitlement, and each budget is used up exactly when everything has been claimed. */
module ClaimOrder {
  import opened Maths
  import opened Wrappers
  import opened Sums
  import opened Accounts
  import opened Lmsr
  import opened Ledger
  import opened TopicMarket
  import opened Invariant
  import opened KeepFees
  import opened KeepSettlement
  import opened KeepClaims
  import opened Runs

  function LpDue(s: State, lp: real): real {
    if s.phase == SETTLED && s.claims.lpClaimSupply > 0.0
    then ProRata(s.claims.lpBudgetInitial, lp, s.claims.lpClaimSupply) else 0.0
  }

  function CorePending(s: State, i: int): real
    requires s.Has(i)
  {
    if s.phase == SETTLED && !s.accounts[i].coreClaimed && i < |s.claims.corePayouts|
    then s.claims.corePayouts[i] else 0.0
  }

  function OfficialDue(s: State, i: int): real {
    (if i == s.creatorAccount then s.creatorFees else 0.0)
    + (if i == s.protocolAccount then s.protocolFees + s.claims.coreOfficialBudget else 0.0)
  }

  /** What the account has in hand plus everything it can still claim. */
  function Entitlement(s: State, i: int): real
    requires s.Has(i)
  {
    var a := s.accounts[i];
    a.wallet + a.bondRefund + OutcomeDue(s, a) + FailedDue(s, a) + LpDue(s, a.lp)
    + CorePending(s, i) + OfficialDue(s, i)
  }

  // ---- each claim keeps every entitlement ----

  lemma LpDueSplits(initial: real, lp: real, amount: real, supply: real)
    requires supply > 0.0
    ensures ProRata(initial, lp - amount, supply) == ProRata(initial, lp, supply) - ProRata(initial, amount, supply)
    ensures ProRata(initial, 0.0, supply) == 0.0
  {
    ProRataIsRate(initial, lp - amount, supply);
    ProRataIsRate(initial, lp, supply);
    ProRataIsRate(initial, amount, supply);
    ProRataIsRate(initial, 0.0, supply);
    Distribute(Rate(initial, supply), lp, amount);
  }

  lemma BurnEntitled(s: State, id: int, amount: real, i: int)
    requires ClaimLPFault(s, id, amount).None? && s.Has(i)
    ensures Entitlement(BurnLP(s, id, amount), i) == Entitlement(s, i)
  {
    hide ProRata;
    LpDueSplits(s.claims.lpBudgetInitial, s.accounts[id].lp, amount, s.claims.lpClaimSupply);
  }

  lemma RedeemablesEntitled(s: State, id: int, i: int)
    requires s.Has(id) && s.Has(i) && s.Terminal()
    requires s.phase == FAILED && s.claims.failedSupply <= 0.0 ==> s.claims.failedBudgetInitial == 0.0
    requires s.phase == SETTLED ==> s.result.Some?
    ensures Entitlement(Redeemables(s, id), i) == Entitlement(s, i)
  {
    hide ProRata;
    if s.phase == FAILED && s.claims.failedSupply > 0.0 {
      LpDueSplits(s.claims.failedBudgetInitial, s.accounts[id].g, 0.0, s.claims.failedSupply);
    }
  }

  lemma ClaimEntitled(f: Functions, s: State, id: int, i: int)
    requires Lawful(f) && Inv(f, s) && ClaimFault(f, s, id).None? && s.Has(i)
    ensures Entitlement(Claimed(s, id), i) == Entitlement(s, i)
  {
    assert s.phase == FAILED && s.claims.failedSupply <= 0.0 ==> s.claims.failedBudgetInitial == 0.0;
    assert s.phase == SETTLED ==> s.result.Some?;
    hide Inv, BurnLP, Redeemables, Claimed, Entitlement, LedgerFault;
    ClaimedInTwoSteps(s, id);
    if s.accounts[id].lp > 0.0 && s.phase == SETTLED {
      var t := BurnLP(s, id, s.accounts[id].lp);
      BurnEntitled(s, id, s.accounts[id].lp, i);
      BurnFrame(s, id, s.accounts[id].lp);
      RedeemablesEntitled(t, id, i);
    } else {
      RedeemablesEntitled(s, id, i);
    }
  }

  lemma BurnFrame(s: State, id: int, amount: real)
    requires s.Has(id) && s.claims.lpClaimSupply > 0.0
    ensures var t := BurnLP(s, id, amount);
            t.phase == s.phase && t.result == s.result && |t.accounts| == |s.accounts|
  {}

  lemma CoreClaimEntitled(s: State, id: int, i: int)
    requires ClaimCoreFault(s, id).None? && s.Has(i)
    ensures Entitlement(CoreClaimed(s, id), i) == Entitlement(s, i)
  {
    hide ProRata;
  }

  lemma OfficialEntitled(s: State, id: int, i: int)
    requires ClaimOfficialFault(s, id).None? && s.Has(i)
    ensures Entitlement(OfficialPaid(s, id), i) == Entitlement(s, i)
  {
    hide ProRata;
  }

  lemma FeesEntitled(s: State, kind: FeeKind, id: int, i: int)
    requires ClaimFeesFault(s, kind, id).None? && s.Has(i)
    ensures Entitlement(FeesPaid(s, kind, id), i) == Entitlement(s, i)
  {
    hide ProRata;
  }

  lemma BondEntitled(s: State, id: int, i: int)
    requires s.Has(id) && s.Has(i)
    ensures Entitlement(BondReturned(s, id), i) == Entitlement(s, i)
  {
    hide ProRata;
  }

  lemma TimeEntitled(s: State, to_: real, i: int)
    requires s.Terminal() && s.Has(i)
    ensures Entitlement(Advanced(s, to_), i) == Entitlement(s, i)
  {
    hide ProRata, Fail;
  }

  /** In a terminal state only time, claims and LP transfers get through. */
  lemma TerminalGuards(f: Functions, s: State, a: Action)
    requires s.Terminal() && Guard(f, s, a).None?
    ensures a.TransferLP? || a.ClaimEarlyBond? || a.AdvanceTime? || a.ClaimLP? || a.Claim? || a.ClaimCore?
         || a.ClaimCoreOfficial? || a.ClaimFees?
  {
    hide LedgerFault, ClaimFault, QuoteBuy, QuoteSell, QuoteFormalBuy, QuoteFormalSell;
  }

  /** One action in a terminal state: claims, bond refunds and time change nobody's entitlement. */
  lemma StepEntitled(f: Functions, s: State, a: Action, i: int)
    requires Lawful(f) && Inv(f, s) && s.Terminal() && s.Has(i) && !a.TransferLP?
    ensures After(f, s, a).Has(i) && After(f, s, a).phase == s.phase
    ensures Entitlement(After(f, s, a), i) == Entitlement(s, i)
  {
    hide Inv, LedgerFault, ClaimFault, BurnLP, Claimed, CoreClaimed, BondReturned, Advanced, Entitlement, OfficialPaid, FeesPaid,
      ClaimLPFault, ClaimCoreFault, ClaimOfficialFault, ClaimFeesFault;
    if Guard(f, s, a).None? {
      TermsKept(f, s, a);
      PhaseForward(f, s, a);
      TerminalGuards(f, s, a);
      match a {
        case ClaimLP(id, amount) => BurnEntitled(s, id, amount, i);
        case Claim(id) => ClaimEntitled(f, s, id, i);
        case ClaimCore(id) => CoreClaimEntitled(s, id, i);
        case ClaimEarlyBond(id) => BondEntitled(s, id, i);
        case AdvanceTime(to_) => TimeEntitled(s, to_, i);
        case ClaimCoreOfficial(id) => OfficialEntitled(s, id, i);
        case ClaimFees(kind, id) => FeesEntitled(s, kind, id, i);
        case _ =>
      }
    }
  }

  /** An LP transfer moves entitlement at the fixed rate from one account to the other. */
  lemma TransferEntitled(f: Functions, s: State, from: int, to: int, amount: real, i: int)
    requires Lawful(f) && Inv(f, s) && s.phase == SETTLED && s.Has(i) && TransferFault(s, from, to, amount).None?
    ensures Entitlement(Transferred(s, from, to, amount), i)
         == Entitlement(s, i) + (if i == to then LpDue(s, amount) else if i == from then -LpDue(s, amount) else 0.0)
  {
    hide ProRata, Sum, FairPayouts, AllGood;
    LpDueSplits(s.claims.lpBudgetInitial, s.accounts[from].lp, amount, s.claims.lpClaimSupply);
    LpDueSplits(s.claims.lpBudgetInitial, s.accounts[to].lp, -amount, s.claims.lpClaimSupply);
    LpDueSplits(s.claims.lpBudgetInitial, 0.0, amount, s.claims.lpClaimSupply);
  }

  /** The rate LP tokens are redeemed at does not change after settlement. */
  lemma RateFixed(f: Functions, s: State, a: Action)
    requires s.Terminal() && Guard(f, s, a).None?
    ensures var t := Effect(f, s, a);
      && t.phase == s.phase && t.claims.lpBudgetInitial == s.claims.lpBudgetInitial
      && t.claims.lpClaimSupply == s.claims.lpClaimSupply
  {
    hide LedgerFault, Sum, ClaimFault, ProRata, DistributeOfficialFees, OutcomeDue, FailedDue;
    TerminalGuards(f, s, a);
    PhaseForward(f, s, a);
    match a {
      case Claim(id) => ClaimedRate(f, s, id);
      case _ =>
    }
  }

  lemma ClaimedRate(f: Functions, s: State, id: int)
    requires ClaimFault(f, s, id).None?
    ensures var t := Claimed(s, id);
      t.claims.lpBudgetInitial == s.claims.lpBudgetInitial && t.claims.lpClaimSupply == s.claims.lpClaimSupply
  {
    hide LedgerFault, ProRata, OutcomeDue, FailedDue;
  }

  lemma LpDueAdds(s: State, lp: real, more: real)
    ensures LpDue(s, lp + more) == LpDue(s, lp) + LpDue(s, more)
  {
    hide ProRata;
    if s.phase == SETTLED && s.claims.lpClaimSupply > 0.0 {
      LpDueSplits(s.claims.lpBudgetInitial, lp + more, more, s.claims.lpClaimSupply);
      assert lp + more - more == lp;
    }
  }

  lemma LpDueOfNothing(s: State)
    ensures LpDue(s, 0.0) == 0.0
  {}

  /** LP tokens that one action moves to the account, less those it moves away from it. */
  function LpMoved(f: Functions, s: State, a: Action, i: int): real {
    if Guard(f, s, a).None? && a.TransferLP? then
      if a.to == i then a.amount else if a.from == i then -a.amount else 0.0
    else 0.0
  }

  function NetLp(f: Functions, s: State, acts: seq<Action>, i: int): real
    decreases |acts|
  {
    if acts == [] then 0.0 else LpMoved(f, s, acts[0], i) + NetLp(f, After(f, s, acts[0]), acts[1..], i)
  }

  // ---- order independence ----

  /** Any action in a terminal state changes an account's entitlement by the worth of the LP tokens
      transferred to or from it, and by nothing else. */
  lemma AnyStepEntitled(f: Functions, s: State, a: Action, i: int)
    requires Lawful(f) && Inv(f, s) && s.Terminal() && s.Has(i)
    ensures var t := After(f, s, a);
      && t.Has(i) && t.phase == s.phase && Entitlement(t, i) == Entitlement(s, i) + LpDue(s, LpMoved(f, s, a, i))
      && t.claims.lpBudgetInitial == s.claims.lpBudgetInitial && t.claims.lpClaimSupply == s.claims.lpClaimSupply
  {
    hide Inv, Entitlement, LedgerFault, Effect, Guard, LpDue;
    LpDueOfNothing(s);
    AfterKeepsTerms(f, s, a);
    if Guard(f, s, a).None? {
      RateFixed(f, s, a);
      if a.TransferLP? {
        TransferStep(f, s, a, i);
      } else {
        StepEntitled(f, s, a, i);
      }
    }
  }

  lemma TransferStep(f: Functions, s: State, a: Action, i: int)
    requires Lawful(f) && Inv(f, s) && s.Terminal() && s.Has(i) && a.TransferLP? && Guard(f, s, a).None?
    ensures After(f, s, a).Has(i) && Entitlement(After(f, s, a), i) == Entitlement(s, i) + LpDue(s, LpMoved(f, s, a, i))
  {
    hide Inv, Entitlement, LedgerFault, LpDue;
    TransferEntitled(f, s, a.from, a.to, a.amount, i);
    LpDueOfNothing(s);
    LpDueAdds(s, a.amount, -a.amount);
    StepSafe(f, s, a);
  }

  lemma SameRate(s: State, t: State, lp: real)
    requires t.phase == s.phase && t.claims.lpBudgetInitial == s.claims.lpBudgetInitial
    requires t.claims.lpClaimSupply == s.claims.lpClaimSupply
    ensures LpDue(t, lp) == LpDue(s, lp)
  {}

  /** Over any run of claims, burns of any portions, LP transfers, refunds and time, an account's
      entitlement changes only by the LP tokens it received and gave away, at the one fixed rate. */
  lemma {:induction false} RunEntitled(f: Functions, s: State, acts: seq<Action>, i: int)
    requires Lawful(f) && Inv(f, s) && s.Terminal() && s.Has(i)
    ensures Run(f, s, acts).Has(i) && Run(f, s, acts).phase == s.phase
    ensures Entitlement(Run(f, s, acts), i) == Entitlement(s, i) + LpDue(s, NetLp(f, s, acts, i))
    decreases |acts|
  {
    hide Inv, After, Entitlement, LpMoved, LpDue;
    if acts == [] {
      LpDueOfNothing(s);
    } else {
      var t := After(f, s, acts[0]);
      AnyStepEntitled(f, s, acts[0], i);
      StepSafe(f, s, acts[0]);
      RunEntitled(f, t, acts[1..], i);
      SameRate(s, t, NetLp(f, t, acts[1..], i));
      LpDueAdds(s, LpMoved(f, s, acts[0], i), NetLp(f, t, acts[1..], i));
    }
  }

  /** The account has claimed everything. */
  predicate Emptied(s: State, i: int)
    requires s.Has(i)
  {
    var a := s.accounts[i];
    a.lp == 0.0 && a.g == 0.0 && a.yes == 0.0 && a.no == 0.0 && a.bondRefund == 0.0
    && CorePending(s, i) == 0.0 && OfficialDue(s, i) == 0.0
  }

  lemma EmptiedHasAll(s: State, i: int)
    requires s.Has(i) && Emptied(s, i)
    ensures Entitlement(s, i) == s.accounts[i].wallet
  {
    LpDueOfNothing(s);
  }

  /** In any run from a settled or failed market, an account that ends with nothing more to claim
      ends with its entitlement plus the worth of the LP tokens it received less those it gave. So
      two runs with the same net transfers leave it with the same money, whatever the order and
      the portions of claims, burns and transfers, its own and everybody else's. */
  lemma ClaimOrderIrrelevant(f: Functions, s: State, acts1: seq<Action>, acts2: seq<Action>, i: int)
    requires Lawful(f) && Inv(f, s) && s.Terminal() && s.Has(i)
    ensures Run(f, s, acts1).Has(i) && Run(f, s, acts2).Has(i)
    ensures Emptied(Run(f, s, acts1), i) ==>
      Run(f, s, acts1).accounts[i].wallet == Entitlement(s, i) + LpDue(s, NetLp(f, s, acts1, i))
    ensures Emptied(Run(f, s, acts1), i) && Emptied(Run(f, s, acts2), i)
            && NetLp(f, s, acts1, i) == NetLp(f, s, acts2, i) ==>
      Run(f, s, acts1).accounts[i].wallet == Run(f, s, acts2).accounts[i].wallet
  {
    hide Inv, Entitlement, Emptied, Run, LpDue, NetLp;
    RunEntitled(f, s, acts1, i);
    RunEntitled(f, s, acts2, i);
    if Emptied(Run(f, s, acts1), i) {
      EmptiedHasAll(Run(f, s, acts1), i);
      if Emptied(Run(f, s, acts2), i) {
        EmptiedHasAll(Run(f, s, acts2), i);
      }
    }
  }

  // ---- budgets ----

  lemma {:induction false} AllCoreClaimed(xs: seq<Account>, ps: seq<real>)
    requires |xs| == |ps| && forall i :: 0 <= i < |xs| ==> xs[i].coreClaimed
    ensures CoreDue(xs, ps) == 0.0
  {
    if xs != [] {
      AllCoreClaimed(xs[1..], ps[1..]);
    }
  }

  lemma NothingAtRate(budget: real, initial: real, supply: real)
    requires FixedRate(budget, initial, 0.0, supply) && supply != 0.0
    ensures budget == 0.0
  {}

  /** LP tokens outstanding are backed at the initial rate at every moment after settlement. */
  lemma LpRateKept(f: Functions, s: State)
    requires Inv(f, s) && s.phase == SETTLED
    ensures s.claims.lpClaimSupply > 0.0
    ensures s.claims.lpBudget == ProRata(s.claims.lpBudgetInitial, Sum(LpTokens, s.accounts), s.claims.lpClaimSupply)
  {
    Cancel(s.claims.lpBudget, s.claims.lpClaimSupply);
  }

  /** Genesis tokens of a failed market are backed at the initial rate at every moment. */
  lemma FailedRateKept(f: Functions, s: State)
    requires Inv(f, s) && s.phase == FAILED
    ensures s.claims.failedSupply >= 0.0
    ensures s.claims.failedBudget
         == if s.claims.failedSupply > 0.0
            then ProRata(s.claims.failedBudgetInitial, Sum(GTokens, s.accounts), s.claims.failedSupply) else 0.0
  {
    hide Sum;
    if s.claims.failedSupply > 0.0 {
      Cancel(s.claims.failedBudget, s.claims.failedSupply);
    }
  }

  /** When all tokens are burnt and all payouts taken, every claim budget is exactly zero. */
  lemma BudgetsDrained(f: Functions, s: State)
    requires Inv(f, s) && s.Terminal()
    requires forall i :: 0 <= i < |s.accounts| ==>
      var a := s.accounts[i];
      a.lp == 0.0 && a.g == 0.0 && a.yes == 0.0 && a.no == 0.0 && (s.phase == SETTLED ==> a.coreClaimed)
    ensures s.claims.lpBudget == 0.0 && s.claims.outcomeBudget == 0.0
    ensures s.claims.failedBudget == 0.0 && s.claims.coreBudget == 0.0
  {
    SumZero(LpTokens, s.accounts);
    SumZero(GTokens, s.accounts);
    SumZero(YesTokens, s.accounts);
    SumZero(NoTokens, s.accounts);
    hide Sum, AllGood, FixedRate, OnCurve;
    if s.phase == SETTLED {
      NothingAtRate(s.claims.lpBudget, s.claims.lpBudgetInitial, s.claims.lpClaimSupply);
      AllCoreClaimed(s.accounts, s.claims.corePayouts);
    } else if s.claims.failedSupply != 0.0 {
      NothingAtRate(s.claims.failedBudget, s.claims.failedBudgetInitial, s.claims.failedSupply);
    }
  }
}
