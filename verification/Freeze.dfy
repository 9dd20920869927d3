/** The freeze of an early-settlement request: once it is due, nothing that decides it, or what
    settlement pays, can change until it is processed. */
module Freeze {
  import opened Maths
  import opened Wrappers
  import opened Sums
  import opened Accounts
  import opened Lmsr
  import opened Ledger
  import opened TopicMarket
  import opened Invariant
  import opened KeepSettlement
  import opened KeepClaims
  import opened Runs

  /** Actions other than deciding the request. */
  predicate Waits(a: Action) {
    !a.ProcessEarly? && !a.Finalize?
  }

  /** The parts of an account that settlement looks at. */
  predicate SameStanding(a: Account, c: Account) {
    && c.coreSide == a.coreSide && c.coreStake == a.coreStake && c.coreRewards == a.coreRewards
    && c.yes == a.yes && c.no == a.no
  }

  ghost predicate SameStandings(xs: seq<Account>, ys: seq<Account>) {
    |xs| == |ys| && forall i :: 0 <= i < |xs| ==> SameStanding(xs[i], ys[i])
  }

  /** Everything the decision and the payouts depend on is the same. */
  ghost predicate SameDecision(s: State, t: State) {
    && t.core == s.core && t.early == s.early && t.pool == s.pool && t.TC == s.TC
    && t.claims == s.claims && t.Trading() && t.now >= s.now
    && SameStandings(s.accounts, t.accounts)
  }

  /** While the request is due only money claims, LP transfers and time get through. */
  lemma DueGuards(f: Functions, s: State, a: Action)
    requires Inv(f, s) && s.Trading() && s.EarlyDue() && Waits(a) && Guard(f, s, a).None?
    ensures a.TransferLP? || a.AdvanceTime? || a.ClaimFees?
  {
    hide QuoteBuy, QuoteSell, QuoteFormalBuy, QuoteFormalSell, LmsrCash, Sum;
    assert AllTrading(s.accounts);
  }

  lemma FrozenStep(f: Functions, s: State, a: Action)
    requires Lawful(f) && Inv(f, s) && s.Trading() && s.EarlyDue() && Waits(a)
    ensures SameDecision(s, After(f, s, a)) && After(f, s, a).EarlyDue()
  {
    hide Inv, LedgerFault;
    if Guard(f, s, a).None? {
      DueGuards(f, s, a);
      match a {
        case TransferLP(_, _, _) =>
        case AdvanceTime(_) =>
        case ClaimFees(_, _) =>
        case _ =>
      }
    }
  }

  lemma {:induction false} FrozenRun(f: Functions, s: State, acts: seq<Action>)
    requires Lawful(f) && Inv(f, s) && s.Trading() && s.EarlyDue()
    requires forall a :: a in acts ==> Waits(a)
    ensures SameDecision(s, Run(f, s, acts)) && Run(f, s, acts).EarlyDue() && Inv(f, Run(f, s, acts))
    decreases |acts|
  {
    hide Inv, After;
    if acts != [] {
      assert acts[0] in acts;
      FrozenStep(f, s, acts[0]);
      StepSafe(f, s, acts[0]);
      FrozenRun(f, After(f, s, acts[0]), acts[1..]);
    }
  }

  // ---- the same decision pays the same ----

  lemma SamePayout(s: State, t: State, o: Outcome, a: Account, c: Account)
    requires t.core == s.core && t.early == s.early && SameStanding(a, c)
    ensures CorePayout(s, o, a) == CorePayout(t, o, c)
  {
    hide ProRata;
  }

  lemma SamePayouts(s: State, t: State, o: Outcome, xs: seq<Account>, ys: seq<Account>)
    requires t.core == s.core && t.early == s.early && SameStandings(xs, ys)
    ensures CorePayouts(s, o, xs) == CorePayouts(t, o, ys)
  {
    hide CorePayout;
    forall i | 0 <= i < |xs| ensures CorePayouts(s, o, xs)[i] == CorePayouts(t, o, ys)[i] {
      SamePayout(s, t, o, xs[i], ys[i]);
    }
  }

  lemma SameSupplies(s: State, t: State)
    requires SameStandings(s.accounts, t.accounts)
    ensures t.Yes() == s.Yes() && t.No() == s.No()
  {
    SumSame(YesTokens, s.accounts, YesTokens, t.accounts);
    SumSame(NoTokens, s.accounts, NoTokens, t.accounts);
  }

  lemma SameClaims(s: State, t: State)
    requires SameDecision(s, t)
    ensures SettledClaims(s) == SettledClaims(t)
  {
    hide CorePayouts, Sum, SumReal;
    SameSupplies(s, t);
    SamePayouts(s, t, s.core.Winner(), s.accounts, t.accounts);
  }

  lemma SameProcessed(s: State, t: State)
    requires SameDecision(s, t) && s.early.pending.Some? && s.Has(s.early.pending.value.proposer)
    ensures SameDecision(Processed(s), Processed(t))
  {}

  /** What a processed request leaves behind: its verdict and everything it promises to pay. */
  datatype Verdict = Verdict(settled: bool, result: Option<Outcome>, terminatedAt: Option<real>, corePayouts: seq<real>,
                             outcomeBudget: real, lpBudgetInitial: real, lpClaimSupply: real, failedBonds: real)

  function VerdictOf(s: State): Verdict {
    Verdict(s.phase == SETTLED, s.result, s.early.terminatedAt, s.claims.corePayouts, s.claims.outcomeBudget,
            s.claims.lpBudgetInitial, s.claims.lpClaimSupply, s.early.failedBonds)
  }

  lemma DistributeVerdict(s: State)
    ensures VerdictOf(DistributeOfficialFees(s)) == VerdictOf(s)
  {}

  lemma SettleVerdict(s: State)
    ensures VerdictOf(Settle(s))
         == Verdict(true, Some(s.core.Winner()), s.early.terminatedAt, SettledClaims(s).corePayouts,
                    SettledClaims(s).outcomeBudget, SettledClaims(s).lpBudgetInitial, SettledClaims(s).lpClaimSupply, 0.0)
  {
    hide DistributeOfficialFees, SettledClaims;
    DistributeVerdict(SettleBooks(s));
  }

  /** Whoever processes a due request, however late, and whatever the others did meanwhile, it
      succeeds with the same verdict; a match settles as of `processAfter` with the same Core
      payouts, outcome budget and LP rate. Only a mismatch can depend on the time, and then only
      in that it settles at once when the Core deadline has passed as well. */
  lemma VerdictFixed(f: Functions, s: State, acts: seq<Action>)
    requires Lawful(f) && Inv(f, s) && s.Trading() && s.EarlyDue()
    requires forall a :: a in acts ==> Waits(a)
    ensures var t, q := Run(f, s, acts), s.early.pending.value;
            && ProcessFault(s).None? && ProcessFault(t).None?
            && (s.core.Winner() == q.side ==>
                  && VerdictOf(ProcessedEarly(t)) == VerdictOf(ProcessedEarly(s))
                  && VerdictOf(ProcessedEarly(t)).settled && VerdictOf(ProcessedEarly(t)).result == Some(q.side)
                  && VerdictOf(ProcessedEarly(t)).terminatedAt == Some(q.processAfter))
            && (s.core.Winner() != q.side ==>
                  && ProcessedEarly(t).early.terminatedAt == s.early.terminatedAt
                  && (VerdictOf(ProcessedEarly(t)).settled <==> t.now >= t.TC)
                  && (t.now >= t.TC ==> ProcessedEarly(t).result == Some(s.core.Winner())))
  {
    hide Inv, Settle, SettledClaims, Nav, DistributeOfficialFees, Run;
    var t, q := Run(f, s, acts), s.early.pending.value;
    FrozenRun(f, s, acts);
    ProcessAllowed(f, s);
    ProcessAllowed(f, t);
    SameProcessed(s, t);
    SameClaims(Processed(s), Processed(t));
    SettleVerdict(Processed(s));
    SettleVerdict(Processed(t));
    SettleKeepsTerm(Processed(t));
  }

  lemma SettleKeepsTerm(s: State)
    ensures Settle(s).early.terminatedAt == s.early.terminatedAt && Settle(s).result == Some(s.core.Winner())
  {
    hide SettledClaims, DistributeOfficialFees;
    DistributeVerdict(SettleBooks(s));
  }
}
