/** The closed formula for the official recipient's share of Core fees agrees with the ledger.
    Amounts are exact numbers here; the formula only adds and subtracts, so nothing rounds. */
module FeeAttribution {
  import opened Maths
  import opened Wrappers
  import opened Sums
  import opened Accounts
  import opened Lmsr
  import opened Ledger
  import opened TopicMarket
  import opened Invariant
  import opened KeepFees
  import opened KeepFormal
  import opened KeepSettlement
  import opened Runs

  datatype Snapshot = Snapshot(total: real, yesDistributed: real, noDistributed: real, invalidDistributed: real,
                               yesStake: real, noStake: real, settled: bool, outcome: int)

  datatype Attribution = Attributed(value: real) | InconsistentSnapshot | InvalidOutcome

  function ProtocolFeeAttribution(v: Snapshot): Attribution {
    if !(0.0 <= v.yesDistributed <= v.total && 0.0 <= v.noDistributed <= v.total
         && 0.0 <= v.invalidDistributed <= v.total) then InconsistentSnapshot
    else if !v.settled then Attributed(v.total - v.invalidDistributed)
    else if v.outcome < 1 || v.outcome > 3 then InvalidOutcome
    else
      var eligible := if v.outcome == 1 then v.yesStake else if v.outcome == 2 then v.noStake else v.yesStake + v.noStake;
      var distributed := if v.outcome == 1 then v.yesDistributed else if v.outcome == 2 then v.noDistributed
                         else v.invalidDistributed;
      Attributed(v.total - (if eligible > 0.0 then distributed else 0.0))
  }

  function Code(o: Outcome): int {
    match o
    case YES => 1
    case NO => 2
    case INVALID => 3
  }

  /** What the formula is given: of each ledger, everything that did not go to the official
      recipient counts as distributed. */
  function SnapshotOf(s: State): Snapshot {
    var c := s.core;
    Snapshot(c.feeTotal, c.feeTotal - c.officialRewards.yes, c.feeTotal - c.officialRewards.no,
             c.feeTotal - c.officialRewards.invalid, c.yes, c.no, s.result.Some?,
             if s.result.Some? then Code(s.result.value) else 0)
  }

  // ---- the settled value ----

  /** Without eligible stake nobody holds rewards of that ledger. */
  lemma NoBaseNoRewards(s: State, o: Outcome)
    requires AllGood(s.accounts) && CoreSums(s) && s.core.Base(o) == 0.0
    ensures Sum(RewardFor(o), s.accounts) == 0.0
  {
    hide Sum;
    EarningTotal(s, o);
    forall i | 0 <= i < |s.accounts| ensures EarningFor(o)(s.accounts[i]) >= 0.0 {
      assert GoodAccount(s.accounts[i]);
    }
    SumNonNeg(EarningFor(o), s.accounts);
    forall i | 0 <= i < |s.accounts| ensures RewardFor(o)(s.accounts[i]) == 0.0 {
      var a := s.accounts[i];
      assert GoodAccount(a);
      assert EarningFor(o)(a) == 0.0;
      assert !a.Earns(o);
      assert RewardFor(o)(a) == a.coreRewards.At(o);
    }
    SumZero(RewardFor(o), s.accounts);
  }

  lemma RewardsNonNegative(xs: seq<Account>, o: Outcome)
    requires AllGood(xs)
    ensures Sum(RewardFor(o), xs) >= 0.0
  {
    forall i | 0 <= i < |xs| ensures RewardFor(o)(xs[i]) >= 0.0 {
      assert GoodAccount(xs[i]);
      assert RewardFor(o)(xs[i]) == xs[i].coreRewards.At(o);
    }
    SumNonNeg(RewardFor(o), xs);
  }

  /** In the state that settlement builds, the formula gives the official budget it books, before
      that is distributed and less the penalties that join it when there is no stake at all. */
  lemma SettledValue(s: State)
    requires AllGood(s.accounts) && CoreSums(s) && CoreLedgers(s)
    ensures var t := SettleBooks(s);
      ProtocolFeeAttribution(SnapshotOf(t))
      == Attributed(t.claims.coreOfficialBudget - (if s.core.Total() == 0.0 then Penalties(s) else 0.0))
  {
    hide Sum, CoreSums, AllGood, CorePayouts, SumReal;
    var o := s.core.Winner();
    WinnerHasStake(s);
    forall p ensures 0.0 <= s.core.officialRewards.At(p) <= s.core.feeTotal {
      assert s.early.forfeited.At(p) >= 0.0 && s.core.officialRewards.At(p) >= 0.0;
      assert FeeLedger(s, p);
      RewardsNonNegative(s.accounts, p);
    }
    assert 0.0 <= s.core.officialRewards.At(YES) && 0.0 <= s.core.officialRewards.At(NO);
    assert 0.0 <= s.core.officialRewards.At(INVALID);
    if s.core.Base(o) == 0.0 {
      NoBaseNoRewards(s, o);
      assert FeeLedger(s, o);
    }
  }

  // ---- the running value ----

  /** What the running value relies on: fees nobody at all could earn are official in every ledger. */
  ghost predicate Attributable(s: State) {
    && 0.0 <= s.core.officialRewards.invalid <= s.core.officialRewards.yes <= s.core.feeTotal
    && s.core.officialRewards.invalid <= s.core.officialRewards.no <= s.core.feeTotal
  }

  ghost predicate OfficialGrows(s: State, t: State) {
    Attributable(t) && t.core.officialRewards.invalid >= s.core.officialRewards.invalid
  }

  lemma AccrualAttributable(s: State, amount: real)
    requires Attributable(s) && amount >= 0.0 && s.core.yes >= 0.0 && s.core.no >= 0.0
    ensures OfficialGrows(s, AccrueCoreFee(s, amount))
  {}

  lemma FormalBuyAttributable(f: Functions, s: State, id: int, side: Outcome, tokens: real)
    requires Lawful(f) && Inv(f, s) && Attributable(s) && FormalBuyFault(f, s, id, side, tokens).None?
    ensures OfficialGrows(s, Effect(f, s, FormalBuy(id, side, tokens)))
  {
    hide Sum, Cost, CurveDelta, LmsrCash;
    PositiveDepth(f, s);
    SumsNonNegative(s.accounts);
    BuyQuoteExact(f, s, side, tokens);
  }

  lemma FormalSellAttributable(f: Functions, s: State, id: int, side: Outcome, tokens: real)
    requires Lawful(f) && Inv(f, s) && Attributable(s) && FormalSellFault(f, s, id, side, tokens).None?
    ensures OfficialGrows(s, Effect(f, s, FormalSell(id, side, tokens)))
  {
    hide Sum, Cost, CurveDelta, LmsrCash;
    PositiveDepth(f, s);
    SumsNonNegative(s.accounts);
    SellQuoteExact(f, s, side, tokens);
  }

  lemma DistributeCore(s: State)
    ensures DistributeOfficialFees(s).core == s.core
  {}

  lemma OtherAttributable(f: Functions, s: State, a: Action)
    requires Guard(f, s, a).None? && !a.FormalBuy? && !a.FormalSell?
    ensures var c := Effect(f, s, a).core;
            c.officialRewards == s.core.officialRewards && c.feeTotal == s.core.feeTotal
  {
    hide Sum, QuoteBuy, QuoteSell, SettledClaims, ExitPenalty, Nav, DistributeOfficialFees, LedgerFault;
    match a {
      case ProcessEarly => DistributeCore(SettleBooks(Processed(s)));
      case Finalize =>
        DistributeCore(SettleBooks(s));
        if s.early.pending.Some? { DistributeCore(SettleBooks(Processed(s))); }
      case AdvanceTime(to_) =>
        var t := s.(now := to_);
        DistributeCore(t.(phase := FAILED, R := 0.0,
          claims := t.claims.(failedBudget := t.R, failedBudgetInitial := t.R, failedSupply := t.S)));
      case _ =>
    }
  }

  lemma StepAttributable(f: Functions, s: State, a: Action)
    requires Lawful(f) && Inv(f, s) && Attributable(s)
    ensures OfficialGrows(s, After(f, s, a))
  {
    hide Inv, LedgerFault, Effect, FormalBuyFault, FormalSellFault;
    if Guard(f, s, a).None? {
      match a {
        case FormalBuy(id, side, tokens) => FormalBuyAttributable(f, s, id, side, tokens);
        case FormalSell(id, side, tokens) => FormalSellAttributable(f, s, id, side, tokens);
        case _ => OtherAttributable(f, s, a);
      }
    }
  }

  lemma {:induction false} RunAttributable(f: Functions, s: State, acts: seq<Action>)
    requires Lawful(f) && Inv(f, s) && Attributable(s)
    ensures OfficialGrows(s, Run(f, s, acts))
    decreases |acts|
  {
    hide Inv, After;
    if acts != [] {
      StepAttributable(f, s, acts[0]);
      StepSafe(f, s, acts[0]);
      RunAttributable(f, After(f, s, acts[0]), acts[1..]);
    }
  }

  /** The value shown before settlement never decreases, and is a lower bound of the value at any
      later point of any continuation, settled or not, whatever the outcome. */
  lemma RunningValueIsLowerBound(f: Functions, s: State, acts: seq<Action>)
    requires Lawful(f) && Inv(f, s) && Attributable(s) && s.result.None?
    ensures var now, later := ProtocolFeeAttribution(SnapshotOf(s)), ProtocolFeeAttribution(SnapshotOf(Run(f, s, acts)));
            && now.Attributed? && later.Attributed? && now.value <= later.value
            && now.value == s.core.officialRewards.invalid
  {
    hide Inv, Run;
    RunAttributable(f, s, acts);
  }

  lemma DemoAttributable(c: Config)
    requires CreateDemo(c).Ok?
    ensures Attributable(CreateDemo(c).value) && CreateDemo(c).value.result.None?
  {}
}
