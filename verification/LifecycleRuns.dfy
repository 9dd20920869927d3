/** Every run of the lifecycle demo: no internal error, all money accounted for, exits protected. */
module LifecycleRuns {
  import opened Maths
  import opened Wrappers
  import opened Sums
  import opened Accounts
  import opened Ledger
  import opened ExpLog
  import opened LifecycleCurve
  import opened Lifecycle
  import opened LifecycleSafe

  // ---- orders ----

  lemma BuyOrder(c: Curves, m: Market, owner: int, side: Outcome, amount: real)
    requires Exponential(c) && Inv(c, m) && TradeFault(m, owner, side, amount).None?
    ensures amount <= m.accounts[owner].wallet ==>
      Trade(c, m, owner, side, BUY, amount).Ok? && Inv(c, Trade(c, m, owner, side, BUY, amount).value.next)
    ensures amount > m.accounts[owner].wallet ==> Trade(c, m, owner, side, BUY, amount) == Err(NO_BALANCE)
  {
    hide Inv, LedgerHolds, BuyStop, BuyTarget, BuyReaches, Graduate;
    if amount <= m.accounts[owner].wallet {
      BuyKeeps(c, m, owner, side, amount);
      GuardSilent(c, Bought(c, m, owner, side, amount).value);
    }
  }

  lemma SellOrder(c: Curves, m: Market, owner: int, side: Outcome, amount: real)
    requires Exponential(c) && Inv(c, m) && TradeFault(m, owner, side, amount).None?
    ensures amount <= m.accounts[owner].shares.At(side) ==>
      Trade(c, m, owner, side, SELL, amount).Ok? && Inv(c, Trade(c, m, owner, side, SELL, amount).value.next)
    ensures amount > m.accounts[owner].shares.At(side) ==> Trade(c, m, owner, side, SELL, amount) == Err(SHARES)
  {
    hide Inv, LedgerHolds, SoldOnFormal, SoldOnGenesis, SaleBooks, PaidOut;
    if amount <= m.accounts[owner].shares.At(side) {
      SellKeeps(c, m, owner, side, amount);
      var r := Sold(c, m, owner, side, amount).value;
      GuardSilent(c, PaidOut(r.0, owner, side, amount, r.1));
    }
  }

  // ---- payouts ----

  lemma {:induction false} DueLinear(part: Part, xs: seq<Trader>, ps: seq<Payout>, k: real, f: Trader -> real)
    requires |xs| == |ps| && Unclaimed(xs)
    requires forall i :: 0 <= i < |xs| ==> PartOf(part, ps[i]) == k * f(xs[i])
    ensures Due(part, xs, ps) == k * Sum(f, xs)
  {
    if xs != [] {
      assert !xs[0].claimed && PartOf(part, ps[0]) == k * f(xs[0]);
      forall i | 0 <= i < |xs[1..]| ensures PartOf(part, ps[1..][i]) == k * f(xs[1..][i]) && !xs[1..][i].claimed {
        assert xs[1..][i] == xs[i + 1] && ps[1..][i] == ps[i + 1];
      }
      DueLinear(part, xs[1..], ps[1..], k, f);
    }
  }

  /** Every payout's part is the same multiple of the trader's `f`. */
  ghost predicate Shared(part: Part, xs: seq<Trader>, ps: seq<Payout>, k: real, f: Trader -> real)
    requires |xs| == |ps|
  {
    forall i :: 0 <= i < |xs| ==> PartOf(part, ps[i]) == k * f(xs[i])
  }

  /** An amount shared in proportion to `f` is handed out completely. */
  lemma SharedTotal(part: Part, xs: seq<Trader>, ps: seq<Payout>, amount: real, f: Trader -> real)
    requires |xs| == |ps| && Unclaimed(xs) && Shared(part, xs, ps, Rate(amount, Sum(f, xs)), f)
    ensures Due(part, xs, ps) == if Sum(f, xs) > 0.0 then amount else 0.0
  {
    hide Rate, Sum, Due, Unclaimed, PartOf;
    DueLinear(part, xs, ps, Rate(amount, Sum(f, xs)), f);
    RateOfWhole(amount, Sum(f, xs));
  }

  /** A claim of each trader's own is due in full. */
  lemma OwnTotal(part: Part, xs: seq<Trader>, ps: seq<Payout>, f: Trader -> real)
    requires |xs| == |ps| && Unclaimed(xs) && Shared(part, xs, ps, 1.0, f)
    ensures Due(part, xs, ps) == Sum(f, xs)
  {
    DueLinear(part, xs, ps, 1.0, f);
  }

  lemma NothingTotal(part: Part, xs: seq<Trader>, ps: seq<Payout>, f: Trader -> real)
    requires |xs| == |ps| && Unclaimed(xs) && Shared(part, xs, ps, 0.0, f)
    ensures Due(part, xs, ps) == 0.0
  {
    DueLinear(part, xs, ps, 0.0, f);
  }

  ghost predicate NonNegative(ps: seq<Payout>) {
    forall i :: 0 <= i < |ps| ==> forall part :: PartOf(part, ps[i]) >= 0.0
  }

  function HoldingOf(a: Trader): real { a.shares.yes + a.shares.no }
  function ValueIfYes(a: Trader): real { OutcomeValue(a.shares.yes, a.shares.no, YES) }
  function ValueIfNo(a: Trader): real { OutcomeValue(a.shares.yes, a.shares.no, NO) }
  function ValueIfInvalid(a: Trader): real { OutcomeValue(a.shares.yes, a.shares.no, INVALID) }

  function ValueIf(o: Outcome): Trader -> real {
    match o
    case YES => ValueIfYes
    case NO => ValueIfNo
    case INVALID => ValueIfInvalid
  }

  lemma {:induction false} ValueTotals(xs: seq<Trader>, o: Outcome)
    ensures Sum(HoldingOf, xs) == Sum(YesOf, xs) + Sum(NoOf, xs)
    ensures Sum(ValueIf(o), xs) == OutcomeValue(Sum(YesOf, xs), Sum(NoOf, xs), o)
  {
    if xs != [] {
      ValueTotals(xs[1..], o);
    }
  }

  lemma FailedParts(m: Market, a: Trader)
    requires GoodTrader(a) && m.T >= 0.0 && m.L >= 0.0
    ensures var p := PayoutOf(m, None, a);
      && p.shares == Rate(m.T, m.q.yes + m.q.no) * HoldingOf(a)
      && p.capital == Rate(m.L, Sum(CreditOf, m.accounts)) * CreditOf(a) && p.reward == 0.0
      && forall part :: PartOf(part, p) >= 0.0
  {
    hide Rate, ProRata, Sum;
    RatedShare(m.T, HoldingOf(a), m.q.yes + m.q.no);
    RatedShare(m.L, CreditOf(a), Sum(CreditOf, m.accounts));
  }

  lemma PoolsNonNegative(c: Curves, m: Market)
    requires Exponential(c) && Frame(m) && OpenBooks(c, m)
    ensures m.T >= 0.0 && m.L >= 0.0 && m.q.yes >= 0.0 && m.q.no >= 0.0
    ensures m.q.yes + m.q.no == 0.0 ==> m.T == 0.0
    ensures Sum(CreditOf, m.accounts) == m.L
  {
    hide Sum, Potential;
    SumsNonNegative(m.accounts);
    PotentialNonNegative(c, m.q.yes, m.b);
    PotentialNonNegative(c, m.q.no, m.b);
    PotentialAtZero(c, m.b);
  }

  lemma FailedAll(m: Market, Q: real, Z: real)
    requires AllGood(m.accounts) && m.T >= 0.0 && m.L >= 0.0
    requires Q == m.q.yes + m.q.no && Z == Sum(CreditOf, m.accounts)
    ensures var xs, ps := m.accounts, PayoutsOf(m, None, m.accounts);
      && Shared(SHARES_PART, xs, ps, Rate(m.T, Q), HoldingOf) && Shared(CAPITAL_PART, xs, ps, Rate(m.L, Z), CreditOf)
      && Shared(REWARD_PART, xs, ps, 0.0, CreditOf) && NonNegative(ps)
  {
    hide Rate, Sum, PayoutOf, GoodTrader;
    var xs, ps := m.accounts, PayoutsOf(m, None, m.accounts);
    forall i | 0 <= i < |ps|
      ensures PartOf(SHARES_PART, ps[i]) == Rate(m.T, Q) * HoldingOf(xs[i])
      ensures PartOf(CAPITAL_PART, ps[i]) == Rate(m.L, Z) * CreditOf(xs[i])
      ensures PartOf(REWARD_PART, ps[i]) == 0.0 * CreditOf(xs[i])
      ensures forall part :: PartOf(part, ps[i]) >= 0.0
    {
      FailedParts(m, xs[i]);
    }
  }

  /** Failed markets hand out the whole pool and the whole contributed capital. */
  lemma FailedDue(c: Curves, m: Market)
    requires Exponential(c) && Frame(m) && OpenBooks(c, m) && Unclaimed(m.accounts)
    ensures var ps := PayoutsOf(m, None, m.accounts);
      && Due(SHARES_PART, m.accounts, ps) == m.T && Due(CAPITAL_PART, m.accounts, ps) == m.L
      && Due(REWARD_PART, m.accounts, ps) == 0.0
      && NonNegative(ps)
  {
    hide Rate, Sum, PayoutOf, OpenBooks, AllGood, HoldingOf, CreditOf, Unclaimed, Exponential, Shared;
    var xs, ps := m.accounts, PayoutsOf(m, None, m.accounts);
    PoolsNonNegative(c, m);
    ValueTotals(xs, YES);
    FailedAll(m, Sum(HoldingOf, xs), Sum(CreditOf, xs));
    SharedTotal(SHARES_PART, xs, ps, m.T, HoldingOf);
    SharedTotal(CAPITAL_PART, xs, ps, m.L, CreditOf);
    NothingTotal(REWARD_PART, xs, ps, CreditOf);
  }

  lemma RatedShare(amount: real, part: real, whole: real)
    requires amount >= 0.0 && part >= 0.0
    ensures (if whole > 0.0 then ProRata(amount, part, whole) else 0.0) == Rate(amount, whole) * part
    ensures Rate(amount, whole) * part >= 0.0
  {
    RateNonNeg(amount, whole);
    MulNonNeg(Rate(amount, whole), part);
    if whole > 0.0 {
      ProRataIsRate(amount, part, whole);
    }
  }

  lemma SettledParts(m: Market, o: Outcome, a: Trader)
    requires GoodTrader(a) && m.R >= Debt(m.q, Some(o))
    ensures var p := PayoutOf(m, Some(o), a);
      && p.shares == 1.0 * ValueIf(o)(a) && p.reward == 1.0 * RewardOf(a)
      && p.capital == Rate(m.R - Debt(m.q, Some(o)), Sum(CreditOf, m.accounts)) * CreditOf(a)
      && forall part :: PartOf(part, p) >= 0.0
  {
    hide Rate, ProRata, Sum;
    RatedShare(m.R - Debt(m.q, Some(o)), CreditOf(a), Sum(CreditOf, m.accounts));
  }

  lemma DebtCovered(c: Curves, m: Market, o: Outcome)
    requires Exponential(c) && Frame(m) && FormalBooks(c, m)
    ensures Debt(m.q, Some(o)) <= m.R && Sum(CreditOf, m.accounts) > 0.0 && m.fees.capital == Sum(RewardOf, m.accounts)
    ensures Debt(m.q, Some(o)) == OutcomeValue(Sum(YesOf, m.accounts), Sum(NoOf, m.accounts), o)
  {
    hide Sum, Cost;
    CostAboveMax(c, m.q, m.b);
  }

  lemma SettledAll(m: Market, o: Outcome, rest: real)
    requires AllGood(m.accounts) && rest == m.R - Debt(m.q, Some(o)) >= 0.0
    ensures var xs, ps := m.accounts, PayoutsOf(m, Some(o), m.accounts);
      && Shared(SHARES_PART, xs, ps, 1.0, ValueIf(o)) && Shared(REWARD_PART, xs, ps, 1.0, RewardOf)
      && Shared(CAPITAL_PART, xs, ps, Rate(rest, Sum(CreditOf, xs)), CreditOf) && NonNegative(ps)
  {
    hide Rate, Sum, PayoutOf, GoodTrader, Debt, ValueIf;
    var xs, ps := m.accounts, PayoutsOf(m, Some(o), m.accounts);
    forall i | 0 <= i < |ps|
      ensures PartOf(SHARES_PART, ps[i]) == 1.0 * ValueIf(o)(xs[i])
      ensures PartOf(CAPITAL_PART, ps[i]) == Rate(rest, Sum(CreditOf, xs)) * CreditOf(xs[i])
      ensures PartOf(REWARD_PART, ps[i]) == 1.0 * RewardOf(xs[i])
      ensures forall part :: PartOf(part, ps[i]) >= 0.0
    {
      SettledParts(m, o, xs[i]);
    }
  }

  /** A resolved market hands out the debt to the shares and everything else to the contributors. */
  lemma SettledDue(c: Curves, m: Market, o: Outcome)
    requires Exponential(c) && Frame(m) && FormalBooks(c, m) && Unclaimed(m.accounts)
    ensures Debt(m.q, Some(o)) <= m.R
    ensures var ps := PayoutsOf(m, Some(o), m.accounts);
      && Due(SHARES_PART, m.accounts, ps) == Debt(m.q, Some(o))
      && Due(CAPITAL_PART, m.accounts, ps) == m.R - Debt(m.q, Some(o))
      && Due(REWARD_PART, m.accounts, ps) == m.fees.capital
      && NonNegative(ps)
  {
    hide Rate, Sum, PayoutOf, FormalBooks, AllGood, RewardOf, CreditOf, Unclaimed, Exponential, Debt, ValueIf,
      OutcomeValue, Shared;
    var xs, ps := m.accounts, PayoutsOf(m, Some(o), m.accounts);
    DebtCovered(c, m, o);
    ValueTotals(xs, o);
    SettledAll(m, o, m.R - Debt(m.q, Some(o)));
    OwnTotal(SHARES_PART, xs, ps, ValueIf(o));
    SharedTotal(CAPITAL_PART, xs, ps, m.R - Debt(m.q, Some(o)), CreditOf);
    OwnTotal(REWARD_PART, xs, ps, RewardOf);
  }

  lemma WaitKeeps(c: Curves, m: Market, seconds: real)
    requires Exponential(c) && Inv(c, m) && seconds >= 0.0
    ensures AdvanceTime(m, seconds).Ok? && Inv(c, AdvanceTime(m, seconds).value)
  {
    hide Sum, Cost, Potential, PayoutsOf, Due;
    if m.phase == GENESIS {
      var failed := m.(now := m.deadline, phase := FAILED);
      SamePayouts(m, failed, None, m.accounts);
      FailedDue(c, m);
    }
  }

  /** Payouts depend on the pools and the position only. */
  lemma SamePayouts(m: Market, n: Market, outcome: Option<Outcome>, xs: seq<Trader>)
    requires n.accounts == m.accounts && n.q == m.q && n.R == m.R && n.T == m.T && n.L == m.L
    ensures PayoutsOf(n, outcome, xs) == PayoutsOf(m, outcome, xs)
  {
    forall i | 0 <= i < |xs| ensures PayoutOf(n, outcome, xs[i]) == PayoutOf(m, outcome, xs[i]) {}
  }

  lemma PublishKeeps(c: Curves, m: Market, o: Outcome)
    requires Exponential(c) && Inv(c, m) && m.phase == WAIT_CORE
    ensures PublishResult(m, o).Ok? && Inv(c, PublishResult(m, o).value)
  {
    hide Sum, Cost, PayoutsOf, Due;
    SettledDue(c, m, o);
  }

  // ---- collecting ----

  lemma {:induction false} DueCollected(part: Part, xs: seq<Trader>, ps: seq<Payout>, i: nat, a: Trader)
    requires |xs| == |ps| && i < |xs| && !xs[i].claimed && a.claimed
    ensures Due(part, xs[i := a], ps) == Due(part, xs, ps) - PartOf(part, ps[i])
  {
    if i == 0 {
      assert xs[i := a][1..] == xs[1..];
    } else {
      assert xs[i := a][1..] == xs[1..][i - 1 := a];
      DueCollected(part, xs[1..], ps[1..], i - 1, a);
    }
  }

  lemma CollectKeeps(c: Curves, m: Market, owner: int)
    requires Exponential(c) && Inv(c, m) && (m.phase == SETTLED || m.phase == FAILED)
    requires m.Has(owner) && !m.accounts[owner].claimed
    ensures m.payouts.Some? && owner < |m.payouts.value| && Inv(c, Lifecycle.Claimed(m, owner, m.payouts.value[owner]))
  {
    hide Sum, Due;
    var p, a := m.payouts.value[owner], m.accounts[owner];
    var n := Lifecycle.Claimed(m, owner, p);
    assert forall part :: PartOf(part, p) >= 0.0;
    assert p.shares >= 0.0 && p.capital >= 0.0 && p.reward >= 0.0 by {
      assert PartOf(SHARES_PART, p) >= 0.0 && PartOf(CAPITAL_PART, p) >= 0.0 && PartOf(REWARD_PART, p) >= 0.0;
    }
    assert GoodTrader(a);
    TraderSums(m, owner, n.accounts[owner]);
    forall part
      ensures Due(part, n.accounts, m.payouts.value) == Due(part, m.accounts, m.payouts.value) - PartOf(part, p)
      ensures Due(part, n.accounts, m.payouts.value) >= 0.0
    {
      DueCollected(part, m.accounts, m.payouts.value, owner, n.accounts[owner]);
      DueNonNegative(part, n.accounts, m.payouts.value);
    }
  }

  // ---- runs ----

  /** Errors that would mean the model itself is wrong, or that a price does not exist. */
  predicate Internal(e: Refusal) {
    e.MODEL_STATE? || e.GRADUATION? || e.QUOTE_LIMIT?
  }

  lemma OrderSafe(c: Curves, m: Market, owner: int, side: Outcome, mode: Mode, amount: real)
    requires Exponential(c) && Inv(c, m)
    ensures var r := Trade(c, m, owner, side, mode, amount);
      (r.Ok? ==> Inv(c, r.value.next)) && (r.Err? ==> !Internal(r.error))
  {
    hide Inv, Trade;
    if TradeFault(m, owner, side, amount).Some? {
      TradeRefused(c, m, owner, side, mode, amount);
    } else {
      if mode == BUY {
        BuyOrder(c, m, owner, side, amount);
      } else {
        SellOrder(c, m, owner, side, amount);
      }
    }
  }

  lemma TradeRefused(c: Curves, m: Market, owner: int, side: Outcome, mode: Mode, amount: real)
    requires TradeFault(m, owner, side, amount).Some?
    ensures Trade(c, m, owner, side, mode, amount) == Err(TradeFault(m, owner, side, amount).value)
    ensures !Internal(TradeFault(m, owner, side, amount).value)
  {}

  /** One request: it keeps the invariant, or is refused for a reason of the caller's. */
  lemma StepSafe(c: Curves, m: Market, a: Move)
    requires Exponential(c) && Inv(c, m)
    ensures Step(c, m, a).Ok? ==> Inv(c, Step(c, m, a).value)
    ensures Step(c, m, a).Err? ==> !Internal(Step(c, m, a).error)
  {
    hide Inv, Trade, AdvanceTime, PublishResult, ClaimPayout;
    match a {
      case Create =>
        if m.phase == CREATE {
          CreateKeeps(c, m);
        }
      case Order(owner, side, mode, amount) => OrderSafe(c, m, owner, side, mode, amount);
      case Wait(seconds) => WaitSafe(c, m, seconds);
      case Publish(outcome) => PublishSafe(c, m, outcome);
      case Collect(owner) => CollectSafe(c, m, owner);
    }
  }

  lemma CreateKeeps(c: Curves, m: Market)
    requires Inv(c, m) && m.phase == CREATE
    ensures Inv(c, m.(phase := GENESIS))
  {
    hide Sum, Potential;
  }

  lemma WaitSafe(c: Curves, m: Market, seconds: real)
    requires Exponential(c) && Inv(c, m)
    ensures AdvanceTime(m, seconds).Ok? ==> Inv(c, AdvanceTime(m, seconds).value)
    ensures AdvanceTime(m, seconds).Err? ==> AdvanceTime(m, seconds).error == WRONG_TIME
  {
    hide Inv;
    if seconds >= 0.0 {
      WaitKeeps(c, m, seconds);
    }
  }

  lemma PublishSafe(c: Curves, m: Market, o: Outcome)
    requires Exponential(c) && Inv(c, m)
    ensures PublishResult(m, o).Ok? ==> Inv(c, PublishResult(m, o).value)
    ensures PublishResult(m, o).Err? ==> PublishResult(m, o).error == WRONG_PHASE
  {
    hide Inv;
    if m.phase == WAIT_CORE {
      PublishKeeps(c, m, o);
    }
  }

  lemma CollectSafe(c: Curves, m: Market, owner: int)
    requires Exponential(c) && Inv(c, m)
    ensures ClaimPayout(c, m, owner).Ok? ==> Inv(c, ClaimPayout(c, m, owner).value)
    ensures ClaimPayout(c, m, owner).Err? ==> !Internal(ClaimPayout(c, m, owner).error)
  {
    hide Inv, LedgerHolds, Lifecycle.Claimed;
    if (m.phase == SETTLED || m.phase == FAILED) && m.Has(owner) && !m.accounts[owner].claimed {
      CollectKeeps(c, m, owner);
      GuardSilent(c, Lifecycle.Claimed(m, owner, m.payouts.value[owner]));
    }
  }

  function After(c: Curves, m: Market, a: Move): Market {
    match Step(c, m, a)
    case Ok(n) => n
    case Err(_) => m
  }

  function Run(c: Curves, m: Market, moves: seq<Move>): Market
    decreases |moves|
  {
    if moves == [] then m else Run(c, After(c, m, moves[0]), moves[1..])
  }

  lemma {:induction false} RunSafe(c: Curves, m: Market, moves: seq<Move>)
    requires Exponential(c) && Inv(c, m)
    ensures Inv(c, Run(c, m, moves))
    decreases |moves|
  {
    hide Inv, Step;
    if moves != [] {
      StepSafe(c, m, moves[0]);
      RunSafe(c, After(c, m, moves[0]), moves[1..]);
    }
  }

  lemma NewMarketGood(c: Curves, b: real)
    requires Exponential(c) && NewMarket(b).Ok?
    ensures Inv(c, NewMarket(b).value)
  {
    var m := NewMarket(b).value;
    Triple(WalletOf);
    Triple(YesOf);
    Triple(NoOf);
    Triple(CreditOf);
    Triple(RewardOf);
    PotentialAtZero(c, m.b);
  }

  lemma Triple(f: Trader -> real)
    ensures Sum(f, [NEW_TRADER, NEW_TRADER, NEW_TRADER]) == 3.0 * f(NEW_TRADER)
  {
    var a := NEW_TRADER;
    assert [a, a, a][1..] == [a, a] && [a, a][1..] == [a] && [a][1..] == [];
    assert Sum(f, [a]) == f(a) + Sum(f, []);
    assert Sum(f, [a, a]) == f(a) + Sum(f, [a]);
  }

  /** From a new market of any depth, after any requests whatever, the ledger holds, all money is
      accounted for, and the next request is not refused with an internal error. */
  lemma NewMarketSafe(c: Curves, b: real, moves: seq<Move>, last: Move)
    requires Exponential(c) && NewMarket(b).Ok?
    ensures var m := Run(c, NewMarket(b).value, moves);
      && LedgerHolds(c, m) && Money(m) == 30000.0
      && (Step(c, m, last).Err? ==> !Internal(Step(c, m, last).error))
  {
    hide Inv, Step, Run, NewMarket;
    NewMarketGood(c, b);
    RunSafe(c, NewMarket(b).value, moves);
    var m := Run(c, NewMarket(b).value, moves);
    GuardSilent(c, m);
    StepSafe(c, m, last);
  }

  // ---- everything is paid out ----

  lemma {:induction false} NothingDue(part: Part, xs: seq<Trader>, ps: seq<Payout>)
    requires |xs| == |ps| && forall i :: 0 <= i < |xs| ==> xs[i].claimed
    ensures Due(part, xs, ps) == 0.0
  {
    if xs != [] {
      assert xs[0].claimed;
      NothingDue(part, xs[1..], ps[1..]);
    }
  }

  /** Once everybody has collected, reserve and capital fees are exactly empty. */
  lemma PaidOutCompletely(c: Curves, m: Market)
    requires Inv(c, m) && (m.phase == FAILED || m.phase == SETTLED)
    requires forall i :: 0 <= i < |m.accounts| ==> m.accounts[i].claimed
    ensures m.R == 0.0 && m.T == 0.0 && m.L == 0.0 && m.fees.capital == 0.0
  {
    hide Sum;
    NothingDue(SHARES_PART, m.accounts, m.payouts.value);
    NothingDue(CAPITAL_PART, m.accounts, m.payouts.value);
    NothingDue(REWARD_PART, m.accounts, m.payouts.value);
  }

  // ---- graduation ----

  /** A sale that graduates midway pays at least what the Genesis curve alone would have paid for
      it; one that does not graduate pays exactly that. */
  lemma GraduatingSaleNeverPaysLess(c: Curves, m: Market, side: Outcome, qty: real)
    requires Exponential(c) && Inv(c, m) && m.phase == GENESIS && side != INVALID && 0.0 < qty <= m.q.At(side)
    requires m.q.Other(side) >= 0.0
    ensures SoldOnGenesis(c, m, side, qty).Ok?
    ensures var gross := SoldOnGenesis(c, m, side, qty).value.1;
      && (SellReaches(c, m, side, qty) ==> gross >= SellCash(c, m.q, m.b, side, qty))
      && (!SellReaches(c, m, side, qty) ==> gross == SellCash(c, m.q, m.b, side, qty))
  {
    hide Sum, Cost, Potential, Weight, SellCash, Inv, SaleBooks, Charged, Graduate;
    var stop := SellStop(c, m, side, qty);
    GenesisSaleKeeps(c, m, side, qty);
    SellStopBounds(c, m, side, qty);
    if SellReaches(c, m, side, qty) {
      var mid, end := SellPoint(m.q, side, stop), SellPoint(m.q, side, qty);
      SellCashExact(c, m.q, m.b, side, stop);
      SellCashExact(c, m.q, m.b, side, qty);
      ExitProtected(c, mid, end, m.b);
    }
  }

  /** Once the conditions hold at some point of a sale they hold at every later point. */
  lemma SellEligibleFurther(c: Curves, m: Market, side: Outcome, x: real, y: real)
    requires Exponential(c) && side != INVALID && 0.0 <= x <= y <= m.q.At(side) && m.q.Other(side) >= 0.0
    requires SellEligible(c, m, side, x)
    ensures SellEligible(c, m, side, y)
  {
    hide Cost, Potential, Weight, SellCash;
    SellCashExact(c, m.q, m.b, side, x);
    SellCashExact(c, m.q, m.b, side, y);
    EligibleFurther(c, SellPoint(m.q, side, x), SellPoint(m.q, side, y), m.R - SellCash(c, m.q, m.b, side, x), m.b);
  }

  ghost predicate Upward(test: real -> bool, lo: real, hi: real) {
    forall x, y :: lo <= x <= y <= hi && test(x) ==> test(y)
  }

  /** For a condition that stays true, the bisection ends within its last step of every point at
      which the condition holds. */
  lemma {:induction false} GateIsFirst(test: real -> bool, lo: real, hi: real, n: nat, x: real)
    requires lo < hi && Upward(test, lo, hi) && lo < x <= hi && test(x)
    ensures Gate(test, lo, hi, n) <= x + Halved(hi - lo, n)
    decreases n
  {
    if n == 0 {
    } else {
      var mid := (lo + hi) / 2.0;
      HalvedOnce(hi - lo, n - 1);
      if test(mid) {
        if x <= mid {
          GateIsFirst(test, lo, mid, n - 1, x);
        } else {
          GateFires(test, lo, mid, n - 1);
          HalvedPositive(mid - lo, n - 1);
        }
      } else {
        GateIsFirst(test, mid, hi, n - 1, x);
      }
    }
  }

  /** A graduating sale leaves Genesis within 2^-60 of the order of the first point at which the
      market could graduate. */
  lemma SaleStopsAtFirstGate(c: Curves, m: Market, side: Outcome, qty: real, x: real)
    requires Exponential(c) && side != INVALID && 0.0 < qty <= m.q.At(side) && m.q.Other(side) >= 0.0
    requires SellReaches(c, m, side, qty) && 0.0 < x <= qty && SellEligible(c, m, side, x)
    ensures SellStop(c, m, side, qty) <= x + Halved(qty, 60)
  {
    hide SellEligible, Halved, Gate;
    var test := SellTest(c, m, side);
    forall y, z | 0.0 <= y <= z <= qty && test(y) ensures test(z) {
      SellEligibleFurther(c, m, side, y, z);
    }
    GateIsFirst(test, 0.0, qty, 60, x);
  }

  predicate Graduated(m: Market) {
    m.phase == FORMAL || m.phase == WAIT_CORE
  }

  /** No single request of a graduated market that leaves it unresolved touches its surplus. */
  lemma SurplusStep(c: Curves, m: Market, a: Move)
    requires Graduated(m)
    ensures var t := After(c, m, a);
      && t.b == m.b && t.surplus == m.surplus && (Graduated(t) || Ended(t))
  {
    hide Sum, Cost, LedgerHolds, QuantityAtCost, PayoutsOf, TerminalPayouts;
  }

  predicate Ended(m: Market) {
    m.phase == SETTLED || m.phase == FAILED
  }

  lemma EndedStays(c: Curves, m: Market, a: Move)
    requires Ended(m)
    ensures Ended(After(c, m, a))
  {}

  lemma {:induction false} EndedRun(c: Curves, m: Market, moves: seq<Move>)
    requires Ended(m)
    ensures Ended(Run(c, m, moves))
    decreases |moves|
  {
    hide After, Ended;
    if moves != [] {
      EndedStays(c, m, moves[0]);
      EndedRun(c, After(c, m, moves[0]), moves[1..]);
    }
  }

  /** Whatever happens to a graduated market until it is resolved, trading, closing and waiting for
      the result alike, its surplus stays what it was at graduation, nonnegative, and is exactly what
      the reserve holds beyond the cost of the position reached. */
  lemma {:induction false} SurplusKept(c: Curves, m: Market, moves: seq<Move>)
    requires Exponential(c) && Inv(c, m) && Graduated(m)
    ensures var t := Run(c, m, moves);
      Graduated(t) ==> && t.b == m.b && m.surplus.Some? && t.surplus == m.surplus && m.surplus.value >= 0.0
                       && t.R - Cost(c, t.q, t.b) == m.surplus.value
    decreases |moves|
  {
    hide Exponential, Step, Cost, Sum, After, Frame;
    if moves != [] {
      var t := After(c, m, moves[0]);
      AfterSafe(c, m, moves[0]);
      SurplusStep(c, m, moves[0]);
      if Graduated(t) {
        SurplusKept(c, t, moves[1..]);
      } else {
        EndedRun(c, t, moves[1..]);
      }
    }
  }

  lemma AfterSafe(c: Curves, m: Market, a: Move)
    requires Exponential(c) && Inv(c, m)
    ensures Inv(c, After(c, m, a))
  {
    hide Inv, Step;
    StepSafe(c, m, a);
  }
}
