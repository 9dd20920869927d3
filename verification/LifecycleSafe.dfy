/** What every run of the lifecycle demo keeps. */
module LifecycleSafe {
  import opened Maths
  import opened Wrappers
  import opened Sums
  import opened Accounts
  import opened Ledger
  import opened ExpLog
  import opened LifecycleCurve
  import opened Lifecycle

  ghost predicate GoodTrader(a: Trader) {
    a.wallet >= 0.0 && a.shares.yes >= 0.0 && a.shares.no >= 0.0 && a.credit >= 0.0 && a.reward >= 0.0
  }

  ghost predicate AllGood(xs: seq<Trader>) {
    forall i :: 0 <= i < |xs| ==> GoodTrader(xs[i])
  }

  /** The curve position is what the traders hold, and the money adds up. */
  ghost predicate Frame(m: Market) {
    && AllGood(m.accounts) && Money(m) == CAPITAL && m.externalCash >= 0.0
    && m.q.yes == Sum(YesOf, m.accounts) && m.q.no == Sum(NoOf, m.accounts)
  }

  ghost predicate OpenBooks(c: Curves, m: Market) {
    && m.R == m.T + m.L && m.T == Potentials(c, m.q, m.b) && m.L == Sum(CreditOf, m.accounts)
    && m.fees.capital == 0.0 && Sum(RewardOf, m.accounts) == 0.0 && m.surplus.None? && m.payouts.None?
  }

  /** After graduation the reserve exceeds the LMSR cost by a surplus that never changes. */
  ghost predicate FormalBooks(c: Curves, m: Market) {
    && m.L == 0.0 && m.R == m.T && m.surplus.Some? && m.surplus.value >= 0.0
    && m.R == Cost(c, m.q, m.b) + m.surplus.value
    && Sum(CreditOf, m.accounts) > 0.0 && m.fees.capital == Sum(RewardOf, m.accounts) && m.payouts.None?
  }

  datatype Part = SHARES_PART | CAPITAL_PART | REWARD_PART

  function PartOf(part: Part, p: Payout): real {
    match part
    case SHARES_PART => p.shares
    case CAPITAL_PART => p.capital
    case REWARD_PART => p.reward
  }

  /** Payouts not yet collected. */
  function Due(part: Part, xs: seq<Trader>, ps: seq<Payout>): real
    requires |xs| == |ps|
  {
    if xs == [] then 0.0
    else (if xs[0].claimed then 0.0 else PartOf(part, ps[0])) + Due(part, xs[1..], ps[1..])
  }

  ghost predicate GoodPayouts(m: Market) {
    && m.payouts.Some? && |m.payouts.value| == |m.accounts|
    && forall i :: 0 <= i < |m.accounts| ==> forall part :: PartOf(part, m.payouts.value[i]) >= 0.0
  }

  ghost predicate FailedBooks(m: Market) {
    && GoodPayouts(m) && m.R == m.T + m.L && m.fees.capital == 0.0
    && m.T == Due(SHARES_PART, m.accounts, m.payouts.value)
    && m.L == Due(CAPITAL_PART, m.accounts, m.payouts.value)
    && Due(REWARD_PART, m.accounts, m.payouts.value) == 0.0
  }

  ghost predicate SettledBooks(m: Market) {
    && GoodPayouts(m) && m.R == m.T && m.L == 0.0
    && m.R == Due(SHARES_PART, m.accounts, m.payouts.value) + Due(CAPITAL_PART, m.accounts, m.payouts.value)
    && m.fees.capital == Due(REWARD_PART, m.accounts, m.payouts.value)
  }

  ghost predicate Unclaimed(xs: seq<Trader>) {
    forall i :: 0 <= i < |xs| ==> !xs[i].claimed
  }

  ghost predicate Books(c: Curves, m: Market) {
    && (m.phase == CREATE || m.phase == GENESIS ==> OpenBooks(c, m) && Unclaimed(m.accounts))
    && (m.phase == FORMAL || m.phase == WAIT_CORE ==> FormalBooks(c, m) && Unclaimed(m.accounts))
    && (m.phase == FAILED ==> FailedBooks(m))
    && (m.phase == SETTLED ==> SettledBooks(m))
  }

  ghost predicate Inv(c: Curves, m: Market) {
    Frame(m) && Books(c, m)
  }

  // ---- the ledger check never fires ----

  lemma SumsNonNegative(xs: seq<Trader>)
    requires AllGood(xs)
    ensures Sum(YesOf, xs) >= 0.0 && Sum(NoOf, xs) >= 0.0 && Sum(CreditOf, xs) >= 0.0 && Sum(RewardOf, xs) >= 0.0
    ensures forall i :: 0 <= i < |xs| ==> xs[i].shares.yes <= Sum(YesOf, xs) && xs[i].shares.no <= Sum(NoOf, xs)
  {
    assert forall i :: 0 <= i < |xs| ==> GoodTrader(xs[i]);
    SumNonNeg(YesOf, xs);
    SumNonNeg(NoOf, xs);
    SumNonNeg(CreditOf, xs);
    SumNonNeg(RewardOf, xs);
    forall i | 0 <= i < |xs| ensures xs[i].shares.yes <= Sum(YesOf, xs) && xs[i].shares.no <= Sum(NoOf, xs) {
      assert YesOf(xs[i]) <= Sum(YesOf, xs) && NoOf(xs[i]) <= Sum(NoOf, xs);
    }
  }

  lemma {:induction false} DueNonNegative(part: Part, xs: seq<Trader>, ps: seq<Payout>)
    requires |xs| == |ps| && forall i :: 0 <= i < |ps| ==> PartOf(part, ps[i]) >= 0.0
    ensures Due(part, xs, ps) >= 0.0
  {
    if xs != [] {
      DueNonNegative(part, xs[1..], ps[1..]);
    }
  }

  lemma GuardSilent(c: Curves, m: Market)
    requires Exponential(c) && Inv(c, m)
    ensures LedgerHolds(c, m)
  {
    hide Sum, Cost, Potential;
    SumsNonNegative(m.accounts);
    if m.phase == CREATE || m.phase == GENESIS {
      PotentialNonNegative(c, m.q.yes, m.b);
      PotentialNonNegative(c, m.q.no, m.b);
    } else if m.phase == FORMAL || m.phase == WAIT_CORE {
      CostAboveMax(c, m.q, m.b);
    } else {
      assert forall i :: 0 <= i < |m.payouts.value| ==> forall part :: PartOf(part, m.payouts.value[i]) >= 0.0;
      DueNonNegative(SHARES_PART, m.accounts, m.payouts.value);
      DueNonNegative(CAPITAL_PART, m.accounts, m.payouts.value);
    }
  }

  // ---- fees ----

  lemma RewardOne(a: Trader, amount: real, Z: real)
    requires GoodTrader(a) && Z > 0.0 && amount >= 0.0
    ensures var e := Rewarded(a, amount, Z);
      GoodTrader(e) && e == a.(reward := e.reward) && RewardOf(e) == RewardOf(a) + Rate(amount, Z) * CreditOf(a)
  {
    hide ProRata, Rate;
    ProRataIsRate(amount, a.credit, Z);
    RateNonNeg(amount, Z);
    MulNonNeg(Rate(amount, Z), a.credit);
  }

  lemma RewardsGrow(xs: seq<Trader>, amount: real, Z: real)
    requires AllGood(xs) && Z > 0.0 && amount >= 0.0
    ensures var ys := RewardAll(xs, amount, Z);
      && AllGood(ys)
      && (forall i :: 0 <= i < |xs| ==> ys[i] == xs[i].(reward := ys[i].reward))
      && forall i :: 0 <= i < |xs| ==> RewardOf(ys[i]) == RewardOf(xs[i]) + Rate(amount, Z) * CreditOf(xs[i])
  {
    hide Rewarded, Rate, GoodTrader, RewardOf, CreditOf, RewardAll;
    var ys := RewardAll(xs, amount, Z);
    forall i | 0 <= i < |xs|
      ensures GoodTrader(ys[i]) && ys[i] == xs[i].(reward := ys[i].reward)
      ensures RewardOf(ys[i]) == RewardOf(xs[i]) + Rate(amount, Z) * CreditOf(xs[i])
    {
      RewardOne(xs[i], amount, Z);
    }
  }

  lemma UnclaimedKept(xs: seq<Trader>, ys: seq<Trader>)
    requires |xs| == |ys| && forall i :: 0 <= i < |xs| ==> ys[i] == xs[i].(reward := ys[i].reward)
    ensures Unclaimed(xs) ==> Unclaimed(ys)
  {}

  lemma RewardSums(xs: seq<Trader>, amount: real)
    requires AllGood(xs) && Sum(CreditOf, xs) > 0.0 && amount >= 0.0
    ensures var ys := RewardAll(xs, amount, Sum(CreditOf, xs));
      && AllGood(ys) && (Unclaimed(xs) ==> Unclaimed(ys))
      && Sum(WalletOf, ys) == Sum(WalletOf, xs) && Sum(YesOf, ys) == Sum(YesOf, xs) && Sum(NoOf, ys) == Sum(NoOf, xs)
      && Sum(CreditOf, ys) == Sum(CreditOf, xs) && Sum(RewardOf, ys) == Sum(RewardOf, xs) + amount
      && forall i :: 0 <= i < |xs| ==> ys[i] == xs[i].(reward := ys[i].reward)
  {
    hide ProRata, Rate, Sum, AllGood, Unclaimed, RewardAll;
    var Z := Sum(CreditOf, xs);
    var ys := RewardAll(xs, amount, Z);
    RewardsGrow(xs, amount, Z);
    UnclaimedKept(xs, ys);
    SumSame(WalletOf, xs, WalletOf, ys);
    SumSame(YesOf, xs, YesOf, ys);
    SumSame(NoOf, xs, NoOf, ys);
    SumSame(CreditOf, xs, CreditOf, ys);
    SumLinear(RewardOf, xs, ys, Rate(amount, Z), CreditOf);
    RateOfWhole(amount, Z);
  }

  /** Charging a Formal fee always succeeds after graduation and adds exactly the fee. */
  lemma FormalCharge(c: Curves, m: Market, fee: real)
    requires AllGood(m.accounts) && Sum(CreditOf, m.accounts) > 0.0 && fee >= 0.0
    ensures Charged(m, fee, true).Ok?
    ensures var n := Charged(m, fee, true).value;
      && n == m.(fees := n.fees, accounts := n.accounts) && |n.accounts| == |m.accounts|
      && AllGood(n.accounts) && (Unclaimed(m.accounts) ==> Unclaimed(n.accounts))
      && Money(n) == Money(m) + fee
      && Sum(YesOf, n.accounts) == Sum(YesOf, m.accounts) && Sum(NoOf, n.accounts) == Sum(NoOf, m.accounts)
      && Sum(CreditOf, n.accounts) == Sum(CreditOf, m.accounts)
      && n.fees.capital - m.fees.capital == Sum(RewardOf, n.accounts) - Sum(RewardOf, m.accounts)
      && (forall i :: 0 <= i < |n.accounts| ==> n.accounts[i] == m.accounts[i].(reward := n.accounts[i].reward))
  {
    hide Sum;
    RewardSums(m.accounts, 0.2 * fee);
  }

  // ---- one trader ----

  /** Replacing one trader moves every sum by that trader's difference. */
  lemma TraderSums(m: Market, id: int, a: Trader)
    requires AllGood(m.accounts) && m.Has(id) && GoodTrader(a)
    ensures var xs, ys, o := m.accounts, m.accounts[id := a], m.accounts[id];
      && AllGood(ys) && (Unclaimed(xs) && !a.claimed ==> Unclaimed(ys))
      && Sum(WalletOf, ys) == Sum(WalletOf, xs) - o.wallet + a.wallet
      && Sum(YesOf, ys) == Sum(YesOf, xs) - o.shares.yes + a.shares.yes
      && Sum(NoOf, ys) == Sum(NoOf, xs) - o.shares.no + a.shares.no
      && Sum(CreditOf, ys) == Sum(CreditOf, xs) - o.credit + a.credit
      && Sum(RewardOf, ys) == Sum(RewardOf, xs) - o.reward + a.reward
  {
    hide Sum;
    SumUpdate(m.accounts, id, a);
  }

  // ---- graduation ----

  /** Good Genesis books that meet the two conditions graduate into good Formal books: there is
      contributed capital, so there is somebody to share the capital fees. */
  lemma GraduateBooks(c: Curves, m: Market)
    requires Exponential(c) && OpenBooks(c, m) && m.q.yes >= 0.0 && m.q.no >= 0.0
    requires Eligible(c, m.q, m.R, m.b)
    ensures Graduate(c, m).Ok? && FormalBooks(c, Graduate(c, m).value)
    ensures Graduate(c, m).value == m.(surplus := Graduate(c, m).value.surplus, phase := FORMAL, L := 0.0, T := m.R)
  {
    hide Sum, Cost, Potential, Weight;
    EligibleNeedsCapital(c, m.q, m.R, m.b);
  }

  lemma GraduateKeeps(c: Curves, m: Market)
    requires Exponential(c) && Frame(m) && m.phase == GENESIS && OpenBooks(c, m) && Unclaimed(m.accounts)
    requires Eligible(c, m.q, m.R, m.b)
    ensures Graduate(c, m).Ok? && Inv(c, Graduate(c, m).value) && Graduate(c, m).value.phase == FORMAL
  {
    hide Sum, Cost, Potential, Weight;
    SumsNonNegative(m.accounts);
    GraduateBooks(c, m);
  }

  lemma {:induction false} GateFires(test: real -> bool, lo: real, hi: real, n: nat)
    requires lo < hi && test(hi)
    ensures lo < Gate(test, lo, hi, n) <= hi && test(Gate(test, lo, hi, n))
    decreases n
  {
    if n > 0 {
      var mid := (lo + hi) / 2.0;
      if test(mid) {
        GateFires(test, lo, mid, n - 1);
      } else {
        GateFires(test, mid, hi, n - 1);
      }
    }
  }

  // ---- buying ----

  lemma BuyStopBounds(c: Curves, m: Market, side: Outcome, amount: real)
    requires amount > 0.0
    ensures 0.0 < BuyStop(c, m, side, amount) <= amount
    ensures BuyReaches(c, m, side, amount) ==> BuyEligible(c, m, side, BuyStop(c, m, side, amount))
  {
    hide BuyEligible, Probe;
    if BuyReaches(c, m, side, amount) {
      GateFires(BuyTest(c, m, side), 0.0, Probe(c, m, amount), 60);
      ProbeBelow(c, m, amount);
    }
  }

  lemma ProbeBelow(c: Curves, m: Market, amount: real)
    ensures Probe(c, m, amount) <= amount
  {}

  /** Either curve delivers a positive quantity for its part of the payment. */
  lemma BuyDelivers(c: Curves, m: Market, side: Outcome, actual: real)
    requires Exponential(c) && actual > 0.0 && side != INVALID
    ensures BuyTarget(c, m, side, actual).Some?
    ensures var q := BuyTarget(c, m, side, actual).value;
      && q.At(side) > m.q.At(side) && q.Other(side) == m.q.Other(side)
      && (m.phase == FORMAL ==> Cost(c, q, m.b) == Cost(c, m.q, m.b) + 0.99 * actual)
      && (m.phase != FORMAL ==> Potentials(c, q, m.b) == Potentials(c, m.q, m.b) + 0.9 * actual)
  {
    hide Cost, Potential, QuantityAtCost, BuyPoint;
    if m.phase == FORMAL {
      QuantityExact(c, m.q, m.b, 0.99 * actual, side);
    } else {
      BuyExact(c, m.q, m.b, side, actual);
    }
  }

  lemma PaidSums(c: Curves, m: Market, owner: int, side: Outcome, q: Pair, actual: real)
    requires Inv(c, m) && m.IsTrading() && m.Has(owner) && side != INVALID
    requires 0.0 < actual <= m.accounts[owner].wallet && q.At(side) > m.q.At(side) && q.Other(side) == m.q.Other(side)
    ensures var n := Paid(m, owner, side, q, actual);
      && AllGood(n.accounts) && Unclaimed(n.accounts)
      && Money(n) == CAPITAL - 0.01 * actual
      && q.yes == Sum(YesOf, n.accounts) && q.no == Sum(NoOf, n.accounts)
      && Sum(CreditOf, n.accounts) == Sum(CreditOf, m.accounts) + (if m.phase == FORMAL then 0.0 else 0.09 * actual)
      && Sum(RewardOf, n.accounts) == Sum(RewardOf, m.accounts)
  {
    hide Sum, Cost, Potential;
    assert GoodTrader(m.accounts[owner]);
    TraderSums(m, owner, Paid(m, owner, side, q, actual).accounts[owner]);
  }

  lemma BuyKeeps(c: Curves, m: Market, owner: int, side: Outcome, amount: real)
    requires Exponential(c) && Inv(c, m) && TradeFault(m, owner, side, amount).None?
    requires amount <= m.accounts[owner].wallet
    ensures Bought(c, m, owner, side, amount).Ok? && Inv(c, Bought(c, m, owner, side, amount).value)
  {
    hide Sum, Cost, Potential, BuyStop, BuyReaches, BuyTarget, BuyEligible, Graduate, Exponential, AllGood, FailedBooks,
      SettledBooks;
    var actual := BuyStop(c, m, side, amount);
    BuyStopBounds(c, m, side, amount);
    BuyDelivers(c, m, side, actual);
    var q := BuyTarget(c, m, side, actual).value;
    PaidSums(c, m, owner, side, q, actual);
    var n := Paid(m, owner, side, q, actual);
    if m.phase == FORMAL {
      FormalCharge(c, n, 0.01 * actual);
      NoSecondGraduation(c, m, side, amount);
    } else {
      GenesisBuyKeeps(c, m, owner, side, amount, actual, q);
    }
  }

  lemma NoSecondGraduation(c: Curves, m: Market, side: Outcome, amount: real)
    requires m.phase == FORMAL
    ensures !BuyReaches(c, m, side, amount)
  {}

  lemma GenesisBuyKeeps(c: Curves, m: Market, owner: int, side: Outcome, amount: real, actual: real, q: Pair)
    requires Exponential(c) && Inv(c, m) && m.phase == GENESIS && m.Has(owner)
    requires actual == BuyStop(c, m, side, amount) && BuyTarget(c, m, side, actual) == Some(q)
    requires Potentials(c, q, m.b) == Potentials(c, m.q, m.b) + 0.9 * actual
    requires BuyReaches(c, m, side, amount) ==> BuyEligible(c, m, side, actual)
    requires var n := Paid(m, owner, side, q, actual);
      && AllGood(n.accounts) && Unclaimed(n.accounts) && Money(n) == CAPITAL - 0.01 * actual
      && q.yes == Sum(YesOf, n.accounts) && q.no == Sum(NoOf, n.accounts)
      && Sum(CreditOf, n.accounts) == Sum(CreditOf, m.accounts) + 0.09 * actual
      && Sum(RewardOf, n.accounts) == Sum(RewardOf, m.accounts)
    ensures var n := Charged(Paid(m, owner, side, q, actual), 0.01 * actual, false);
      && n.Ok? && Inv(c, n.value)
      && (BuyReaches(c, m, side, amount) ==> Graduate(c, n.value).Ok? && Inv(c, Graduate(c, n.value).value))
  {
    hide Sum, Cost, Potential, BuyStop, BuyReaches, Graduate;
    var n := Charged(Paid(m, owner, side, q, actual), 0.01 * actual, false).value;
    if BuyReaches(c, m, side, amount) {
      assert Eligible(c, n.q, n.R, n.b);
      GraduateKeeps(c, n);
    }
  }

  // ---- selling ----

  /** What a sale leaves before the seller is paid: books for the reduced position, short of the
      seller's net proceeds. */
  ghost predicate SaleBooks(c: Curves, m: Market, n: Market, gross: real, end: Pair) {
    && gross >= 0.0 && n.q == end && n.externalCash == m.externalCash
    && (n.phase == GENESIS || n.phase == FORMAL) && Books(c, n)
    && AllGood(n.accounts) && |n.accounts| == |m.accounts| && Unclaimed(n.accounts)
    && (forall i :: 0 <= i < |n.accounts| ==> n.accounts[i] == m.accounts[i].(reward := n.accounts[i].reward))
    && Sum(YesOf, n.accounts) == Sum(YesOf, m.accounts) && Sum(NoOf, n.accounts) == Sum(NoOf, m.accounts)
    && Money(n) == Money(m) - 0.99 * gross
  }

  lemma SellPointBelow(q: Pair, side: Outcome, qty: real)
    requires side != INVALID && 0.0 <= qty <= q.At(side)
    ensures var e := SellPoint(q, side, qty);
      e.At(side) == q.At(side) - qty && e.Other(side) == q.Other(side) && e.yes <= q.yes && e.no <= q.no
  {}

  lemma FormalSaleKeeps(c: Curves, m: Market, side: Outcome, qty: real)
    requires Exponential(c) && Inv(c, m) && m.phase == FORMAL && side != INVALID && 0.0 < qty <= m.q.At(side)
    ensures var end := SellPoint(m.q, side, qty);
      && SoldOnFormal(c, m, end).Ok?
      && SaleBooks(c, m, SoldOnFormal(c, m, end).value.0, SoldOnFormal(c, m, end).value.1, end)
  {
    hide Sum, Cost, SellPoint;
    SellPointBelow(m.q, side, qty);
    FormalWithdrawal(c, m, SellPoint(m.q, side, qty));
  }

  /** Moving down the joint curve at its own price keeps the surplus. */
  lemma FormalWithdrawal(c: Curves, m: Market, end: Pair)
    requires Exponential(c) && FormalBooks(c, m) && m.phase == FORMAL && AllGood(m.accounts) && Unclaimed(m.accounts)
    requires end.yes <= m.q.yes && end.no <= m.q.no
    ensures var gross := Cost(c, m.q, m.b) - Cost(c, end, m.b);
      && gross >= 0.0
      && var r := Charged(Withdrawn(m, gross, end), 0.01 * gross, true);
      && r.Ok? && SaleBooks(c, m, r.value, gross, end) && r.value.phase == FORMAL
  {
    hide Sum, Cost;
    CostOrdered(c, end, m.q, m.b);
    var gross := Cost(c, m.q, m.b) - Cost(c, end, m.b);
    FormalCharge(c, Withdrawn(m, gross, end), 0.01 * gross);
  }

  lemma SellStopBounds(c: Curves, m: Market, side: Outcome, qty: real)
    requires qty > 0.0
    ensures 0.0 < SellStop(c, m, side, qty) <= qty
    ensures SellReaches(c, m, side, qty) ==> SellEligible(c, m, side, SellStop(c, m, side, qty))
  {
    hide SellEligible;
    if SellReaches(c, m, side, qty) {
      GateFires(SellTest(c, m, side), 0.0, qty, 60);
    }
  }

  /** The Genesis curve pays back what it held for the sold part, and never more than the pool. */
  lemma SellCashExact(c: Curves, q: Pair, b: Depth, side: Outcome, sold: real)
    requires Exponential(c) && side != INVALID && 0.0 <= sold <= q.At(side) && q.Other(side) >= 0.0
    ensures var e := SellPoint(q, side, sold);
      && SellCash(c, q, b, side, sold) == Potentials(c, q, b) - Potentials(c, e, b)
      && 0.0 <= SellCash(c, q, b, side, sold) <= Potentials(c, q, b)
  {
    hide Potential;
    var e := SellPoint(q, side, sold);
    PotentialOrdered(c, e.At(side), q.At(side), b);
    PotentialNonNegative(c, e.At(side), b);
    PotentialNonNegative(c, q.Other(side), b);
  }

  lemma GenesisWithdrawal(c: Curves, m: Market, side: Outcome, sold: real)
    requires Exponential(c) && OpenBooks(c, m) && m.phase == GENESIS && AllGood(m.accounts) && Unclaimed(m.accounts)
    requires side != INVALID && 0.0 <= sold <= m.q.At(side) && m.q.Other(side) >= 0.0
    ensures var cash, mid := SellCash(c, m.q, m.b, side, sold), SellPoint(m.q, side, sold);
      && 0.0 <= cash <= m.T
      && var r := Charged(Withdrawn(m, cash, mid), 0.01 * cash, false);
      && r.Ok? && SaleBooks(c, m, r.value, cash, mid) && r.value.phase == GENESIS
      && r.value.R == m.R - cash && r.value.accounts == m.accounts && r.value.b == m.b
  {
    hide Sum, Potential, SellCash, SellPoint;
    SellCashExact(c, m.q, m.b, side, sold);
  }

  lemma GenesisSaleKeeps(c: Curves, m: Market, side: Outcome, qty: real)
    requires Exponential(c) && Inv(c, m) && m.phase == GENESIS && side != INVALID && 0.0 < qty <= m.q.At(side)
    requires m.q.Other(side) >= 0.0
    ensures var r, end := SoldOnGenesis(c, m, side, qty), SellPoint(m.q, side, qty);
      r.Ok? && SaleBooks(c, m, r.value.0, r.value.1, end)
  {
    hide Sum, Cost, Potential, SellStop, SellReaches, SellCash, Graduate, Charged, Withdrawn;
    var stop := SellStop(c, m, side, qty);
    SellStopBounds(c, m, side, qty);
    GenesisWithdrawal(c, m, side, stop);
    if SellReaches(c, m, side, qty) {
      GraduatingSale(c, m, side, qty, stop);
    } else {
      WholeStop(c, m, side, qty);
    }
  }

  lemma WholeStop(c: Curves, m: Market, side: Outcome, qty: real)
    requires !SellReaches(c, m, side, qty)
    ensures SellStop(c, m, side, qty) == qty
  {}

  /** The rest of an order that graduates midway is sold on the joint curve. */
  lemma RestOfSale(c: Curves, m: Market, n: Market, cash: real, mid: Pair, end: Pair)
    requires Exponential(c) && SaleBooks(c, m, n, cash, mid) && n.phase == GENESIS && n.accounts == m.accounts
    requires Eligible(c, n.q, n.R, n.b) && end.yes <= mid.yes && end.no <= mid.no && mid.yes >= 0.0 && mid.no >= 0.0
    ensures Graduate(c, n).Ok?
    ensures var g, rest := Graduate(c, n).value, Cost(c, mid, n.b) - Cost(c, end, n.b);
      && rest >= 0.0
      && var h := Charged(Withdrawn(g, rest, end), 0.01 * rest, true);
      && h.Ok? && SaleBooks(c, m, h.value, cash + rest, end)
  {
    hide Sum, Cost, Potential, Charged, Withdrawn, Graduate, Eligible;
    GraduateBooks(c, n);
    var g, rest := Graduate(c, n).value, Cost(c, mid, n.b) - Cost(c, end, n.b);
    FormalWithdrawal(c, g, end);
  }

  lemma GraduatingSale(c: Curves, m: Market, side: Outcome, qty: real, stop: real)
    requires Exponential(c) && OpenBooks(c, m) && AllGood(m.accounts) && Unclaimed(m.accounts)
    requires m.phase == GENESIS && side != INVALID
    requires 0.0 < stop <= qty <= m.q.At(side) && m.q.Other(side) >= 0.0 && SellEligible(c, m, side, stop)
    ensures var cash, mid, end := SellCash(c, m.q, m.b, side, stop), SellPoint(m.q, side, stop), SellPoint(m.q, side, qty);
      && var n := Charged(Withdrawn(m, cash, mid), 0.01 * cash, false);
      && n.Ok? && Graduate(c, n.value).Ok?
      && var g, rest := Graduate(c, n.value).value, Cost(c, mid, m.b) - Cost(c, end, m.b);
      && rest >= 0.0
      && var h := Charged(Withdrawn(g, rest, end), 0.01 * rest, true);
      && h.Ok? && SaleBooks(c, m, h.value, cash + rest, end)
  {
    hide Sum, Cost, Potential, SellCash, SellPoint, Charged, Withdrawn, Graduate, Eligible, SaleBooks, OpenBooks,
      AllGood, Unclaimed, Exponential;
    GenesisWithdrawal(c, m, side, stop);
    var cash, mid, end := SellCash(c, m.q, m.b, side, stop), SellPoint(m.q, side, stop), SellPoint(m.q, side, qty);
    var n := Charged(Withdrawn(m, cash, mid), 0.01 * cash, false).value;
    SellPointBelow(m.q, side, stop);
    SellPointBelow(m.q, side, qty);
    SaleAt(c, m, n, cash, mid);
    RestOfSale(c, m, n, cash, mid, end);
  }

  lemma SaleAt(c: Curves, m: Market, n: Market, cash: real, mid: Pair)
    requires SaleBooks(c, m, n, cash, mid)
    ensures n.q == mid
  {}

  /** Paying the seller completes the books. */
  lemma PaidOutKeeps(c: Curves, m: Market, n: Market, owner: int, side: Outcome, qty: real, gross: real)
    requires Frame(m) && m.Has(owner) && side != INVALID && 0.0 < qty <= m.accounts[owner].shares.At(side)
    requires SaleBooks(c, m, n, gross, SellPoint(m.q, side, qty)) && qty <= m.q.At(side)
    ensures n.Has(owner) && Inv(c, PaidOut(n, owner, side, qty, gross))
  {
    hide Sum, Cost, Potential;
    var o := n.accounts[owner];
    assert GoodTrader(o);
    var p := PaidOut(n, owner, side, qty, gross);
    TraderSums(n, owner, p.accounts[owner]);
    SellPointBelow(m.q, side, qty);
  }

  lemma HoldingInPosition(m: Market, owner: int, side: Outcome)
    requires Frame(m) && m.Has(owner) && side != INVALID
    ensures m.accounts[owner].shares.At(side) <= m.q.At(side) && m.q.Other(side) >= 0.0
  {
    hide Sum;
    SumsNonNegative(m.accounts);
  }

  lemma SellKeeps(c: Curves, m: Market, owner: int, side: Outcome, amount: real)
    requires Exponential(c) && Inv(c, m) && TradeFault(m, owner, side, amount).None?
    requires amount <= m.accounts[owner].shares.At(side)
    ensures var r := Sold(c, m, owner, side, amount);
      && r.Ok? && r.value.0.Has(owner) && SaleBooks(c, m, r.value.0, r.value.1, SellPoint(m.q, side, amount))
      && Inv(c, PaidOut(r.value.0, owner, side, amount, r.value.1))
  {
    hide Sum, Cost, Potential, SoldOnFormal, SoldOnGenesis, Frame, Books, PaidOut, SaleBooks;
    HoldingInPosition(m, owner, side);
    if m.phase == FORMAL {
      FormalSaleKeeps(c, m, side, amount);
    } else {
      GenesisSaleKeeps(c, m, side, amount);
    }
    var r := Sold(c, m, owner, side, amount).value;
    PaidOutKeeps(c, m, r.0, owner, side, amount, r.1);
  }
}
