/** Orders and claims of the lifecycle demo in the steps of the source: clone, change the clone in
    place, check the ledger. */
module LifecycleActions {
  import opened Maths
  import opened Wrappers
  import opened Sums
  import opened Accounts
  import opened Ledger
  import opened ExpLog
  import opened LifecycleCurve
  import opened Lifecycle

  /** A private copy of the market that an order updates. */
  class Clone {
    const original: Market
    var phase: Phase
    var q: Pair
    var R: real
    var T: real
    var L: real
    var surplus: Option<real>
    var fees: Fees
    var accounts: seq<Trader>

    constructor (m: Market)
      ensures Snapshot() == m && original == m
    {
      original := m;
      phase, q, R, T, L, surplus, fees, accounts := m.phase, m.q, m.R, m.T, m.L, m.surplus, m.fees, m.accounts;
    }

    function Snapshot(): Market
      reads this
    {
      original.(phase := phase, q := q, R := R, T := T, L := L, surplus := surplus, fees := fees, accounts := accounts)
    }

    /** A Genesis fee is the protocol's; a Formal fee is split, a fifth going to contributors. */
    method Charge(fee: real, formal: bool) returns (fault: Option<Refusal>)
      modifies `fees, `accounts
      ensures fault == if Charged(old(Snapshot()), fee, formal).Err? then Some(MODEL_STATE) else None
      ensures fault.None? ==> Charged(old(Snapshot()), fee, formal) == Ok(Snapshot())
    {
      hide ProRata, Sum;
      if !formal {
        fees := fees.(protocol := fees.protocol + fee);
        return None;
      }
      var Z := Sum(CreditOf, accounts);
      if Z <= 0.0 {
        return Some(MODEL_STATE);
      }
      fees := fees.(core := fees.core + 0.7 * fee);
      fees := fees.(capital := fees.capital + 0.2 * fee);
      fees := fees.(protocol := fees.protocol + 0.1 * fee);
      ghost var charged := fees;
      var i := 0;
      while i < |accounts|
        invariant i <= |accounts| == |old(accounts)| && fees == charged
        invariant forall j :: 0 <= j < i ==> accounts[j] == Rewarded(old(accounts)[j], 0.2 * fee, Z)
        invariant forall j :: i <= j < |accounts| ==> accounts[j] == old(accounts)[j]
      {
        var a := accounts[i];
        accounts := accounts[i := a.(reward := a.reward + ProRata(0.2 * fee, a.credit, Z))];
        i := i + 1;
      }
      assert accounts == RewardAll(old(accounts), 0.2 * fee, Z);
      return None;
    }

    method Graduate(c: Curves) returns (fault: Option<Refusal>)
      modifies this
      ensures fault == if Lifecycle.Graduate(c, old(Snapshot())).Err? then Some(GRADUATION) else None
      ensures fault.None? ==> Lifecycle.Graduate(c, old(Snapshot())) == Ok(Snapshot())
    {
      hide Eligible, Cost;
      if !Eligible(c, q, R, original.b) {
        return Some(GRADUATION);
      }
      surplus := Some(R - Cost(c, q, original.b));
      phase := FORMAL;
      L := 0.0;
      T := R;
      return None;
    }

    method Withdraw(cash: real, end: Pair)
      modifies this
      ensures Snapshot() == Withdrawn(old(Snapshot()), cash, end)
    {
      R := R - cash;
      T := T - cash;
      q := end;
    }

    method TakePayment(owner: int, side: Outcome, end: Pair, actual: real)
      requires 0 <= owner < |accounts|
      modifies this
      ensures Snapshot() == Paid(old(Snapshot()), owner, side, end, actual)
    {
      ghost var m := Snapshot();
      var a := accounts[owner];
      a := AddShares(a, side, end.At(side) - q.At(side));
      a := a.(wallet := a.wallet - actual, paid := a.paid + actual);
      q := end;
      R := R + 0.99 * actual;
      if phase == FORMAL {
        T := T + 0.99 * actual;
      } else {
        T := T + 0.9 * actual;
        var contribution := 0.09 * actual;
        L := L + contribution;
        a := a.(credit := a.credit + contribution);
      }
      accounts := accounts[owner := a];
      assert accounts == Paid(m, owner, side, end, actual).accounts;
    }
  }

  /** The 60 bisection steps of an order that reaches graduation. */
  method FindGate(test: real -> bool, top: real) returns (hi: real)
    ensures hi == Gate(test, 0.0, top, 60)
  {
    var lo := 0.0;
    hi := top;
    var i := 0;
    while i < 60
      invariant 0 <= i <= 60 && Gate(test, lo, hi, 60 - i) == Gate(test, 0.0, top, 60)
    {
      var mid := (lo + hi) / 2.0;
      if test(mid) {
        hi := mid;
      } else {
        lo := mid;
      }
      i := i + 1;
    }
  }

  method Buy(c: Curves, m: Market, owner: int, side: Outcome, amount: real) returns (r: Result<Market, Refusal>)
    requires m.Has(owner)
    ensures r == Bought(c, m, owner, side, amount)
  {
    hide Probe, BuyEligible, BuyTest, Gate, BuyTarget, Charged, Lifecycle.Graduate, Paid;
    if amount > m.accounts[owner].wallet {
      return Err(NO_BALANCE);
    }
    var actual, reachesGate := amount, false;
    if m.phase != FORMAL {
      var probe := Probe(c, m, amount);
      if probe > 0.0 && BuyEligible(c, m, side, probe) {
        actual := FindGate(BuyTest(c, m, side), probe);
        reachesGate := true;
      }
    }
    var target := BuyTarget(c, m, side, actual);
    if target.None? || target.value.At(side) <= m.q.At(side) || actual > amount {
      return Err(QUOTE_LIMIT);
    }
    var n := new Clone(m);
    n.TakePayment(owner, side, target.value, actual);
    var fault := n.Charge(0.01 * actual, m.phase == FORMAL);
    ChargeFault(Paid(m, owner, side, target.value, actual), 0.01 * actual, m.phase == FORMAL);
    if fault.Some? {
      return Err(fault.value);
    }
    if reachesGate {
      GraduateFault(c, n.Snapshot());
      var refused := n.Graduate(c);
      if refused.Some? {
        return Err(refused.value);
      }
    }
    return Ok(n.Snapshot());
  }

  /** Sells down to `qty` less; `gross` is what the curves pay. */
  method Sell(c: Curves, m: Market, side: Outcome, qty: real) returns (r: Result<(Market, real), Refusal>)
    ensures r == if m.phase == FORMAL then SoldOnFormal(c, m, SellPoint(m.q, side, qty)) else SoldOnGenesis(c, m, side, qty)
  {
    hide Cost, SellCash, SellEligible, SellTest, Gate, Charged, Lifecycle.Graduate, Withdrawn, SellPoint;
    var n := new Clone(m);
    var end := SellPoint(m.q, side, qty);
    if m.phase == FORMAL {
      var gross := Cost(c, m.q, m.b) - Cost(c, end, m.b);
      n.Withdraw(gross, end);
      ChargeFault(n.Snapshot(), 0.01 * gross, true);
      var fault := n.Charge(0.01 * gross, true);
      if fault.Some? {
        return Err(fault.value);
      }
      return Ok((n.Snapshot(), gross));
    }
    var stop, reachesGate := qty, false;
    if SellEligible(c, m, side, qty) {
      stop := FindGate(SellTest(c, m, side), qty);
      reachesGate := true;
    }
    assert stop == SellStop(c, m, side, qty);
    var mid, cash := SellPoint(m.q, side, stop), SellCash(c, m.q, m.b, side, stop);
    if cash > m.T {
      return Err(MODEL_STATE);
    }
    n.Withdraw(cash, mid);
    ChargeFault(n.Snapshot(), 0.01 * cash, false);
    var fault := n.Charge(0.01 * cash, false);
    if fault.Some? {
      return Err(fault.value);
    }
    if !reachesGate {
      return Ok((n.Snapshot(), cash));
    }
    GraduateFault(c, n.Snapshot());
    var refused := n.Graduate(c);
    if refused.Some? {
      return Err(refused.value);
    }
    var rest := Max(0.0, Cost(c, mid, m.b) - Cost(c, end, m.b));
    n.Withdraw(rest, end);
    ChargeFault(n.Snapshot(), 0.01 * rest, true);
    var late := n.Charge(0.01 * rest, true);
    if late.Some? {
      return Err(late.value);
    }
    return Ok((n.Snapshot(), cash + rest));
  }

  lemma ChargeFault(m: Market, fee: real, formal: bool)
    ensures Charged(m, fee, formal).Err? ==> Charged(m, fee, formal).error == MODEL_STATE
  {}

  lemma GraduateFault(c: Curves, m: Market)
    ensures Lifecycle.Graduate(c, m).Err? ==> Lifecycle.Graduate(c, m).error == GRADUATION
  {}

  /** An order of the source. */
  method PlaceOrder(c: Curves, m: Market, owner: int, side: Outcome, mode: Mode, amount: real)
    returns (r: Result<Preview, Refusal>)
    ensures r == Trade(c, m, owner, side, mode, amount)
  {
    hide LedgerHolds, Bought, BuyStop, SoldOnFormal, SoldOnGenesis, PaidOut;
    var fault := TradeFault(m, owner, side, amount);
    if fault.Some? {
      return Err(fault.value);
    }
    if mode == BUY {
      var bought := Buy(c, m, owner, side, amount);
      if bought.Err? {
        return Err(bought.error);
      }
      var actual := BuyStop(c, m, side, amount);
      var contribution := if m.phase == FORMAL then 0.0 else 0.09 * actual;
      return Finished(c, m, bought.value, actual, bought.value.q.At(side) - m.q.At(side), contribution,
                      Max(0.0, amount - actual));
    }
    var held := m.accounts[owner].shares.At(side);
    if amount > held || Min(amount, held) <= 0.0 {
      return Err(SHARES);
    }
    var sold := Sell(c, m, side, amount);
    if sold.Err? {
      return Err(sold.error);
    }
    var (n, gross) := sold.value;
    if !n.Has(owner) {
      return Err(BAD_AMOUNT);
    }
    return Finished(c, m, PaidOut(n, owner, side, amount, gross), 0.99 * gross, amount, 0.0, 0.0);
  }

  /** Collecting a payout. */
  method CollectPayout(c: Curves, m: Market, owner: int) returns (r: Result<Market, Refusal>)
    ensures r == ClaimPayout(c, m, owner)
  {
    hide LedgerHolds;
    if !(m.phase == SETTLED || m.phase == FAILED) || m.payouts.None? || !m.Has(owner) || owner >= |m.payouts.value| {
      return Err(WRONG_PHASE);
    }
    if m.accounts[owner].claimed {
      return Err(CLAIMED);
    }
    var n := new Clone(m);
    var p := m.payouts.value[owner];
    var a := n.accounts[owner];
    n.accounts := n.accounts[owner := a.(claimed := true, wallet := a.wallet + p.Whole(), received := a.received + p.Whole())];
    if n.phase == FAILED {
      n.T := Max(0.0, n.T - p.shares);
      n.L := Max(0.0, n.L - p.capital);
    } else {
      n.T := Max(0.0, n.T - p.shares - p.capital);
    }
    n.R := Max(0.0, n.R - p.shares - p.capital);
    n.fees := n.fees.(capital := Max(0.0, n.fees.capital - p.reward));
    assert n.Snapshot() == Lifecycle.Claimed(m, owner, p);
    if !LedgerHolds(c, n.Snapshot()) {
      return Err(MODEL_STATE);
    }
    return Ok(n.Snapshot());
  }
}
