/** The actions in the steps of the source: copy the state into a draft, change the draft in
    place, check the ledger, hand the draft back. Every one is proved to be `TopicMarket.Apply`. */
module Actions {
  import opened Maths
  import opened Wrappers
  import opened Sums
  import opened Accounts
  import opened Ledger
  import opened TopicMarket
  import Text

  /** What one account's rewards are after the first `n` conditional ledgers were credited. */
  ghost function EarnedUpTo(c: Core, amount: real, n: nat, a: Account): Account {
    if n == 0 then a
    else if n == 1 then Earned(c, YES, amount, a)
    else if n == 2 then Earned(c, NO, amount, Earned(c, YES, amount, a))
    else EarnedInAll(c, amount, a)
  }

  ghost function OfficialUpTo(c: Core, amount: real, n: nat): Trio {
    var share := OfficialShare(c, amount);
    Trio(c.officialRewards.yes + if n > 0 then share.yes else 0.0,
         c.officialRewards.no + if n > 1 then share.no else 0.0,
         c.officialRewards.invalid + if n > 2 then share.invalid else 0.0)
  }

  const OUTCOMES := [YES, NO, INVALID]

  /** A private copy of the state that an action updates in place. */
  class Draft {
    var phase: Phase
    var now: real
    const TG: real
    const TF: real
    const TC: real
    const k: real
    const rTarget: real
    var R: real
    var S: real
    var creatorFees: real
    var protocolFees: real
    var pool: Pool
    var core: Core
    var early: Early
    var result: Option<Outcome>
    var claims: Claims
    var accounts: seq<Account>
    const creatorAccount: int
    const protocolAccount: int
    const initialCapital: real

    constructor (s: State)
      ensures Snapshot() == s
    {
      phase, now, TG, TF, TC := s.phase, s.now, s.TG, s.TF, s.TC;
      k, rTarget, R, S := s.k, s.rTarget, s.R, s.S;
      creatorFees, protocolFees := s.creatorFees, s.protocolFees;
      pool, core, early, result, claims, accounts := s.pool, s.core, s.early, s.result, s.claims, s.accounts;
      creatorAccount, protocolAccount, initialCapital := s.creatorAccount, s.protocolAccount, s.initialCapital;
    }

    function Snapshot(): State
      reads this
    {
      State(phase, now, TG, TF, TC, k, rTarget, R, S, creatorFees, protocolFees, pool, core, early, result,
            claims, accounts, creatorAccount, protocolAccount, initialCapital)
    }

    predicate Has(id: int)
      reads `accounts
    {
      0 <= id < |accounts|
    }

    method Pay(id: int, amount: real) returns (fault: Option<Error>)
      modifies `accounts
      ensures fault == PayFault(old(Snapshot()), id, amount)
      ensures fault.None? ==> Snapshot() == TopicMarket.Pay(old(Snapshot()), id, amount)
      ensures fault.Some? ==> accounts == old(accounts)
    {
      if !Has(id) {
        return Some(ACCOUNT);
      }
      if amount <= 0.0 || amount > accounts[id].wallet {
        return Some(BALANCE);
      }
      var a := accounts[id];
      a := a.(wallet := a.wallet - amount);
      a := a.(paid := a.paid + amount);
      accounts := accounts[id := a];
      return None;
    }

    method Receive(id: int, amount: real)
      requires Has(id)
      modifies `accounts
      ensures Snapshot() == old(Snapshot()).Receive(id, amount)
    {
      var a := accounts[id];
      a := a.(wallet := a.wallet + amount);
      a := a.(received := a.received + amount);
      accounts := accounts[id := a];
    }

    method AccrueGenesis(gross: real)
      modifies `creatorFees, `protocolFees
      ensures Snapshot() == TopicMarket.AccrueGenesis(old(Snapshot()), gross)
    {
      creatorFees := creatorFees + 0.007 * gross;
      protocolFees := protocolFees + 0.003 * gross;
    }

    /** Credits one conditional ledger account by account. */
    method EarnOutcome(o: Outcome, amount: real, base: real)
      requires base != 0.0 && base == core.Base(o)
      modifies `accounts
      ensures |accounts| == |old(accounts)|
      ensures forall i :: 0 <= i < |accounts| ==> accounts[i] == Earned(core, o, amount, old(accounts)[i])
    {
      hide ProRata;
      var i := 0;
      while i < |accounts|
        invariant i <= |accounts| == |old(accounts)|
        invariant forall j :: 0 <= j < i ==> accounts[j] == Earned(core, o, amount, old(accounts)[j])
        invariant forall j :: i <= j < |accounts| ==> accounts[j] == old(accounts)[j]
      {
        var a := accounts[i];
        if a.Earns(o) {
          var more := a.coreRewards.At(o) + ProRata(amount, a.coreStake, base);
          accounts := accounts[i := a.(coreRewards := a.coreRewards.With(o, more))];
        }
        i := i + 1;
      }
    }

    /** Every Formal fee is credited to all three conditional ledgers; where nobody can earn it,
        to the official recipient. */
    method AccrueCoreFee(amount: real)
      modifies `core, `accounts
      ensures Snapshot() == TopicMarket.AccrueCoreFee(old(Snapshot()), amount)
    {
      hide Earned;
      ghost var c := core;
      core := core.(fees := core.fees + amount, feeTotal := core.feeTotal + amount);
      var bases := [core.yes, core.no, core.yes + core.no];
      for n := 0 to 3
        invariant |accounts| == |old(accounts)|
        invariant forall j :: 0 <= j < |accounts| ==> accounts[j] == EarnedUpTo(c, amount, n, old(accounts)[j])
        invariant core == c.(fees := c.fees + amount, feeTotal := c.feeTotal + amount,
                             officialRewards := OfficialUpTo(c, amount, n))
      {
        var o := OUTCOMES[n];
        ghost var before := accounts;
        if bases[n] == 0.0 {
          core := core.(officialRewards := core.officialRewards.With(o, core.officialRewards.At(o) + amount));
        } else {
          EarnOutcome(o, amount, bases[n]);
        }
        forall j | 0 <= j < |accounts|
          ensures accounts[j] == EarnedUpTo(c, amount, n + 1, old(accounts)[j])
        {
          EarnedAgrees(c, core, o, amount, before[j]);
        }
      }
      assert accounts == EarnAll(c, amount, old(accounts));
    }

    /** Genesis tokens become LP tokens one for one. */
    method ConvertTokens()
      modifies `accounts
      ensures accounts == Map(Graduated, old(accounts))
    {
      var i := 0;
      while i < |accounts|
        invariant i <= |accounts| == |old(accounts)|
        invariant forall j :: 0 <= j < i ==> accounts[j] == Graduated(old(accounts)[j])
        invariant forall j :: i <= j < |accounts| ==> accounts[j] == old(accounts)[j]
      {
        var a := accounts[i];
        a := a.(lp := a.g);
        a := a.(g := 0.0);
        accounts := accounts[i := a];
        i := i + 1;
      }
    }

    method Graduate()
      modifies this
      ensures Snapshot() == TopicMarket.Graduate(old(Snapshot()))
    {
      hide Map;
      if !(R >= rTarget) {
        return;
      }
      phase := FORMAL;
      pool := pool.(b := R, M0 := R, collateral := 0.0, cash := R, basis := R, inventoryYes := 0.0,
                    inventoryNo := 0.0, lpSupply := S);
      R := 0.0;
      ConvertTokens();
      core := core.(openedAt := Some(now));
    }

    method DistributeOfficialFees()
      modifies this
      ensures Snapshot() == TopicMarket.DistributeOfficialFees(old(Snapshot()))
    {
      if protocolAccount < 0 {
        return;
      }
      if Has(creatorAccount) && creatorFees > 0.0 {
        var n := creatorFees;
        creatorFees := 0.0;
        Receive(creatorAccount, n);
      }
      if Has(protocolAccount) {
        var n := protocolFees + claims.coreOfficialBudget;
        protocolFees := 0.0;
        claims := claims.(coreOfficialBudget := 0.0);
        if n > 0.0 {
          Receive(protocolAccount, n);
        }
      }
    }

    /** Core payouts of all accounts, from the books before they are cleared. */
    method PayoutsOf(o: Outcome) returns (payouts: seq<real>, total: real)
      ensures payouts == CorePayouts(Snapshot(), o, accounts) && total == SumReal(payouts)
    {
      hide ProRata;
      var totalStake := core.yes + core.no + core.invalid;
      var penalty, forfeited, eligible := early.penalty + early.failedBonds, early.forfeited.At(o), core.Base(o);
      payouts, total := [], 0.0;
      var i := 0;
      while i < |accounts|
        invariant i <= |accounts| && |payouts| == i && total == SumReal(payouts)
        invariant forall j :: 0 <= j < i ==> payouts[j] == CorePayout(Snapshot(), o, accounts[j])
      {
        var a := accounts[i];
        var principal := 0.0;
        if o == INVALID {
          if totalStake > 0.0 {
            principal := ProRata(core.cash + penalty, a.coreStake, totalStake);
          }
        } else if a.coreSide == Some(o) && eligible != 0.0 {
          principal := ProRata(core.cash + penalty, a.coreStake, eligible);
        }
        var share := 0.0;
        if a.Earns(o) && eligible > 0.0 {
          share := ProRata(forfeited, a.coreStake, eligible);
        }
        var payout := principal + a.coreRewards.At(o) + share;
        SumSnoc(payouts, payout);
        payouts, total := payouts + [payout], total + payout;
        i := i + 1;
      }
    }

    /** Records the outcome and empties every bucket that the claims now stand for. */
    method CloseBooks(o: Outcome)
      modifies this
      ensures var s := old(Snapshot());
        Snapshot() == s.(phase := SETTLED, result := Some(o),
          core := s.core.(result := Some(o), fees := 0.0, cash := 0.0),
          early := s.early.(penalty := 0.0, failedBonds := 0.0, forfeited := ZERO),
          pool := s.pool.(collateral := 0.0, cash := 0.0, lpFees := 0.0, inventoryYes := 0.0, inventoryNo := 0.0))
    {
      result, phase := Some(o), SETTLED;
      early := early.(penalty := 0.0, failedBonds := 0.0, forfeited := ZERO);
      core := core.(result := Some(o), fees := 0.0, cash := 0.0);
      pool := pool.(collateral := 0.0, cash := 0.0, lpFees := 0.0, inventoryYes := 0.0, inventoryNo := 0.0);
    }

    /** Settles unless the pool cannot cover the outcome tokens. */
    method Settle() returns (fault: Option<Error>)
      modifies this
      ensures fault == if Nav(old(Snapshot())) < 0.0 then Some(SETTLEMENT_INSOLVENT) else None
      ensures fault.None? ==> Snapshot() == TopicMarket.Settle(old(Snapshot()))
    {
      hide TopicMarket.DistributeOfficialFees, CorePayouts, SumReal, Sum;
      ghost var s := Snapshot();
      var totalStake := core.yes + core.no + core.invalid;
      var o := if core.yes > totalStake / 2.0 then YES else if core.no > totalStake / 2.0 then NO else INVALID;
      var liability := OutcomeValue(Sum(YesTokens, accounts), Sum(NoTokens, accounts), o);
      var nav := pool.cash + pool.lpFees - liability;
      assert o == s.core.Winner() && liability == Liability(s) && nav == Nav(s);
      hide Nav, Liability, OutcomeValue;
      if nav < 0.0 {
        return Some(SETTLEMENT_INSOLVENT);
      }
      var payouts, total := PayoutsOf(o);
      var penalty, eligible := early.penalty + early.failedBonds, core.Base(o);
      var official := core.officialRewards.At(o) + (if eligible == 0.0 then early.forfeited.At(o) else 0.0)
                      + (if totalStake == 0.0 then penalty else 0.0);
      assert official == OfficialBudget(s, o);
      hide OfficialBudget;
      claims := claims.(outcomeBudget := liability, lpBudget := Max(0.0, nav), lpBudgetInitial := Max(0.0, nav),
                        lpClaimSupply := pool.lpSupply, corePayouts := payouts, coreBudget := total,
                        coreOfficialBudget := official);
      assert claims == SettledClaims(s);
      hide SettledClaims;
      CloseBooks(o);
      DistributeOfficialFees();
      return None;
    }

    method Fail()
      modifies this
      ensures Snapshot() == TopicMarket.Fail(old(Snapshot()))
    {
      hide TopicMarket.DistributeOfficialFees;
      phase := FAILED;
      claims := claims.(failedBudget := R, failedBudgetInitial := R, failedSupply := S);
      R := 0.0;
      DistributeOfficialFees();
    }

    /** Takes an account's conditional rewards, ledger by ledger. */
    method ForfeitRewards(id: int)
      requires Has(id)
      modifies `early, `accounts
      ensures var s, a := old(Snapshot()), old(accounts[id]);
        Snapshot() == s.Put(id, a.(coreRewards := ZERO))
                      .(early := s.early.(forfeited := s.early.forfeited.Plus(a.coreRewards)))
    {
      ghost var e, a := early, accounts[id];
      for n := 0 to 3
        invariant |accounts| == |old(accounts)|
        invariant forall j :: 0 <= j < |accounts| && j != id ==> accounts[j] == old(accounts)[j]
        invariant accounts[id] == a.(coreRewards := accounts[id].coreRewards)
        invariant early == e.(forfeited := early.forfeited)
        invariant forall k :: 0 <= k < 3 ==>
          var o := OUTCOMES[k];
          && accounts[id].coreRewards.At(o) == (if k < n then 0.0 else a.coreRewards.At(o))
          && early.forfeited.At(o) == e.forfeited.At(o) + (if k < n then a.coreRewards.At(o) else 0.0)
      {
        var o, user := OUTCOMES[n], accounts[id];
        early := early.(forfeited := early.forfeited.With(o, early.forfeited.At(o) + user.coreRewards.At(o)));
        accounts := accounts[id := user.(coreRewards := user.coreRewards.With(o, 0.0))];
      }
      assert OUTCOMES[0] == YES && OUTCOMES[1] == NO && OUTCOMES[2] == INVALID;
      assert accounts == old(accounts)[id := a.(coreRewards := ZERO)];
    }

    /** A stake leaves with its penalty and without its rewards. */
    method Unstake(id: int)
      requires Has(id) && accounts[id].coreSide.Some?
      modifies this
      ensures Snapshot() == Exited(old(Snapshot()), id)
    {
      hide ExitPenalty;
      ghost var s := Snapshot();
      var side, principal := accounts[id].coreSide.value, accounts[id].coreStake;
      var penalty := ExitPenalty(principal);
      early := early.(penalty := early.penalty + penalty);
      ForfeitRewards(id);
      core := core.(cash := core.cash - principal);
      match side {
        case YES => core := core.(yes := core.yes - principal);
        case NO => core := core.(no := core.no - principal);
        case INVALID => core := core.(invalid := core.invalid - principal);
      }
      accounts := accounts[id := accounts[id].(coreStake := 0.0, coreSide := None, coreClaimed := false)];
      Receive(id, principal - penalty);
      assert accounts == Exited(s, id).accounts;
    }

    /** LP tokens are burnt for their fixed share of the settled pool. */
    method Burn(id: int, amount: real)
      requires Has(id) && claims.lpClaimSupply > 0.0
      modifies this
      ensures Snapshot() == BurnLP(old(Snapshot()), id, amount)
    {
      hide ProRata;
      ghost var s := Snapshot();
      var money := ProRata(claims.lpBudgetInitial, amount, claims.lpClaimSupply);
      accounts := accounts[id := accounts[id].(lp := accounts[id].lp - amount)];
      pool := pool.(lpSupply := pool.lpSupply - amount);
      claims := claims.(lpBudget := claims.lpBudget - money);
      Receive(id, money);
      assert accounts == BurnLP(s, id, amount).accounts;
    }

    /** The pool and fee side of a Formal trade. */
    method BookTrade(q: Quote, delta: real)
      modifies this
      ensures Snapshot() == TradeBooks(old(Snapshot()), q, delta)
    {
      pool := pool.(cash := pool.cash + delta);
      pool := pool.(lpFees := pool.lpFees + q.lpFee);
      pool := pool.(lpFeesEarned := pool.lpFeesEarned + q.lpFee);
      pool := pool.(formalVolume := pool.formalVolume + q.gross);
      creatorFees := creatorFees + q.creatorFee;
      protocolFees := protocolFees + q.protocolFee;
    }
  }

  lemma EarnedAgrees(c: Core, d: Core, o: Outcome, amount: real, a: Account)
    requires d.yes == c.yes && d.no == c.no
    ensures Earned(d, o, amount, a) == Earned(c, o, amount, a)
    ensures c.Base(o) == 0.0 ==> Earned(c, o, amount, a) == a
  {}

  lemma {:induction false} SumSnoc(xs: seq<real>, x: real)
    ensures SumReal(xs + [x]) == SumReal(xs) + x
  {
    if xs == [] {
      assert xs + [x] == [x] && [x][1..] == [];
    } else {
      assert (xs + [x])[1..] == xs[1..] + [x];
      SumSnoc(xs[1..], x);
    }
  }

  // ---- the actions ----

  /** The ledger check and the result of every action. */
  method Finish(f: Functions, d: Draft) returns (r: Result<State, Error>)
    ensures r == Checked(f, d.Snapshot())
  {
    var fault := LedgerFault(f, d.Snapshot());
    if fault.Some? {
      return Err(fault.value);
    }
    return Ok(d.Snapshot());
  }

  method Open(f: Functions, s: State) returns (r: Result<State, Error>)
    ensures r == Apply(f, s, Action.Open)
  {
    hide LedgerFault;
    if s.phase != CREATE {
      return Err(PHASE);
    }
    var d := new Draft(s);
    d.phase := GENESIS;
    r := Finish(f, d);
  }

  method Buy(f: Functions, s: State, id: int, paid: real) returns (r: Result<State, Error>)
    ensures r == Apply(f, s, Action.Buy(id, paid))
  {
    hide LedgerFault, QuoteBuy, Graduate;
    if s.phase != GENESIS || s.now >= s.TG {
      return Err(GENESIS_CLOSED);
    }
    var q := QuoteBuy(f, s, paid);
    if q.Err? {
      return Err(q.error);
    }
    QuotedBuy(f, s, paid);
    var d := new Draft(s);
    var fault := d.Pay(id, paid);
    if fault.Some? {
      return Err(fault.value);
    }
    d.R := d.R + q.value.R;
    d.S := d.S + q.value.quantity;
    var a := d.accounts[id];
    d.accounts := d.accounts[id := a.(g := a.g + q.value.quantity)];
    d.AccrueGenesis(paid);
    assert d.Snapshot() == Bought(s, id, q.value);
    d.Graduate();
    r := Finish(f, d);
  }

  method Sell(f: Functions, s: State, id: int, tokens: real) returns (r: Result<State, Error>)
    ensures r == Apply(f, s, Action.Sell(id, tokens))
  {
    hide LedgerFault, QuoteSell, Graduate;
    if s.phase != GENESIS || s.now >= s.TG {
      return Err(GENESIS_CLOSED);
    }
    if !s.Has(id) {
      return Err(ACCOUNT);
    }
    if tokens > s.accounts[id].g {
      return Err(HOLDINGS);
    }
    var q := QuoteSell(s, tokens);
    if q.Err? {
      return Err(q.error);
    }
    QuotedSell(s, tokens);
    var d := new Draft(s);
    d.R := d.R - q.value.gross;
    d.S := d.S - tokens;
    var a := d.accounts[id];
    d.accounts := d.accounts[id := a.(g := a.g - tokens)];
    d.AccrueGenesis(q.value.gross);
    d.Receive(id, q.value.net);
    assert d.Snapshot() == Sold(s, id, q.value);
    d.Graduate();
    r := Finish(f, d);
  }

  method FormalBuy(f: Functions, s: State, id: int, side: Outcome, tokens: real) returns (r: Result<State, Error>)
    ensures r == Apply(f, s, Action.FormalBuy(id, side, tokens))
  {
    hide LedgerFault, QuoteFormalBuy, AccrueCoreFee, TradeBooks;
    var closed := FormalFault(s);
    if closed.Some? {
      return Err(closed.value);
    }
    var q := QuoteFormalBuy(f, s, side, tokens);
    if q.Err? {
      return Err(q.error);
    }
    QuotedFormalBuy(f, s, side, tokens);
    var d := new Draft(s);
    var fault := d.Pay(id, q.value.gross);
    if fault.Some? {
      return Err(fault.value);
    }
    d.BookTrade(q.value, q.value.net);
    d.AccrueCoreFee(q.value.coreFee);
    AccrueSameAccounts(TradeBooks(TopicMarket.Pay(s, id, q.value.gross), q.value, q.value.net), q.value.coreFee);
    TradeSameAccounts(TopicMarket.Pay(s, id, q.value.gross), q.value, q.value.net);
    var a := d.accounts[id];
    d.accounts := d.accounts[id := if side == YES then a.(yes := a.yes + tokens) else a.(no := a.no + tokens)];
    assert d.Snapshot() == FormalBought(s, id, side, q.value);
    r := Finish(f, d);
  }

  method FormalSell(f: Functions, s: State, id: int, side: Outcome, tokens: real) returns (r: Result<State, Error>)
    ensures r == Apply(f, s, Action.FormalSell(id, side, tokens))
  {
    hide LedgerFault, QuoteFormalSell, AccrueCoreFee, TradeBooks;
    var closed := FormalFault(s);
    if closed.Some? {
      return Err(closed.value);
    }
    if side == INVALID {
      return Err(SIDE);
    }
    if !s.Has(id) {
      return Err(ACCOUNT);
    }
    if tokens > s.accounts[id].Held(side) {
      return Err(HOLDINGS);
    }
    var q := QuoteFormalSell(f, s, side, tokens);
    if q.Err? {
      return Err(q.error);
    }
    QuotedFormalSell(f, s, side, tokens);
    var d := new Draft(s);
    var a := d.accounts[id];
    d.accounts := d.accounts[id := if side == YES then a.(yes := a.yes - tokens) else a.(no := a.no - tokens)];
    ghost var u := d.Snapshot();
    assert u == s.Put(id, s.accounts[id].AddSide(side, -q.value.quantity));
    d.BookTrade(q.value, -q.value.gross);
    d.AccrueCoreFee(q.value.coreFee);
    TradeSameAccounts(u, q.value, -q.value.gross);
    AccrueSameAccounts(TradeBooks(u, q.value, -q.value.gross), q.value.coreFee);
    d.Receive(id, q.value.net);
    r := Finish(f, d);
  }

  method TransferLP(f: Functions, s: State, from: int, to: int, amount: real) returns (r: Result<State, Error>)
    ensures r == Apply(f, s, Action.TransferLP(from, to, amount))
  {
    hide LedgerFault;
    var fault := TransferFault(s, from, to, amount);
    if fault.Some? {
      return Err(fault.value);
    }
    var d := new Draft(s);
    d.accounts := d.accounts[from := d.accounts[from].(lp := d.accounts[from].lp - amount)];
    d.accounts := d.accounts[to := d.accounts[to].(lp := d.accounts[to].lp + amount)];
    r := Finish(f, d);
  }

  method RedeemPairs(f: Functions, s: State, id: int, pairs: real) returns (r: Result<State, Error>)
    ensures r == Apply(f, s, Action.RedeemPairs(id, pairs))
  {
    hide LedgerFault, Guard, Effect;
    RedeemMeans(f, s, id, pairs);
    var fault := RedeemFault(s, id, pairs);
    if fault.Some? {
      return Err(fault.value);
    }
    var d := new Draft(s);
    var a := d.accounts[id];
    d.accounts := d.accounts[id := a.(yes := a.yes - pairs, no := a.no - pairs)];
    d.pool := d.pool.(cash := d.pool.cash - pairs, redeemedPairs := d.pool.redeemedPairs + pairs);
    d.Receive(id, pairs);
    assert d.Snapshot() == Redeemed(s, id, pairs);
    r := Finish(f, d);
  }

  method CoreStake(f: Functions, s: State, id: int, side: Outcome, amount: real) returns (r: Result<State, Error>)
    ensures r == Apply(f, s, Action.CoreStake(id, side, amount))
  {
    hide LedgerFault, Guard, Effect;
    StakeMeans(f, s, id, side, amount);
    var closed := CoreOpenFault(s);
    if closed.Some? {
      return Err(closed.value);
    }
    if !s.Has(id) {
      return Err(ACCOUNT);
    }
    if s.accounts[id].coreSide.Some? && s.accounts[id].coreSide.value != side {
      return Err(SIDE_LOCKED);
    }
    var d := new Draft(s);
    var fault := d.Pay(id, amount);
    if fault.Some? {
      return Err(fault.value);
    }
    var a := d.accounts[id];
    d.accounts := d.accounts[id := a.(coreSide := Some(side), coreStake := a.coreStake + amount)];
    d.core := d.core.(cash := d.core.cash + amount);
    if side == YES {
      d.core := d.core.(yes := d.core.yes + amount);
    } else if side == NO {
      d.core := d.core.(no := d.core.no + amount);
    } else {
      d.core := d.core.(invalid := d.core.invalid + amount);
    }
    assert d.Snapshot() == Staked(s, id, side, amount);
    r := Finish(f, d);
  }

  method CoreExit(f: Functions, s: State, id: int) returns (r: Result<State, Error>)
    ensures r == Apply(f, s, Action.CoreExit(id))
  {
    hide LedgerFault, Exited;
    var fault := ExitFault(s, id);
    if fault.Some? {
      return Err(fault.value);
    }
    var d := new Draft(s);
    d.Unstake(id);
    r := Finish(f, d);
  }

  method ProposeEarly(f: Functions, s: State, id: int, side: Outcome, reason: Text.Units)
    returns (r: Result<State, Error>)
    ensures r == Apply(f, s, Action.ProposeEarly(id, side, reason))
  {
    hide LedgerFault, Text.Trim;
    var closed := CoreOpenFault(s);
    if closed.Some? {
      return Err(closed.value);
    }
    if side == INVALID {
      return Err(EARLY_OUTCOME);
    }
    if Text.Trim(reason) == [] {
      return Err(MISSING_REASON);
    }
    if s.early.pending.Some? {
      return Err(EARLY_PENDING);
    }
    if s.core.cash <= 0.0 {
      return Err(NO_PRINCIPAL);
    }
    if s.now + 3600.0 >= s.TC {
      return Err(EARLY_WINDOW);
    }
    var d := new Draft(s);
    var fault := d.Pay(id, d.early.bond);
    if fault.Some? {
      return Err(fault.value);
    }
    d.early := d.early.(count := d.early.count + 1);
    d.early := d.early.(pending := Some(Request(d.early.count, id, side, d.now, d.now + 3600.0,
                                                Text.Trim(reason), d.early.bond)));
    r := Finish(f, d);
  }

  method ProcessEarly(f: Functions, s: State) returns (r: Result<State, Error>)
    ensures r == Apply(f, s, Action.ProcessEarly)
  {
    hide LedgerFault, Settle, Nav, Guard, Effect;
    ProcessMeans(f, s);
    if !s.Trading() {
      return Err(CORE_CLOSED);
    }
    if s.early.pending.None? {
      return Err(NO_EARLY_REQUEST);
    }
    var request := s.early.pending.value;
    if s.now < request.processAfter {
      return Err(EARLY_PENDING_WINDOW);
    }
    if !s.Has(request.proposer) {
      return Err(ACCOUNT);
    }
    var d := new Draft(s);
    d.early := d.early.(pending := None);
    var actual := d.core.Winner();
    var fault := None;
    if actual == request.side {
      var a := d.accounts[request.proposer];
      d.accounts := d.accounts[request.proposer := a.(bondRefund := a.bondRefund + request.bond)];
      d.early := d.early.(terminatedAt := Some(request.processAfter));
      assert d.Snapshot() == Processed(s);
      fault := d.Settle();
    } else {
      d.early := d.early.(failedBonds := d.early.failedBonds + request.bond);
      assert d.Snapshot() == Processed(s);
      if d.now >= d.TC {
        fault := d.Settle();
      }
    }
    if fault.Some? {
      return Err(fault.value);
    }
    r := Finish(f, d);
  }

  method ClaimEarlyBond(f: Functions, s: State, id: int) returns (r: Result<State, Error>)
    ensures r == Apply(f, s, Action.ClaimEarlyBond(id))
  {
    hide LedgerFault, Guard, Effect;
    BondMeans(f, s, id);
    if !s.Has(id) {
      return Err(ACCOUNT);
    }
    var amount := s.accounts[id].bondRefund;
    if amount <= 0.0 {
      return Err(NO_BOND_REFUND);
    }
    var d := new Draft(s);
    d.accounts := d.accounts[id := d.accounts[id].(bondRefund := 0.0)];
    d.Receive(id, amount);
    assert d.Snapshot() == BondReturned(s, id);
    r := Finish(f, d);
  }

  method AdvanceTime(f: Functions, s: State, to_: real) returns (r: Result<State, Error>)
    ensures r == Apply(f, s, Action.AdvanceTime(to_))
  {
    hide LedgerFault, Fail;
    if to_ < s.now {
      return Err(TIME);
    }
    if s.phase == CREATE {
      return Ok(s);
    }
    var d := new Draft(s);
    d.now := to_;
    assert d.Snapshot() == s.(now := to_);
    if d.phase == GENESIS && to_ >= d.TG {
      d.Fail();
      FailPhase(s.(now := to_));
    }
    if d.phase == FORMAL && to_ >= d.TF {
      d.phase := WAIT_CORE;
    }
    r := Finish(f, d);
  }

  method Finalize(f: Functions, s: State) returns (r: Result<State, Error>)
    ensures r == Apply(f, s, Action.Finalize)
  {
    hide LedgerFault, Settle, Nav, ProcessFault, ProcessedEarly;
    if !s.Trading() || s.now < s.TC {
      return Err(CORE_PENDING);
    }
    if s.early.pending.Some? {
      r := ProcessEarly(f, s);
      return;
    }
    var d := new Draft(s);
    var fault := d.Settle();
    if fault.Some? {
      return Err(fault.value);
    }
    r := Finish(f, d);
  }

  method ClaimLP(f: Functions, s: State, id: int, amount: real) returns (r: Result<State, Error>)
    ensures r == Apply(f, s, Action.ClaimLP(id, amount))
  {
    hide LedgerFault, BurnLP;
    var fault := ClaimLPFault(s, id, amount);
    if fault.Some? {
      return Err(fault.value);
    }
    var d := new Draft(s);
    d.Burn(id, amount);
    r := Finish(f, d);
  }

  method Claim(f: Functions, s: State, id: int) returns (r: Result<State, Error>)
    ensures r == Apply(f, s, Action.Claim(id))
  {
    hide LedgerFault, BurnLP, OutcomeDue, FailedDue, Guard, Effect;
    ClaimMeans(f, s, id);
    if s.Has(id) {
      BurnMeans(f, s, id, s.accounts[id].lp);
    }
    if !s.Has(id) {
      return Err(ACCOUNT);
    }
    var a := s.accounts[id];
    if !s.Terminal() || a.lp + a.g + a.yes + a.no <= 0.0 {
      return Err(CLAIM);
    }
    var outcomes, failed := OutcomeDue(s, a), FailedDue(s, a);
    var current := s;
    if a.lp > 0.0 && s.phase == SETTLED {
      var burnt := ClaimLP(f, s, id, a.lp);
      if burnt.Err? {
        return Err(burnt.error);
      }
      BurnAccount(s, id, a.lp);
      current := burnt.value;
    }
    var d := new Draft(current);
    d.claims := d.claims.(outcomeBudget := d.claims.outcomeBudget - outcomes,
                          failedBudget := d.claims.failedBudget - failed);
    if d.phase == FAILED {
      d.S := d.S - d.accounts[id].g;
    }
    d.accounts := d.accounts[id := d.accounts[id].(g := 0.0, yes := 0.0, no := 0.0, claimed := true)];
    d.Receive(id, outcomes + failed);
    assert d.Snapshot() == Claimed(s, id);
    r := Finish(f, d);
  }

  method ClaimCore(f: Functions, s: State, id: int) returns (r: Result<State, Error>)
    ensures r == Apply(f, s, Action.ClaimCore(id))
  {
    hide LedgerFault;
    var fault := ClaimCoreFault(s, id);
    if fault.Some? {
      return Err(fault.value);
    }
    var d := new Draft(s);
    var payout := d.claims.corePayouts[id];
    d.accounts := d.accounts[id := d.accounts[id].(coreClaimed := true)];
    d.claims := d.claims.(coreBudget := d.claims.coreBudget - payout);
    d.Receive(id, payout);
    assert d.Snapshot() == CoreClaimed(s, id);
    r := Finish(f, d);
  }

  method ClaimCoreOfficial(f: Functions, s: State, id: int) returns (r: Result<State, Error>)
    ensures r == Apply(f, s, Action.ClaimCoreOfficial(id))
  {
    hide LedgerFault, Guard, Effect;
    OfficialMeans(f, s, id);
    var fault := ClaimOfficialFault(s, id);
    if fault.Some? {
      return Err(fault.value);
    }
    var d := new Draft(s);
    var amount := d.claims.coreOfficialBudget;
    d.claims := d.claims.(coreOfficialBudget := 0.0);
    d.Receive(id, amount);
    r := Finish(f, d);
  }

  method ClaimFees(f: Functions, s: State, kind: FeeKind, id: int) returns (r: Result<State, Error>)
    ensures r == Apply(f, s, Action.ClaimFees(kind, id))
  {
    hide LedgerFault, Guard, Effect;
    FeesMean(f, s, kind, id);
    var fault := ClaimFeesFault(s, kind, id);
    if fault.Some? {
      return Err(fault.value);
    }
    var d := new Draft(s);
    var amount := FeeAmount(s, kind);
    if kind == CREATOR {
      d.creatorFees := 0.0;
    } else {
      d.protocolFees := 0.0;
    }
    d.Receive(id, amount);
    r := Finish(f, d);
  }

  // ---- facts about the parts hidden above ----

  lemma ClaimMeans(f: Functions, s: State, id: int)
    ensures Guard(f, s, Action.Claim(id)) == ClaimFault(f, s, id)
    ensures ClaimFault(f, s, id).None? ==> Effect(f, s, Action.Claim(id)) == Claimed(s, id)
  {}

  lemma BurnMeans(f: Functions, s: State, id: int, amount: real)
    ensures Guard(f, s, Action.ClaimLP(id, amount)) == ClaimLPFault(s, id, amount)
    ensures ClaimLPFault(s, id, amount).None? ==> Effect(f, s, Action.ClaimLP(id, amount)) == BurnLP(s, id, amount)
  {}

  lemma FeesMean(f: Functions, s: State, kind: FeeKind, id: int)
    ensures Guard(f, s, Action.ClaimFees(kind, id)) == ClaimFeesFault(s, kind, id)
    ensures ClaimFeesFault(s, kind, id).None? ==> Effect(f, s, Action.ClaimFees(kind, id)) == FeesPaid(s, kind, id)
  {}

  lemma OfficialMeans(f: Functions, s: State, id: int)
    ensures Guard(f, s, Action.ClaimCoreOfficial(id)) == ClaimOfficialFault(s, id)
    ensures ClaimOfficialFault(s, id).None? ==> Effect(f, s, Action.ClaimCoreOfficial(id)) == OfficialPaid(s, id)
  {}

  lemma ProcessMeans(f: Functions, s: State)
    ensures Guard(f, s, Action.ProcessEarly) == ProcessFault(s)
    ensures ProcessFault(s).None? ==> Effect(f, s, Action.ProcessEarly) == ProcessedEarly(s)
  {}

  lemma BondMeans(f: Functions, s: State, id: int)
    ensures Guard(f, s, Action.ClaimEarlyBond(id)) == BondFault(s, id)
    ensures BondFault(s, id).None? ==> Effect(f, s, Action.ClaimEarlyBond(id)) == BondReturned(s, id)
  {}

  lemma StakeMeans(f: Functions, s: State, id: int, side: Outcome, amount: real)
    ensures Guard(f, s, Action.CoreStake(id, side, amount)) == StakeFault(s, id, side, amount)
    ensures StakeFault(s, id, side, amount).None? ==> Effect(f, s, Action.CoreStake(id, side, amount)) == Staked(s, id, side, amount)
  {}

  lemma RedeemMeans(f: Functions, s: State, id: int, pairs: real)
    ensures Guard(f, s, Action.RedeemPairs(id, pairs)) == RedeemFault(s, id, pairs)
    ensures RedeemFault(s, id, pairs).None? ==> Effect(f, s, Action.RedeemPairs(id, pairs)) == Redeemed(s, id, pairs)
  {}

  lemma QuotedBuy(f: Functions, s: State, paid: real)
    requires QuoteBuy(f, s, paid).Ok?
    ensures QuoteBuy(f, s, paid).value.gross == paid
  {}

  lemma QuotedSell(s: State, tokens: real)
    requires QuoteSell(s, tokens).Ok?
    ensures QuoteSell(s, tokens).value.quantity == tokens
  {}

  lemma QuotedFormalBuy(f: Functions, s: State, side: Outcome, tokens: real)
    requires QuoteFormalBuy(f, s, side, tokens).Ok?
    ensures QuoteFormalBuy(f, s, side, tokens).value.quantity == tokens
  {}

  lemma QuotedFormalSell(f: Functions, s: State, side: Outcome, tokens: real)
    requires QuoteFormalSell(f, s, side, tokens).Ok?
    ensures QuoteFormalSell(f, s, side, tokens).value.quantity == tokens
  {}

  lemma TradeSameAccounts(s: State, q: Quote, delta: real)
    ensures TradeBooks(s, q, delta).accounts == s.accounts
  {}

  lemma AccrueSameAccounts(s: State, amount: real)
    ensures |AccrueCoreFee(s, amount).accounts| == |s.accounts|
  {}

  lemma FailPhase(s: State)
    ensures TopicMarket.Fail(s).phase == FAILED
  {}

  lemma BurnAccount(s: State, id: int, amount: real)
    requires s.Has(id) && s.claims.lpClaimSupply > 0.0
    ensures BurnLP(s, id, amount).Has(id) && BurnLP(s, id, amount).phase == s.phase
  {}
}
