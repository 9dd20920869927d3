/** Nobody's action takes anything from anybody else, and every unit a trader pays or forgoes goes
    where the fee schedule says. */
module NonInterference {
  import opened Maths
  import opened Wrappers
  import opened Sums
  import opened Accounts
  import opened Lmsr
  import opened Ledger
  import opened TopicMarket
  import opened Invariant
  import opened KeepFormal
  import opened Runs

  /** Whether the action spends or moves something of account i on that account's behalf. */
  predicate ActsFor(a: Action, i: int) {
    match a
    case Buy(id, _) => id == i
    case Sell(id, _) => id == i
    case FormalBuy(id, _, _) => id == i
    case FormalSell(id, _, _) => id == i
    case TransferLP(from, _, _) => from == i
    case RedeemPairs(id, _) => id == i
    case CoreStake(id, _, _) => id == i
    case CoreExit(id) => id == i
    case ProposeEarly(id, _, _) => id == i
    case ClaimEarlyBond(id) => id == i
    case ClaimLP(id, _) => id == i
    case Claim(id) => id == i
    case ClaimCore(id) => id == i
    case _ => false
  }

  /** The account lost nothing: money, market tokens, stake, rewards or bonds owed. */
  ghost predicate NothingTaken(a: Account, c: Account) {
    && c.wallet >= a.wallet && c.g + c.lp >= a.g + a.lp && c.yes == a.yes && c.no == a.no
    && c.coreStake == a.coreStake && c.coreSide == a.coreSide && c.bondRefund >= a.bondRefund
    && (forall o :: c.coreRewards.At(o) >= a.coreRewards.At(o))
  }

  ghost predicate SparesAll(xs: seq<Account>, ys: seq<Account>) {
    |ys| == |xs| && forall i :: 0 <= i < |xs| ==> NothingTaken(xs[i], ys[i])
  }

  lemma DistributeSpares(f: Functions, s: State)
    requires s.creatorFees >= 0.0
    ensures SparesAll(s.accounts, DistributeOfficialFees(s).accounts)
  {
    var t := DistributeCreator(s);
    forall i | 0 <= i < |s.accounts| ensures NothingTaken(s.accounts[i], t.accounts[i]) {}
    forall i | 0 <= i < |s.accounts| ensures NothingTaken(t.accounts[i], DistributeProtocol(t).accounts[i]) {}
  }

  lemma ProcessSpares(f: Functions, s: State)
    requires Inv(f, s) && ProcessFault(s).None?
    ensures SparesAll(s.accounts, ProcessedEarly(s).accounts)
  {
    hide SettledClaims, DistributeOfficialFees, Nav, LmsrCash, Sum;
    var t := Processed(s);
    assert t.creatorFees >= 0.0;
    DistributeSpares(f, SettleBooks(t));
  }

  lemma SettleSpares(f: Functions, s: State)
    requires Inv(f, s)
    ensures SparesAll(s.accounts, Settle(s).accounts)
  {
    hide SettledClaims, DistributeOfficialFees, LmsrCash, Sum;
    DistributeSpares(f, SettleBooks(s));
  }

  lemma TimeSpares(f: Functions, s: State, to_: real)
    requires Inv(f, s)
    ensures SparesAll(s.accounts, Advanced(s, to_).accounts)
  {
    hide DistributeOfficialFees, LmsrCash, Sum, OnCurve;
    var t := s.(now := to_);
    DistributeSpares(f, t.(phase := FAILED, R := 0.0,
      claims := t.claims.(failedBudget := t.R, failedBudgetInitial := t.R, failedSupply := t.S)));
  }

  lemma GraduateSpares(s: State)
    requires forall i :: 0 <= i < |s.accounts| ==> s.accounts[i].lp == 0.0
    ensures SparesAll(s.accounts, Graduate(s).accounts)
  {}

  lemma AccrueSpares(s: State, amount: real)
    requires AllGood(s.accounts) && s.core.yes >= 0.0 && s.core.no >= 0.0 && amount >= 0.0
    ensures SparesAll(s.accounts, AccrueCoreFee(s, amount).accounts)
  {
    hide EarnedInAll, GoodAccount;
    forall i | 0 <= i < |s.accounts| ensures NothingTaken(s.accounts[i], AccrueCoreFee(s, amount).accounts[i]) {
      EarnedSpares(s.core, amount, s.accounts[i]);
    }
  }

  lemma EarnedSpares(c: Core, amount: real, a: Account)
    requires GoodAccount(a) && c.yes >= 0.0 && c.no >= 0.0 && amount >= 0.0
    ensures NothingTaken(a, EarnedInAll(c, amount, a))
  {
    hide EarnedInAll;
    EarnedOne(c, amount, a);
    forall o ensures Share(c, o, amount, a) >= 0.0 {
      ShareIsProRata(c, o, amount, a);
    }
  }

  lemma GenesisSpares(f: Functions, s: State, a: Action, i: int)
    requires Lawful(f) && Inv(f, s) && Guard(f, s, a).None? && s.Has(i) && !ActsFor(a, i)
    requires a.Buy? || a.Sell?
    ensures NothingTaken(s.accounts[i], Effect(f, s, a).accounts[i])
  {
    hide QuoteBuy, QuoteSell, Graduate, LmsrCash, Sum;
    if a.Buy? {
      var t := Bought(s, a.id, QuoteBuy(f, s, a.paid).value);
      GraduateSpares(t);
    } else {
      var t := Sold(s, a.id, QuoteSell(s, a.tokens).value);
      GraduateSpares(t);
    }
  }

  lemma FormalBuySpares(f: Functions, s: State, id: int, side: Outcome, tokens: real, i: int)
    requires Lawful(f) && Inv(f, s) && FormalBuyFault(f, s, id, side, tokens).None? && s.Has(i) && i != id
    ensures NothingTaken(s.accounts[i], FormalBought(s, id, side, QuoteFormalBuy(f, s, side, tokens).value).accounts[i])
  {
    hide Cost, CurveDelta, Sum, LmsrCash, GoodAccount, EarnedInAll, QuoteFormalBuy;
    TradeQuoted(f, s, side, tokens);
    GoodAt(s.accounts, i);
    EarnedSpares(s.core, QuoteFormalBuy(f, s, side, tokens).value.coreFee, s.accounts[i]);
  }

  lemma FormalSellSpares(f: Functions, s: State, id: int, side: Outcome, tokens: real, i: int)
    requires Lawful(f) && Inv(f, s) && FormalSellFault(f, s, id, side, tokens).None? && s.Has(i) && i != id
    ensures NothingTaken(s.accounts[i], FormalSold(s, id, side, QuoteFormalSell(f, s, side, tokens).value).accounts[i])
  {
    hide Cost, CurveDelta, Sum, LmsrCash, GoodAccount, EarnedInAll, QuoteFormalSell;
    TradeQuoted(f, s, side, tokens);
    GoodAt(s.accounts, i);
    EarnedSpares(s.core, QuoteFormalSell(f, s, side, tokens).value.coreFee, s.accounts[i]);
  }

  /** Formal quotes charge no negative Core fee. */
  lemma TradeQuoted(f: Functions, s: State, side: Outcome, tokens: real)
    requires Lawful(f) && Inv(f, s) && s.Trading()
    ensures s.core.yes >= 0.0 && s.core.no >= 0.0
    ensures QuoteFormalBuy(f, s, side, tokens).Ok? ==> QuoteFormalBuy(f, s, side, tokens).value.coreFee >= 0.0
    ensures QuoteFormalSell(f, s, side, tokens).Ok? ==> QuoteFormalSell(f, s, side, tokens).value.coreFee >= 0.0
  {
    hide CurveDelta, Sum, LmsrCash;
    SumsNonNegative(s.accounts);
  }

  /** Actions that write one account's record, or an LP transfer. */
  predicate WritesOwn(a: Action) {
    a.Open? || a.RedeemPairs? || a.CoreStake? || a.CoreExit? || a.ProposeEarly? || a.ClaimEarlyBond?
    || a.ClaimLP? || a.Claim? || a.ClaimCore? || a.TransferLP?
  }

  lemma OwnSpares(f: Functions, s: State, a: Action, i: int)
    requires Guard(f, s, a).None? && s.Has(i) && !ActsFor(a, i) && WritesOwn(a)
    ensures NothingTaken(s.accounts[i], Effect(f, s, a).accounts[i])
  {
    hide LedgerFault, ExitPenalty, Nav, ProRata, Sum, CoreOpenFault, PayFault;
  }

  lemma EffectSpares(f: Functions, s: State, a: Action, i: int)
    requires Lawful(f) && Inv(f, s) && Guard(f, s, a).None? && s.Has(i) && !ActsFor(a, i)
    ensures |Effect(f, s, a).accounts| == |s.accounts| && NothingTaken(s.accounts[i], Effect(f, s, a).accounts[i])
  {
    hide BuyFault, SellFault, FormalBuyFault, FormalSellFault, TransferFault, RedeemFault, StakeFault, ExitFault,
      ProposeFault, ProcessFault, BondFault, FinalizeFault, ClaimLPFault, ClaimFault, ClaimCoreFault,
      ClaimOfficialFault, ClaimFeesFault, Settle, ProcessedEarly, Advanced, FormalBought, FormalSold, Bought, Sold,
      Graduate, Inv, NothingTaken;
    TermsKept(f, s, a);
    if WritesOwn(a) {
      OwnSpares(f, s, a, i);
    } else {
      match a {
        case Buy(_, _) => GenesisSpares(f, s, a, i);
        case Sell(_, _) => GenesisSpares(f, s, a, i);
        case FormalBuy(id, side, tokens) => FormalBuySpares(f, s, id, side, tokens, i);
        case FormalSell(id, side, tokens) => FormalSellSpares(f, s, id, side, tokens, i);
        case ProcessEarly => ProcessSpares(f, s);
        case Finalize => FinalizeSpares(f, s);
        case AdvanceTime(to_) => TimeSpares(f, s, to_);
        case ClaimCoreOfficial(_) => OfficialSpares(f, s, a, i);
        case ClaimFees(_, _) => OfficialSpares(f, s, a, i);
      }
    }
  }

  lemma FinalizeSpares(f: Functions, s: State)
    requires Inv(f, s) && FinalizeFault(s).None?
    ensures SparesAll(s.accounts, Effect(f, s, Finalize).accounts)
  {
    hide Settle, ProcessedEarly, Inv, ProcessFault, Nav, SparesAll;
    if s.early.pending.Some? {
      ProcessSpares(f, s);
    } else {
      SettleSpares(f, s);
    }
  }

  lemma OfficialSpares(f: Functions, s: State, a: Action, i: int)
    requires Guard(f, s, a).None? && s.Has(i) && (a.ClaimCoreOfficial? || a.ClaimFees?)
    ensures NothingTaken(s.accounts[i], Effect(f, s, a).accounts[i])
  {
    hide Sum;
    match a {
      case ClaimFees(kind, id) => FeesSpare(s, kind, id, i);
      case _ =>
    }
  }

  lemma FeesSpare(s: State, kind: FeeKind, id: int, i: int)
    requires ClaimFeesFault(s, kind, id).None? && s.Has(i)
    ensures NothingTaken(s.accounts[i], FeesPaid(s, kind, id).accounts[i])
  {}

  /** Whatever the others do, in any number and order of actions, an account that does not act
      itself never loses money, tokens, stake, rewards or a bond it is owed. */
  lemma {:induction false} BystanderKeepsAll(f: Functions, s: State, acts: seq<Action>, i: int)
    requires Lawful(f) && Inv(f, s) && s.Has(i)
    requires forall a :: a in acts ==> !ActsFor(a, i)
    ensures Run(f, s, acts).Has(i) && NothingTaken(s.accounts[i], Run(f, s, acts).accounts[i])
    decreases |acts|
  {
    hide Inv, Guard, Effect, LedgerFault;
    if acts != [] {
      assert acts[0] in acts;
      var t := After(f, s, acts[0]);
      if Guard(f, s, acts[0]).None? {
        EffectSpares(f, s, acts[0], i);
      }
      StepSafe(f, s, acts[0]);
      BystanderKeepsAll(f, t, acts[1..], i);
    }
  }

  // ---- where a trade's money goes ----

  /** The parts of a trade's gross amount that leave the curve. */
  datatype Tariff = Tariff(creator: real, protocol: real, lp: real, core: real) {
    function Whole(): real { creator + protocol + lp + core }
  }

  const GENESIS_TARIFF := Tariff(0.007, 0.003, 0.0, 0.0)
  const FORMAL_TARIFF := Tariff(0.0, 0.003, 0.01, 0.007)

  predicate Trades(a: Action) {
    a.Buy? || a.Sell? || a.FormalBuy? || a.FormalSell?
  }

  function TariffOf(a: Action): Tariff {
    if a.Buy? || a.Sell? then GENESIS_TARIFF else FORMAL_TARIFF
  }

  function Curve(s: State): real {
    s.R + s.pool.cash
  }

  /** What a trade is worth before fees: what a buyer pays, or what a sale takes from the curve. */
  function Worth(s: State, t: State, a: Action): real
    requires Trades(a) && s.Has(a.id) && t.Has(a.id)
  {
    if a.Buy? || a.FormalBuy? then s.accounts[a.id].wallet - t.accounts[a.id].wallet else Curve(s) - Curve(t)
  }

  /** The rest, after fees, reaches the curve or the seller. */
  ghost predicate NetArrives(s: State, t: State, a: Action)
    requires Trades(a) && s.Has(a.id) && t.Has(a.id)
  {
    var net := (1.0 - TariffOf(a).Whole()) * Worth(s, t, a);
    if a.Buy? || a.FormalBuy? then Curve(t) == Curve(s) + net
    else t.accounts[a.id].wallet == s.accounts[a.id].wallet + net
  }

  /** Every bucket but those of the tariff and the curve is as it was. */
  ghost predicate OtherBucketsKept(s: State, t: State) {
    && t.claims == s.claims && t.early == s.early && t.pool.collateral == s.pool.collateral
    && t.core.cash == s.core.cash && t.core.Total() == s.core.Total() && t.initialCapital == s.initialCapital
  }

  /** An account of somebody else: Genesis tokens may have become LP tokens, fees may have been earned. */
  ghost predicate Untouched(a: Account, c: Account) {
    c == a.(g := c.g, lp := c.lp, coreRewards := c.coreRewards) && c.g + c.lp == a.g + a.lp
  }

  predicate SameTokens(a: Account, c: Account) {
    a.g == c.g && a.lp == c.lp && a.yes == c.yes && a.no == c.no
  }

  /** The trader's own account changes in money and in the tokens traded. */
  ghost predicate TradedOnly(a: Action, o: Account, n: Account) {
    && o.coreStake == n.coreStake && o.coreSide == n.coreSide && o.bondRefund == n.bondRefund
    && match a
       case FormalBuy(_, side, tokens) => SameTokens(n, o.AddSide(side, tokens))
       case FormalSell(_, side, tokens) => SameTokens(n, o.AddSide(side, -tokens))
       case Sell(_, tokens) => n.g + n.lp == o.g + o.lp - tokens && n.yes == o.yes && n.no == o.no
       case _ => n.yes == o.yes && n.no == o.no
  }

  /** Money moved by a trade, all of it: who paid or received, every bucket, every other account. */
  ghost predicate Moved(s: State, t: State, a: Action) {
    && Trades(a) && s.Has(a.id) && t.Has(a.id) && |t.accounts| == |s.accounts|
    && NetArrives(s, t, a) && OtherBucketsKept(s, t)
    && t.creatorFees == s.creatorFees + TariffOf(a).creator * Worth(s, t, a)
    && t.protocolFees == s.protocolFees + TariffOf(a).protocol * Worth(s, t, a)
    && t.pool.lpFees == s.pool.lpFees + TariffOf(a).lp * Worth(s, t, a)
    && t.pool.lpFeesEarned == s.pool.lpFeesEarned + TariffOf(a).lp * Worth(s, t, a)
    && t.pool.formalVolume == s.pool.formalVolume + (if a.Buy? || a.Sell? then 0.0 else Worth(s, t, a))
    && t.core.fees == s.core.fees + TariffOf(a).core * Worth(s, t, a)
    && TradedOnly(a, s.accounts[a.id], t.accounts[a.id])
    && forall j :: 0 <= j < |s.accounts| && j != a.id ==> Untouched(s.accounts[j], t.accounts[j])
  }

  lemma BoughtMoves(s: State, id: int, q: Quote)
    requires s.Has(id) && q.R == 0.99 * q.gross
    ensures Moved(s, Bought(s, id, q), Buy(id, q.gross))
  {}

  lemma SoldMoves(s: State, id: int, q: Quote)
    requires s.Has(id) && q.net == 0.99 * q.gross
    ensures Moved(s, Sold(s, id, q), Sell(id, q.quantity))
  {}

  /** Graduation turns the reserve into pool cash and Genesis tokens into LP tokens, one for one. */
  lemma GraduationMoves(s: State, u: State, a: Action)
    requires Moved(s, u, a) && u.pool.cash == 0.0 && u.pool.collateral == 0.0 && (a.Buy? || a.Sell?)
    requires forall i :: 0 <= i < |u.accounts| ==> u.accounts[i].lp == 0.0
    ensures Moved(s, Graduate(u), a)
  {
    if u.R >= u.rTarget {
      var t := Graduate(u);
      assert t.accounts[a.id] == Graduated(u.accounts[a.id]);
      assert Curve(t) == Curve(u) && Worth(s, t, a) == Worth(s, u, a);
      forall j | 0 <= j < |s.accounts| && j != a.id ensures Untouched(s.accounts[j], t.accounts[j]) {
        assert t.accounts[j] == Graduated(u.accounts[j]);
      }
    }
  }

  lemma GenesisMoves(f: Functions, s: State, a: Action)
    requires Inv(f, s) && Guard(f, s, a).None? && (a.Buy? || a.Sell?)
    ensures Moved(s, Effect(f, s, a), a)
    ensures forall j :: 0 <= j < |s.accounts| ==> Effect(f, s, a).accounts[j].coreRewards == s.accounts[j].coreRewards
    ensures Effect(f, s, a).core.officialRewards == s.core.officialRewards
  {
    hide Sum, OnCurve, Moved, AllGood;
    if a.Buy? {
      var q := QuoteBuy(f, s, a.paid).value;
      BoughtMoves(s, a.id, q);
      GraduationMoves(s, Bought(s, a.id, q), a);
    } else {
      var q := QuoteSell(s, a.tokens).value;
      SoldMoves(s, a.id, q);
      GraduationMoves(s, Sold(s, a.id, q), a);
    }
  }

  lemma AccrualAll(s: State, amount: real)
    ensures var t := AccrueCoreFee(s, amount);
      && |t.accounts| == |s.accounts|
      && forall i :: 0 <= i < |s.accounts| ==>
           t.accounts[i] == s.accounts[i].(coreRewards := t.accounts[i].coreRewards)
  {
    hide EarnedInAll;
    var t := AccrueCoreFee(s, amount);
    forall i | 0 <= i < |s.accounts|
      ensures t.accounts[i] == s.accounts[i].(coreRewards := t.accounts[i].coreRewards)
    {
      EarnedRewardsOnly(s.core, amount, s.accounts[i]);
    }
  }

  lemma EarnedRewardsOnly(c: Core, amount: real, a: Account)
    ensures EarnedInAll(c, amount, a) == a.(coreRewards := EarnedInAll(c, amount, a).coreRewards)
  {
    hide ProRata;
  }

  ghost predicate FormalParts(q: Quote) {
    q.net == 0.98 * q.gross && FormalFees(q)
  }

  lemma FormalBoughtMoves(s: State, id: int, side: Outcome, q: Quote)
    requires s.Has(id) && FormalParts(q)
    ensures Moved(s, FormalBought(s, id, side, q), FormalBuy(id, side, q.quantity))
  {
    hide EarnAll, OfficialShare;
    AccrualAll(TradeBooks(Pay(s, id, q.gross), q, q.net), q.coreFee);
  }

  lemma FormalSoldMoves(s: State, id: int, side: Outcome, q: Quote)
    requires s.Has(id) && FormalParts(q)
    ensures Moved(s, FormalSold(s, id, side, q), FormalSell(id, side, q.quantity))
  {
    hide AccrueCoreFee;
    var t := FormalSold(s, id, side, q);
    var u := TradeBooks(s.Put(id, s.accounts[id].AddSide(side, -q.quantity)), q, -q.gross);
    AccrualAll(u, q.coreFee);
    AccrualBuckets(u, q.coreFee);
    assert t.accounts[id].wallet == s.accounts[id].wallet + q.net;
    assert Worth(s, t, FormalSell(id, side, q.quantity)) == q.gross;
  }

  lemma AccrualBuckets(s: State, amount: real)
    ensures var t := AccrueCoreFee(s, amount);
      && t == s.(core := t.core, accounts := t.accounts)
      && t.core == s.core.(fees := s.core.fees + amount, feeTotal := t.core.feeTotal,
                           officialRewards := t.core.officialRewards)
  {
    hide OfficialShare, EarnAll;
  }

  lemma FormalMoves(f: Functions, s: State, a: Action)
    requires Guard(f, s, a).None? && (a.FormalBuy? || a.FormalSell?)
    ensures Moved(s, Effect(f, s, a), a)
  {
    hide Moved, CurveDelta, Sum;
    if a.FormalBuy? {
      FormalBoughtMoves(s, a.id, a.side, QuoteFormalBuy(f, s, a.side, a.tokens).value);
    } else {
      FormalSoldMoves(s, a.id, a.side, QuoteFormalSell(f, s, a.side, a.tokens).value);
    }
  }

  /** Everything set aside for outcome o: rewards of all accounts, official and forfeited. */
  function Conditional(s: State, o: Outcome): real {
    Sum(RewardFor(o), s.accounts) + s.core.officialRewards.At(o) + s.early.forfeited.At(o)
  }

  /** Every trade: its gross amount divides into net, creator, protocol, LP and Core parts by the tariff
      of its phase, whether or not it graduates the market; each of the three conditional ledgers takes
      the whole Core part; no other bucket and nobody else's money, tokens or stake moves. */
  lemma TradeMovesMoney(f: Functions, s: State, a: Action)
    requires Lawful(f) && Inv(f, s) && Guard(f, s, a).None? && Trades(a)
    ensures var t := Effect(f, s, a);
      && Moved(s, t, a)
      && forall o :: Conditional(t, o) == Conditional(s, o) + TariffOf(a).core * Worth(s, t, a)
  {
    hide Guard, Effect, Sum, NetArrives, TradedOnly, Untouched, Worth, LmsrCash;
    var t := Effect(f, s, a);
    if a.Buy? || a.Sell? {
      GenesisMoves(f, s, a);
      forall o ensures Conditional(t, o) == Conditional(s, o) {
        SumSame(RewardFor(o), s.accounts, RewardFor(o), t.accounts);
      }
    } else {
      FormalMoves(f, s, a);
      EffectKeeps(f, s, a);
      FormalTrading(f, s, a);
      forall o ensures Conditional(t, o) == Conditional(s, o) + (t.core.fees - s.core.fees) {
        assert FeeLedger(s, o) && FeeLedger(t, o);
      }
    }
  }

  lemma FormalTrading(f: Functions, s: State, a: Action)
    requires Guard(f, s, a).None? && (a.FormalBuy? || a.FormalSell?)
    ensures s.Trading() && Effect(f, s, a).phase == s.phase
  {
    hide QuoteFormalBuy, QuoteFormalSell, EarnAll;
  }
}
