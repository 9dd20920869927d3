/** The actions of the topic market as functions on its state. `Guard` gives the first error an
    action raises before its final ledger check, `Effect` the state it then builds, and `Apply`
    puts the two together with that check. */
module TopicMarket {
  import opened Maths
  import opened Wrappers
  import opened Sums
  import opened Accounts
  import opened Lmsr
  import opened Ledger
  import Text

  datatype FeeKind = CREATOR | PROTOCOL

  datatype Action =
    | Open
    | Buy(id: int, paid: real)
    | Sell(id: int, tokens: real)
    | FormalBuy(id: int, side: Outcome, tokens: real)
    | FormalSell(id: int, side: Outcome, tokens: real)
    | TransferLP(from: int, to: int, amount: real)
    | RedeemPairs(id: int, pairs: real)
    | CoreStake(id: int, side: Outcome, amount: real)
    | CoreExit(id: int)
    | ProposeEarly(id: int, side: Outcome, reason: Text.Units)
    | ProcessEarly
    | ClaimEarlyBond(id: int)
    | AdvanceTime(to_: real)
    | Finalize
    | ClaimLP(id: int, amount: real)
    | Claim(id: int)
    | ClaimCore(id: int)
    | ClaimCoreOfficial(id: int)
    | ClaimFees(kind: FeeKind, id: int)

  datatype Quote = Quote(quantity: real, gross: real, net: real, R: real, lpFee: real,
                         creatorFee: real, protocolFee: real, coreFee: real)

  /** (2^192 - 1) / 10^18 outcome tokens at most. */
  const MAX_OUTCOME_SUPPLY: real :=
    6277101735386680763835789423207666416102355444464034512895.0 / 1000000000000000000.0

  const WAD: real := 1000000000000000000.0

  // ---- creation ----

  datatype Config = Config(Q: real, k: real, b: real, TC: int, creatorAccount: int, protocolAccount: int)

  const MAX_SAFE_INTEGER: int := 9007199254740991

  function NewAccount(wallet: real): Account {
    Account(wallet, 0.0, 0.0, 0.0, 0.0, None, 0.0, ZERO, false, false, 0.0, 0.0, 0.0)
  }

  function CreateDemo(c: Config): Result<State, Error> {
    var TF, TG := c.TC - 3600, c.TC - 7200;
    if c.Q <= 0.0 || c.k <= 0.0 || c.b <= 0.0 || c.TC > MAX_SAFE_INTEGER || c.TC <= 14400 then Err(CONFIG)
    else if !(-1 <= c.creatorAccount < 3 && -1 <= c.protocolAccount < 3) then Err(ACCOUNT)
    else Ok(State(CREATE, 0.0, TG as real, TF as real, c.TC as real, c.k, 4.2 * c.Q, 0.0, 0.0, 0.0, 0.0,
                  Pool(0.0, 0.0, 0.0, 0.0, 0.0, 0.0, 0.0, c.b, 0.0, 0.0, 0.0, 0.0, false),
                  Core(None, 0.0, 0.0, 0.0, 0.0, 0.0, 0.0, ZERO, None),
                  Early(500.0, 0, None, 0.0, 0.0, ZERO, None), None, NO_CLAIMS,
                  [NewAccount(10000.0), NewAccount(10000.0), NewAccount(10000.0)],
                  c.creatorAccount, c.protocolAccount, 30000.0))
  }

  // ---- quotes ----

  function QuoteBuy(f: Functions, s: State, paid: real): Result<Quote, Error> {
    if paid <= 0.0 || s.k == 0.0 then Err(AMOUNT)
    else
      var quantity := f.sqrt((s.R + 0.99 * paid) / s.k) - s.S;
      Ok(Quote(quantity, paid, 0.99 * paid, 0.99 * paid, 0.0, 0.007 * paid, 0.003 * paid, 0.0))
  }

  function QuoteSell(s: State, tokens: real): Result<Quote, Error> {
    if tokens <= 0.0 || tokens > s.S then Err(HOLDINGS)
    else
      var gross := if tokens == s.S then s.R else s.k * tokens * (2.0 * s.S - tokens);
      Ok(Quote(tokens, gross, 0.99 * gross, -gross, 0.0, 0.007 * gross, 0.003 * gross, 0.0))
  }

  function QuoteFormalBuy(f: Functions, s: State, side: Outcome, tokens: real): Result<Quote, Error> {
    if side == INVALID then Err(SIDE)
    else if tokens <= 0.0 || s.pool.b <= 0.0 then Err(AMOUNT)
    else
      var own, other := s.Supply(side), s.Yes() + s.No() - s.Supply(side);
      if tokens > MAX_OUTCOME_SUPPLY - own then Err(SUPPLY_LIMIT)
      else
        var net := Max(0.0, CurveDelta(f, own, other, tokens, s.pool.b));
        if net <= 0.0 then Err(TINY)
        else
          var gross := net / 0.98;
          Ok(Quote(tokens, gross, net, 0.0, 0.01 * gross, 0.0, 0.003 * gross, 0.007 * gross))
  }

  function QuoteFormalSell(f: Functions, s: State, side: Outcome, tokens: real): Result<Quote, Error> {
    if side == INVALID then Err(SIDE)
    else if tokens <= 0.0 || s.pool.b <= 0.0 || s.pool.liquidityClosed then Err(CAPACITY)
    else
      var own, other := s.Supply(side), s.Yes() + s.No() - s.Supply(side);
      if tokens > own then Err(HOLDINGS)
      else
        var gross := Max(0.0, CurveDelta(f, own - tokens, other, tokens, s.pool.b));
        if gross <= 0.0 then Err(TINY)
        else if gross > s.pool.cash then Err(CASH)
        else Ok(Quote(tokens, gross, 0.98 * gross, 0.0, 0.01 * gross, 0.0, 0.003 * gross, 0.007 * gross))
  }

  // ---- shared steps ----

  /** What `pay` raises. */
  function PayFault(s: State, id: int, amount: real): Option<Error> {
    if !s.Has(id) then Some(ACCOUNT)
    else if amount <= 0.0 || amount > s.accounts[id].wallet then Some(BALANCE)
    else None
  }

  function Pay(s: State, id: int, amount: real): State
    requires s.Has(id)
  {
    s.Put(id, s.accounts[id].Paying(amount))
  }

  function AccrueGenesis(s: State, gross: real): State {
    s.(creatorFees := s.creatorFees + 0.007 * gross, protocolFees := s.protocolFees + 0.003 * gross)
  }

  /** One account's share of `amount` in the ledger of outcome `o`. */
  function Earned(c: Core, o: Outcome, amount: real, a: Account): Account {
    if a.Earns(o) && c.Base(o) != 0.0
    then a.(coreRewards := a.coreRewards.With(o, a.coreRewards.At(o) + ProRata(amount, a.coreStake, c.Base(o))))
    else a
  }

  function EarnedInAll(c: Core, amount: real, a: Account): Account {
    Earned(c, INVALID, amount, Earned(c, NO, amount, Earned(c, YES, amount, a)))
  }

  function EarnAll(c: Core, amount: real, xs: seq<Account>): (ys: seq<Account>)
    ensures |ys| == |xs|
    ensures forall i :: 0 <= i < |xs| ==> ys[i] == EarnedInAll(c, amount, xs[i])
  {
    if xs == [] then [] else [EarnedInAll(c, amount, xs[0])] + EarnAll(c, amount, xs[1..])
  }

  /** What goes to the official recipient because nobody can earn it. */
  function OfficialShare(c: Core, amount: real): Trio {
    Trio(if c.Base(YES) == 0.0 then amount else 0.0,
         if c.Base(NO) == 0.0 then amount else 0.0,
         if c.Base(INVALID) == 0.0 then amount else 0.0)
  }

  /** A Formal fee enters all three conditional ledgers; only one of them is ever paid out. */
  function AccrueCoreFee(s: State, amount: real): State {
    s.(core := s.core.(fees := s.core.fees + amount, feeTotal := s.core.feeTotal + amount,
                       officialRewards := s.core.officialRewards.Plus(OfficialShare(s.core, amount))),
       accounts := EarnAll(s.core, amount, s.accounts))
  }

  function Graduated(a: Account): Account {
    a.(lp := a.g, g := 0.0)
  }

  function Graduate(s: State): State {
    if s.R < s.rTarget then s
    else s.(phase := FORMAL, R := 0.0,
            pool := s.pool.(M0 := s.R, b := s.R, collateral := 0.0, cash := s.R, basis := s.R,
                            lpSupply := s.S, inventoryYes := 0.0, inventoryNo := 0.0),
            accounts := Map(Graduated, s.accounts),
            core := s.core.(openedAt := Some(s.now)))
  }

  function DistributeCreator(s: State): State {
    if s.protocolAccount >= 0 && s.Has(s.creatorAccount) && s.creatorFees > 0.0
    then s.Receive(s.creatorAccount, s.creatorFees).(creatorFees := 0.0)
    else s
  }

  function DistributeProtocol(s: State): State {
    if s.protocolAccount >= 0 && s.Has(s.protocolAccount) then
      var n := s.protocolFees + s.claims.coreOfficialBudget;
      var t := s.(protocolFees := 0.0, claims := s.claims.(coreOfficialBudget := 0.0));
      if n > 0.0 then t.Receive(s.protocolAccount, n) else t
    else s
  }

  function DistributeOfficialFees(s: State): State {
    DistributeProtocol(DistributeCreator(s))
  }

  // ---- settlement ----

  /** Penalties and failed bonds, which go to the winning stake. */
  function Penalties(s: State): real {
    s.early.penalty + s.early.failedBonds
  }

  /** Share of the stakes, penalties and failed bonds. */
  function PrincipalShare(s: State, o: Outcome, a: Account): real {
    var pot := s.core.cash + Penalties(s);
    if o == INVALID then (if s.core.Total() > 0.0 then ProRata(pot, a.coreStake, s.core.Total()) else 0.0)
    else if a.StakedOn(o) && s.core.Base(o) != 0.0 then ProRata(pot, a.coreStake, s.core.Base(o))
    else 0.0
  }

  /** Share of the rewards that exits left behind. */
  function ForfeitShare(s: State, o: Outcome, a: Account): real {
    if a.Earns(o) && s.core.Base(o) > 0.0
    then ProRata(s.early.forfeited.At(o), a.coreStake, s.core.Base(o)) else 0.0
  }

  /** Core payout of one account: principal share, own conditional rewards, forfeited share. */
  function CorePayout(s: State, o: Outcome, a: Account): real {
    PrincipalShare(s, o, a) + a.coreRewards.At(o) + ForfeitShare(s, o, a)
  }

  function CorePayouts(s: State, o: Outcome, xs: seq<Account>): (ps: seq<real>)
    ensures |ps| == |xs|
    ensures forall i :: 0 <= i < |xs| ==> ps[i] == CorePayout(s, o, xs[i])
  {
    if xs == [] then [] else [CorePayout(s, o, xs[0])] + CorePayouts(s, o, xs[1..])
  }

  function SumReal(xs: seq<real>): real {
    if xs == [] then 0.0 else xs[0] + SumReal(xs[1..])
  }

  /** What the official recipient gets from Core at settlement, before it is distributed. */
  function OfficialBudget(s: State, o: Outcome): real {
    s.core.officialRewards.At(o)
    + (if s.core.Base(o) == 0.0 then s.early.forfeited.At(o) else 0.0)
    + (if s.core.Total() == 0.0 then Penalties(s) else 0.0)
  }

  function Liability(s: State): real {
    OutcomeValue(s.Yes(), s.No(), s.core.Winner())
  }

  function Nav(s: State): real {
    s.pool.cash + s.pool.lpFees - Liability(s)
  }

  function SettledClaims(s: State): Claims {
    var o := s.core.Winner();
    var payouts := CorePayouts(s, o, s.accounts);
    s.claims.(outcomeBudget := Liability(s), lpBudget := Max(0.0, Nav(s)),
              lpBudgetInitial := Max(0.0, Nav(s)), lpClaimSupply := s.pool.lpSupply,
              corePayouts := payouts, coreBudget := SumReal(payouts),
              coreOfficialBudget := OfficialBudget(s, o))
  }

  /** Settlement before the fees are handed to the official accounts. */
  function SettleBooks(s: State): State {
    var o := s.core.Winner();
    s.(phase := SETTLED, result := Some(o), claims := SettledClaims(s),
       core := s.core.(result := Some(o), fees := 0.0, cash := 0.0),
       early := s.early.(penalty := 0.0, failedBonds := 0.0, forfeited := ZERO),
       pool := s.pool.(collateral := 0.0, cash := 0.0, lpFees := 0.0, inventoryYes := 0.0, inventoryNo := 0.0))
  }

  function Settle(s: State): State {
    DistributeOfficialFees(SettleBooks(s))
  }

  function Fail(s: State): State {
    DistributeOfficialFees(
      s.(phase := FAILED, R := 0.0,
         claims := s.claims.(failedBudget := s.R, failedBudgetInitial := s.R, failedSupply := s.S)))
  }

  /** The state ProcessEarly builds before it decides whether to settle. */
  function Processed(s: State): State
    requires s.early.pending.Some? && s.Has(s.early.pending.value.proposer)
  {
    var q := s.early.pending.value;
    if s.core.Winner() == q.side then
      var a := s.accounts[q.proposer];
      s.Put(q.proposer, a.(bondRefund := a.bondRefund + q.bond))
      .(early := s.early.(pending := None, terminatedAt := Some(q.processAfter)))
    else s.(early := s.early.(pending := None, failedBonds := s.early.failedBonds + q.bond))
  }

  predicate ProcessSettles(s: State)
    requires s.early.pending.Some?
  {
    s.core.Winner() == s.early.pending.value.side || s.now >= s.TC
  }

  // ---- guards ----

  function CoreOpenFault(s: State): Option<Error> {
    if !s.Trading() || s.now >= s.TC || s.core.openedAt.None? then Some(CORE_CLOSED)
    else if s.EarlyDue() then Some(PROCESS_EARLY_REQUEST)
    else None
  }

  function FormalFault(s: State): Option<Error> {
    if s.EarlyDue() then Some(PROCESS_EARLY_REQUEST)
    else if s.phase != FORMAL || s.now >= s.TF || s.pool.liquidityClosed then Some(FORMAL_CLOSED)
    else None
  }

  predicate GenesisOpen(s: State) {
    s.phase == GENESIS && s.now < s.TG
  }

  function ProcessFault(s: State): Option<Error> {
    if !s.Trading() then Some(CORE_CLOSED)
    else if s.early.pending.None? then Some(NO_EARLY_REQUEST)
    else if s.now < s.early.pending.value.processAfter then Some(EARLY_PENDING_WINDOW)
    else if !s.Has(s.early.pending.value.proposer) then Some(ACCOUNT)
    else if ProcessSettles(s) && Nav(Processed(s)) < 0.0 then Some(SETTLEMENT_INSOLVENT)
    else None
  }

  function ClaimLPFault(s: State, id: int, amount: real): Option<Error> {
    if !s.Has(id) then Some(ACCOUNT)
    else if s.phase != SETTLED || amount <= 0.0 || amount > s.accounts[id].lp || s.claims.lpClaimSupply <= 0.0
    then Some(CLAIM)
    else None
  }

  function FeeAmount(s: State, kind: FeeKind): real {
    if kind == CREATOR then s.creatorFees else s.protocolFees
  }

  function FeeOwner(s: State, kind: FeeKind): int {
    if kind == CREATOR then s.creatorAccount else s.protocolAccount
  }

  function BuyFault(f: Functions, s: State, id: int, paid: real): Option<Error> {
    if !GenesisOpen(s) then Some(GENESIS_CLOSED)
    else if QuoteBuy(f, s, paid).Err? then Some(QuoteBuy(f, s, paid).error)
    else PayFault(s, id, paid)
  }

  function SellFault(s: State, id: int, tokens: real): Option<Error> {
    if !GenesisOpen(s) then Some(GENESIS_CLOSED)
    else if !s.Has(id) then Some(ACCOUNT)
    else if tokens > s.accounts[id].g then Some(HOLDINGS)
    else if QuoteSell(s, tokens).Err? then Some(QuoteSell(s, tokens).error)
    else None
  }

  function FormalBuyFault(f: Functions, s: State, id: int, side: Outcome, tokens: real): Option<Error> {
    var q := QuoteFormalBuy(f, s, side, tokens);
    if FormalFault(s).Some? then FormalFault(s)
    else if q.Err? then Some(q.error)
    else PayFault(s, id, q.value.gross)
  }

  function FormalSellFault(f: Functions, s: State, id: int, side: Outcome, tokens: real): Option<Error> {
    var q := QuoteFormalSell(f, s, side, tokens);
    if FormalFault(s).Some? then FormalFault(s)
    else if side == INVALID then Some(SIDE)
    else if !s.Has(id) then Some(ACCOUNT)
    else if tokens > s.accounts[id].Held(side) then Some(HOLDINGS)
    else if q.Err? then Some(q.error)
    else None
  }

  function TransferFault(s: State, from: int, to: int, amount: real): Option<Error> {
    if !s.Has(from) || !s.Has(to) then Some(ACCOUNT)
    else if amount <= 0.0 || amount > s.accounts[from].lp || from == to then Some(HOLDINGS)
    else if !s.Trading() && s.phase != SETTLED then Some(PHASE)
    else None
  }

  function RedeemFault(s: State, id: int, pairs: real): Option<Error> {
    if s.EarlyDue() then Some(PROCESS_EARLY_REQUEST)
    else if !s.Trading() then Some(PHASE)
    else if pairs <= 0.0 then Some(AMOUNT)
    else if !s.Has(id) then Some(ACCOUNT)
    else if pairs > Min(s.accounts[id].yes, s.accounts[id].no) then Some(HOLDINGS)
    else if pairs > s.pool.cash then Some(CASH)
    else None
  }

  function StakeFault(s: State, id: int, side: Outcome, amount: real): Option<Error> {
    if CoreOpenFault(s).Some? then CoreOpenFault(s)
    else if !s.Has(id) then Some(ACCOUNT)
    else if s.accounts[id].coreSide.Some? && s.accounts[id].coreSide.value != side then Some(SIDE_LOCKED)
    else PayFault(s, id, amount)
  }

  function ExitFault(s: State, id: int): Option<Error> {
    if CoreOpenFault(s).Some? then CoreOpenFault(s)
    else if !s.Has(id) then Some(ACCOUNT)
    else if s.accounts[id].coreStake <= 0.0 || s.accounts[id].coreSide.None? then Some(NO_STAKE)
    else None
  }

  function ProposeFault(s: State, id: int, side: Outcome, reason: Text.Units): Option<Error> {
    if CoreOpenFault(s).Some? then CoreOpenFault(s)
    else if side == INVALID then Some(EARLY_OUTCOME)
    else if Text.Trim(reason) == [] then Some(MISSING_REASON)
    else if s.early.pending.Some? then Some(EARLY_PENDING)
    else if s.core.cash <= 0.0 then Some(NO_PRINCIPAL)
    else if s.now + 3600.0 >= s.TC then Some(EARLY_WINDOW)
    else PayFault(s, id, s.early.bond)
  }

  function BondFault(s: State, id: int): Option<Error> {
    if !s.Has(id) then Some(ACCOUNT)
    else if s.accounts[id].bondRefund <= 0.0 then Some(NO_BOND_REFUND)
    else None
  }

  function FinalizeFault(s: State): Option<Error> {
    if !s.Trading() || s.now < s.TC then Some(CORE_PENDING)
    else if s.early.pending.Some? then ProcessFault(s)
    else if Nav(s) < 0.0 then Some(SETTLEMENT_INSOLVENT)
    else None
  }

  function ClaimFault(f: Functions, s: State, id: int): Option<Error> {
    if !s.Has(id) then Some(ACCOUNT)
    else
      var a := s.accounts[id];
      if !s.Terminal() || a.lp + a.g + a.yes + a.no <= 0.0 then Some(CLAIM)
      else if a.lp > 0.0 && s.phase == SETTLED then
        if ClaimLPFault(s, id, a.lp).Some? then ClaimLPFault(s, id, a.lp)
        else LedgerFault(f, BurnLP(s, id, a.lp))
      else None
  }

  function ClaimCoreFault(s: State, id: int): Option<Error> {
    if !s.Has(id) then Some(ACCOUNT)
    else if s.phase != SETTLED || s.accounts[id].coreClaimed || id >= |s.claims.corePayouts| then Some(CORE_CLAIM)
    else None
  }

  function ClaimOfficialFault(s: State, id: int): Option<Error> {
    if s.phase != SETTLED || id != s.protocolAccount then Some(FEE_OWNER)
    else if s.claims.coreOfficialBudget <= 0.0 then Some(NO_FEES)
    else if !s.Has(id) then Some(ACCOUNT)
    else None
  }

  function ClaimFeesFault(s: State, kind: FeeKind, id: int): Option<Error> {
    if id != FeeOwner(s, kind) then Some(FEE_OWNER)
    else if FeeAmount(s, kind) <= 0.0 then Some(NO_FEES)
    else if !s.Has(id) then Some(ACCOUNT)
    else None
  }

  /** The first error an action raises before its final ledger check. */
  function Guard(f: Functions, s: State, a: Action): Option<Error> {
    match a
    case Open => if s.phase != CREATE then Some(PHASE) else None
    case Buy(id, paid) => BuyFault(f, s, id, paid)
    case Sell(id, tokens) => SellFault(s, id, tokens)
    case FormalBuy(id, side, tokens) => FormalBuyFault(f, s, id, side, tokens)
    case FormalSell(id, side, tokens) => FormalSellFault(f, s, id, side, tokens)
    case TransferLP(from, to, amount) => TransferFault(s, from, to, amount)
    case RedeemPairs(id, pairs) => RedeemFault(s, id, pairs)
    case CoreStake(id, side, amount) => StakeFault(s, id, side, amount)
    case CoreExit(id) => ExitFault(s, id)
    case ProposeEarly(id, side, reason) => ProposeFault(s, id, side, reason)
    case ProcessEarly => ProcessFault(s)
    case ClaimEarlyBond(id) => BondFault(s, id)
    case AdvanceTime(to_) => if to_ < s.now then Some(TIME) else None
    case Finalize => FinalizeFault(s)
    case ClaimLP(id, amount) => ClaimLPFault(s, id, amount)
    case Claim(id) => ClaimFault(f, s, id)
    case ClaimCore(id) => ClaimCoreFault(s, id)
    case ClaimCoreOfficial(id) => ClaimOfficialFault(s, id)
    case ClaimFees(kind, id) => ClaimFeesFault(s, kind, id)
  }

  // ---- effects ----

  function Bought(s: State, id: int, q: Quote): State
    requires s.Has(id)
  {
    var a := s.accounts[id].Paying(q.gross);
    AccrueGenesis(s.Put(id, a.(g := a.g + q.quantity)).(R := s.R + q.R, S := s.S + q.quantity), q.gross)
  }

  function Sold(s: State, id: int, q: Quote): State
    requires s.Has(id)
  {
    var a := s.accounts[id];
    AccrueGenesis(s.Put(id, a.(g := a.g - q.quantity).Receiving(q.net))
                  .(R := s.R - q.gross, S := s.S - q.quantity), q.gross)
  }

  /** The pool and fee buckets of a Formal trade that moves `cash` by `delta`. */
  function TradeBooks(s: State, q: Quote, delta: real): State {
    s.(pool := s.pool.(cash := s.pool.cash + delta, lpFees := s.pool.lpFees + q.lpFee,
                       lpFeesEarned := s.pool.lpFeesEarned + q.lpFee,
                       formalVolume := s.pool.formalVolume + q.gross),
       creatorFees := s.creatorFees + q.creatorFee, protocolFees := s.protocolFees + q.protocolFee)
  }

  function FormalBought(s: State, id: int, side: Outcome, q: Quote): State
    requires s.Has(id)
  {
    var t := AccrueCoreFee(TradeBooks(Pay(s, id, q.gross), q, q.net), q.coreFee);
    t.Put(id, t.accounts[id].AddSide(side, q.quantity))
  }

  function FormalSold(s: State, id: int, side: Outcome, q: Quote): State
    requires s.Has(id)
  {
    var u := s.Put(id, s.accounts[id].AddSide(side, -q.quantity));
    AccrueCoreFee(TradeBooks(u, q, -q.gross), q.coreFee).Receive(id, q.net)
  }

  function Transferred(s: State, from: int, to: int, amount: real): State
    requires s.Has(from) && s.Has(to) && from != to
  {
    var a, c := s.accounts[from], s.accounts[to];
    s.Put(from, a.(lp := a.lp - amount)).Put(to, c.(lp := c.lp + amount))
  }

  function Redeemed(s: State, id: int, pairs: real): State
    requires s.Has(id)
  {
    var a := s.accounts[id];
    s.Put(id, a.(yes := a.yes - pairs, no := a.no - pairs).Receiving(pairs))
    .(pool := s.pool.(cash := s.pool.cash - pairs, redeemedPairs := s.pool.redeemedPairs + pairs))
  }

  function Staked(s: State, id: int, side: Outcome, amount: real): State
    requires s.Has(id)
  {
    var a := s.accounts[id].Paying(amount);
    s.Put(id, a.(coreSide := Some(side), coreStake := a.coreStake + amount))
    .(core := s.core.AddStake(side, amount))
  }

  /** A tenth of the principal rounded up to 10^-18, and never more than the principal. */
  function ExitPenalty(principal: real): real {
    Min(principal, Ceil(principal * WAD / 10.0) as real / WAD)
  }

  function Exited(s: State, id: int): State
    requires s.Has(id) && s.accounts[id].coreSide.Some?
  {
    var a := s.accounts[id];
    var principal := a.coreStake;
    var penalty := ExitPenalty(principal);
    s.Put(id, a.(coreStake := 0.0, coreSide := None, coreClaimed := false, coreRewards := ZERO)
              .Receiving(principal - penalty))
    .(core := s.core.AddStake(a.coreSide.value, -principal),
      early := s.early.(penalty := s.early.penalty + penalty,
                        forfeited := s.early.forfeited.Plus(a.coreRewards)))
  }

  function Proposed(s: State, id: int, side: Outcome, reason: Text.Units): State
    requires s.Has(id)
  {
    var e := s.early;
    Pay(s, id, e.bond)
    .(early := e.(count := e.count + 1,
                  pending := Some(Request(e.count + 1, id, side, s.now, s.now + 3600.0, Text.Trim(reason), e.bond))))
  }

  function ProcessedEarly(s: State): State
    requires ProcessFault(s).None?
  {
    if ProcessSettles(s) then Settle(Processed(s)) else Processed(s)
  }

  function BondReturned(s: State, id: int): State
    requires s.Has(id)
  {
    var a := s.accounts[id];
    s.Put(id, a.(bondRefund := 0.0).Receiving(a.bondRefund))
  }

  function Advanced(s: State, to_: real): State {
    if s.phase == CREATE then s
    else
      var t := s.(now := to_);
      if s.phase == GENESIS && to_ >= s.TG then Fail(t)
      else if s.phase == FORMAL && to_ >= s.TF then t.(phase := WAIT_CORE)
      else t
  }

  function BurnLP(s: State, id: int, amount: real): State
    requires s.Has(id) && s.claims.lpClaimSupply > 0.0
  {
    var money := ProRata(s.claims.lpBudgetInitial, amount, s.claims.lpClaimSupply);
    var a := s.accounts[id];
    s.Put(id, a.(lp := a.lp - amount).Receiving(money))
    .(pool := s.pool.(lpSupply := s.pool.lpSupply - amount),
      claims := s.claims.(lpBudget := s.claims.lpBudget - money))
  }

  /** What the market (not Core) owes the account for everything but its LP tokens. */
  function OutcomeDue(s: State, a: Account): real {
    if s.phase == SETTLED && s.result.Some? then OutcomeValue(a.yes, a.no, s.result.value) else 0.0
  }

  function FailedDue(s: State, a: Account): real {
    if s.phase == FAILED && s.claims.failedSupply > 0.0
    then ProRata(s.claims.failedBudgetInitial, a.g, s.claims.failedSupply) else 0.0
  }

  function Claimed(s: State, id: int): State
    requires s.Has(id) && (s.accounts[id].lp > 0.0 && s.phase == SETTLED ==> s.claims.lpClaimSupply > 0.0)
  {
    var outcomes, failed := OutcomeDue(s, s.accounts[id]), FailedDue(s, s.accounts[id]);
    var t := if s.accounts[id].lp > 0.0 && s.phase == SETTLED then BurnLP(s, id, s.accounts[id].lp) else s;
    var a := t.accounts[id];
    t.Put(id, a.(g := 0.0, yes := 0.0, no := 0.0, claimed := true).Receiving(outcomes + failed))
    .(claims := t.claims.(outcomeBudget := t.claims.outcomeBudget - outcomes,
                          failedBudget := t.claims.failedBudget - failed),
      S := if t.phase == FAILED then t.S - a.g else t.S)
  }

  function CoreClaimed(s: State, id: int): State
    requires s.Has(id) && id < |s.claims.corePayouts|
  {
    var payout := s.claims.corePayouts[id];
    s.Put(id, s.accounts[id].(coreClaimed := true).Receiving(payout))
    .(claims := s.claims.(coreBudget := s.claims.coreBudget - payout))
  }

  function OfficialPaid(s: State, id: int): State
    requires s.Has(id)
  {
    s.Receive(id, s.claims.coreOfficialBudget).(claims := s.claims.(coreOfficialBudget := 0.0))
  }

  function FeesPaid(s: State, kind: FeeKind, id: int): State
    requires s.Has(id)
  {
    if kind == CREATOR then s.Receive(id, s.creatorFees).(creatorFees := 0.0)
    else s.Receive(id, s.protocolFees).(protocolFees := 0.0)
  }

  /** The state an unguarded action builds before the ledger check. */
  function Effect(f: Functions, s: State, a: Action): State
    requires Guard(f, s, a).None?
  {
    match a
    case Open => s.(phase := GENESIS)
    case Buy(id, paid) => Graduate(Bought(s, id, QuoteBuy(f, s, paid).value))
    case Sell(id, tokens) => Graduate(Sold(s, id, QuoteSell(s, tokens).value))
    case FormalBuy(id, side, tokens) => FormalBought(s, id, side, QuoteFormalBuy(f, s, side, tokens).value)
    case FormalSell(id, side, tokens) => FormalSold(s, id, side, QuoteFormalSell(f, s, side, tokens).value)
    case TransferLP(from, to, amount) => Transferred(s, from, to, amount)
    case RedeemPairs(id, pairs) => Redeemed(s, id, pairs)
    case CoreStake(id, side, amount) => Staked(s, id, side, amount)
    case CoreExit(id) => Exited(s, id)
    case ProposeEarly(id, side, reason) => Proposed(s, id, side, reason)
    case ProcessEarly => ProcessedEarly(s)
    case ClaimEarlyBond(id) => BondReturned(s, id)
    case AdvanceTime(to_) => Advanced(s, to_)
    case Finalize => if s.early.pending.Some? then ProcessedEarly(s) else Settle(s)
    case ClaimLP(id, amount) => BurnLP(s, id, amount)
    case Claim(id) => Claimed(s, id)
    case ClaimCore(id) => CoreClaimed(s, id)
    case ClaimCoreOfficial(id) => OfficialPaid(s, id)
    case ClaimFees(kind, id) => FeesPaid(s, kind, id)
  }

  function Apply(f: Functions, s: State, a: Action): Result<State, Error> {
    if Guard(f, s, a).Some? then Err(Guard(f, s, a).value)
    else if a.AdvanceTime? && s.phase == CREATE then Ok(s)
    else Checked(f, Effect(f, s, a))
  }
}
