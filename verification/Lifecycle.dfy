/** The lifecycle demo market as functions on its state. */
module Lifecycle {
  import opened Maths
  import opened Wrappers
  import opened Sums
  import opened Accounts
  import opened Ledger
  import opened ExpLog
  import opened LifecycleCurve

  datatype Trader = Trader(wallet: real, shares: Pair, credit: real, reward: real, paid: real, received: real,
                           claimed: bool)

  datatype Payout = Payout(shares: real, capital: real, reward: real) {
    function Whole(): real { shares + capital + reward }
  }

  datatype Fees = Fees(core: real, capital: real, protocol: real) {
    function Whole(): real { core + capital + protocol }
  }

  datatype Market = Market(phase: Phase, b: Depth, now: real, deadline: real, q: Pair, R: real, T: real, L: real,
                           surplus: Option<real>, fees: Fees, accounts: seq<Trader>, result: Option<Outcome>,
                           payouts: Option<seq<Payout>>, externalCash: real)
  {
    predicate Has(id: int) { 0 <= id < |accounts| }

    function Put(id: int, a: Trader): Market
      requires Has(id)
    {
      this.(accounts := accounts[id := a])
    }

    predicate IsTrading() {
      (phase == GENESIS || phase == FORMAL) && now < deadline
    }
  }

  datatype Refusal =
    | DEPTH | WRONG_PHASE | CLOSED | BAD_AMOUNT | NO_BALANCE | SHARES | QUOTE_LIMIT | WRONG_TIME | CLAIMED
    | GRADUATION | MODEL_STATE

  datatype Mode = BUY | SELL

  datatype Preview = Preview(next: Market, actual: real, quantity: real, contribution: real, unused: real,
                             fee: real, graduated: bool)

  function WalletOf(a: Trader): real { a.wallet }
  function YesOf(a: Trader): real { a.shares.yes }
  function NoOf(a: Trader): real { a.shares.no }
  function CreditOf(a: Trader): real { a.credit }
  function RewardOf(a: Trader): real { a.reward }

  // ---- ledger ----

  const CAPITAL := 30000.0

  function Money(m: Market): real {
    Sum(WalletOf, m.accounts) + m.R + m.fees.Whole() + m.externalCash
  }

  predicate LedgerHolds(c: Curves, m: Market) {
    && Money(m) == CAPITAL && m.R >= 0.0 && m.T >= 0.0 && m.L >= 0.0 && m.externalCash >= 0.0
    && m.R == m.T + m.L
    && (m.phase == GENESIS ==> m.T == Potentials(c, m.q, m.b))
    && (m.phase == FORMAL ==> m.surplus.Some? && m.surplus.value >= 0.0 && m.R == Cost(c, m.q, m.b) + m.surplus.value)
  }

  // ---- creation ----

  const NEW_TRADER := Trader(10000.0, Pair(0.0, 0.0), 0.0, 0.0, 0.0, 0.0, false)

  function NewMarket(b: real): Result<Market, Refusal> {
    if b < 1.0 || b > 1000.0 then Err(DEPTH)
    else Ok(Market(CREATE, b, 0.0, 300.0, Pair(0.0, 0.0), 0.0, 0.0, 0.0, None, Fees(0.0, 0.0, 0.0),
                   [NEW_TRADER, NEW_TRADER, NEW_TRADER], None, None, 0.0))
  }

  // ---- fees and graduation ----

  function Rewarded(a: Trader, amount: real, Z: real): Trader
    requires Z > 0.0
  {
    a.(reward := a.reward + ProRata(amount, a.credit, Z))
  }

  /** A fifth of a Formal fee, shared in proportion to the capital contributed in Genesis. */
  function RewardAll(xs: seq<Trader>, amount: real, Z: real): (ys: seq<Trader>)
    requires Z > 0.0
    ensures |ys| == |xs| && forall i :: 0 <= i < |xs| ==> ys[i] == Rewarded(xs[i], amount, Z)
  {
    if xs == [] then [] else [Rewarded(xs[0], amount, Z)] + RewardAll(xs[1..], amount, Z)
  }

  function Charged(m: Market, fee: real, formal: bool): Result<Market, Refusal> {
    var Z := Sum(CreditOf, m.accounts);
    if !formal then Ok(m.(fees := m.fees.(protocol := m.fees.protocol + fee)))
    else if Z <= 0.0 then Err(MODEL_STATE)
    else
      Ok(m.(fees := Fees(m.fees.core + 0.7 * fee, m.fees.capital + 0.2 * fee, m.fees.protocol + 0.1 * fee),
            accounts := RewardAll(m.accounts, 0.2 * fee, Z)))
  }

  function Graduate(c: Curves, m: Market): Result<Market, Refusal> {
    if !Eligible(c, m.q, m.R, m.b) then Err(GRADUATION)
    else Ok(m.(surplus := Some(m.R - Cost(c, m.q, m.b)), phase := FORMAL, L := 0.0, T := m.R))
  }

  /** Bisection for the first amount at which the market graduates. */
  function Gate(test: real -> bool, lo: real, hi: real, n: nat): real
    decreases n
  {
    if n == 0 then hi
    else
      var mid := (lo + hi) / 2.0;
      if test(mid) then Gate(test, lo, mid, n - 1) else Gate(test, mid, hi, n - 1)
  }

  // ---- buying ----

  predicate BuyEligible(c: Curves, m: Market, side: Outcome, paid: real) {
    Eligible(c, BuyPoint(c, m.q, m.b, side, paid), m.R + 0.99 * paid, m.b)
  }

  /** The largest payment whose position is still protected, a hair below the edge. */
  function Probe(c: Curves, m: Market, amount: real): real {
    var protectedBudget := Max(0.0, (1.0 / SLOPE - Weight(c, m.q, m.b)) * SLOPE * m.b / 0.9);
    Min(amount, protectedBudget * (1.0 - 0.000000000001))
  }

  predicate BuyReaches(c: Curves, m: Market, side: Outcome, amount: real) {
    m.phase != FORMAL && Probe(c, m, amount) > 0.0 && BuyEligible(c, m, side, Probe(c, m, amount))
  }

  function BuyTest(c: Curves, m: Market, side: Outcome): real -> bool {
    paid => BuyEligible(c, m, side, paid)
  }

  /** What a buy order actually pays: all of it, or the part up to graduation. */
  function BuyStop(c: Curves, m: Market, side: Outcome, amount: real): real {
    if BuyReaches(c, m, side, amount)
    then Gate(BuyTest(c, m, side), 0.0, Probe(c, m, amount), 60)
    else amount
  }

  function BuyTarget(c: Curves, m: Market, side: Outcome, actual: real): Option<Pair> {
    if m.phase == FORMAL then QuantityAtCost(c, m.q, m.b, (Cost(c, m.q, m.b) + 0.99 * actual) / m.b, side)
    else Some(BuyPoint(c, m.q, m.b, side, actual))
  }

  function AddShares(a: Trader, side: Outcome, qty: real): Trader {
    a.(shares := a.shares.With(side, a.shares.At(side) + qty))
  }

  /** Nine tenths of a Genesis payment go to the curve and a tenth of that beside it as capital. */
  function Paid(m: Market, owner: int, side: Outcome, q: Pair, actual: real): Market
    requires m.Has(owner)
  {
    var contribution := if m.phase == FORMAL then 0.0 else 0.09 * actual;
    var a := AddShares(m.accounts[owner], side, q.At(side) - m.q.At(side));
    m.Put(owner, a.(wallet := a.wallet - actual, paid := a.paid + actual, credit := a.credit + contribution))
    .(q := q, R := m.R + 0.99 * actual,
      T := m.T + if m.phase == FORMAL then 0.99 * actual else 0.9 * actual, L := m.L + contribution)
  }

  function Bought(c: Curves, m: Market, owner: int, side: Outcome, amount: real): Result<Market, Refusal>
    requires m.Has(owner)
  {
    var actual := BuyStop(c, m, side, amount);
    var target := BuyTarget(c, m, side, actual);
    if amount > m.accounts[owner].wallet then Err(NO_BALANCE)
    else if target.None? || target.value.At(side) <= m.q.At(side) || actual > amount then Err(QUOTE_LIMIT)
    else
      match Charged(Paid(m, owner, side, target.value, actual), 0.01 * actual, m.phase == FORMAL)
      case Err(e) => Err(e)
      case Ok(n) => if BuyReaches(c, m, side, amount) then Graduate(c, n) else Ok(n)
  }

  // ---- selling ----

  predicate SellEligible(c: Curves, m: Market, side: Outcome, sold: real) {
    Eligible(c, SellPoint(m.q, side, sold), m.R - SellCash(c, m.q, m.b, side, sold), m.b)
  }

  predicate SellReaches(c: Curves, m: Market, side: Outcome, qty: real) {
    m.phase != FORMAL && SellEligible(c, m, side, qty)
  }

  function SellTest(c: Curves, m: Market, side: Outcome): real -> bool {
    sold => SellEligible(c, m, side, sold)
  }

  /** How much of a sale is done on the Genesis curve. */
  function SellStop(c: Curves, m: Market, side: Outcome, qty: real): real {
    if SellReaches(c, m, side, qty) then Gate(SellTest(c, m, side), 0.0, qty, 60) else qty
  }

  function Withdrawn(m: Market, cash: real, q: Pair): Market {
    m.(R := m.R - cash, T := m.T - cash, q := q)
  }

  /** Gross proceeds and the market after a sale, before the seller is paid. */
  function SoldOnFormal(c: Curves, m: Market, end: Pair): Result<(Market, real), Refusal> {
    var gross := Cost(c, m.q, m.b) - Cost(c, end, m.b);
    match Charged(Withdrawn(m, gross, end), 0.01 * gross, true)
    case Err(e) => Err(e)
    case Ok(n) => Ok((n, gross))
  }

  function SoldOnGenesis(c: Curves, m: Market, side: Outcome, qty: real): Result<(Market, real), Refusal> {
    var stop := SellStop(c, m, side, qty);
    var end, mid := SellPoint(m.q, side, qty), SellPoint(m.q, side, stop);
    var cash := SellCash(c, m.q, m.b, side, stop);
    if cash > m.T then Err(MODEL_STATE)
    else
      match Charged(Withdrawn(m, cash, mid), 0.01 * cash, false)
      case Err(e) => Err(e)
      case Ok(n) =>
        if !SellReaches(c, m, side, qty) then Ok((n, cash))
        else
          match Graduate(c, n)
          case Err(e) => Err(e)
          case Ok(g) =>
            var rest := Max(0.0, Cost(c, mid, m.b) - Cost(c, end, m.b));
            match Charged(Withdrawn(g, rest, end), 0.01 * rest, true)
            case Err(e) => Err(e)
            case Ok(h) => Ok((h, cash + rest))
  }

  function PaidOut(m: Market, owner: int, side: Outcome, qty: real, gross: real): Market
    requires m.Has(owner)
  {
    var a := m.accounts[owner];
    m.Put(owner, a.(shares := a.shares.With(side, Max(0.0, a.shares.At(side) - qty)),
                    wallet := a.wallet + 0.99 * gross, received := a.received + 0.99 * gross))
  }

  function Sold(c: Curves, m: Market, owner: int, side: Outcome, amount: real): Result<(Market, real), Refusal>
    requires m.Has(owner)
  {
    var qty := Min(amount, m.accounts[owner].shares.At(side));
    if amount > m.accounts[owner].shares.At(side) || qty <= 0.0 then Err(SHARES)
    else if m.phase == FORMAL then SoldOnFormal(c, m, SellPoint(m.q, side, qty))
    else SoldOnGenesis(c, m, side, qty)
  }

  // ---- trade ----

  function TradeFault(m: Market, owner: int, side: Outcome, amount: real): Option<Refusal> {
    if !m.IsTrading() then Some(CLOSED)
    else if !m.Has(owner) || amount <= 0.0 || side == INVALID then Some(BAD_AMOUNT)
    else None
  }

  /** The ledger check and the preview every trade ends with. */
  function Finished(c: Curves, m: Market, next: Market, actual: real, qty: real, contribution: real, unused: real)
    : Result<Preview, Refusal>
  {
    if !LedgerHolds(c, next) then Err(MODEL_STATE)
    else Ok(Preview(next, actual, qty, contribution, unused, next.fees.Whole() - m.fees.Whole(),
                    m.phase != FORMAL && next.phase == FORMAL))
  }

  function Trade(c: Curves, m: Market, owner: int, side: Outcome, mode: Mode, amount: real): Result<Preview, Refusal> {
    if TradeFault(m, owner, side, amount).Some? then Err(TradeFault(m, owner, side, amount).value)
    else if mode == BUY then
      match Bought(c, m, owner, side, amount)
      case Err(e) => Err(e)
      case Ok(n) =>
        var actual := BuyStop(c, m, side, amount);
        Finished(c, m, n, actual, n.q.At(side) - m.q.At(side), if m.phase == FORMAL then 0.0 else 0.09 * actual,
                 Max(0.0, amount - actual))
    else
      match Sold(c, m, owner, side, amount)
      case Err(e) => Err(e)
      case Ok(s) =>
        if !s.0.Has(owner) then Err(BAD_AMOUNT)
        else Finished(c, m, PaidOut(s.0, owner, side, amount, s.1), 0.99 * s.1, amount, 0.0, 0.0)
  }

  // ---- the end of the market ----

  function Debt(q: Pair, outcome: Option<Outcome>): real {
    match outcome
    case None => 0.0
    case Some(o) => OutcomeValue(q.yes, q.no, o)
  }

  function PayoutOf(m: Market, outcome: Option<Outcome>, a: Trader): Payout {
    var Q, Z, debt := m.q.yes + m.q.no, Sum(CreditOf, m.accounts), Debt(m.q, outcome);
    match outcome
    case None =>
      Payout(if Q > 0.0 then ProRata(m.T, a.shares.yes + a.shares.no, Q) else 0.0,
             if Z > 0.0 then ProRata(m.L, a.credit, Z) else 0.0, 0.0)
    case Some(o) =>
      Payout(OutcomeValue(a.shares.yes, a.shares.no, o),
             if Z > 0.0 then ProRata(Max(0.0, m.R - debt), a.credit, Z) else 0.0, a.reward)
  }

  function PayoutsOf(m: Market, outcome: Option<Outcome>, xs: seq<Trader>): (ps: seq<Payout>)
    ensures |ps| == |xs| && forall i :: 0 <= i < |xs| ==> ps[i] == PayoutOf(m, outcome, xs[i])
  {
    if xs == [] then [] else [PayoutOf(m, outcome, xs[0])] + PayoutsOf(m, outcome, xs[1..])
  }

  function TerminalPayouts(m: Market, outcome: Option<Outcome>): Result<seq<Payout>, Refusal> {
    if outcome.Some? && Debt(m.q, outcome) > m.R then Err(MODEL_STATE) else Ok(PayoutsOf(m, outcome, m.accounts))
  }

  function AdvanceTime(m: Market, seconds: real): Result<Market, Refusal> {
    if seconds < 0.0 then Err(WRONG_TIME)
    else if m.phase == CREATE then Ok(m)
    else
      var n := m.(now := m.now + seconds);
      if !(n.phase == GENESIS || n.phase == FORMAL) || n.now < n.deadline then Ok(n)
      else
        var closed := n.(now := n.deadline);
        if n.phase == FORMAL then Ok(closed.(phase := WAIT_CORE))
        else
          var failed := closed.(phase := FAILED);
          match TerminalPayouts(failed, None)
          case Err(e) => Err(e)
          case Ok(ps) => Ok(failed.(payouts := Some(ps)))
  }

  function PublishResult(m: Market, outcome: Outcome): Result<Market, Refusal> {
    if m.phase != WAIT_CORE then Err(WRONG_PHASE)
    else
      match TerminalPayouts(m, Some(outcome))
      case Err(e) => Err(e)
      case Ok(ps) => Ok(m.(result := Some(outcome), now := m.now + 30.0, payouts := Some(ps), phase := SETTLED))
  }

  function Claimed(m: Market, owner: int, p: Payout): Market
    requires m.Has(owner)
  {
    var a := m.accounts[owner];
    var n := m.Put(owner, a.(claimed := true, wallet := a.wallet + p.Whole(), received := a.received + p.Whole()));
    n.(T := if m.phase == FAILED then Max(0.0, m.T - p.shares) else Max(0.0, m.T - p.shares - p.capital),
       L := if m.phase == FAILED then Max(0.0, m.L - p.capital) else m.L,
       R := Max(0.0, m.R - p.shares - p.capital),
       fees := m.fees.(capital := Max(0.0, m.fees.capital - p.reward)))
  }

  function ClaimPayout(c: Curves, m: Market, owner: int): Result<Market, Refusal> {
    if !(m.phase == SETTLED || m.phase == FAILED) || m.payouts.None? || !m.Has(owner) || owner >= |m.payouts.value|
    then Err(WRONG_PHASE)
    else if m.accounts[owner].claimed then Err(CLAIMED)
    else
      var n := Claimed(m, owner, m.payouts.value[owner]);
      if !LedgerHolds(c, n) then Err(MODEL_STATE) else Ok(n)
  }

  // ---- actions ----

  datatype Move =
    | Create
    | Order(owner: int, side: Outcome, mode: Mode, amount: real)
    | Wait(seconds: real)
    | Publish(outcome: Outcome)
    | Collect(owner: int)

  function Step(c: Curves, m: Market, a: Move): Result<Market, Refusal> {
    match a
    case Create => if m.phase != CREATE then Err(WRONG_PHASE) else Ok(m.(phase := GENESIS))
    case Order(owner, side, mode, amount) =>
      (match Trade(c, m, owner, side, mode, amount)
       case Err(e) => Err(e)
       case Ok(p) => Ok(p.next))
    case Wait(seconds) => AdvanceTime(m, seconds)
    case Publish(outcome) => PublishResult(m, outcome)
    case Collect(owner) => ClaimPayout(c, m, owner)
  }
}
