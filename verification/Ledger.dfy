/** State of the topic market and the runtime guard that every action ends with. */
module Ledger {
  import opened Wrappers
  import opened Maths
  import opened Sums
  import opened Accounts
  import opened Lmsr
  import Text

  datatype Phase = CREATE | GENESIS | FORMAL | WAIT_CORE | FAILED | SETTLED

  /** The errors the source raises, by the text it raises them with. */
  datatype Error =
    | CONFIG | ACCOUNT | PHASE | GENESIS_CLOSED | CORE_CLOSED | PROCESS_EARLY_REQUEST
    | FORMAL_CLOSED | BALANCE | AMOUNT | HOLDINGS | SIDE | SUPPLY_LIMIT | TINY | CAPACITY | CASH
    | SIDE_LOCKED | NO_STAKE | EARLY_OUTCOME | MISSING_REASON | EARLY_PENDING | NO_PRINCIPAL
    | EARLY_WINDOW | NO_EARLY_REQUEST | EARLY_PENDING_WINDOW | NO_BOND_REFUND | TIME
    | CORE_PENDING | CLAIM | CORE_CLAIM | FEE_OWNER | NO_FEES | SETTLEMENT_INSOLVENT | NUMERIC
    | LEDGER | CURVE | LP_LEDGER | OUTCOME_LEDGER | SOLVENCY | LMSR_LEDGER
    | PRICE | ROUTE | ROUTE_LEDGER

  datatype Request = Request(id: nat, proposer: int, side: Outcome, proposedAt: real,
                             processAfter: real, reason: Text.Units, bond: real)

  datatype Early = Early(bond: real, count: nat, pending: Option<Request>, penalty: real,
                         failedBonds: real, forfeited: Trio, terminatedAt: Option<real>)

  datatype Core = Core(openedAt: Option<real>, yes: real, no: real, invalid: real, cash: real,
                       fees: real, feeTotal: real, officialRewards: Trio, result: Option<Outcome>)
  {
    function Total(): real { yes + no + invalid }

    /** The stake that shares the fees of outcome `o`; `bases` in the source. */
    function Base(o: Outcome): real {
      match o
      case YES => yes
      case NO => no
      case INVALID => yes + no
    }

    function AddStake(side: Outcome, amount: real): Core {
      match side
      case YES => this.(yes := yes + amount, cash := cash + amount)
      case NO => this.(no := no + amount, cash := cash + amount)
      case INVALID => this.(invalid := invalid + amount, cash := cash + amount)
    }

    /** Strict majority of the whole stake, else INVALID. */
    function Winner(): Outcome {
      if yes > Total() / 2.0 then YES else if no > Total() / 2.0 then NO else INVALID
    }
  }

  /** The Formal pool: LMSR cash and depth, LP supply, and the counters that travel with them. */
  datatype Pool = Pool(M0: real, collateral: real, cash: real, lpFees: real, lpFeesEarned: real,
                       formalVolume: real, basis: real, b: real, lpSupply: real,
                       inventoryYes: real, inventoryNo: real, redeemedPairs: real,
                       liquidityClosed: bool)

  /** Budgets fixed at settlement or failure, from which claims are paid. */
  datatype Claims = Claims(lpBudget: real, lpBudgetInitial: real, lpClaimSupply: real,
                           outcomeBudget: real, failedBudget: real, failedBudgetInitial: real,
                           failedSupply: real, coreBudget: real, coreOfficialBudget: real,
                           corePayouts: seq<real>)

  datatype State = State(
    phase: Phase, now: real, TG: real, TF: real, TC: real,
    k: real, rTarget: real, R: real, S: real,
    creatorFees: real, protocolFees: real,
    pool: Pool, core: Core, early: Early, result: Option<Outcome>, claims: Claims,
    accounts: seq<Account>,
    creatorAccount: int, protocolAccount: int, initialCapital: real)
  {
    function Yes(): real { Sum(YesTokens, accounts) }

    function No(): real { Sum(NoTokens, accounts) }

    function Supply(side: Outcome): real {
      if side == YES then Yes() else No()
    }

    predicate Has(id: int) { 0 <= id < |accounts| }

    function Put(id: int, a: Account): State
      requires Has(id)
    {
      this.(accounts := accounts[id := a])
    }

    function Receive(id: int, amount: real): State
      requires Has(id)
    {
      Put(id, accounts[id].Receiving(amount))
    }

    predicate EarlyDue() {
      early.pending.Some? && now >= early.pending.value.processAfter
    }

    predicate Trading() {
      phase == FORMAL || phase == WAIT_CORE
    }

    predicate Terminal() {
      phase == FAILED || phase == SETTLED
    }
  }

  const NO_CLAIMS := Claims(0.0, 0.0, 0.0, 0.0, 0.0, 0.0, 0.0, 0.0, 0.0, [])

  function OutcomeValue(y: real, n: real, o: Outcome): real {
    match o
    case YES => y
    case NO => n
    case INVALID => (y + n) / 2.0
  }

  // ---- accounting ----

  function PendingBond(e: Early): real {
    if e.pending.Some? then e.pending.value.bond else 0.0
  }

  function Reserves(s: State): real {
    PendingBond(s.early) + s.early.penalty + s.early.failedBonds + Sum(Refund, s.accounts)
    + s.R + s.pool.collateral + s.pool.cash + s.pool.lpFees + s.creatorFees + s.protocolFees
    + s.core.cash + s.core.fees + s.claims.coreOfficialBudget + s.claims.lpBudget
    + s.claims.outcomeBudget + s.claims.failedBudget + s.claims.coreBudget
  }

  /** All money in the market: every wallet and every reserve bucket. */
  function Total(s: State): real {
    Sum(Wallet, s.accounts) + Reserves(s)
  }

  predicate BalancesNonNegative(s: State) {
    && s.R >= 0.0 && s.pool.collateral >= 0.0 && s.pool.cash >= 0.0 && s.pool.lpFees >= 0.0
    && s.creatorFees >= 0.0 && s.protocolFees >= 0.0 && s.pool.basis >= 0.0 && s.pool.b >= 0.0
    && s.pool.lpSupply >= 0.0 && s.pool.redeemedPairs >= 0.0
    && s.pool.inventoryYes >= 0.0 && s.pool.inventoryNo >= 0.0
    && s.core.cash >= 0.0 && s.core.fees >= 0.0 && s.claims.coreOfficialBudget >= 0.0
    && s.claims.lpBudget >= 0.0 && s.claims.outcomeBudget >= 0.0 && s.claims.failedBudget >= 0.0
    && s.claims.coreBudget >= 0.0
    && forall i :: 0 <= i < |s.accounts| ==> BalanceNonNegative(s.accounts[i])
  }

  predicate BalanceNonNegative(a: Account) {
    a.wallet >= 0.0 && a.g >= 0.0 && a.lp >= 0.0 && a.yes >= 0.0 && a.no >= 0.0 && a.coreStake >= 0.0
  }

  /** The runtime guard: which error it raises, if any. */
  function LedgerFault(f: Functions, s: State): Option<Error> {
    if !BalancesNonNegative(s) || Total(s) != s.initialCapital then Some(LEDGER)
    else if s.phase == GENESIS && (Sum(GTokens, s.accounts) != s.S || s.R != s.k * s.S * s.S)
    then Some(CURVE)
    else if s.Trading() then
      if Sum(LpTokens, s.accounts) != s.pool.lpSupply then Some(LP_LEDGER)
      else if s.pool.inventoryYes != 0.0 || s.pool.inventoryNo != 0.0 || s.pool.collateral != 0.0
      then Some(OUTCOME_LEDGER)
      else if s.pool.cash < Max(s.Yes(), s.No()) then Some(SOLVENCY)
      else if s.pool.b <= 0.0 then Some(NUMERIC)
      else if s.pool.cash != s.pool.M0 + Cost(f, s.Yes(), s.No(), s.pool.b) - s.pool.b * Ln2(f)
      then Some(LMSR_LEDGER)
      else None
    else None
  }

  /** What every action does last: return the new state unless the guard raises. */
  function Checked(f: Functions, s: State): Result<State, Error> {
    var fault := LedgerFault(f, s);
    if fault.Some? then Err(fault.value) else Ok(s)
  }
}
