/** Accounts of the topic market and sums over any number of them. */
module Accounts {
  import opened Sums
  import opened Wrappers

  datatype Outcome = YES | NO | INVALID

  /** One amount per outcome: the three conditional fee ledgers. */
  datatype Trio = Trio(yes: real, no: real, invalid: real) {
    function At(o: Outcome): real {
      match o
      case YES => yes
      case NO => no
      case INVALID => invalid
    }

    function With(o: Outcome, v: real): Trio {
      match o
      case YES => this.(yes := v)
      case NO => this.(no := v)
      case INVALID => this.(invalid := v)
    }

    function Plus(t: Trio): Trio {
      Trio(yes + t.yes, no + t.no, invalid + t.invalid)
    }
  }

  const ZERO := Trio(0.0, 0.0, 0.0)

  datatype Account = Account(
    wallet: real, g: real, lp: real, yes: real, no: real,
    coreSide: Option<Outcome>, coreStake: real, coreRewards: Trio,
    claimed: bool, coreClaimed: bool, paid: real, received: real, bondRefund: real)
  {
    function Paying(amount: real): Account {
      this.(wallet := wallet - amount, paid := paid + amount)
    }

    function Receiving(amount: real): Account {
      this.(wallet := wallet + amount, received := received + amount)
    }

    function AddSide(side: Outcome, amount: real): Account {
      if side == YES then this.(yes := yes + amount) else this.(no := no + amount)
    }

    function Held(side: Outcome): real {
      if side == YES then yes else no
    }

    /** Whether this account's stake earns Formal fees in the ledger of outcome `o`. */
    predicate Earns(o: Outcome) {
      match o
      case YES => coreSide == Some(YES)
      case NO => coreSide == Some(NO)
      case INVALID => coreSide == Some(YES) || coreSide == Some(NO)
    }

    predicate StakedOn(o: Outcome) {
      coreSide == Some(o)
    }
  }

  // The amounts that are summed over all accounts.

  function Wallet(a: Account): real { a.wallet }
  function GTokens(a: Account): real { a.g }
  function LpTokens(a: Account): real { a.lp }
  function YesTokens(a: Account): real { a.yes }
  function NoTokens(a: Account): real { a.no }
  function Refund(a: Account): real { a.bondRefund }
  function StakeOnYes(a: Account): real { if a.StakedOn(YES) then a.coreStake else 0.0 }
  function StakeOnNo(a: Account): real { if a.StakedOn(NO) then a.coreStake else 0.0 }
  function StakeOnInvalid(a: Account): real { if a.StakedOn(INVALID) then a.coreStake else 0.0 }
  function EarningInvalid(a: Account): real { if a.Earns(INVALID) then a.coreStake else 0.0 }
  function RewardYes(a: Account): real { a.coreRewards.yes }
  function RewardNo(a: Account): real { a.coreRewards.no }
  function RewardInvalid(a: Account): real { a.coreRewards.invalid }

  function TokensOf(side: Outcome): Account -> real {
    if side == YES then YesTokens else NoTokens
  }

  function RewardFor(o: Outcome): Account -> real {
    match o
    case YES => RewardYes
    case NO => RewardNo
    case INVALID => RewardInvalid
  }

  /** Stake that earns fees in the ledger of outcome `o`. */
  function EarningFor(o: Outcome): Account -> real {
    match o
    case YES => StakeOnYes
    case NO => StakeOnNo
    case INVALID => EarningInvalid
  }

  lemma {:induction false} EarningInvalidSplits(xs: seq<Account>)
    ensures Sum(EarningInvalid, xs) == Sum(StakeOnYes, xs) + Sum(StakeOnNo, xs)
  {
    if xs != [] {
      EarningInvalidSplits(xs[1..]);
    }
  }
}
