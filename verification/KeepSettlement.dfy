/** Settlement hands out exactly what Core and the pool hold, fairly, for all three outcomes. */
module KeepSettlement {
  import opened Maths
  import opened Wrappers
  import opened Sums
  import opened Accounts
  import opened Lmsr
  import opened Ledger
  import opened TopicMarket
  import opened Invariant
  import opened KeepFees
  import opened KeepCore

  /** Ready to settle: the Formal books without a pending request; a bond may be owed. */
  ghost predicate SettleReady(f: Functions, s: State) {
    && Frame(s) && s.Trading() && s.R == 0.0 && s.claims == NO_CLAIMS
    && (forall i :: 0 <= i < |s.accounts| ==> s.accounts[i].g == 0.0 && !s.accounts[i].coreClaimed)
    && s.pool.b == s.pool.M0 && s.pool.basis >= 0.0 && s.pool.lpFees >= 0.0
    && s.pool.collateral == 0.0 && s.pool.inventoryYes == 0.0 && s.pool.inventoryNo == 0.0
    && s.pool.redeemedPairs >= 0.0 && !s.pool.liquidityClosed
    && s.pool.lpSupply > 0.0 && Sum(LpTokens, s.accounts) == s.pool.lpSupply
    && LmsrCash(f, s) && CoreSums(s) && CoreLedgers(s) && s.early.pending.None?
  }

  // ---- the pool side ----

  lemma NavPositive(f: Functions, s: State)
    requires Lawful(f) && SettleReady(f, s)
    ensures Nav(s) > 0.0 && Liability(s) >= 0.0
  {
    hide Sum;
    SumsNonNegative(s.accounts);
    LmsrSolvent(f, s);
  }

  // ---- the Core side ----

  function AnyStake(a: Account): real { a.coreStake }

  /** The stake among which the principal pot of outcome `o` is divided. */
  function PotStake(o: Outcome): Account -> real {
    match o
    case YES => StakeOnYes
    case NO => StakeOnNo
    case INVALID => AnyStake
  }

  function PotBase(c: Core, o: Outcome): real {
    if o == INVALID then c.Total() else c.Base(o)
  }

  function PotRate(s: State, o: Outcome): real {
    Rate(s.core.cash + Penalties(s), PotBase(s.core, o))
  }

  function ForfeitRate(s: State, o: Outcome): real {
    Rate(s.early.forfeited.At(o), s.core.Base(o))
  }

  lemma PrincipalByRate(s: State, o: Outcome, a: Account)
    requires o == INVALID || s.core.Base(o) > 0.0
    ensures PrincipalShare(s, o, a) == PotRate(s, o) * PotStake(o)(a)
  {
    hide ProRata, Penalties;
    if PotBase(s.core, o) > 0.0 {
      ProRataIsRate(s.core.cash + Penalties(s), a.coreStake, PotBase(s.core, o));
    }
  }

  lemma ForfeitByRate(s: State, o: Outcome, a: Account)
    ensures ForfeitShare(s, o, a) == ForfeitRate(s, o) * EarningFor(o)(a)
  {
    hide ProRata;
    if s.core.Base(o) > 0.0 {
      ProRataIsRate(s.early.forfeited.At(o), a.coreStake, s.core.Base(o));
    }
  }

  lemma RewardAt(o: Outcome, a: Account)
    ensures RewardFor(o)(a) == a.coreRewards.At(o)
  {}

  /** A payout is a fixed rate on the stake plus the account's own conditional rewards. */
  lemma PayoutByRates(s: State, o: Outcome, a: Account)
    requires o == INVALID || s.core.Base(o) > 0.0
    ensures CorePayout(s, o, a)
         == PotRate(s, o) * PotStake(o)(a) + ForfeitRate(s, o) * EarningFor(o)(a) + RewardFor(o)(a)
  {
    hide PrincipalShare, ForfeitShare, PotRate, ForfeitRate, PotStake, EarningFor, RewardFor;
    PrincipalByRate(s, o, a);
    ForfeitByRate(s, o, a);
    RewardAt(o, a);
  }

  lemma {:induction false} PayoutSum(s: State, o: Outcome, xs: seq<Account>)
    requires o == INVALID || s.core.Base(o) > 0.0
    ensures SumReal(CorePayouts(s, o, xs))
         == PotRate(s, o) * Sum(PotStake(o), xs) + ForfeitRate(s, o) * Sum(EarningFor(o), xs) + Sum(RewardFor(o), xs)
  {
    hide CorePayout, PotRate, ForfeitRate;
    if xs != [] {
      PayoutByRates(s, o, xs[0]);
      PayoutSum(s, o, xs[1..]);
      Distribute(PotRate(s, o), PotStake(o)(xs[0]), Sum(PotStake(o), xs[1..]));
      Distribute(ForfeitRate(s, o), EarningFor(o)(xs[0]), Sum(EarningFor(o), xs[1..]));
    }
  }

  lemma {:induction false} AnyStakeSplits(xs: seq<Account>)
    requires AllGood(xs)
    ensures Sum(AnyStake, xs) == Sum(StakeOnYes, xs) + Sum(StakeOnNo, xs) + Sum(StakeOnInvalid, xs)
  {
    if xs != [] {
      assert GoodAccount(xs[0]);
      match xs[0].coreSide {
        case None =>
        case Some(side) => assert side == YES || side == NO || side == INVALID;
      }
      AnyStakeSplits(xs[1..]);
    }
  }

  lemma PotTotal(s: State, o: Outcome)
    requires AllGood(s.accounts) && CoreSums(s)
    ensures Sum(PotStake(o), s.accounts) == PotBase(s.core, o)
    ensures Sum(EarningFor(o), s.accounts) == s.core.Base(o)
  {
    AnyStakeSplits(s.accounts);
    EarningInvalidSplits(s.accounts);
  }

  /** The winning side of a strict majority has stake. */
  lemma WinnerHasStake(s: State)
    requires AllGood(s.accounts) && CoreSums(s)
    ensures s.core.yes >= 0.0 && s.core.no >= 0.0 && s.core.invalid >= 0.0
    ensures s.core.Winner() == INVALID || s.core.Base(s.core.Winner()) > 0.0
  {
    hide Sum;
    SumsNonNegative(s.accounts);
  }

  /** Rate times base is the whole pot, or nothing when there is no base. */
  lemma PotHandedOut(s: State, o: Outcome, total: real)
    requires total == PotBase(s.core, o)
    ensures PotRate(s, o) * total == if total > 0.0 then s.core.cash + Penalties(s) else 0.0
  {
    RateOfWhole(s.core.cash + Penalties(s), total);
  }

  lemma ForfeitHandedOut(s: State, o: Outcome, total: real)
    requires total == s.core.Base(o)
    ensures ForfeitRate(s, o) * total == if total > 0.0 then s.early.forfeited.At(o) else 0.0
  {
    RateOfWhole(s.early.forfeited.At(o), total);
  }

  /** Core payouts and the official budget together are exactly the stakes, the penalties and
      failed bonds, and all Formal fees: for every outcome, also with no stake at all. */
  lemma SettlementConserves(s: State)
    requires AllGood(s.accounts) && CoreSums(s) && CoreLedgers(s)
    ensures SumReal(CorePayouts(s, s.core.Winner(), s.accounts)) + OfficialBudget(s, s.core.Winner())
         == s.core.cash + Penalties(s) + s.core.feeTotal
  {
    hide Sum, CorePayouts, AllGood, CoreSums, PotRate, ForfeitRate;
    var o := s.core.Winner();
    WinnerHasStake(s);
    PayoutSum(s, o, s.accounts);
    PotTotal(s, o);
    assert FeeLedger(s, o);
    PotHandedOut(s, o, Sum(PotStake(o), s.accounts));
    ForfeitHandedOut(s, o, Sum(EarningFor(o), s.accounts));
  }

  // ---- who gets what ----

  /** Everybody entitled to principal gets at least the own stake back. */
  lemma PotRateAtLeastOne(s: State, o: Outcome)
    requires CoreLedgers(s) && s.core.yes >= 0.0 && s.core.no >= 0.0 && s.core.invalid >= 0.0
    requires PotBase(s.core, o) > 0.0
    ensures PotRate(s, o) >= 1.0
  {
    RateAtLeastOne(s.core.cash + Penalties(s), PotBase(s.core, o));
  }

  lemma RatesNonNegative(s: State, o: Outcome)
    requires CoreLedgers(s) && s.core.yes >= 0.0 && s.core.no >= 0.0 && s.core.invalid >= 0.0
    ensures PotRate(s, o) >= 0.0 && ForfeitRate(s, o) >= 0.0
  {
    assert s.early.forfeited.At(o) >= 0.0;
    RateNonNeg(s.core.cash + Penalties(s), PotBase(s.core, o));
    RateNonNeg(s.early.forfeited.At(o), s.core.Base(o));
  }

  lemma StakeWithinPot(s: State, o: Outcome, i: nat)
    requires AllGood(s.accounts) && CoreSums(s) && i < |s.accounts|
    ensures 0.0 <= PotStake(o)(s.accounts[i]) <= PotBase(s.core, o)
    ensures 0.0 <= EarningFor(o)(s.accounts[i])
    ensures RewardFor(o)(s.accounts[i]) == s.accounts[i].coreRewards.At(o)
  {
    forall j | 0 <= j < |s.accounts| ensures PotStake(o)(s.accounts[j]) >= 0.0 {
      assert GoodAccount(s.accounts[j]);
    }
    SumNonNeg(PotStake(o), s.accounts);
    PotTotal(s, o);
    assert GoodAccount(s.accounts[i]);
  }

  lemma TimesAtLeast(r: real, x: real)
    requires r >= 1.0 && x >= 0.0
    ensures r * x >= x
  {}

  /** Stake on a losing side, and no stake at all, is paid nothing. */
  lemma LoserGetsNothing(s: State, o: Outcome, a: Account)
    requires GoodAccount(a) && o != INVALID && !a.StakedOn(o)
    ensures CorePayout(s, o, a) == 0.0
  {
    assert !a.Earns(o);
    assert a.coreRewards.At(o) == 0.0;
  }

  lemma EntitledGetsPrincipal(s: State, o: Outcome, i: nat)
    requires AllGood(s.accounts) && CoreSums(s) && CoreLedgers(s) && i < |s.accounts|
    requires o == s.core.Winner() && (o == INVALID || s.accounts[i].StakedOn(o))
    ensures CorePayout(s, o, s.accounts[i]) >= s.accounts[i].coreStake >= 0.0
  {
    hide Sum, CorePayout, AllGood, CoreSums, CoreLedgers, PotRate, ForfeitRate;
    var a := s.accounts[i];
    WinnerHasStake(s);
    PayoutByRates(s, o, a);
    StakeWithinPot(s, o, i);
    RatesNonNegative(s, o);
    MulNonNeg(ForfeitRate(s, o), EarningFor(o)(a));
    GoodAt(s.accounts, i);
    assert a.coreRewards.At(o) >= 0.0;
    assert PotStake(o)(a) == a.coreStake;
    if PotBase(s.core, o) > 0.0 {
      PotRateAtLeastOne(s, o);
      TimesAtLeast(PotRate(s, o), PotStake(o)(a));
    } else {
      MulCongruent(PotRate(s, o), PotStake(o)(a), 0.0);
    }
  }

  /** The winner and loser guarantee of one settlement. */
  lemma PayoutFair(s: State, i: nat)
    requires AllGood(s.accounts) && CoreSums(s) && CoreLedgers(s) && i < |s.accounts|
    ensures FairPayout(s.core.Winner(), s.accounts[i], CorePayout(s, s.core.Winner(), s.accounts[i]))
  {
    hide Sum, CorePayout, AllGood, CoreSums, CoreLedgers;
    var o := s.core.Winner();
    GoodAt(s.accounts, i);
    if o == INVALID || s.accounts[i].StakedOn(o) {
      EntitledGetsPrincipal(s, o, i);
    } else {
      LoserGetsNothing(s, o, s.accounts[i]);
    }
  }

  /** Under INVALID, stake on INVALID shares the principal pot but earns no Formal fee and no
      forfeited reward. */
  lemma InvalidStakeEarnsNoFees(s: State, a: Account)
    requires GoodAccount(a) && a.StakedOn(INVALID)
    ensures CorePayout(s, INVALID, a) == PotRate(s, INVALID) * a.coreStake
  {
    PayoutByRates(s, INVALID, a);
    assert !a.Earns(INVALID);
    assert a.coreRewards.At(INVALID) == 0.0;
  }

  // ---- settlement keeps the invariant ----

  lemma {:induction false} NothingClaimed(xs: seq<Account>, ps: seq<real>)
    requires |xs| == |ps| && forall i :: 0 <= i < |xs| ==> !xs[i].coreClaimed
    ensures CoreDue(xs, ps) == SumReal(ps)
  {
    if xs != [] {
      NothingClaimed(xs[1..], ps[1..]);
    }
  }

  lemma OfficialNonNegative(s: State)
    requires CoreLedgers(s)
    ensures OfficialBudget(s, s.core.Winner()) >= 0.0
  {
    var o := s.core.Winner();
    assert s.core.officialRewards.At(o) >= 0.0 && s.early.forfeited.At(o) >= 0.0;
  }

  lemma SettleBooksKeep(f: Functions, s: State)
    requires Lawful(f) && Conserved(s) && SettleReady(f, s)
    ensures Nav(s) > 0.0
    ensures Inv(f, SettleBooks(s))
  {
    hide Sum, LmsrCash, CoreSums, AllGood, CorePayouts, CorePayout, OfficialBudget;
    NavPositive(f, s);
    SettlementConserves(s);
    OfficialNonNegative(s);
    var t := SettleBooks(s);
    var ps := t.claims.corePayouts;
    forall i | 0 <= i < |s.accounts|
      ensures FairPayout(s.core.Winner(), s.accounts[i], ps[i])
    {
      PayoutFair(s, i);
    }
    NothingClaimed(s.accounts, ps);
    PositiveDepth(f, s);
  }
}
