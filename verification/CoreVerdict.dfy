/** The verdict of Core and what it hands out, in terms of what the accounts themselves hold. */
module CoreVerdict {
  import opened Maths
  import opened Wrappers
  import opened Sums
  import opened Accounts
  import opened Lmsr
  import opened Ledger
  import opened TopicMarket
  import opened Invariant
  import opened KeepSettlement
  import opened KeepClaims
  import opened Runs
  import opened SettledRuns

  function StakeOn(o: Outcome): Account -> real {
    match o
    case YES => StakeOnYes
    case NO => StakeOnNo
    case INVALID => StakeOnInvalid
  }

  /** A side wins with more than half of all stake; if neither does, the result is INVALID. */
  ghost predicate Decides(xs: seq<Account>, o: Outcome) {
    && (o == YES <==> 2.0 * Sum(StakeOnYes, xs) > Sum(AnyStake, xs))
    && (o == NO <==> 2.0 * Sum(StakeOnNo, xs) > Sum(AnyStake, xs))
  }

  lemma WinnerDecides(s: State)
    requires AllGood(s.accounts) && CoreSums(s)
    ensures Decides(s.accounts, s.core.Winner()) && s.core.Total() == Sum(AnyStake, s.accounts)
  {
    hide Sum;
    AnyStakeSplits(s.accounts);
    SumsNonNegative(s.accounts);
  }

  /** The stakes of a list decide one outcome only. */
  lemma DecidesOne(xs: seq<Account>, o: Outcome, p: Outcome)
    requires Decides(xs, o) && Decides(xs, p)
    ensures o == p
  {}

  lemma SameStakesDecide(xs: seq<Account>, ys: seq<Account>, o: Outcome)
    requires SameStakes(xs, ys) && Decides(xs, o)
    ensures Decides(ys, o)
  {
    SumSame(StakeOnYes, xs, StakeOnYes, ys);
    SumSame(StakeOnNo, xs, StakeOnNo, ys);
    SumSame(AnyStake, xs, AnyStake, ys);
  }

  /** Whatever the run, a market that settles has the result its stakes decide. */
  lemma ResultDecided(f: Functions, s: State, acts: seq<Action>)
    requires Lawful(f) && Inv(f, s) && s.phase != SETTLED && Run(f, s, acts).phase == SETTLED
    ensures var t := Run(f, s, acts); t.result.Some? && Decides(t.accounts, t.result.value)
  {
    hide Inv, Run, Conserved, SameStakes, Decides;
    RunRecords(f, s, acts);
    var b := BooksAtSettlement(f, s, acts).value;
    ReadyStakes(f, b);
    WinnerDecides(b);
    SameStakesDecide(b.accounts, Run(f, s, acts).accounts, b.core.Winner());
  }

  lemma ReadyStakes(f: Functions, b: State)
    requires SettleReady(f, b)
    ensures AllGood(b.accounts) && CoreSums(b) && CoreLedgers(b)
  {}

  // ---- what is handed out ----

  function Portion(amount: real, part: real, whole: real): real {
    if whole > 0.0 then amount * part / whole else 0.0
  }

  /** Outcome tokens that a result redeems. */
  function Redeemed(xs: seq<Account>, o: Outcome): real {
    match o
    case YES => Sum(YesTokens, xs)
    case NO => Sum(NoTokens, xs)
    case INVALID => (Sum(YesTokens, xs) + Sum(NoTokens, xs)) / 2.0
  }

  /** Stake on a result shares all stakes and penalties, the rewards left behind by exits, and has
      its own rewards; under INVALID everybody shares the stakes, and stake on a side the fees. */
  function CoreShare(xs: seq<Account>, pot: real, forfeited: Trio, o: Outcome, a: Account): real {
    var yes, no := Sum(StakeOnYes, xs), Sum(StakeOnNo, xs);
    match o
    case YES =>
      if a.coreSide != Some(YES) then 0.0
      else Portion(pot, a.coreStake, yes) + a.coreRewards.yes + Portion(forfeited.yes, a.coreStake, yes)
    case NO =>
      if a.coreSide != Some(NO) then 0.0
      else Portion(pot, a.coreStake, no) + a.coreRewards.no + Portion(forfeited.no, a.coreStake, no)
    case INVALID =>
      Portion(pot, a.coreStake, Sum(AnyStake, xs))
      + if a.coreSide != Some(YES) && a.coreSide != Some(NO) then 0.0
        else a.coreRewards.invalid + Portion(forfeited.invalid, a.coreStake, yes + no)
  }

  /** The pot of a market about to settle: all stakes, the penalties of exits, and failed bonds. */
  function Pot(s: State): real {
    Sum(AnyStake, s.accounts) + s.early.penalty + s.early.failedBonds
  }

  lemma PortionAt(amount: real, part: real, whole: real)
    requires whole >= 0.0
    ensures Portion(amount, part, whole) == if whole != 0.0 then ProRata(amount, part, whole) else 0.0
  {}

  lemma ShareOnSide(s: State, o: Outcome, a: Account)
    requires GoodAccount(a) && o != INVALID && s.core.Base(o) >= 0.0
    ensures CorePayout(s, o, a)
         == if a.coreSide != Some(o) then 0.0
            else Portion(s.core.cash + Penalties(s), a.coreStake, s.core.Base(o)) + a.coreRewards.At(o)
                 + Portion(s.early.forfeited.At(o), a.coreStake, s.core.Base(o))
  {
    hide ProRata, Portion, Penalties;
    PortionAt(s.core.cash + Penalties(s), a.coreStake, s.core.Base(o));
    PortionAt(s.early.forfeited.At(o), a.coreStake, s.core.Base(o));
    assert !a.Earns(o) ==> a.coreRewards.At(o) == 0.0;
  }

  lemma ShareOfInvalid(s: State, a: Account)
    requires GoodAccount(a) && s.core.yes + s.core.no >= 0.0 && s.core.Total() >= 0.0
    ensures CorePayout(s, INVALID, a)
         == Portion(s.core.cash + Penalties(s), a.coreStake, s.core.Total())
            + if a.coreSide != Some(YES) && a.coreSide != Some(NO) then 0.0
              else a.coreRewards.invalid + Portion(s.early.forfeited.invalid, a.coreStake, s.core.yes + s.core.no)
  {
    hide ProRata, Portion, Penalties;
    PortionAt(s.core.cash + Penalties(s), a.coreStake, s.core.Total());
    PortionAt(s.early.forfeited.invalid, a.coreStake, s.core.yes + s.core.no);
    assert !a.Earns(INVALID) ==> a.coreRewards.At(INVALID) == 0.0;
  }

  lemma PayoutIsShare(s: State, a: Account)
    requires AllGood(s.accounts) && CoreSums(s) && CoreLedgers(s) && GoodAccount(a)
    ensures CorePayout(s, s.core.Winner(), a)
         == CoreShare(s.accounts, Pot(s), s.early.forfeited, s.core.Winner(), a)
  {
    hide Sum, AllGood, Portion, CorePayout, GoodAccount;
    AnyStakeSplits(s.accounts);
    SumsNonNegative(s.accounts);
    assert s.core.cash + Penalties(s) == Pot(s);
    match s.core.Winner() {
      case YES => ShareOnSide(s, YES, a);
      case NO => ShareOnSide(s, NO, a);
      case INVALID => ShareOfInvalid(s, a);
    }
  }

  /** Good books that settle: result, budgets and payouts. */
  ghost predicate PaysOut(b: State, t: State) {
    && t.phase == SETTLED && t.result.Some? && Decides(b.accounts, t.result.value)
    && var o := t.result.value;
    && t.claims.outcomeBudget == Redeemed(b.accounts, o)
    && t.claims.lpBudget == b.pool.cash + b.pool.lpFees - Redeemed(b.accounts, o)
    && t.claims.lpBudgetInitial == t.claims.lpBudget && t.claims.lpClaimSupply == Sum(LpTokens, b.accounts)
    && |t.claims.corePayouts| == |b.accounts|
    && forall i :: 0 <= i < |b.accounts| ==>
         t.claims.corePayouts[i] == CoreShare(b.accounts, Pot(b), b.early.forfeited, o, b.accounts[i])
  }

  lemma BooksPayOut(f: Functions, b: State)
    requires Lawful(f) && SettleReady(f, b)
    ensures PaysOut(b, SettleBooks(b))
  {
    ReadyStakes(f, b);
    ReadyTokens(f, b);
    NavPositive(f, b);
    hide Sum, CorePayout, CoreShare, Pot, SettleReady, CoreSums, CoreLedgers, AllGood, Decides, SumReal, OfficialBudget;
    WinnerDecides(b);
    forall i | 0 <= i < |b.accounts|
      ensures CorePayout(b, b.core.Winner(), b.accounts[i])
           == CoreShare(b.accounts, Pot(b), b.early.forfeited, b.core.Winner(), b.accounts[i])
    {
      GoodAt(b.accounts, i);
      PayoutIsShare(b, b.accounts[i]);
    }
  }

  lemma ReadyTokens(f: Functions, b: State)
    requires SettleReady(f, b)
    ensures b.pool.lpSupply == Sum(LpTokens, b.accounts)
  {}

  // ---- who is paid at once ----

  /** Stakes, penalties and fees that no payout takes; they go to the protocol's account. */
  function Leftover(b: State, t: State): real {
    Pot(b) + b.core.feeTotal - SumReal(t.claims.corePayouts)
  }

  /** Collected fees go to creator and protocol at once if these are accounts of the market, and stay
      claimable otherwise; with no protocol account nothing is handed out. */
  ghost predicate FeesHandedOut(b: State, t: State) {
    var c, p := b.protocolAccount >= 0 && b.Has(b.creatorAccount), b.Has(b.protocolAccount);
    && |t.accounts| == |b.accounts|
    && (forall i :: 0 <= i < |b.accounts| ==>
          && t.accounts[i].wallet == b.accounts[i].wallet
               + (if c && i == b.creatorAccount then b.creatorFees else 0.0)
               + (if p && i == b.protocolAccount then b.protocolFees + Leftover(b, t) else 0.0)
          && t.accounts[i] == b.accounts[i].(wallet := t.accounts[i].wallet, received := t.accounts[i].received))
    && t.creatorFees == (if c then 0.0 else b.creatorFees)
    && t.protocolFees == (if p then 0.0 else b.protocolFees)
    && t.claims.coreOfficialBudget == (if p then 0.0 else Leftover(b, t))
  }

  lemma CreatorPaid(u: State)
    requires u.creatorFees >= 0.0
    ensures var t, c := DistributeCreator(u), u.protocolAccount >= 0 && u.Has(u.creatorAccount);
      && t == u.(accounts := t.accounts, creatorFees := t.creatorFees) && |t.accounts| == |u.accounts|
      && t.creatorFees == (if c then 0.0 else u.creatorFees)
      && forall i :: 0 <= i < |u.accounts| ==>
           && t.accounts[i].wallet == u.accounts[i].wallet + (if c && i == u.creatorAccount then u.creatorFees else 0.0)
           && t.accounts[i] == u.accounts[i].(wallet := t.accounts[i].wallet, received := t.accounts[i].received)
  {}

  lemma ProtocolPaid(u: State)
    requires u.protocolFees >= 0.0 && u.claims.coreOfficialBudget >= 0.0
    ensures var t, p := DistributeProtocol(u), u.Has(u.protocolAccount);
      && |t.accounts| == |u.accounts|
      && t == u.(accounts := t.accounts, protocolFees := t.protocolFees,
                 claims := u.claims.(coreOfficialBudget := t.claims.coreOfficialBudget))
      && t.protocolFees == (if p then 0.0 else u.protocolFees)
      && t.claims.coreOfficialBudget == (if p then 0.0 else u.claims.coreOfficialBudget)
      && forall i :: 0 <= i < |u.accounts| ==>
           && t.accounts[i].wallet == u.accounts[i].wallet
                + (if p && i == u.protocolAccount then u.protocolFees + u.claims.coreOfficialBudget else 0.0)
           && t.accounts[i] == u.accounts[i].(wallet := t.accounts[i].wallet, received := t.accounts[i].received)
  {}

  lemma OfficialIsLeftover(f: Functions, b: State)
    requires SettleReady(f, b)
    ensures SettleBooks(b).claims.coreOfficialBudget == Leftover(b, SettleBooks(b)) >= 0.0
    ensures b.creatorFees >= 0.0 && b.protocolFees >= 0.0
  {
    hide Sum, SumReal, CorePayouts, OfficialBudget, LmsrCash;
    SettlementConserves(b);
    OfficialNonNegative(b);
    WinnerDecides(b);
  }

  /** Settling good books. */
  lemma SettlePays(f: Functions, b: State)
    requires Lawful(f) && SettleReady(f, b)
    ensures PaysOut(b, Settle(b)) && FeesHandedOut(b, Settle(b))
    ensures Settle(b).early.terminatedAt == b.early.terminatedAt
  {
    hide SettleReady, SettledClaims, Leftover, Decides, Redeemed, CoreShare, Pot, DistributeCreator, DistributeProtocol;
    BooksPayOut(f, b);
    OfficialIsLeftover(f, b);
    var u := SettleBooks(b);
    CreatorPaid(u);
    ProtocolPaid(DistributeCreator(u));
    LeftoverSame(b, u, Settle(b));
  }

  lemma LeftoverSame(b: State, u: State, t: State)
    requires t.claims.corePayouts == u.claims.corePayouts
    ensures Leftover(b, t) == Leftover(b, u)
  {}

  // ---- requests ----

  /** A processed request: if its side has the majority the bond is owed to the proposer and the
      market ends as of the end of the waiting period; otherwise the bond joins the failed bonds. */
  ghost predicate BondBooked(s: State, b: State) {
    && s.early.pending.Some?
    && var q := s.early.pending.value;
    && var won := Decides(s.accounts, q.side);
    && |b.accounts| == |s.accounts| && b == s.(accounts := b.accounts, early := b.early)
    && (forall i :: 0 <= i < |s.accounts| ==>
          b.accounts[i] == s.accounts[i].(bondRefund := s.accounts[i].bondRefund
                                                        + if won && i == q.proposer then q.bond else 0.0))
    && b.early == s.early.(pending := None, failedBonds := s.early.failedBonds + (if won then 0.0 else q.bond),
                           terminatedAt := if won then Some(q.processAfter) else s.early.terminatedAt)
  }

  /** The market ends, by a request whose side has the majority or after the Core deadline, or goes on. */
  ghost predicate RequestDecided(s: State, b: State, t: State) {
    && BondBooked(s, b)
    && if Decides(s.accounts, s.early.pending.value.side) || s.now >= s.TC
       then PaysOut(b, t) && FeesHandedOut(b, t) && t.early.terminatedAt == b.early.terminatedAt
       else t == b
  }

  lemma FormalStakes(f: Functions, s: State)
    requires Inv(f, s) && s.Trading()
    ensures AllGood(s.accounts) && CoreSums(s)
    ensures s.early.pending.Some? ==> s.Has(s.early.pending.value.proposer) && s.early.pending.value.side != INVALID
  {
    hide Sum, LmsrCash;
  }

  lemma ProcessedBooks(f: Functions, s: State)
    requires Inv(f, s) && s.Trading() && s.early.pending.Some?
    ensures s.Has(s.early.pending.value.proposer) && BondBooked(s, Processed(s))
    ensures ProcessSettles(s) <==> Decides(s.accounts, s.early.pending.value.side) || s.now >= s.TC
  {
    hide Inv, Decides;
    FormalStakes(f, s);
    WinnerDecides(s);
    var side := s.early.pending.value.side;
    if Decides(s.accounts, side) {
      DecidesOne(s.accounts, side, s.core.Winner());
    }
  }

  lemma ProcessDecided(f: Functions, s: State)
    requires Lawful(f) && Inv(f, s) && ProcessFault(s).None?
    ensures RequestDecided(s, Processed(s), ProcessedEarly(s))
  {
    assert s.Trading() && s.early.pending.Some?;
    hide Inv, ProcessFault, Processed, Settle, SettleReady, Conserved, Decides, PaysOut, FeesHandedOut, BondBooked;
    ProcessedBooks(f, s);
    if ProcessSettles(s) {
      ProcessedReady(f, s);
      SettlePays(f, Processed(s));
    }
    assert BondBooked(s, Processed(s));
    NowPending(s, Processed(s));
  }

  lemma NowPending(s: State, b: State)
    requires BondBooked(s, b)
    ensures s.early.pending.Some?
  {}

  /** Processing a request ends the market exactly when the requested side has the majority or the
      Core deadline has passed, and books, pays and hands out what that means. */
  lemma EarlyRequestDecided(f: Functions, s: State)
    requires Lawful(f) && Inv(f, s) && Apply(f, s, ProcessEarly).Ok?
    ensures exists b :: RequestDecided(s, b, Apply(f, s, ProcessEarly).value)
    ensures s.now >= s.early.pending.value.processAfter
    ensures Apply(f, s, ProcessEarly).value.phase == SETTLED <==>
      Decides(s.accounts, s.early.pending.value.side) || s.now >= s.TC
  {
    hide Inv, LedgerFault, Processed, Decides, PaysOut, FeesHandedOut, BondBooked, Nav, RequestDecided, ProcessedEarly;
    ProcessDecided(f, s);
    assert RequestDecided(s, Processed(s), Apply(f, s, ProcessEarly).value);
    DecidedPhase(f, s, Processed(s), ProcessedEarly(s));
  }

  lemma DecidedPhase(f: Functions, s: State, b: State, t: State)
    requires s.Trading() && RequestDecided(s, b, t)
    ensures s.early.pending.Some?
    ensures t.phase == SETTLED <==> Decides(s.accounts, s.early.pending.value.side) || s.now >= s.TC
  {
    hide Decides, FeesHandedOut;
  }

  /** Finalization settles the books as they are, after booking a request that is still pending. */
  lemma FinalizationDecided(f: Functions, s: State)
    requires Lawful(f) && Inv(f, s) && Apply(f, s, Finalize).Ok?
    ensures var t := Apply(f, s, Finalize).value;
      if s.early.pending.Some? then exists b :: RequestDecided(s, b, t)
      else PaysOut(s, t) && FeesHandedOut(s, t)
    ensures s.Trading() && s.now >= s.TC
  {
    hide Inv, LedgerFault, Processed, Settle, Decides, PaysOut, FeesHandedOut, BondBooked, Nav, RequestDecided,
      SettleReady, ProcessedEarly, ProcessFault;
    var t := Apply(f, s, Finalize).value;
    if s.early.pending.Some? {
      ProcessedBooks(f, s);
      ProcessDecided(f, s);
      assert RequestDecided(s, Processed(s), t);
    } else {
      SplitInv(f, s);
      ReadyWithoutRequest(f, s);
      SettlePays(f, s);
    }
  }

  // ---- over runs ----

  /** In every settled state of a run each account's payout is its share of the books the run
      settled from, under the result those stakes decide. */
  lemma RunPayouts(f: Functions, s: State, acts: seq<Action>, i: int)
    requires Lawful(f) && Inv(f, s) && s.Has(i) && s.phase != SETTLED && Run(f, s, acts).phase == SETTLED
    ensures BooksAtSettlement(f, s, acts).Some?
    ensures var b, t := BooksAtSettlement(f, s, acts).value, Run(f, s, acts);
      && t.result.Some? && Decides(b.accounts, t.result.value)
      && |t.claims.corePayouts| == |b.accounts| == |s.accounts|
      && t.claims.corePayouts[i] == CoreShare(b.accounts, Pot(b), b.early.forfeited, t.result.value, b.accounts[i])
  {
    hide Inv, Run, Conserved, SameStakes, Decides, CoreShare, Pot, SettleReady, CoreSums, CoreLedgers, CorePayout,
      LedgerFault, BooksAtSettlement;
    RunRecords(f, s, acts);
    RunSafe(f, s, acts);
    var b := BooksAtSettlement(f, s, acts).value;
    ReadyStakes(f, b);
    WinnerDecides(b);
    RecordedCount(b, Run(f, s, acts));
    GoodAt(b.accounts, i);
    PayoutIsShare(b, b.accounts[i]);
  }

  lemma RecordedCount(b: State, t: State)
    requires Records(b, t)
    ensures |b.accounts| == |t.accounts|
  {
    hide CorePayouts;
  }
}
