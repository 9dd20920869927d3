/** What a settled state of a run owes to the books it was settled from. */
module SettledRuns {
  import opened Maths
  import opened Wrappers
  import opened Sums
  import opened Accounts
  import opened Lmsr
  import opened Ledger
  import opened TopicMarket
  import opened Invariant
  import opened KeepSettlement
  import opened KeepClaims
  import opened Runs
  import opened ClaimOrder
  import opened FeeAttribution

  /** The books an action settles: a processed request has booked its bond first. */
  function SettledFrom(s: State, a: Action): State {
    if s.early.pending.Some? && s.Has(s.early.pending.value.proposer) then Processed(s) else s
  }

  /** The books from which a run settled, if it did. */
  function BooksAtSettlement(f: Functions, s: State, acts: seq<Action>): Option<State>
    decreases |acts|
  {
    if acts == [] then None
    else
      var t := After(f, s, acts[0]);
      if s.phase != SETTLED && t.phase == SETTLED then Some(SettledFrom(s, acts[0]))
      else BooksAtSettlement(f, t, acts[1..])
  }

  ghost predicate SameStakes(xs: seq<Account>, ys: seq<Account>) {
    |xs| == |ys| && forall i :: 0 <= i < |xs| ==>
      ys[i].coreSide == xs[i].coreSide && ys[i].coreStake == xs[i].coreStake && ys[i].coreRewards == xs[i].coreRewards
  }

  /** The state still records the settlement of these books: result, payouts, stakes and fees. */
  ghost predicate Records(b: State, t: State) {
    && t.phase == SETTLED && t.result == Some(b.core.Winner()) && t.core.result == t.result
    && t.claims.corePayouts == CorePayouts(b, b.core.Winner(), b.accounts)
    && t.core == b.core.(result := t.core.result, fees := t.core.fees, cash := t.core.cash)
    && SameStakes(b.accounts, t.accounts)
  }

  lemma DistributeRecords(b: State, s: State)
    requires Records(b, s)
    ensures Records(b, DistributeOfficialFees(s))
  {
    hide CorePayouts;
  }

  lemma SettleRecords(b: State)
    ensures Records(b, Settle(b))
  {
    hide DistributeOfficialFees, CorePayouts, SumReal, Sum;
    DistributeRecords(b, SettleBooks(b));
  }

  /** An action that settles settles good books with nothing pending. */
  lemma SettlingStep(f: Functions, s: State, a: Action)
    requires Lawful(f) && Inv(f, s) && Guard(f, s, a).None? && s.phase != SETTLED
    requires Effect(f, s, a).phase == SETTLED
    ensures var b := SettledFrom(s, a);
      SettleReady(f, b) && Conserved(b) && Effect(f, s, a) == Settle(b) && Records(b, Effect(f, s, a))
  {
    hide Inv, Settle, SettleReady, Conserved, Records, Processed, Nav, BuyFault, SellFault, FormalBuyFault,
      FormalSellFault, ClaimFault;
    OnlySettles(f, s, a);
    assert s.Trading();
    if s.early.pending.Some? {
      ProcessedReady(f, s);
    } else {
      SplitInv(f, s);
      ReadyWithoutRequest(f, s);
    }
    SettleRecords(SettledFrom(s, a));
  }

  /** Settlement happens by processing a request or by finalization, and only there. */
  lemma OnlySettles(f: Functions, s: State, a: Action)
    requires Guard(f, s, a).None? && s.phase != SETTLED && Effect(f, s, a).phase == SETTLED
    ensures s.Trading()
    ensures (a.ProcessEarly? && s.early.pending.Some? && ProcessSettles(s)) || a.Finalize?
    ensures a.Finalize? && s.early.pending.Some? ==> ProcessSettles(s)
  {
    hide Sum, QuoteBuy, QuoteSell, QuoteFormalBuy, QuoteFormalSell, SettledClaims, ExitPenalty, Nav, LedgerFault;
  }

  // ---- after settlement nothing of it changes ----

  lemma ClaimedRecords(b: State, f: Functions, s: State, id: int)
    requires Records(b, s) && ClaimFault(f, s, id).None?
    ensures Records(b, Claimed(s, id))
  {
    hide CorePayouts, LedgerFault, ProRata, OutcomeDue, FailedDue;
  }

  lemma SettledStepRecords(f: Functions, b: State, s: State, a: Action)
    requires Records(b, s)
    ensures Records(b, After(f, s, a))
  {
    hide CorePayouts, LedgerFault, ProRata, ClaimFault, Claimed, Sum;
    if Guard(f, s, a).None? {
      TerminalGuards(f, s, a);
      match a {
        case Claim(id) => ClaimedRecords(b, f, s, id);
        case _ =>
      }
    }
  }

  lemma {:induction false} SettledRunRecords(f: Functions, b: State, s: State, acts: seq<Action>)
    requires Records(b, s)
    ensures Records(b, Run(f, s, acts))
    decreases |acts|
  {
    hide Records, After;
    if acts != [] {
      SettledStepRecords(f, b, s, acts[0]);
      SettledRunRecords(f, b, After(f, s, acts[0]), acts[1..]);
    }
  }

  lemma FirstSettled(f: Functions, s: State, a: Action)
    requires Lawful(f) && Inv(f, s) && s.phase != SETTLED && After(f, s, a).phase == SETTLED
    ensures var b := SettledFrom(s, a); SettleReady(f, b) && Conserved(b) && Records(b, After(f, s, a))
  {
    hide Inv, Guard, Effect, LedgerFault, SettledFrom, SettleReady, Conserved, Records;
    SettlingStep(f, s, a);
  }

  /** A run that ends settled settled once, from good books, and still records them. */
  lemma {:induction false} RunRecords(f: Functions, s: State, acts: seq<Action>)
    requires Lawful(f) && Inv(f, s) && s.phase != SETTLED && Run(f, s, acts).phase == SETTLED
    ensures BooksAtSettlement(f, s, acts).Some?
    ensures var b := BooksAtSettlement(f, s, acts).value;
      SettleReady(f, b) && Conserved(b) && Records(b, Run(f, s, acts))
    decreases |acts|
  {
    hide Inv, After, SettledFrom, SettleReady, Conserved, Records;
    if acts != [] {
      var t := After(f, s, acts[0]);
      StepSafe(f, s, acts[0]);
      if t.phase == SETTLED {
        FirstSettled(f, s, acts[0]);
        SettledRunRecords(f, SettledFrom(s, acts[0]), t, acts[1..]);
      } else {
        RunRecords(f, t, acts[1..]);
      }
    }
  }

  // ---- winners, losers and stake on INVALID ----

  /** Stake on the result is paid at least its principal, any other stake nothing; under INVALID
      everybody is paid at least the principal. */
  ghost predicate Protected(t: State, i: int) {
    && t.Has(i) && t.result.Some? && |t.claims.corePayouts| == |t.accounts|
    && (t.result.value == INVALID || t.accounts[i].StakedOn(t.result.value) ==>
          t.claims.corePayouts[i] >= t.accounts[i].coreStake)
    && (t.result.value != INVALID && !t.accounts[i].StakedOn(t.result.value) ==> t.claims.corePayouts[i] == 0.0)
  }

  /** Under INVALID, stake on INVALID gets exactly its share of the stakes, penalties and failed
      bonds of the books b: no market fee and no forfeited reward. */
  ghost predicate PrincipalPotOnly(b: State, t: State, i: int) {
    && t.Has(i) && |t.claims.corePayouts| == |t.accounts| && t.core.Total() == b.core.Total()
    && (t.result == Some(INVALID) && t.accounts[i].StakedOn(INVALID) ==>
          t.claims.corePayouts[i] == Rate(b.core.cash + Penalties(b), b.core.Total()) * t.accounts[i].coreStake)
  }

  /** In every settled state of every run, whatever exits and changes of side came before. */
  lemma StakersProtected(f: Functions, s: State, acts: seq<Action>, i: int)
    requires Lawful(f) && Inv(f, s) && s.Has(i) && Run(f, s, acts).phase == SETTLED
    ensures Protected(Run(f, s, acts), i)
    ensures s.phase != SETTLED ==>
      BooksAtSettlement(f, s, acts).Some? && PrincipalPotOnly(BooksAtSettlement(f, s, acts).value, Run(f, s, acts), i)
  {
    hide Run, Inv, LedgerFault, SettleReady, Conserved, Records, Protected, PrincipalPotOnly, BooksAtSettlement;
    RunSafe(f, s, acts);
    FairInRun(f, Run(f, s, acts), i);
    if s.phase != SETTLED {
      RunRecords(f, s, acts);
      InvalidShare(f, BooksAtSettlement(f, s, acts).value, Run(f, s, acts), i);
    }
  }

  lemma FairInRun(f: Functions, t: State, i: int)
    requires Inv(f, t) && t.phase == SETTLED && t.Has(i)
    ensures Protected(t, i)
  {
    hide Sum, FixedRate;
    assert FairPayout(t.result.value, t.accounts[i], t.claims.corePayouts[i]);
  }

  lemma InvalidShare(f: Functions, b: State, t: State, i: int)
    requires SettleReady(f, b) && Records(b, t) && t.Has(i)
    ensures PrincipalPotOnly(b, t, i)
  {
    hide Sum, LmsrCash, CoreSums, CoreLedgers, Rate, CorePayout;
    if t.result == Some(INVALID) && t.accounts[i].StakedOn(INVALID) {
      GoodAt(b.accounts, i);
      InvalidStakeEarnsNoFees(b, b.accounts[i]);
    }
  }

  // ---- fee attribution from creation to the end ----

  /** A settled state of a run shows the attribution of the books it was settled from. */
  lemma RecordedValue(f: Functions, b: State, t: State)
    requires SettleReady(f, b) && Records(b, t)
    ensures ProtocolFeeAttribution(SnapshotOf(t))
         == Attributed(OfficialBudget(b, b.core.Winner()) - (if b.core.Total() == 0.0 then Penalties(b) else 0.0))
  {
    hide Sum, LmsrCash, CoreSums, CoreLedgers, CorePayouts, SumReal, ProtocolFeeAttribution, OfficialBudget;
    SettledValue(b);
    assert SnapshotOf(SettleBooks(b)) == SnapshotOf(t);
  }

  /** From any accepted configuration, over any run: the value shown before settlement never
      exceeds the value at any later time; and once the run has settled that value is exactly the
      official budget the settlement booked, penalties without any stake apart. */
  lemma AttributionFromCreation(f: Functions, c: Config, before: seq<Action>, after: seq<Action>)
    requires Lawful(f) && CreateDemo(c).Ok?
    ensures var s := Run(f, CreateDemo(c).value, before);
      s.phase != SETTLED ==>
        var now, later := ProtocolFeeAttribution(SnapshotOf(s)), ProtocolFeeAttribution(SnapshotOf(Run(f, s, after)));
        now.Attributed? && later.Attributed? && now.value <= later.value
    ensures var s := Run(f, CreateDemo(c).value, before);
      s.phase != SETTLED && Run(f, s, after).phase == SETTLED ==>
        && BooksAtSettlement(f, s, after).Some?
        && var b := BooksAtSettlement(f, s, after).value;
           ProtocolFeeAttribution(SnapshotOf(Run(f, s, after)))
           == Attributed(OfficialBudget(b, b.core.Winner()) - (if b.core.Total() == 0.0 then Penalties(b) else 0.0))
  {
    hide Inv, Run, CreateDemo, SettleReady, Conserved, Records, OfficialBudget, ProtocolFeeAttribution, SnapshotOf,
      Attributable, Penalties;
    var demo := CreateDemo(c).value;
    DemoStarts(f, c);
    DemoAttributable(c);
    RunSafe(f, demo, before);
    RunAttributable(f, demo, before);
    var s := Run(f, demo, before);
    if s.phase != SETTLED {
      NoResultYet(f, s);
      RunningValueIsLowerBound(f, s, after);
      if Run(f, s, after).phase == SETTLED {
        RunRecords(f, s, after);
        RecordedValue(f, BooksAtSettlement(f, s, after).value, Run(f, s, after));
      }
    }
  }

  lemma NoResultYet(f: Functions, s: State)
    requires Inv(f, s) && s.phase != SETTLED
    ensures s.result.None?
  {
    hide Sum, LmsrCash;
  }
}
