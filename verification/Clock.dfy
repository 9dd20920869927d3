/** The hours of the topic market: when each phase ends. */
module Clock {
  import opened Maths
  import opened Wrappers
  import opened Sums
  import opened Accounts
  import opened Lmsr
  import opened Ledger
  import opened TopicMarket
  import opened Invariant
  import opened KeepSettlement
  import opened KeepClaims
  import opened Runs
  import opened CoreVerdict
  import Text

  /** A market that did not graduate in time: the reserve becomes the refund budget of all Genesis
      tokens, and the collected fees are handed out. */
  ghost predicate Failure(s: State, t: State) {
    && t.phase == FAILED && t.R == 0.0 && |t.accounts| == |s.accounts|
    && t.claims.failedBudget == s.R && t.claims.failedBudgetInitial == s.R
    && t.claims.failedSupply == Sum(GTokens, s.accounts) && t.S == s.S
    && var c, p := s.protocolAccount >= 0 && s.Has(s.creatorAccount), s.Has(s.protocolAccount);
    && (forall i :: 0 <= i < |s.accounts| ==>
          && t.accounts[i].wallet == s.accounts[i].wallet
               + (if c && i == s.creatorAccount then s.creatorFees else 0.0)
               + (if p && i == s.protocolAccount then s.protocolFees else 0.0)
          && t.accounts[i] == s.accounts[i].(wallet := t.accounts[i].wallet, received := t.accounts[i].received))
    && t.creatorFees == (if c then 0.0 else s.creatorFees) && t.protocolFees == (if p then 0.0 else s.protocolFees)
  }

  lemma FailureBooks(f: Functions, s: State, to_: real)
    requires Inv(f, s) && s.phase == GENESIS && to_ >= s.TG
    ensures Failure(s, Advanced(s, to_)) && Advanced(s, to_).now == to_
  {
    hide Sum, OnCurve, AllIdle, AllGood, DistributeCreator, DistributeProtocol;
    var u := s.(now := to_, phase := FAILED, R := 0.0,
                claims := s.claims.(failedBudget := s.R, failedBudgetInitial := s.R, failedSupply := s.S));
    CreatorPaid(u);
    ProtocolPaid(DistributeCreator(u));
    assert Advanced(s, to_) == DistributeProtocol(DistributeCreator(u));
  }

  /** Time moves to where it is asked to, except before the market opens. Genesis that has not
      graduated fails from TG on, Formal trading ends from TF on, and nothing else ends by itself. */
  lemma TimeExact(f: Functions, s: State, to_: real)
    requires Lawful(f) && Inv(f, s) && Apply(f, s, AdvanceTime(to_)).Ok?
    ensures var t := Apply(f, s, AdvanceTime(to_)).value;
      match s.phase
      case CREATE => t == s
      case GENESIS => t.now == to_ && if to_ >= s.TG then Failure(s, t) else t == s.(now := to_)
      case FORMAL => t == s.(now := to_, phase := if to_ >= s.TF then WAIT_CORE else FORMAL)
      case _ => t == s.(now := to_)
  {
    hide Inv, LedgerFault, Fail, Failure;
    if s.phase == GENESIS && to_ >= s.TG {
      FailureBooks(f, s, to_);
    }
  }

  // ---- over runs ----

  /** Every phase keeps its hours, and a market ends before the Core deadline only by a request. */
  predicate OnTime(s: State) {
    && (s.phase == CREATE || s.phase == GENESIS ==> s.now < s.TG)
    && (s.phase == FORMAL ==> s.now < s.TF)
    && (s.phase == WAIT_CORE ==> s.now >= s.TF)
    && (s.phase == FAILED ==> s.now >= s.TG)
    && (s.phase == SETTLED ==> s.early.terminatedAt.Some? || s.now >= s.TC)
    && (s.phase != SETTLED ==> s.early.terminatedAt.None?)
  }

  lemma DistributeOnTime(s: State)
    ensures var t := DistributeOfficialFees(s); t.now == s.now && t.early == s.early && t.phase == s.phase
    ensures OnTime(s) ==> OnTime(DistributeOfficialFees(s))
  {}

  lemma SettledOnTime(b: State)
    requires b.early.terminatedAt.Some? || b.now >= b.TC
    ensures OnTime(Settle(b))
  {
    hide DistributeOfficialFees, SettledClaims;
    DistributeOnTime(SettleBooks(b));
  }

  lemma ProcessedOnTime(s: State)
    requires OnTime(s) && s.Trading() && s.early.pending.Some? && s.Has(s.early.pending.value.proposer)
    ensures var b := Processed(s);
      && b.now == s.now && b.TC == s.TC && (ProcessSettles(s) ==> b.early.terminatedAt.Some? || b.now >= b.TC)
      && (!ProcessSettles(s) ==> OnTime(b))
  {}

  lemma DecisionOnTime(f: Functions, s: State, a: Action)
    requires OnTime(s) && Guard(f, s, a).None? && (a.ProcessEarly? || a.Finalize?)
    ensures OnTime(Effect(f, s, a))
  {
    hide Settle, Processed, Nav, OnTime, ProcessSettles;
    if s.early.pending.Some? {
      ProcessedOnTime(s);
      if ProcessSettles(s) {
        SettledOnTime(Processed(s));
      }
    } else {
      SettledOnTime(s);
    }
  }

  lemma GenesisOnTime(f: Functions, s: State, a: Action)
    requires Inv(f, s) && OnTime(s) && Guard(f, s, a).None? && (a.Buy? || a.Sell?)
    ensures OnTime(Effect(f, s, a))
  {
    hide Sum, OnCurve, QuoteBuy, QuoteSell, AllGood;
  }

  lemma FailOnTime(s: State)
    requires s.now >= s.TG && s.early.terminatedAt.None?
    ensures OnTime(Fail(s))
  {
    hide DistributeOfficialFees;
    DistributeOnTime(s.(phase := FAILED, R := 0.0,
      claims := s.claims.(failedBudget := s.R, failedBudgetInitial := s.R, failedSupply := s.S)));
  }

  lemma EffectOnTime(f: Functions, s: State, a: Action)
    requires Inv(f, s) && OnTime(s) && Guard(f, s, a).None?
    ensures OnTime(Effect(f, s, a))
  {
    if a.Buy? || a.Sell? {
      GenesisOnTime(f, s, a);
    } else if a.ProcessEarly? || a.Finalize? {
      DecisionOnTime(f, s, a);
    } else if a.AdvanceTime? {
      hide Inv, Fail;
      if s.phase == GENESIS && a.to_ >= s.TG {
        FailOnTime(s.(now := a.to_));
      }
    } else {
      hide Inv, LedgerFault, QuoteFormalBuy, QuoteFormalSell, ExitPenalty, EarnAll, Text.Trim, ClaimFault, OutcomeDue,
        FailedDue;
    }
  }

  lemma AfterOnTime(f: Functions, s: State, a: Action)
    requires Inv(f, s) && OnTime(s)
    ensures OnTime(After(f, s, a))
  {
    hide Inv, Guard, Effect, LedgerFault, OnTime;
    if Guard(f, s, a).None? {
      EffectOnTime(f, s, a);
    }
  }

  lemma {:induction false} RunOnTime(f: Functions, s: State, acts: seq<Action>)
    requires Lawful(f) && Inv(f, s) && OnTime(s)
    ensures OnTime(Run(f, s, acts))
    decreases |acts|
  {
    hide Inv, After, OnTime;
    if acts != [] {
      AfterOnTime(f, s, acts[0]);
      StepSafe(f, s, acts[0]);
      RunOnTime(f, After(f, s, acts[0]), acts[1..]);
    }
  }

  /** From creation and whatever happens: Genesis lasts until TG at most, Formal trading exactly
      until TF, an hour later, and Core decides after TC, another hour later, unless a request has
      ended the market before. */
  lemma MarketHours(f: Functions, c: Config, acts: seq<Action>)
    requires Lawful(f) && CreateDemo(c).Ok?
    ensures var t := Run(f, CreateDemo(c).value, acts);
      && t.TC == c.TC as real && t.TF == t.TC - 3600.0 && t.TG == t.TF - 3600.0 && t.TG > 7200.0
      && t.rTarget == 4.2 * c.Q && t.k == c.k && t.early.bond == 500.0
      && (t.phase == FORMAL || t.phase == WAIT_CORE ==> (t.phase == FORMAL <==> t.now < t.TF))
      && (t.phase == GENESIS ==> t.now < t.TG) && (t.phase == FAILED ==> t.now >= t.TG)
      && (t.phase == SETTLED && t.now < t.TC ==> t.early.terminatedAt.Some?)
  {
    hide Inv, LedgerFault, Run;
    DemoStarts(f, c);
    RunSafe(f, CreateDemo(c).value, acts);
    RunOnTime(f, CreateDemo(c).value, acts);
  }
}
