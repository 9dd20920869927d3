/** Paying money out to an account, and handing out the official fees, keep the books. */
module KeepFees {
  import opened Maths
  import opened Wrappers
  import opened Sums
  import opened Accounts
  import opened Lmsr
  import opened Ledger
  import opened TopicMarket
  import opened Invariant

  function DueOf(a: Account, p: real): real {
    if a.coreClaimed then 0.0 else p
  }

  lemma {:induction false} CoreDueUpdate(xs: seq<Account>, ps: seq<real>, i: nat, a: Account)
    requires |xs| == |ps| && i < |xs|
    ensures CoreDue(xs[i := a], ps) == CoreDue(xs, ps) - DueOf(xs[i], ps[i]) + DueOf(a, ps[i])
  {
    if i == 0 {
      assert xs[i := a][1..] == xs[1..];
    } else {
      assert xs[i := a][1..] == xs[1..][i - 1 := a];
      CoreDueUpdate(xs[1..], ps[1..], i - 1, a);
    }
  }

  /** Two accounts that differ only in money received. */
  predicate SameButMoney(a: Account, c: Account) {
    c == a.(wallet := c.wallet, paid := c.paid, received := c.received)
  }

  lemma WalletSums(s: State, id: int, c: Account)
    requires Frame(s) && s.Has(id) && SameButMoney(s.accounts[id], c) && c.wallet >= 0.0
    ensures Frame(s.Put(id, c))
    ensures Total(s.Put(id, c)) == Total(s) - s.accounts[id].wallet + c.wallet
    ensures s.Put(id, c).Yes() == s.Yes() && s.Put(id, c).No() == s.No()
    ensures Sum(GTokens, s.Put(id, c).accounts) == Sum(GTokens, s.accounts)
    ensures Sum(LpTokens, s.Put(id, c).accounts) == Sum(LpTokens, s.accounts)
    ensures CoreSums(s) ==> CoreSums(s.Put(id, c))
    ensures forall o :: Sum(RewardFor(o), s.Put(id, c).accounts) == Sum(RewardFor(o), s.accounts)
  {
    hide Sum;
    assert GoodAccount(s.accounts[id]);
    assert forall o :: s.accounts[id].Earns(o) == c.Earns(o);
    SumUpdate(s.accounts, id, c);
  }

  lemma WalletKeepsSettled(s: State, id: int, c: Account)
    requires SettledBooks(s) && Frame(s) && s.Has(id) && SameButMoney(s.accounts[id], c) && c.wallet >= 0.0
    ensures SettledBooks(s.Put(id, c))
  {
    hide Sum, FixedRate;
    WalletSums(s, id, c);
    CoreDueUpdate(s.accounts, s.claims.corePayouts, id, c);
    assert FairPayout(s.result.value, s.accounts[id], s.claims.corePayouts[id]);
  }

  lemma WalletKeepsFormal(s: State, id: int, c: Account)
    requires FormalShell(s) && Frame(s) && s.Has(id) && SameButMoney(s.accounts[id], c) && c.wallet >= 0.0
    ensures FormalShell(s.Put(id, c))
  {
    hide Sum;
    WalletSums(s, id, c);
    forall o ensures FeeLedger(s.Put(id, c), o) {
      assert FeeLedger(s, o);
    }
  }

  /** Changing only an account's wallet changes no other sum and none of the phase books. */
  lemma WalletOnly(f: Functions, s: State, id: int, c: Account)
    requires Books(f, s) && s.Has(id) && SameButMoney(s.accounts[id], c) && c.wallet >= 0.0
    ensures Books(f, s.Put(id, c))
    ensures Total(s.Put(id, c)) == Total(s) - s.accounts[id].wallet + c.wallet
    ensures s.Put(id, c).Yes() == s.Yes() && s.Put(id, c).No() == s.No()
  {
    hide Sum, OnCurve, FixedRate, LmsrCash, Frame;
    WalletSums(s, id, c);
    if s.Trading() {
      WalletKeepsFormal(s, id, c);
      SamePosition(f, s, s.Put(id, c));
    } else if s.phase == SETTLED {
      WalletKeepsSettled(s, id, c);
    }
  }

  lemma ReceiveKeeps(f: Functions, s: State, id: int, n: real)
    requires Books(f, s) && s.Has(id) && n >= 0.0
    ensures Books(f, s.Receive(id, n))
    ensures Total(s.Receive(id, n)) == Total(s) + n
  {
    hide OnCurve, FixedRate, LmsrCash;
    assert GoodAccount(s.accounts[id]);
    WalletOnly(f, s, id, s.accounts[id].Receiving(n));
  }

  lemma DistributeCreatorKeeps(f: Functions, s: State)
    requires Inv(f, s) && s.Terminal()
    ensures Inv(f, DistributeCreator(s)) && DistributeCreator(s).Terminal()
  {
    hide Sum, OnCurve, FixedRate, FairPayouts, AllGood, AllIdle;
    if DistributeCreator(s) != s {
      ReceiveKeeps(f, s, s.creatorAccount, s.creatorFees);
      FairSame(s.Receive(s.creatorAccount, s.creatorFees), DistributeCreator(s));
    }
  }

  lemma FairSame(s: State, t: State)
    requires t.accounts == s.accounts && t.result == s.result && t.claims.corePayouts == s.claims.corePayouts
    ensures FairPayouts(s) ==> FairPayouts(t)
  {}

  lemma DistributeProtocolKeeps(f: Functions, t: State)
    requires Inv(f, t) && t.Terminal()
    ensures Inv(f, DistributeProtocol(t))
  {
    hide Sum, OnCurve, FixedRate, FairPayouts, AllGood, AllIdle;
    if t.protocolAccount >= 0 && t.Has(t.protocolAccount) {
      var n := t.protocolFees + t.claims.coreOfficialBudget;
      var u := t.(protocolFees := 0.0, claims := t.claims.(coreOfficialBudget := 0.0));
      FairSame(t, u);
      assert Books(f, u);
      if n > 0.0 {
        ReceiveKeeps(f, u, t.protocolAccount, n);
      }
    }
  }

  /** The official accounts receive exactly what leaves the fee buckets. */
  lemma DistributeKeeps(f: Functions, s: State)
    requires Inv(f, s) && s.Terminal()
    ensures Inv(f, DistributeOfficialFees(s))
  {
    hide Inv, DistributeCreator, DistributeProtocol;
    DistributeCreatorKeeps(f, s);
    DistributeProtocolKeeps(f, DistributeCreator(s));
  }
}
