/** What orders, the end of the market and collecting mean for the traders of the lifecycle demo,
    in terms of what they hold. */
module LifecycleTerms {
  import opened Maths
  import opened Wrappers
  import opened Sums
  import opened Accounts
  import opened Ledger
  import opened ExpLog
  import opened LifecycleCurve
  import opened Lifecycle
  import opened LifecycleSafe
  import opened LifecycleRuns

  function Portion(amount: real, part: real, whole: real): real {
    if whole > 0.0 then amount * part / whole else 0.0
  }

  // ---- the end of the market ----

  /** What the result is worth to a holder of these shares. */
  function Worth(o: Outcome, yes: real, no: real): real {
    match o
    case YES => yes
    case NO => no
    case INVALID => (yes + no) / 2.0
  }

  ghost predicate ResolvedTo(m: Market, o: Outcome, xs: seq<Trader>, ps: seq<Payout>) {
    && |ps| == |xs|
    && var rest := m.R - Worth(o, Sum(YesOf, xs), Sum(NoOf, xs));
    && rest >= 0.0
    && forall i :: 0 <= i < |xs| ==>
         && ps[i].shares == Worth(o, xs[i].shares.yes, xs[i].shares.no)
         && ps[i].capital == Portion(rest, xs[i].credit, Sum(CreditOf, xs))
         && ps[i].reward == xs[i].reward
  }

  /** A published result pays each share what it is worth, contributors the rest of the reserve in
      proportion, and everybody the rewards earned. */
  lemma ResultPays(c: Curves, m: Market, o: Outcome)
    requires Exponential(c) && Inv(c, m) && PublishResult(m, o).Ok?
    ensures var n := PublishResult(m, o).value;
      && m.phase == WAIT_CORE && n.payouts.Some? && ResolvedTo(m, o, m.accounts, n.payouts.value)
      && n == m.(phase := SETTLED, result := Some(o), now := m.now + 30.0, payouts := n.payouts)
  {
    hide Sum, Cost, ProRata;
    CostAboveMax(c, m.q, m.b);
    assert Max(m.q.yes, m.q.no) >= (m.q.yes + m.q.no) / 2.0;
    forall i | 0 <= i < |m.accounts|
      ensures PayoutOf(m, Some(o), m.accounts[i]).capital
           == Portion(m.R - Debt(m.q, Some(o)), m.accounts[i].credit, Sum(CreditOf, m.accounts))
    {
      PortionIs(m.R - Debt(m.q, Some(o)), m.accounts[i].credit, Sum(CreditOf, m.accounts));
    }
  }

  lemma PortionIs(amount: real, part: real, whole: real)
    ensures Portion(amount, part, whole) == if whole > 0.0 then ProRata(amount, part, whole) else 0.0
  {}

  ghost predicate Refunded(m: Market, xs: seq<Trader>, ps: seq<Payout>) {
    && |ps| == |xs|
    && forall i :: 0 <= i < |xs| ==>
         && ps[i].shares == Portion(m.T, xs[i].shares.yes + xs[i].shares.no, Sum(YesOf, xs) + Sum(NoOf, xs))
         && ps[i].capital == Portion(m.L, xs[i].credit, Sum(CreditOf, xs)) && ps[i].reward == 0.0
  }

  /** Time passes in an open market until its deadline and stops there: Genesis then fails and
      refunds pool and contributions in proportion, Formal trading closes and waits for the result. */
  lemma TimePasses(c: Curves, m: Market, seconds: real)
    requires Exponential(c) && Inv(c, m) && AdvanceTime(m, seconds).Ok?
    ensures var n := AdvanceTime(m, seconds).value;
      && seconds >= 0.0
      && match m.phase
         case CREATE => n == m
         case GENESIS =>
           if m.now + seconds < m.deadline then n == m.(now := m.now + seconds)
           else n == m.(now := m.deadline, phase := FAILED, payouts := n.payouts)
                && n.payouts.Some? && Refunded(m, m.accounts, n.payouts.value)
         case FORMAL =>
           if m.now + seconds < m.deadline then n == m.(now := m.now + seconds)
           else n == m.(now := m.deadline, phase := WAIT_CORE)
         case _ => n == m.(now := m.now + seconds)
  {
    hide Sum, Potential, ProRata;
    if m.phase == GENESIS && m.now + seconds >= m.deadline {
      forall i | 0 <= i < |m.accounts|
        ensures var a, p := m.accounts[i], PayoutOf(m, None, m.accounts[i]);
          && p.shares == Portion(m.T, a.shares.yes + a.shares.no, m.q.yes + m.q.no)
          && p.capital == Portion(m.L, a.credit, Sum(CreditOf, m.accounts)) && p.reward == 0.0
      {
        PortionIs(m.T, m.accounts[i].shares.yes + m.accounts[i].shares.no, m.q.yes + m.q.no);
        PortionIs(m.L, m.accounts[i].credit, Sum(CreditOf, m.accounts));
      }
      SamePayouts(m, m.(now := m.deadline, phase := FAILED), None, m.accounts);
    }
  }

  /** Collecting pays a trader's three parts once, out of the reserve and the capital fees. */
  lemma CollectPays(c: Curves, m: Market, owner: int)
    requires Exponential(c) && Inv(c, m) && ClaimPayout(c, m, owner).Ok?
    ensures var n := ClaimPayout(c, m, owner).value;
      && (m.phase == SETTLED || m.phase == FAILED) && m.Has(owner) && !m.accounts[owner].claimed
      && m.payouts.Some? && owner < |m.payouts.value| && |n.accounts| == |m.accounts|
      && var p, a := m.payouts.value[owner], m.accounts[owner];
      && n.accounts[owner] == a.(wallet := a.wallet + p.shares + p.capital + p.reward,
                                 received := a.received + p.shares + p.capital + p.reward, claimed := true)
      && (forall j :: 0 <= j < |m.accounts| && j != owner ==> n.accounts[j] == m.accounts[j])
      && n.R == m.R - p.shares - p.capital && n.fees == m.fees.(capital := m.fees.capital - p.reward)
      && n.phase == m.phase && n.payouts == m.payouts && n.result == m.result
  {
    hide LedgerHolds, Sum;
    CollectCovered(c, m, owner);
  }

  lemma {:induction false} DueCovers(part: Part, xs: seq<Trader>, ps: seq<Payout>, i: nat)
    requires |xs| == |ps| && i < |xs| && !xs[i].claimed
    requires forall j :: 0 <= j < |ps| ==> PartOf(part, ps[j]) >= 0.0
    ensures PartOf(part, ps[i]) <= Due(part, xs, ps)
  {
    if i == 0 {
      DueNonNegative(part, xs[1..], ps[1..]);
    } else {
      assert xs[1..][i - 1] == xs[i] && ps[1..][i - 1] == ps[i];
      DueCovers(part, xs[1..], ps[1..], i - 1);
      assert PartOf(part, ps[0]) >= 0.0;
    }
  }

  lemma CollectCovered(c: Curves, m: Market, owner: int)
    requires Inv(c, m) && (m.phase == SETTLED || m.phase == FAILED) && m.Has(owner) && !m.accounts[owner].claimed
    ensures m.payouts.Some? && owner < |m.payouts.value|
    ensures var p := m.payouts.value[owner]; p.shares + p.capital <= m.R && p.reward <= m.fees.capital
  {
    hide Sum, Due, Money;
    forall part ensures PartOf(part, m.payouts.value[owner]) <= Due(part, m.accounts, m.payouts.value) {
      DueCovers(part, m.accounts, m.payouts.value, owner);
    }
    assert PartOf(SHARES_PART, m.payouts.value[owner]) <= Due(SHARES_PART, m.accounts, m.payouts.value);
    assert PartOf(CAPITAL_PART, m.payouts.value[owner]) <= Due(CAPITAL_PART, m.accounts, m.payouts.value);
    assert PartOf(REWARD_PART, m.payouts.value[owner]) <= Due(REWARD_PART, m.accounts, m.payouts.value);
  }

  // ---- orders ----

  /** A fee of which the part for Formal volume `formal` is split 70:20:10 between Core, contributors
      and the protocol; the part for Genesis volume `open` is the protocol's. Contributors share
      theirs in proportion to what they contributed. */
  ghost predicate FeeSplit(m: Market, n: Market, open: real, formal: real) {
    && n.fees.core == m.fees.core + 0.007 * formal
    && n.fees.capital == m.fees.capital + 0.002 * formal
    && n.fees.protocol == m.fees.protocol + 0.01 * open + 0.001 * formal
    && |n.accounts| == |m.accounts|
    && forall j :: 0 <= j < |m.accounts| ==>
         n.accounts[j].reward
         == m.accounts[j].reward + Portion(0.002 * formal, m.accounts[j].credit, Sum(CreditOf, m.accounts))
  }

  /** Nobody but the owner trades; the others at most earn rewards. */
  ghost predicate OthersKeep(m: Market, n: Market, owner: int) {
    && |n.accounts| == |m.accounts|
    && forall j :: 0 <= j < |m.accounts| && j != owner ==>
         n.accounts[j] == m.accounts[j].(reward := n.accounts[j].reward)
  }

  ghost predicate BuyTerms(m: Market, n: Market, owner: int, side: Outcome, amount: real) {
    && m.Has(owner) && OthersKeep(m, n, owner)
    && var a, b := m.accounts[owner], n.accounts[owner];
    && var paid, formal := a.wallet - b.wallet, m.phase == FORMAL;
    && 0.0 < paid <= amount && (formal || n.phase == GENESIS ==> paid == amount) && b.paid == a.paid + paid
    && n.R == m.R + 0.99 * paid
    && b.credit == a.credit + (if formal then 0.0 else 0.09 * paid)
    && (n.phase == GENESIS ==> n.T == m.T + 0.9 * paid && n.L == m.L + 0.09 * paid)
    && (n.phase == FORMAL ==> n.T == n.R && n.L == 0.0)
    && FeeSplit(m, n, if formal then 0.0 else paid, if formal then paid else 0.0)
    && n.q.At(side) > m.q.At(side) && n.q.Other(side) == m.q.Other(side)
    && b.shares.At(side) - a.shares.At(side) == n.q.At(side) - m.q.At(side)
    && b.shares.Other(side) == a.shares.Other(side)
  }

  /** Cash on the Genesis curve between two quantities of one side: 0.009 b (exp(to / b) - exp(from / b)). */
  function GenesisCash(c: Curves, b: Depth, from: real, to: real): real {
    0.009 * b * (c.exp(to / b) - c.exp(from / b))
  }

  function JointWeight(c: Curves, b: Depth, q: Pair): real {
    c.exp(q.yes / b) + c.exp(q.no / b)
  }

  /** The joint curve: b ln(exp(yes / b) + exp(no / b)). */
  function JointCost(c: Curves, b: Depth, q: Pair): real {
    b * c.ln(JointWeight(c, b, q))
  }

  /** Nine tenths of a Genesis payment are the cash of the curve passed, 99% of a Formal one the rise
      of the joint cost; and a graduating order leaves the reserve at the joint cost or above, and
      0.009 times the weight at one or below. */
  ghost predicate BuyPriced(c: Curves, m: Market, n: Market, owner: int, side: Outcome) {
    && m.Has(owner) && n.Has(owner)
    && var paid := m.accounts[owner].wallet - n.accounts[owner].wallet;
    && (m.phase == GENESIS ==> GenesisCash(c, m.b, m.q.At(side), n.q.At(side)) == 0.9 * paid)
    && (m.phase == FORMAL ==> JointCost(c, m.b, n.q) - JointCost(c, m.b, m.q) == 0.99 * paid)
    && (m.phase == GENESIS && n.phase == FORMAL ==>
          n.R >= JointCost(c, m.b, n.q) && 0.009 * JointWeight(c, m.b, n.q) <= 1.0)
  }

  /** What leaves the reserve in a sale is the cash of the Genesis curve passed, or the fall of the
      joint cost. */
  ghost predicate SalePriced(c: Curves, m: Market, n: Market, side: Outcome) {
    && (n.phase == GENESIS ==> GenesisCash(c, m.b, n.q.At(side), m.q.At(side)) == m.R - n.R)
    && (m.phase == FORMAL ==> JointCost(c, m.b, m.q) - JointCost(c, m.b, n.q) == m.R - n.R)
  }

  lemma ChargeSplits(m: Market, fee: real, formal: bool)
    requires Charged(m, fee, formal).Ok?
    ensures var n := Charged(m, fee, formal).value;
      && n == m.(fees := n.fees, accounts := n.accounts) && |n.accounts| == |m.accounts|
      && n.fees.core == m.fees.core + (if formal then 0.7 * fee else 0.0)
      && n.fees.capital == m.fees.capital + (if formal then 0.2 * fee else 0.0)
      && n.fees.protocol == m.fees.protocol + (if formal then 0.1 * fee else fee)
      && (forall j :: 0 <= j < |m.accounts| ==> n.accounts[j] == m.accounts[j].(reward := n.accounts[j].reward))
      && forall j :: 0 <= j < |m.accounts| ==>
           n.accounts[j].reward
           == m.accounts[j].reward
              + Portion(if formal then 0.2 * fee else 0.0, m.accounts[j].credit, Sum(CreditOf, m.accounts))
  {
    hide Sum, ProRata, Portion;
    var n, Z := Charged(m, fee, formal).value, Sum(CreditOf, m.accounts);
    forall j | 0 <= j < |m.accounts|
      ensures n.accounts[j].reward
           == m.accounts[j].reward + Portion(if formal then 0.2 * fee else 0.0, m.accounts[j].credit, Z)
    {
      PortionIs(0.2 * fee, m.accounts[j].credit, Z);
      NoPortion(m.accounts[j].credit, Z);
    }
  }

  lemma NoPortion(part: real, whole: real)
    ensures Portion(0.0, part, whole) == 0.0
  {}

  lemma BuyDivides(c: Curves, m: Market, owner: int, side: Outcome, amount: real)
    requires Exponential(c) && Inv(c, m) && Trade(c, m, owner, side, BUY, amount).Ok?
    ensures BuyTerms(m, Trade(c, m, owner, side, BUY, amount).value.next, owner, side, amount)
  {
    hide Sum, Cost, Potential, BuyStop, BuyReaches, BuyTarget, LedgerHolds, Charged, Exponential, Eligible, Portion;
    OrderSafe(c, m, owner, side, BUY, amount);
    var actual := BuyStop(c, m, side, amount);
    BuyStopBounds(c, m, side, amount);
    BuyDelivers(c, m, side, actual);
    var q := BuyTarget(c, m, side, actual).value;
    var u := Paid(m, owner, side, q, actual);
    ChargeSplits(u, 0.01 * actual, m.phase == FORMAL);
    WholeUnlessReached(c, m, side, amount);
    var n := Trade(c, m, owner, side, BUY, amount).value.next;
    var formal := if m.phase == FORMAL then actual else 0.0;
    forall j | 0 <= j < |m.accounts|
      ensures n.accounts[j].reward
           == m.accounts[j].reward + Portion(0.002 * formal, m.accounts[j].credit, Sum(CreditOf, m.accounts))
    {
      if m.phase == FORMAL {
        SumSame(CreditOf, m.accounts, CreditOf, u.accounts);
        assert 0.2 * (0.01 * actual) == 0.002 * formal;
      } else {
        NoPortion(u.accounts[j].credit, Sum(CreditOf, u.accounts));
        NoPortion(m.accounts[j].credit, Sum(CreditOf, m.accounts));
      }
    }
  }

  lemma WholeUnlessReached(c: Curves, m: Market, side: Outcome, amount: real)
    ensures !BuyReaches(c, m, side, amount) ==> BuyStop(c, m, side, amount) == amount
    ensures m.phase == FORMAL ==> !BuyReaches(c, m, side, amount)
  {}

  /** A sale worth `gross` before fees, `formal` of it sold on the joint curve. */
  ghost predicate SaleTerms(m: Market, n: Market, gross: real, formal: real, end: Pair) {
    && 0.0 <= formal <= gross && (m.phase == FORMAL ==> formal == gross) && (n.phase == GENESIS ==> formal == 0.0)
    && n.R == m.R - gross && n.q == end && FeeSplit(m, n, gross - formal, formal)
    && (n.phase == GENESIS ==> n.T == m.T - gross && n.L == m.L)
    && (n.phase == GENESIS || n.phase == FORMAL)
    && forall j :: 0 <= j < |m.accounts| ==> n.accounts[j] == m.accounts[j].(reward := n.accounts[j].reward)
  }

  ghost predicate SellTerms(m: Market, n: Market, owner: int, side: Outcome, amount: real) {
    && m.Has(owner) && OthersKeep(m, n, owner)
    && var a, b := m.accounts[owner], n.accounts[owner];
    && var gross := (b.wallet - a.wallet) / 0.99;
    && var formal := (n.fees.core - m.fees.core) / 0.007;
    && 0.0 <= formal <= gross && (m.phase == FORMAL ==> formal == gross) && (n.phase == GENESIS ==> formal == 0.0)
    && n.R == m.R - gross && FeeSplit(m, n, gross - formal, formal)
    && b.received == a.received + 0.99 * gross && b.paid == a.paid && b.credit == a.credit
    && b.shares.At(side) == a.shares.At(side) - amount && b.shares.Other(side) == a.shares.Other(side)
    && n.q.At(side) == m.q.At(side) - amount && n.q.Other(side) == m.q.Other(side)
  }

  lemma FormalSaleTerms(c: Curves, m: Market, end: Pair)
    requires m.phase == FORMAL && SoldOnFormal(c, m, end).Ok? && SoldOnFormal(c, m, end).value.1 >= 0.0
    ensures var r := SoldOnFormal(c, m, end).value; SaleTerms(m, r.0, r.1, r.1, end)
  {
    hide Sum, Cost, Charged, Portion;
    var gross := Cost(c, m.q, m.b) - Cost(c, end, m.b);
    ChargeSplits(Withdrawn(m, gross, end), 0.01 * gross, true);
    assert 0.2 * (0.01 * gross) == 0.002 * gross;
  }

  lemma OpenSaleTerms(m: Market, cash: real, mid: Pair)
    requires m.phase == GENESIS && cash >= 0.0 && Charged(Withdrawn(m, cash, mid), 0.01 * cash, false).Ok?
    ensures SaleTerms(m, Charged(Withdrawn(m, cash, mid), 0.01 * cash, false).value, cash, 0.0, mid)
    ensures Charged(Withdrawn(m, cash, mid), 0.01 * cash, false).value.phase == GENESIS
  {
    hide Sum, Charged, Portion;
    ChargeSplits(Withdrawn(m, cash, mid), 0.01 * cash, false);
  }

  /** The rest of a graduating sale is sold on the joint curve. */
  lemma RestTerms(m: Market, g: Market, cash: real, rest: real, mid: Pair, end: Pair)
    requires SaleTerms(m, g.(phase := GENESIS, T := m.T - cash, L := m.L), cash, 0.0, mid) && g.phase == FORMAL
    requires rest >= 0.0 && Charged(Withdrawn(g, rest, end), 0.01 * rest, true).Ok?
    requires m.phase == GENESIS
    ensures SaleTerms(m, Charged(Withdrawn(g, rest, end), 0.01 * rest, true).value, cash + rest, rest, end)
  {
    hide Sum, Charged, Portion;
    var u := Withdrawn(g, rest, end);
    ChargeSplits(u, 0.01 * rest, true);
    SumSame(CreditOf, m.accounts, CreditOf, u.accounts);
    assert 0.2 * (0.01 * rest) == 0.002 * rest && 0.002 * 0.0 == 0.0;
    forall j | 0 <= j < |m.accounts| ensures g.accounts[j].reward == m.accounts[j].reward {
      NoPortion(m.accounts[j].credit, Sum(CreditOf, m.accounts));
    }
  }

  lemma GenesisSaleTerms(c: Curves, m: Market, side: Outcome, qty: real) returns (formal: real)
    requires m.phase == GENESIS && SoldOnGenesis(c, m, side, qty).Ok?
    ensures var r := SoldOnGenesis(c, m, side, qty).value; SaleTerms(m, r.0, r.1, formal, SellPoint(m.q, side, qty))
  {
    hide Sum, Cost, Charged, SaleTerms, Potential, Eligible, SellPoint, Gate;
    var stop := SellStop(c, m, side, qty);
    var end, mid := SellPoint(m.q, side, qty), SellPoint(m.q, side, stop);
    var cash := SellCash(c, m.q, m.b, side, stop);
    var n := Charged(Withdrawn(m, cash, mid), 0.01 * cash, false).value;
    OpenSaleTerms(m, cash, mid);
    if SellReaches(c, m, side, qty) {
      var g := Graduate(c, n).value;
      formal := Max(0.0, Cost(c, mid, m.b) - Cost(c, end, m.b));
      SameSale(m, n, g, cash, mid);
      RestTerms(m, g, cash, formal, mid, end);
    } else {
      formal := 0.0;
    }
  }

  lemma SameSale(m: Market, n: Market, g: Market, cash: real, mid: Pair)
    requires SaleTerms(m, n, cash, 0.0, mid) && n.phase == GENESIS
    requires g == n.(phase := g.phase, surplus := g.surplus, T := g.T, L := g.L)
    ensures SaleTerms(m, g.(phase := GENESIS, T := m.T - cash, L := m.L), cash, 0.0, mid)
  {
    hide Sum, Portion;
  }

  lemma PaidSaleTerms(m: Market, n: Market, owner: int, side: Outcome, amount: real, gross: real, formal: real,
      end: Pair)
    requires SaleTerms(m, n, gross, formal, end) && m.Has(owner) && n.Has(owner) && side != INVALID
    requires 0.0 < amount <= m.accounts[owner].shares.At(side) && end == SellPoint(m.q, side, amount)
    requires amount <= m.q.At(side)
    ensures SellTerms(m, PaidOut(n, owner, side, amount, gross), owner, side, amount)
  {
    hide Sum, Portion;
    var t := PaidOut(n, owner, side, amount, gross);
    assert (t.accounts[owner].wallet - m.accounts[owner].wallet) / 0.99 == gross;
    assert (t.fees.core - m.fees.core) / 0.007 == formal;
  }

  lemma SellDivides(c: Curves, m: Market, owner: int, side: Outcome, amount: real)
    requires Exponential(c) && Inv(c, m) && Trade(c, m, owner, side, SELL, amount).Ok?
    ensures SellTerms(m, Trade(c, m, owner, side, SELL, amount).value.next, owner, side, amount)
  {
    hide Sum, Cost, Potential, LedgerHolds, Charged, Exponential, SoldOnGenesis, SoldOnFormal, PaidOut, SaleTerms,
      SellTerms, Inv, SaleBooks;
    SaleAccepted(c, m, owner, side, amount);
    assert Frame(m) by { Framed(c, m); }
    HoldingInPosition(m, owner, side);
    SellKeeps(c, m, owner, side, amount);
    var s := Sold(c, m, owner, side, amount).value;
    var end := SellPoint(m.q, side, amount);
    var formal := s.1;
    if m.phase == FORMAL {
      GrossNonNegative(c, m, s.0, s.1, end);
      FormalSaleTerms(c, m, end);
    } else {
      formal := GenesisSaleTerms(c, m, side, amount);
    }
    PaidSaleTerms(m, s.0, owner, side, amount, s.1, formal, end);
  }

  lemma Framed(c: Curves, m: Market)
    requires Inv(c, m)
    ensures Frame(m)
  {}

  lemma SaleAccepted(c: Curves, m: Market, owner: int, side: Outcome, amount: real)
    requires Trade(c, m, owner, side, SELL, amount).Ok?
    ensures TradeFault(m, owner, side, amount).None? && amount <= m.accounts[owner].shares.At(side)
    ensures Sold(c, m, owner, side, amount).Ok?
    ensures var s := Sold(c, m, owner, side, amount).value;
      Trade(c, m, owner, side, SELL, amount).value.next == PaidOut(s.0, owner, side, amount, s.1)
  {
    hide LedgerHolds, SoldOnGenesis, SoldOnFormal, PaidOut;
  }

  lemma GrossNonNegative(c: Curves, m: Market, n: Market, gross: real, end: Pair)
    requires SaleBooks(c, m, n, gross, end)
    ensures gross >= 0.0
  {}

  lemma PotentialIsCash(c: Curves, b: Depth, from: Pair, to: Pair, side: Outcome)
    requires side != INVALID && to.Other(side) == from.Other(side)
    ensures Potentials(c, to, b) - Potentials(c, from, b) == GenesisCash(c, b, from.At(side), to.At(side))
  {
    Distribute(Slope(b), c.exp(to.At(side) / b) - 1.0, c.exp(from.At(side) / b) - 1.0);
  }

  lemma BuyAtPrice(c: Curves, m: Market, owner: int, side: Outcome, amount: real)
    requires Exponential(c) && Inv(c, m) && Trade(c, m, owner, side, BUY, amount).Ok?
    ensures BuyPriced(c, m, Trade(c, m, owner, side, BUY, amount).value.next, owner, side)
  {
    hide Sum, Cost, Potential, BuyStop, BuyReaches, BuyTarget, LedgerHolds, Charged, Exponential, GenesisCash,
      FeeSplit, JointCost;
    var n := Trade(c, m, owner, side, BUY, amount).value.next;
    BuyDivides(c, m, owner, side, amount);
    var actual := BuyStop(c, m, side, amount);
    BuyStopBounds(c, m, side, amount);
    BuyDelivers(c, m, side, actual);
    var q := BuyTarget(c, m, side, actual).value;
    ChargeSplits(Paid(m, owner, side, q, actual), 0.01 * actual, m.phase == FORMAL);
    PotentialIsCash(c, m.b, m.q, q, side);
    CostIsLog(c, m.q, m.b);
    CostIsLog(c, q, m.b);
    CostIsJoint(c, m.q, m.b);
    CostIsJoint(c, q, m.b);
  }

  lemma CostIsJoint(c: Curves, q: Pair, b: Depth)
    requires Exponential(c)
    ensures JointCost(c, b, q) == Cost(c, q, b) && JointWeight(c, b, q) == Weight(c, q, b)
  {
    hide Cost;
    CostIsLog(c, q, b);
  }

  lemma SaleAtPrice(c: Curves, m: Market, owner: int, side: Outcome, amount: real)
    requires Exponential(c) && Inv(c, m) && Trade(c, m, owner, side, SELL, amount).Ok?
    ensures SalePriced(c, m, Trade(c, m, owner, side, SELL, amount).value.next, side)
  {
    hide Sum, Cost, Potential, LedgerHolds, Exponential, GenesisCash, FeeSplit, JointCost, Trade;
    var n := Trade(c, m, owner, side, SELL, amount).value.next;
    SellDivides(c, m, owner, side, amount);
    OrderSafe(c, m, owner, side, SELL, amount);
    SaleStays(c, m, owner, side, amount);
    CostIsJoint(c, m.q, m.b);
    CostIsJoint(c, n.q, m.b);
    if n.phase == GENESIS {
      PotentialIsCash(c, m.b, n.q, m.q, side);
    }
  }

  lemma SaleStays(c: Curves, m: Market, owner: int, side: Outcome, amount: real)
    requires Trade(c, m, owner, side, SELL, amount).Ok?
    ensures var n := Trade(c, m, owner, side, SELL, amount).value.next;
      && side != INVALID && n.b == m.b && (m.phase == GENESIS || m.phase == FORMAL)
      && (m.phase == FORMAL ==> n.phase == FORMAL && n.surplus == m.surplus)
      && (n.phase == GENESIS ==> m.phase == GENESIS && n.L == m.L)
  {
    hide Sum, Cost, Potential, LedgerHolds, RewardAll, Eligible, Gate, SellCash;
  }

  // ---- the ledger every order and claim returns ----

  /** All money is the 30000 of the three traders, and the reserve fits the curve of the phase. */
  ghost predicate AddsUp(c: Curves, m: Market) {
    && Sum(WalletOf, m.accounts) + m.R + m.fees.core + m.fees.capital + m.fees.protocol + m.externalCash == 30000.0
    && m.R >= 0.0 && m.T >= 0.0 && m.L >= 0.0 && m.externalCash >= 0.0 && m.R == m.T + m.L
    && (m.phase == GENESIS ==>
          m.T == 0.009 * m.b * (c.exp(m.q.yes / m.b) - 1.0) + 0.009 * m.b * (c.exp(m.q.no / m.b) - 1.0))
    && (m.phase == FORMAL ==>
          m.surplus.Some? && m.surplus.value >= 0.0 && m.R == JointCost(c, m.b, m.q) + m.surplus.value)
  }

  lemma LedgerAddsUp(c: Curves, m: Market)
    requires Exponential(c) && LedgerHolds(c, m)
    ensures AddsUp(c, m)
  {
    hide Sum, Cost, Exponential;
    CostIsJoint(c, m.q, m.b);
  }

  /** From any market whatever, good books or not, an order or a claim returns only one that adds up. */
  lemma ResultAddsUp(c: Curves, m: Market, a: Move)
    requires Exponential(c) && (a.Order? || a.Collect?) && Step(c, m, a).Ok?
    ensures AddsUp(c, Step(c, m, a).value)
  {
    hide LedgerHolds, AddsUp, Bought, Sold, PaidOut, Lifecycle.Claimed, Exponential;
    LedgerAddsUp(c, Step(c, m, a).value);
  }

  // ---- when a request is accepted ----

  predicate Acceptable(m: Market, a: Move) {
    match a
    case Create => m.phase == CREATE
    case Order(owner, side, mode, amount) =>
      && (m.phase == GENESIS || m.phase == FORMAL) && m.now < m.deadline && m.Has(owner) && side != INVALID
      && 0.0 < amount <= (if mode == BUY then m.accounts[owner].wallet
                          else if side == YES then m.accounts[owner].shares.yes else m.accounts[owner].shares.no)
    case Wait(seconds) => seconds >= 0.0
    case Publish(_) => m.phase == WAIT_CORE
    case Collect(owner) =>
      (m.phase == SETTLED || m.phase == FAILED) && m.Has(owner) && !m.accounts[owner].claimed
  }

  lemma OrderAccepted(c: Curves, m: Market, owner: int, side: Outcome, mode: Mode, amount: real)
    requires Exponential(c) && Inv(c, m)
    ensures Trade(c, m, owner, side, mode, amount).Ok? <==> Acceptable(m, Order(owner, side, mode, amount))
  {
    hide Inv, Trade;
    if TradeFault(m, owner, side, amount).Some? {
      TradeRefused(c, m, owner, side, mode, amount);
    } else if mode == BUY {
      BuyOrder(c, m, owner, side, amount);
    } else {
      SellOrder(c, m, owner, side, amount);
    }
  }

  lemma CollectAccepted(c: Curves, m: Market, owner: int)
    requires Exponential(c) && Inv(c, m)
    ensures ClaimPayout(c, m, owner).Ok? <==> Acceptable(m, Collect(owner))
  {
    if Acceptable(m, Collect(owner)) {
      hide Inv, LedgerHolds, Lifecycle.Claimed;
      CollectKeeps(c, m, owner);
      GuardSilent(c, Lifecycle.Claimed(m, owner, m.payouts.value[owner]));
    }
  }

  lemma PublishAccepted(c: Curves, m: Market, o: Outcome)
    requires Exponential(c) && Inv(c, m)
    ensures PublishResult(m, o).Ok? <==> m.phase == WAIT_CORE
  {
    hide Inv;
    if m.phase == WAIT_CORE {
      PublishKeeps(c, m, o);
    }
  }

  /** In every reachable state a request succeeds exactly when its requester has what it asks to
      spend, sell or collect, and the phase and the clock allow it. */
  lemma AcceptedExactly(c: Curves, m: Market, a: Move)
    requires Exponential(c) && Inv(c, m)
    ensures Step(c, m, a).Ok? <==> Acceptable(m, a)
  {
    hide Inv, Trade, ClaimPayout, PublishResult, TerminalPayouts;
    match a {
      case Order(owner, side, mode, amount) => OrderAccepted(c, m, owner, side, mode, amount);
      case Publish(o) => PublishAccepted(c, m, o);
      case Collect(owner) => CollectAccepted(c, m, owner);
      case Create =>
      case Wait(seconds) => WaitAccepted(m, seconds);
    }
  }

  lemma WaitAccepted(m: Market, seconds: real)
    ensures AdvanceTime(m, seconds).Ok? <==> seconds >= 0.0
  {}

  /** What each error says. */
  predicate Reason(m: Market, a: Move, e: Refusal) {
    match e
    case WRONG_PHASE =>
      (match a
       case Create => m.phase != CREATE
       case Publish(_) => m.phase != WAIT_CORE
       case Collect(owner) => (m.phase != SETTLED && m.phase != FAILED) || !m.Has(owner)
       case _ => false)
    case CLOSED => a.Order? && ((m.phase != GENESIS && m.phase != FORMAL) || m.now >= m.deadline)
    case BAD_AMOUNT => a.Order? && (!m.Has(a.owner) || a.amount <= 0.0 || a.side == INVALID)
    case NO_BALANCE => a.Order? && a.mode == BUY && m.Has(a.owner) && a.amount > m.accounts[a.owner].wallet
    case SHARES =>
      && a.Order? && a.mode == SELL && m.Has(a.owner)
      && a.amount > if a.side == YES then m.accounts[a.owner].shares.yes else m.accounts[a.owner].shares.no
    case WRONG_TIME => a.Wait? && a.seconds < 0.0
    case CLAIMED => a.Collect? && m.Has(a.owner) && m.accounts[a.owner].claimed
    case _ => false
  }

  lemma OrderReason(c: Curves, m: Market, a: Move)
    requires Exponential(c) && Inv(c, m) && a.Order? && Step(c, m, a).Err?
    ensures Reason(m, a, Step(c, m, a).error)
  {
    hide Inv, Trade;
    var Order(owner, side, mode, amount) := a;
    if TradeFault(m, owner, side, amount).Some? {
      TradeRefused(c, m, owner, side, mode, amount);
    } else if mode == BUY {
      BuyOrder(c, m, owner, side, amount);
    } else {
      SellOrder(c, m, owner, side, amount);
    }
  }

  lemma CollectReason(c: Curves, m: Market, owner: int)
    requires Exponential(c) && Inv(c, m) && ClaimPayout(c, m, owner).Err?
    ensures Reason(m, Collect(owner), ClaimPayout(c, m, owner).error)
  {
    CollectAccepted(c, m, owner);
    assert m.phase == SETTLED || m.phase == FAILED ==> m.payouts.Some? && |m.payouts.value| == |m.accounts|;
    hide Inv, LedgerHolds, Lifecycle.Claimed;
  }

  /** In every reachable state, the error a request is refused with is true of it. */
  lemma RefusalTrue(c: Curves, m: Market, a: Move)
    requires Exponential(c) && Inv(c, m) && Step(c, m, a).Err?
    ensures Reason(m, a, Step(c, m, a).error)
  {
    hide Inv, Trade, ClaimPayout, TerminalPayouts;
    match a {
      case Order(_, _, _, _) => OrderReason(c, m, a);
      case Publish(o) => PublishAccepted(c, m, o);
      case Collect(owner) => CollectReason(c, m, owner);
      case Create =>
      case Wait(seconds) => WaitAccepted(m, seconds);
    }
  }

  // ---- the hours of a market ----

  /** A market is open before second 300 and closed from then on. */
  predicate OnTime(m: Market) {
    && m.deadline == 300.0
    && (m.phase == CREATE ==> m.now == 0.0)
    && (m.phase == GENESIS || m.phase == FORMAL ==> m.now < 300.0)
    && (m.phase == WAIT_CORE || m.phase == FAILED || m.phase == SETTLED ==> m.now >= 300.0)
  }

  lemma OrderOnTime(c: Curves, m: Market, a: Move)
    requires a.Order? && OnTime(m)
    ensures OnTime(After(c, m, a))
  {
    hide Sum, Cost, LedgerHolds, QuantityAtCost, RewardAll, Eligible, Potential, Gate;
  }

  lemma {:induction false} RunOnTime(c: Curves, m: Market, moves: seq<Move>)
    requires OnTime(m)
    ensures OnTime(Run(c, m, moves))
    decreases |moves|
  {
    if moves != [] {
      StepOnTime(c, m, moves[0]);
      RunOnTime(c, After(c, m, moves[0]), moves[1..]);
    }
  }

  lemma StepOnTime(c: Curves, m: Market, a: Move)
    requires OnTime(m)
    ensures OnTime(After(c, m, a))
  {
    hide Trade, LedgerHolds, PayoutsOf;
    if a.Order? {
      OrderOnTime(c, m, a);
    }
  }

  /** Whatever is requested of a new market of any depth, it is open until second 300 and no longer. */
  lemma MarketHours(c: Curves, b: real, moves: seq<Move>)
    requires NewMarket(b).Ok?
    ensures var t := Run(c, NewMarket(b).value, moves);
      && (t.phase == GENESIS || t.phase == FORMAL ==> t.now < 300.0)
      && (t.phase == WAIT_CORE || t.phase == FAILED || t.phase == SETTLED ==> t.now >= 300.0)
  {
    hide Run;
    RunOnTime(c, NewMarket(b).value, moves);
  }
}
