/** Routing an action through a stable-coin wallet at a fixed rate. */
module StockRouting {
  import opened Maths
  import opened Wrappers
  import opened Sums
  import opened Accounts
  import opened Lmsr
  import opened Ledger
  import opened TopicMarket
  import opened Invariant
  import opened KeepFees
  import opened Runs

  function CreateStockDemo(f: Functions, price: real, Q: real, b: real, TC: int): Result<State, Error> {
    if price <= 0.0 then Err(PRICE)
    else
      var demo := CreateDemo(Config(Q / price, 0.000001, b / price, TC, -1, -1));
      if demo.Err? then demo
      else
        var s := demo.value;
        var a := NewAccount(5000.0 / price);
        Checked(f, s.(early := s.early.(bond := 500.0 / price), accounts := [a, a, a], initialCapital := 15000.0 / price))
  }

  datatype Routed = Routed(state: State, stable: seq<real>, deltaStable: real)

  predicate RouteRefused(s: State, stable: seq<real>, id: int, price: real) {
    price <= 0.0 || !s.Has(id) || |stable| != |s.accounts| || exists i :: 0 <= i < |stable| && stable[i] < 0.0
  }

  /** The acting account's wallet credited with its whole stable balance at the fixed rate. */
  function Credited(s: State, id: int, credit: real): State
    requires s.Has(id)
  {
    var a := s.accounts[id];
    s.Put(id, a.(wallet := a.wallet + credit)).(initialCapital := s.initialCapital + credit)
  }

  /** The stock wallet put back; what the action moved is taken off the capital base. */
  function Restored(s: State, next: State, id: int, delta: real): State
    requires s.Has(id) && next.Has(id)
  {
    next.Put(id, next.accounts[id].(wallet := s.accounts[id].wallet)).(initialCapital := s.initialCapital - delta)
  }

  /** Value of both kinds of wallet and the whole market, in stable coin. */
  function Worth(s: State, stable: seq<real>, price: real): real {
    Total(s) * price + SumReal(stable)
  }

  /** Stable balance that buys stock at the fixed rate. */
  function Credit(balance: real, price: real): real
    requires price > 0.0
  {
    balance / price
  }

  function InStable(delta: real, price: real): real {
    delta * price
  }

  function StableAfter(balance: real, delta: real, price: real): real {
    balance + InStable(delta, price)
  }

  /** What the action moved in the acting account's credited wallet. */
  function Moved(s: State, next: State, id: int, credit: real): real
    requires s.Has(id) && next.Has(id)
  {
    next.accounts[id].wallet - (s.accounts[id].wallet + credit)
  }

  /** Settling the stable wallet after the action has run. */
  function Settled(f: Functions, s: State, stable: seq<real>, id: int, price: real, next: State,
      delta: real): Result<Routed, Error>
    requires s.Has(id) && |stable| == |s.accounts| && next.Has(id)
  {
    var cash := StableAfter(stable[id], delta, price);
    var t := Restored(s, next, id, delta);
    var wallets := stable[id := Max(0.0, cash)];
    if cash < 0.0 then Err(BALANCE)
    else if LedgerFault(f, t).Some? then Err(LedgerFault(f, t).value)
    else if Worth(s, stable, price) != Worth(t, wallets, price) then Err(ROUTE_LEDGER)
    else Ok(Routed(t, wallets, InStable(delta, price)))
  }

  function Route(f: Functions, s: State, stable: seq<real>, id: int, price: real, useStable: bool,
                 fn: State -> Result<State, Error>): Result<Routed, Error>
  {
    if RouteRefused(s, stable, id, price) then Err(ROUTE)
    else if !useStable then
      match fn(s)
      case Err(e) => Err(e)
      case Ok(t) => Ok(Routed(t, stable, 0.0))
    else
      var credit := Credit(stable[id], price);
      match fn(Credited(s, id, credit))
      case Err(e) => Err(e)
      case Ok(next) =>
        if !next.Has(id) then Err(ACCOUNT)
        else Settled(f, s, stable, id, price, next, Moved(s, next, id, credit))
  }

  /** The same in the steps of the source: copy, credit, act, restore, check, return both. */
  method RouteStockDemo(f: Functions, s: State, stable: seq<real>, id: int, price: real, useStable: bool,
                        fn: State -> Result<State, Error>) returns (r: Result<Routed, Error>)
    ensures r == Route(f, s, stable, id, price, useStable, fn)
  {
    hide LedgerFault, Worth, StableAfter, InStable;
    if RouteRefused(s, stable, id, price) {
      return Err(ROUTE);
    }
    if !useStable {
      var direct := fn(s);
      return if direct.Ok? then Ok(Routed(direct.value, stable, 0.0)) else Err(direct.error);
    }
    var working := s;
    var credit := Credit(stable[id], price);
    var actor := working.accounts[id];
    working := working.Put(id, actor.(wallet := actor.wallet + credit));
    working := working.(initialCapital := s.initialCapital + credit);
    var priorWallet := working.accounts[id].wallet;
    var result := fn(working);
    if result.Err? {
      return Err(result.error);
    }
    var next := result.value;
    if !next.Has(id) {
      return Err(ACCOUNT);
    }
    var delta := next.accounts[id].wallet - priorWallet;
    assert delta == Moved(s, next, id, credit);
    var cash := StableAfter(stable[id], delta, price);
    if cash < 0.0 {
      return Err(BALANCE);
    }
    ghost var acted := next;
    next := next.Put(id, next.accounts[id].(wallet := s.accounts[id].wallet));
    next := next.(initialCapital := s.initialCapital - delta);
    assert next == Restored(s, acted, id, delta);
    var fault := LedgerFault(f, next);
    if fault.Some? {
      return Err(fault.value);
    }
    var wallets := stable;
    wallets := wallets[id := Max(0.0, cash)];
    var before := Worth(s, stable, price);
    var after := Worth(next, wallets, price);
    if before != after {
      return Err(ROUTE_LEDGER);
    }
    return Ok(Routed(next, wallets, InStable(delta, price)));
  }

  // ---- any ledger-preserving action ----

  /** `fn` keeps the invariant, the capital base and the accounts of every good state. */
  ghost predicate LedgerPreserving(f: Functions, fn: State -> Result<State, Error>) {
    forall s: State :: Inv(f, s) && fn(s).Ok? ==>
      Inv(f, fn(s).value) && fn(s).value.initialCapital == s.initialCapital && |fn(s).value.accounts| == |s.accounts|
  }

  lemma {:induction false} SumRealUpdate(xs: seq<real>, i: nat, v: real)
    requires i < |xs|
    ensures SumReal(xs[i := v]) == SumReal(xs) - xs[i] + v
  {
    if i == 0 {
      assert xs[i := v][1..] == xs[1..];
    } else {
      assert xs[i := v][1..] == xs[1..][i - 1 := v];
      SumRealUpdate(xs[1..], i - 1, v);
    }
  }

  lemma CapitalOnly(f: Functions, s: State, capital: real)
    requires Books(f, s)
    ensures Books(f, s.(initialCapital := capital)) && Total(s.(initialCapital := capital)) == Total(s)
  {
    hide Sum, OnCurve, FixedRate, AllGood, AllIdle;
    var t := s.(initialCapital := capital);
    if s.Trading() {
      SamePosition(f, s, t);
      forall o ensures FeeLedger(t, o) {
        assert FeeLedger(s, o);
      }
    }
  }

  lemma SplitInv(f: Functions, s: State, id: int)
    requires Inv(f, s) && s.Has(id)
    ensures Conserved(s) && Books(f, s) && s.accounts[id].wallet >= 0.0
  {
    assert GoodAccount(s.accounts[id]);
  }

  lemma CreditKeeps(f: Functions, s: State, id: int, credit: real)
    requires Inv(f, s) && s.Has(id) && credit >= 0.0
    ensures Inv(f, Credited(s, id, credit))
  {
    hide Books, Total, Inv;
    SplitInv(f, s, id);
    var a := s.accounts[id];
    WalletOnly(f, s, id, a.(wallet := a.wallet + credit));
    CapitalOnly(f, s.Put(id, a.(wallet := a.wallet + credit)), s.initialCapital + credit);
    JoinInv(f, Credited(s, id, credit));
  }

  lemma JoinInv(f: Functions, s: State)
    requires Total(s) == s.initialCapital && Books(f, s)
    ensures Inv(f, s)
  {}

  lemma RestoreKeeps(f: Functions, s: State, next: State, id: int, delta: real)
    requires Inv(f, s) && Inv(f, next) && s.Has(id) && next.Has(id)
    requires next.accounts[id].wallet - delta - s.accounts[id].wallet == next.initialCapital - s.initialCapital
    ensures Inv(f, Restored(s, next, id, delta))
    ensures Total(Restored(s, next, id, delta)) == Total(s) - delta
  {
    hide Books, Total, Inv;
    SplitInv(f, s, id);
    SplitInv(f, next, id);
    var c := next.accounts[id].(wallet := s.accounts[id].wallet);
    WalletOnly(f, next, id, c);
    CapitalOnly(f, next.Put(id, c), s.initialCapital - delta);
    JoinInv(f, Restored(s, next, id, delta));
  }

  lemma WorthKept(s: State, t: State, stable: seq<real>, id: nat, delta: real, price: real)
    requires Total(t) == Total(s) - delta && id < |stable|
    ensures Worth(t, stable[id := StableAfter(stable[id], delta, price)], price) == Worth(s, stable, price)
  {
    hide Total, SumReal;
    SumRealUpdate(stable, id, StableAfter(stable[id], delta, price));
    Distribute(price, Total(s), delta);
    MulCongruent(price, Total(t), Total(s) - delta);
  }

  /** Settling succeeds exactly when the stable wallet covers what the action spent. */
  lemma SettledSafe(f: Functions, s: State, stable: seq<real>, id: int, price: real, next: State, delta: real)
    requires Lawful(f) && Inv(f, s) && Inv(f, next) && s.Has(id) && |stable| == |s.accounts| && next.Has(id)
    requires next.accounts[id].wallet - delta - s.accounts[id].wallet == next.initialCapital - s.initialCapital
    ensures Settled(f, s, stable, id, price, next, delta)
         == if StableAfter(stable[id], delta, price) < 0.0 then Err(BALANCE)
            else Ok(Routed(Restored(s, next, id, delta), stable[id := StableAfter(stable[id], delta, price)],
                           InStable(delta, price)))
    ensures Inv(f, Restored(s, next, id, delta))
    ensures Total(Restored(s, next, id, delta)) == Total(s) - delta
  {
    hide Inv, Total, LedgerFault, Worth, StableAfter, InStable;
    RestoreKeeps(f, s, next, id, delta);
    GuardSilent(f, Restored(s, next, id, delta));
    WorthKept(s, Restored(s, next, id, delta), stable, id, delta, price);
  }

  /** Routing a ledger-preserving action succeeds whenever the action does and the stable wallet
      covers what it spends. Then the stock wallet is untouched, the books are good on the adjusted
      capital base, and market plus stable wallets are worth what they were: `ROUTE_LEDGER` and the
      ledger check never fire. */
  lemma RouteSafe(f: Functions, s: State, stable: seq<real>, id: int, price: real, fn: State -> Result<State, Error>)
    requires Lawful(f) && Inv(f, s) && LedgerPreserving(f, fn) && !RouteRefused(s, stable, id, price)
    ensures var credit := Credit(stable[id], price);
            var work, r := fn(Credited(s, id, credit)), Route(f, s, stable, id, price, true, fn);
            && (work.Err? ==> r == Err(work.error))
            && (work.Ok? ==>
                  && work.value.Has(id)
                  && var cash := StableAfter(stable[id], Moved(s, work.value, id, credit), price);
                  && (r.Ok? <==> cash >= 0.0)
                  && (r.Err? ==> r.error == BALANCE)
                  && (r.Ok? ==>
                        && |r.value.state.accounts| == |s.accounts|
                        && r.value.state.accounts[id].wallet == s.accounts[id].wallet
                        && r.value.stable == stable[id := cash]
                        && Inv(f, r.value.state)
                        && Worth(r.value.state, r.value.stable, price) == Worth(s, stable, price)))
  {
    hide Inv, Total, LedgerFault, StableAfter, Worth, Settled;
    var credit := Credit(stable[id], price);
    DivNonNeg(stable[id], price);
    CreditKeeps(f, s, id, credit);
    if fn(Credited(s, id, credit)).Ok? {
      var next := fn(Credited(s, id, credit)).value;
      var delta := Moved(s, next, id, credit);
      SettledSafe(f, s, stable, id, price, next, delta);
      WorthKept(s, Restored(s, next, id, delta), stable, id, delta, price);
    }
  }

  /** The acting account's stock wallet topped up by what its stable balance buys. */
  function ToppedUp(s: State, id: int, amount: real): State
    requires s.Has(id)
  {
    var a := s.accounts[id];
    s.(accounts := s.accounts[id := a.(wallet := a.wallet + amount)], initialCapital := s.initialCapital + amount)
  }

  /** What a route returns, for any action. A direct request is the action itself and leaves every
      stable wallet alone. A routed one runs on the topped-up wallet; the result is the action's but
      for the stock wallet, put back, and the capital base, less what the action moved; and that
      amount at the price goes through the one stable wallet. */
  lemma RouteMeans(f: Functions, s: State, stable: seq<real>, id: int, price: real, useStable: bool,
      fn: State -> Result<State, Error>)
    ensures var r := Route(f, s, stable, id, price, useStable, fn);
      if !(price > 0.0 && s.Has(id) && |stable| == |s.accounts| && forall i :: 0 <= i < |stable| ==> stable[i] >= 0.0)
      then r == Err(ROUTE)
      else if !useStable then
        && (r.Ok? <==> fn(s).Ok?) && (r.Err? ==> r.error == fn(s).error)
        && (r.Ok? ==> r.value.state == fn(s).value && r.value.stable == stable && r.value.deltaStable == 0.0)
      else
        var work := fn(ToppedUp(s, id, stable[id] / price));
        && (work.Err? ==> r == Err(work.error))
        && (r.Ok? ==>
              && work.Ok? && work.value.Has(id)
              && var moved := work.value.accounts[id].wallet - s.accounts[id].wallet - stable[id] / price;
              && stable[id] + moved * price >= 0.0
              && r.value.stable == stable[id := stable[id] + moved * price] && r.value.deltaStable == moved * price
              && r.value.state == work.value.(initialCapital := s.initialCapital - moved,
                   accounts := work.value.accounts[id := work.value.accounts[id].(wallet := s.accounts[id].wallet)]))
  {
    hide LedgerFault, Worth;
    if useStable && !RouteRefused(s, stable, id, price) {
      assert Credited(s, id, Credit(stable[id], price)) == ToppedUp(s, id, stable[id] / price);
    }
  }

  // ---- runs of routed and direct actions ----

  datatype Request = Request(id: int, useStable: bool, act: Action)

  datatype World = World(state: State, stable: seq<real>)

  function Step(f: Functions, w: World, price: real, q: Request): World {
    match Route(f, w.state, w.stable, q.id, price, q.useStable, s => Apply(f, s, q.act))
    case Ok(r) => World(r.state, r.stable)
    case Err(_) => w
  }

  function RunWorld(f: Functions, w: World, price: real, qs: seq<Request>): World
    decreases |qs|
  {
    if qs == [] then w else RunWorld(f, Step(f, w, price, qs[0]), price, qs[1..])
  }

  ghost predicate GoodWorld(f: Functions, w: World) {
    && Inv(f, w.state) && |w.stable| == |w.state.accounts|
    && forall i :: 0 <= i < |w.stable| ==> w.stable[i] >= 0.0
  }

  lemma ActionsPreserve(f: Functions, a: Action)
    requires Lawful(f)
    ensures LedgerPreserving(f, s => Apply(f, s, a))
  {
    hide Inv, Apply;
    var fn := (s: State) => Apply(f, s, a);
    forall s: State | Inv(f, s) && fn(s).Ok?
      ensures Inv(f, fn(s).value) && fn(s).value.initialCapital == s.initialCapital && |fn(s).value.accounts| == |s.accounts|
    {
      StepSafe(f, s, a);
      AfterKeepsTerms(f, s, a);
    }
  }

  lemma StepKeepsWorth(f: Functions, w: World, price: real, q: Request)
    requires Lawful(f) && GoodWorld(f, w) && price > 0.0
    ensures GoodWorld(f, Step(f, w, price, q))
    ensures Worth(Step(f, w, price, q).state, Step(f, w, price, q).stable, price) == Worth(w.state, w.stable, price)
  {
    hide Inv, Apply, LedgerFault, Worth, Route, LedgerPreserving;
    ActionsPreserve(f, q.act);
    var fn := (s: State) => Apply(f, s, q.act);
    if Route(f, w.state, w.stable, q.id, price, q.useStable, fn).Ok? {
      RouteKeepsWorld(f, w, price, q.id, q.useStable, fn);
    }
  }

  lemma RouteKeepsWorld(f: Functions, w: World, price: real, id: int, useStable: bool, fn: State -> Result<State,
      Error>)
    requires Lawful(f) && GoodWorld(f, w) && price > 0.0 && LedgerPreserving(f, fn)
    requires Route(f, w.state, w.stable, id, price, useStable, fn).Ok?
    ensures var r := Route(f, w.state, w.stable, id, price, useStable, fn).value;
            && GoodWorld(f, World(r.state, r.stable))
            && Worth(r.state, r.stable, price) == Worth(w.state, w.stable, price)
  {
    hide Inv, LedgerPreserving, Settled, StableAfter, Total, Credited;
    if useStable {
      RouteSafe(f, w.state, w.stable, id, price, fn);
    } else {
      DirectKeepsTotal(f, w.state, fn);
      MulCongruent(price, Total(w.state), Total(fn(w.state).value));
    }
  }

  lemma DirectKeepsTotal(f: Functions, s: State, fn: State -> Result<State, Error>)
    requires Inv(f, s) && LedgerPreserving(f, fn) && fn(s).Ok?
    ensures Inv(f, fn(s).value) && Total(fn(s).value) == Total(s) && |fn(s).value.accounts| == |s.accounts|
  {
    hide Books;
  }

  /** Over any sequence of routed and direct requests of any accounts, refused or not, the market
      and the stable wallets together keep their worth, and the market's books stay good. */
  lemma {:induction false} RunKeepsWorth(f: Functions, w: World, price: real, qs: seq<Request>)
    requires Lawful(f) && GoodWorld(f, w) && price > 0.0
    ensures GoodWorld(f, RunWorld(f, w, price, qs))
    ensures var t := RunWorld(f, w, price, qs); Worth(t.state, t.stable, price) == Worth(w.state, w.stable, price)
    decreases |qs|
  {
    hide GoodWorld, Worth, Step;
    if qs != [] {
      StepKeepsWorth(f, w, price, qs[0]);
      RunKeepsWorth(f, Step(f, w, price, qs[0]), price, qs[1..]);
    }
  }

  /** A stock market starts with good books and passes its own ledger check. */
  lemma StockDemoStarts(f: Functions, price: real, Q: real, b: real, TC: int)
    requires Lawful(f) && price > 0.0 && Q > 0.0 && b > 0.0 && 14400 < TC <= MAX_SAFE_INTEGER
    ensures CreateStockDemo(f, price, Q, b, TC).Ok?
    ensures Inv(f, CreateStockDemo(f, price, Q, b, TC).value)
    ensures var s := CreateStockDemo(f, price, Q, b, TC).value;
      && |s.accounts| == 3 && s.early.bond * price == 500.0 && s.creatorAccount == s.protocolAccount == -1
      && forall i :: 0 <= i < 3 ==> s.accounts[i].wallet * price == 5000.0
  {
    hide LedgerFault;
    DivStrict(0.0, Q, price);
    DivStrict(0.0, b, price);
    DivStrict(0.0, 500.0, price);
    DivStrict(0.0, 5000.0, price);
    Cancel(500.0, price);
    Cancel(5000.0, price);
    var s := CreateDemo(Config(Q / price, 0.000001, b / price, TC, -1, -1)).value;
    var a := NewAccount(5000.0 / price);
    var t := s.(early := s.early.(bond := 500.0 / price), accounts := [a, a, a], initialCapital := 15000.0 / price);
    Sum3(Wallet, a, a, a);
    Sum3(GTokens, a, a, a);
    Sum3(Refund, a, a, a);
    assert GoodAccount(a);
    assert Inv(f, t);
    GuardSilent(f, t);
  }
}
