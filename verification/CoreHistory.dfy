/** Replaying the logs of a Core vault: duplicates and order do not matter, and the fee part of a
    withdrawal is shown once. */
module CoreHistory {
  import opened Wrappers

  type Address = int
  type Hash = int

  /** A log decoded by the Core interface; `Unrelated` stands for every event that is not shown. */
  datatype Event =
    | Staked(user: Address, side: int, amount: nat)
    | StakeExited(user: Address, side: int, refund: nat, penalty: nat)
    | Withdrawn(user: Address, principal: nat, fee: nat)
    | MarketFeesClaimed(user: Address, amount: nat)
    | Unrelated

  datatype Log = Log(address: Address, blockNumber: nat, blockHash: Hash, transactionHash: Hash, index: nat,
                     removed: bool, event: Event)

  datatype Item = Item(log: Log, timestamp: int)

  datatype Key = Key(blockHash: Hash, transactionHash: Hash, index: nat)

  datatype Kind = CORE_STAKE | CORE_EXIT | CLAIM_CORE | CLAIM_FEES

  datatype Activity = Activity(id: Key, kind: Kind, actor: Address, amount: nat, quantity: Option<nat>,
                               outcome: Option<int>, at: int, blockNumber: nat)

  datatype Error = ADDRESS_MISMATCH

  function KeyOf(x: Item): Key {
    Key(x.log.blockHash, x.log.transactionHash, x.log.index)
  }

  // ---- distinct logs, in the order first seen ----

  function Find(u: seq<Item>, k: Key): (i: nat)
    ensures i <= |u| && (i < |u| ==> KeyOf(u[i]) == k)
    ensures forall j :: 0 <= j < i ==> KeyOf(u[j]) != k
  {
    if u == [] || KeyOf(u[0]) == k then 0 else 1 + Find(u[1..], k)
  }

  function Upsert(u: seq<Item>, x: Item): seq<Item> {
    var i := Find(u, KeyOf(x));
    if i < |u| then u[i := x] else u + [x]
  }

  function Unique(items: seq<Item>): seq<Item> {
    if items == [] then []
    else
      var n := |items| - 1;
      if items[n].log.removed then Unique(items[..n]) else Upsert(Unique(items[..n]), items[n])
  }

  // ---- chain order ----

  predicate Before(x: Item, y: Item) {
    x.log.blockNumber < y.log.blockNumber || (x.log.blockNumber == y.log.blockNumber && x.log.index < y.log.index)
  }

  /** Stable insertion: after every item that is not later. */
  function Insert(s: seq<Item>, x: Item): seq<Item> {
    if s == [] then [x]
    else if Before(x, s[|s| - 1]) then Insert(s[..|s| - 1], x) + [s[|s| - 1]]
    else s + [x]
  }

  function Sort(items: seq<Item>): seq<Item> {
    if items == [] then [] else Insert(Sort(items[..|items| - 1]), items[|items| - 1])
  }

  // ---- rows ----

  /** `fee` is the component that the withdrawal `w` emitted immediately before itself. */
  predicate ComponentOf(fee: Log, w: Log) {
    && w.event.Withdrawn? && fee.event.MarketFeesClaimed? && fee.transactionHash == w.transactionHash
    && fee.event.user == w.event.user && fee.event.amount == w.event.fee
  }

  predicate Included(ordered: seq<Item>, i: nat) {
    i + 1 < |ordered| && ComponentOf(ordered[i].log, ordered[i + 1].log)
  }

  function Row(x: Item, included: bool): seq<Activity> {
    var l := x.log;
    match l.event
    case Staked(user, side, amount) =>
      [Activity(KeyOf(x), CORE_STAKE, user, amount, None, Some(side), x.timestamp, l.blockNumber)]
    case StakeExited(user, side, refund, penalty) =>
      [Activity(KeyOf(x), CORE_EXIT, user, refund, Some(penalty), Some(side), x.timestamp, l.blockNumber)]
    case Withdrawn(user, principal, fee) =>
      [Activity(KeyOf(x), CLAIM_CORE, user, principal + fee, None, None, x.timestamp, l.blockNumber)]
    case MarketFeesClaimed(user, amount) =>
      if included then [] else [Activity(KeyOf(x), CLAIM_FEES, user, amount, None, None, x.timestamp, l.blockNumber)]
    case Unrelated => []
  }

  function Rows(ordered: seq<Item>, n: nat): seq<Activity>
    requires n <= |ordered|
  {
    if n == 0 then [] else Rows(ordered, n - 1) + Row(ordered[n - 1], Included(ordered, n - 1))
  }

  predicate AllFrom(items: seq<Item>, core: Address) {
    forall i :: 0 <= i < |items| ==> items[i].log.address == core
  }

  function Replay(items: seq<Item>, core: Address): Result<seq<Activity>, Error> {
    if !AllFrom(items, core) then Err(ADDRESS_MISMATCH)
    else
      var ordered := Sort(Unique(items));
      Ok(Rows(ordered, |ordered|))
  }

  /** Drops removed and repeated logs with a map from key to log, and rejects foreign ones. */
  method Collect(items: seq<Item>, core: Address) returns (r: Result<seq<Item>, Error>)
    ensures r == if AllFrom(items, core) then Ok(Unique(items)) else Err(ADDRESS_MISMATCH)
  {
    hide Upsert, MapHolds;
    var unique: map<Key, Item>, order: seq<Key> := map[], [];
    MapEmpty();
    for n := 0 to |items|
      invariant AllFrom(items[..n], core)
      invariant MapHolds(unique, order, Unique(items[..n]))
    {
      var item := items[n];
      if item.log.address != core {
        return Err(ADDRESS_MISMATCH);
      }
      assert items[..n + 1][..n] == items[..n];
      if !item.log.removed {
        MapSet(unique, order, Unique(items[..n]), item);
        if KeyOf(item) !in unique {
          order := order + [KeyOf(item)];
        }
        unique := unique[KeyOf(item) := item];
      }
    }
    assert items[..|items|] == items;
    MapValues(unique, order, Unique(items));
    return Ok(seq(|order|, i requires 0 <= i < |order| => unique[order[i]]));
  }

  /** The fee logs that the withdrawal behind them already counts. */
  method IncludedFees(ordered: seq<Item>) returns (included: set<nat>)
    ensures forall j: nat :: j in included <==> Included(ordered, j)
  {
    included := {};
    for i := 0 to |ordered|
      invariant forall j: nat :: j in included <==> j + 1 < i && Included(ordered, j)
    {
      if i > 0 && ComponentOf(ordered[i - 1].log, ordered[i].log) {
        included := included + {i - 1};
      }
    }
  }

  /** The replay with the map, the set and the loops of the source. */
  method ReplayCoreHistory(items: seq<Item>, core: Address) returns (r: Result<seq<Activity>, Error>)
    ensures r == Replay(items, core)
  {
    hide Sort, Unique, AllFrom, Included, Row;
    var unique := Collect(items, core);
    if unique.Err? {
      return Err(unique.error);
    }
    var ordered := Sort(unique.value);
    var includedFees := IncludedFees(ordered);
    var events := [];
    for i := 0 to |ordered|
      invariant events == Rows(ordered, i)
    {
      events := events + Row(ordered[i], i in includedFees);
    }
    return Ok(events);
  }

  /** A map with its insertion order lists `u`. */
  ghost predicate MapHolds(unique: map<Key, Item>, order: seq<Key>, u: seq<Item>) {
    && |order| == |u|
    && (forall i :: 0 <= i < |u| ==> order[i] == KeyOf(u[i]) && order[i] in unique && unique[order[i]] == u[i])
    && (forall k :: k in unique ==> k in order)
    && (forall i, j :: 0 <= i < j < |u| ==> order[i] != order[j])
  }

  lemma MapEmpty()
    ensures MapHolds(map[], [], [])
  {}

  lemma MapValues(unique: map<Key, Item>, order: seq<Key>, u: seq<Item>)
    requires MapHolds(unique, order, u)
    ensures forall i :: 0 <= i < |order| ==> order[i] in unique
    ensures seq(|order|, i requires 0 <= i < |order| => unique[order[i]]) == u
  {}

  lemma MapSet(unique: map<Key, Item>, order: seq<Key>, u: seq<Item>, x: Item)
    requires MapHolds(unique, order, u)
    ensures MapHolds(unique[KeyOf(x) := x], if KeyOf(x) in unique then order else order + [KeyOf(x)], Upsert(u, x))
  {
    hide MapHolds, Find;
    MapKnows(unique, order, u, KeyOf(x));
    if Find(u, KeyOf(x)) < |u| {
      MapReplace(unique, order, u, x, Find(u, KeyOf(x)));
    } else {
      MapAppend(unique, order, u, x);
    }
  }

  lemma MapKnows(unique: map<Key, Item>, order: seq<Key>, u: seq<Item>, k: Key)
    requires MapHolds(unique, order, u)
    ensures k in unique <==> Find(u, k) < |u|
  {
    hide Find;
    if Find(u, k) < |u| {
      assert order[Find(u, k)] == k;
    }
  }

  lemma MapReplace(unique: map<Key, Item>, order: seq<Key>, u: seq<Item>, x: Item, i: nat)
    requires MapHolds(unique, order, u) && i < |u| && KeyOf(u[i]) == KeyOf(x)
    ensures MapHolds(unique[KeyOf(x) := x], order, u[i := x])
  {
    assert order[i] == KeyOf(x);
    forall j | 0 <= j < |u| && j != i ensures order[j] != KeyOf(x) {
      assert order[j] != order[i];
    }
  }

  lemma MapAppend(unique: map<Key, Item>, order: seq<Key>, u: seq<Item>, x: Item)
    requires MapHolds(unique, order, u) && KeyOf(x) !in unique
    ensures MapHolds(unique[KeyOf(x) := x], order + [KeyOf(x)], u + [x])
  {
    forall j | 0 <= j < |u| ensures order[j] != KeyOf(x) {
      assert order[j] in unique;
    }
  }

  // ---- order and duplicates do not matter ----

  predicate Has(items: seq<Item>, x: Item) {
    x in items && !x.log.removed
  }

  ghost predicate SameItems(a: seq<Item>, b: seq<Item>) {
    forall x: Item :: x in a <==> x in b
  }

  /** Logs of one canonical chain: a place in the chain holds one log, and a log has one key. */
  ghost predicate Canonical(items: seq<Item>) {
    forall x, y :: Has(items, x) && Has(items, y) && x != y ==>
      KeyOf(x) != KeyOf(y) && (Before(x, y) || Before(y, x))
  }

  ghost predicate Distinct(u: seq<Item>) {
    forall i, j :: 0 <= i < j < |u| ==> KeyOf(u[i]) != KeyOf(u[j])
  }

  ghost predicate StrictlyOrdered(s: seq<Item>) {
    forall i, j :: 0 <= i < j < |s| ==> Before(s[i], s[j])
  }

  lemma UpsertKeeps(u: seq<Item>, x: Item)
    requires Distinct(u)
    ensures Distinct(Upsert(u, x))
    ensures (forall y :: y in u && KeyOf(y) == KeyOf(x) ==> y == x) ==>
      forall y :: y in Upsert(u, x) <==> y in u || y == x
  {
    var i, v := Find(u, KeyOf(x)), Upsert(u, x);
    if forall y :: y in u && KeyOf(y) == KeyOf(x) ==> y == x {
      if i < |u| {
        assert u[i] in u && u[i] == x;
        assert v == u;
      }
    }
  }

  /** The distinct logs are the live ones, each once. */
  lemma {:induction false} UniqueHolds(items: seq<Item>)
    requires Canonical(items)
    ensures Distinct(Unique(items))
    ensures forall x :: x in Unique(items) <==> Has(items, x)
  {
    if items != [] {
      var n := |items| - 1;
      var rest, last := items[..n], items[n];
      assert items == rest + [last];
      assert forall x :: x in items <==> x in rest || x == last;
      assert Canonical(rest);
      UniqueHolds(rest);
      if !last.log.removed {
        assert Has(items, last);
        assert forall y :: y in Unique(rest) ==> Has(items, y);
        UpsertKeeps(Unique(rest), last);
      }
    }
  }

  lemma {:induction false} InsertKeeps(s: seq<Item>, x: Item)
    requires StrictlyOrdered(s) && forall y :: y in s ==> Before(x, y) || Before(y, x)
    ensures StrictlyOrdered(Insert(s, x))
    ensures forall y :: y in Insert(s, x) <==> y in s || y == x
  {
    if s != [] {
      var n := |s| - 1;
      assert s == s[..n] + [s[n]];
      assert s[n] in s;
      if Before(x, s[n]) {
        InsertKeeps(s[..n], x);
        var t := Insert(s[..n], x);
        forall i | 0 <= i < |t| ensures Before(t[i], s[n]) {
          assert t[i] in t;
        }
      }
    }
  }

  lemma {:induction false} SortOrders(u: seq<Item>)
    requires forall i, j :: 0 <= i < j < |u| ==> Before(u[i], u[j]) || Before(u[j], u[i])
    ensures StrictlyOrdered(Sort(u))
    ensures forall x :: x in Sort(u) <==> x in u
  {
    if u != [] {
      var n := |u| - 1;
      SortOrders(u[..n]);
      assert u == u[..n] + [u[n]];
      forall y | y in Sort(u[..n]) ensures Before(u[n], y) || Before(y, u[n]) {
        assert y in u[..n];
        var i :| 0 <= i < n && u[..n][i] == y;
        assert u[i] == y;
      }
      InsertKeeps(Sort(u[..n]), u[n]);
    }
  }

  /** Two strictly ordered listings of the same logs are the same. */
  lemma {:induction false} OrderedEqual(a: seq<Item>, b: seq<Item>)
    requires StrictlyOrdered(a) && StrictlyOrdered(b) && SameItems(a, b)
    ensures a == b
  {
    if a == [] {
      HeadIn(b);
    } else {
      var m, n := |a| - 1, |b| - 1;
      assert a[m] in a;
      assert b[n] in b by { assert b != []; }
      assert a[m] == b[n] by {
        var j :| 0 <= j <= n && b[j] == a[m];
        var i :| 0 <= i <= m && a[i] == b[n];
      }
      assert a == a[..m] + [a[m]] && b == b[..n] + [b[n]];
      forall x ensures x in a[..m] <==> x in b[..n] {
        LastApart(a, x);
        LastApart(b, x);
      }
      OrderedEqual(a[..m], b[..n]);
    }
  }

  lemma HeadIn(s: seq<Item>)
    ensures s == [] || exists x :: x in s
  {
    assert s == [] || s[0] in s;
  }

  lemma LastApart(s: seq<Item>, x: Item)
    requires s != [] && StrictlyOrdered(s)
    ensures x in s[..|s| - 1] <==> x in s && x != s[|s| - 1]
  {
    var n := |s| - 1;
    assert s == s[..n] + [s[n]];
    forall i | 0 <= i < n ensures s[..n][i] != s[n] {
      assert Before(s[i], s[n]);
    }
  }

  lemma UniqueComparable(items: seq<Item>)
    requires Canonical(items)
    ensures var u := Unique(items);
      forall i, j :: 0 <= i < j < |u| ==> Before(u[i], u[j]) || Before(u[j], u[i])
  {
    UniqueHolds(items);
    var u := Unique(items);
    forall i, j | 0 <= i < j < |u| ensures Before(u[i], u[j]) || Before(u[j], u[i]) {
      assert u[i] in u && u[j] in u;
    }
  }

  /** Any two listings of the same logs of one canonical chain, in whatever order and with whatever
      repetitions, replay to the same history or to the same error. */
  lemma ReplaySame(a: seq<Item>, b: seq<Item>, core: Address)
    requires SameItems(a, b) && Canonical(a)
    ensures Replay(a, core) == Replay(b, core)
  {
    hide Unique, Sort, Rows;
    assert AllFrom(a, core) == AllFrom(b, core) by {
      if AllFrom(a, core) {
        AllFromSame(a, b, core);
      } else if AllFrom(b, core) {
        AllFromSame(b, a, core);
      }
    }
    assert Canonical(b);
    UniqueHolds(a);
    UniqueHolds(b);
    UniqueComparable(a);
    UniqueComparable(b);
    SortOrders(Unique(a));
    SortOrders(Unique(b));
    OrderedEqual(Sort(Unique(a)), Sort(Unique(b)));
  }

  lemma AllFromSame(a: seq<Item>, b: seq<Item>, core: Address)
    requires SameItems(a, b) && AllFrom(a, core)
    ensures AllFrom(b, core)
  {
    forall i | 0 <= i < |b| ensures b[i].log.address == core {
      assert b[i] in b && b[i] in a;
    }
  }

  // ---- every payout once ----

  predicate IsClaim(row: Activity, user: Address) {
    row.actor == user && (row.kind == CLAIM_CORE || row.kind == CLAIM_FEES)
  }

  /** What the history shows `user` as having claimed. */
  function Claimed(rows: seq<Activity>, user: Address): nat {
    if rows == [] then 0
    else Claimed(rows[..|rows| - 1], user) + if IsClaim(rows[|rows| - 1], user) then rows[|rows| - 1].amount else 0
  }

  /** Principal paid to `user` by the first `n` logs, and fees claimed by them. */
  function Principal(ordered: seq<Item>, n: nat, user: Address): nat
    requires n <= |ordered|
  {
    if n == 0 then 0
    else
      var e := ordered[n - 1].log.event;
      Principal(ordered, n - 1, user) + if e.Withdrawn? && e.user == user then e.principal else 0
  }

  function FeesPaid(ordered: seq<Item>, n: nat, user: Address): nat
    requires n <= |ordered|
  {
    if n == 0 then 0
    else
      var e := ordered[n - 1].log.event;
      FeesPaid(ordered, n - 1, user) + if e.MarketFeesClaimed? && e.user == user then e.amount else 0
  }

  /** Fee parts of withdrawals that no log of their own accounts for. */
  function Unlogged(ordered: seq<Item>, n: nat, user: Address): nat
    requires n <= |ordered|
  {
    if n == 0 then 0
    else
      var e := ordered[n - 1].log.event;
      Unlogged(ordered, n - 1, user)
      + if e.Withdrawn? && e.user == user && !(n > 1 && Included(ordered, n - 2)) then e.fee else 0
  }

  lemma ClaimedRow(rows: seq<Activity>, x: Item, included: bool, user: Address)
    ensures Claimed(rows + Row(x, included), user) == Claimed(rows, user) + Claimed(Row(x, included), user)
  {
    var row := Row(x, included);
    if row == [] {
      assert rows + row == rows;
    } else {
      assert (rows + row)[..|rows|] == rows && row[..0] == [];
    }
  }

  lemma OneRow(x: Item, included: bool, user: Address)
    ensures Claimed(Row(x, included), user) ==
      match x.log.event
      case Withdrawn(u, principal, fee) => if u == user then principal + fee else 0
      case MarketFeesClaimed(u, amount) => if u == user && !included then amount else 0
      case _ => 0
  {
    var row := Row(x, included);
    if row != [] {
      assert row[..0] == [];
    }
  }

  /** The fee log just passed whose amount the withdrawal that follows will show. */
  function Pending(ordered: seq<Item>, n: nat, user: Address): nat
    requires n <= |ordered|
  {
    if n > 0 && Included(ordered, n - 1) && ordered[n - 1].log.event.user == user
    then ordered[n - 1].log.event.amount else 0
  }

  lemma IncludedPair(ordered: seq<Item>, i: nat)
    requires Included(ordered, i)
    ensures i + 1 < |ordered|
    ensures var fee, w := ordered[i].log.event, ordered[i + 1].log.event;
      fee.MarketFeesClaimed? && w.Withdrawn? && fee.user == w.user && fee.amount == w.fee
  {}

  lemma NoRows(user: Address)
    ensures Claimed([], user) == 0
  {}

  lemma {:induction false} ClaimedSoFar(ordered: seq<Item>, n: nat, user: Address)
    requires n <= |ordered|
    ensures Claimed(Rows(ordered, n), user) + Pending(ordered, n, user)
         == Principal(ordered, n, user) + FeesPaid(ordered, n, user) + Unlogged(ordered, n, user)
  {
    hide Row, Claimed, Included, ComponentOf;
    NoRows(user);
    if n > 0 {
      ClaimedSoFar(ordered, n - 1, user);
      if Included(ordered, n - 1) {
        IncludedPair(ordered, n - 1);
      }
      if n > 1 && Included(ordered, n - 2) {
        IncludedPair(ordered, n - 2);
      }
      ClaimedRow(Rows(ordered, n - 1), ordered[n - 1], Included(ordered, n - 1), user);
      OneRow(ordered[n - 1], Included(ordered, n - 1), user);
    }
  }

  /** The claims shown add up to the principal paid plus every fee log once; the only other amounts
      are fee parts of withdrawals that have no log of their own. */
  lemma ClaimsCountedOnce(ordered: seq<Item>, user: Address)
    ensures var n := |ordered|;
      Claimed(Rows(ordered, n), user)
      == Principal(ordered, n, user) + FeesPaid(ordered, n, user) + Unlogged(ordered, n, user)
  {
    ClaimedSoFar(ordered, |ordered|, user);
  }

  /** A vault that logs the fee part of each paying withdrawal immediately before it. */
  ghost predicate LogsComponents(ordered: seq<Item>) {
    forall i :: 0 <= i < |ordered| && ordered[i].log.event.Withdrawn? && ordered[i].log.event.fee > 0 ==>
      i > 0 && ComponentOf(ordered[i - 1].log, ordered[i].log)
  }

  /** For such a vault the history shows exactly what was paid out. */
  lemma {:induction false} NothingUnlogged(ordered: seq<Item>, n: nat, user: Address)
    requires n <= |ordered| && LogsComponents(ordered)
    ensures Unlogged(ordered, n, user) == 0
  {
    if n > 0 {
      NothingUnlogged(ordered, n - 1, user);
    }
  }

  // ---- what the history shows ----

  /** A row shows a log: who did what, with the amounts, when and where. */
  predicate Shows(x: Item, r: Activity) {
    && r.id.blockHash == x.log.blockHash && r.id.transactionHash == x.log.transactionHash && r.id.index == x.log.index
    && r.at == x.timestamp && r.blockNumber == x.log.blockNumber
    && match x.log.event
       case Staked(user, side, amount) =>
         r.kind == CORE_STAKE && r.actor == user && r.amount == amount && r.quantity.None? && r.outcome == Some(side)
       case StakeExited(user, side, refund, penalty) =>
         && r.kind == CORE_EXIT && r.actor == user && r.amount == refund && r.quantity == Some(penalty)
         && r.outcome == Some(side)
       case Withdrawn(user, principal, fee) =>
         r.kind == CLAIM_CORE && r.actor == user && r.amount == principal + fee && r.quantity.None? && r.outcome.None?
       case MarketFeesClaimed(user, amount) =>
         r.kind == CLAIM_FEES && r.actor == user && r.amount == amount && r.quantity.None? && r.outcome.None?
       case Unrelated => false
  }

  /** Everything is shown but events of other kinds, and a fee log whose very amount the same user's
      withdrawal right behind it in the same transaction reports as its fee part. */
  predicate Visible(ordered: seq<Item>, i: nat)
    requires i < |ordered|
  {
    && !ordered[i].log.event.Unrelated?
    && !(ordered[i].log.event.MarketFeesClaimed? && i + 1 < |ordered| && ordered[i + 1].log.event.Withdrawn?
         && ordered[i + 1].log.transactionHash == ordered[i].log.transactionHash
         && ordered[i + 1].log.event.user == ordered[i].log.event.user
         && ordered[i + 1].log.event.fee == ordered[i].log.event.amount)
  }

  /** `at` lists the visible logs before n in order, and row k shows the k-th of them. */
  ghost predicate Listing(ordered: seq<Item>, n: nat, rows: seq<Activity>, at: seq<nat>)
    requires n <= |ordered|
  {
    && |at| == |rows| && (forall k :: 0 <= k < |at| ==> at[k] < n && Shows(ordered[at[k]], rows[k]))
    && (forall j, k :: 0 <= j < k < |at| ==> at[j] < at[k])
    && (forall i: nat :: i < n ==> (i in at <==> Visible(ordered, i)))
  }

  lemma RowShows(x: Item, included: bool)
    ensures |Row(x, included)|
         == if x.log.event.Unrelated? || (x.log.event.MarketFeesClaimed? && included) then 0 else 1
    ensures |Row(x, included)| == 1 ==> Shows(x, Row(x, included)[0])
  {}

  lemma RowIfVisible(ordered: seq<Item>, i: nat)
    requires i < |ordered|
    ensures var row := Row(ordered[i], Included(ordered, i));
      if Visible(ordered, i) then |row| == 1 && Shows(ordered[i], row[0]) else row == []
  {
    hide Row, Shows;
    RowShows(ordered[i], Included(ordered, i));
  }

  lemma {:induction false} RowsShow(ordered: seq<Item>, n: nat) returns (at: seq<nat>)
    requires n <= |ordered|
    ensures Listing(ordered, n, Rows(ordered, n), at)
  {
    at := [];
    if n > 0 {
      hide Row, Shows, Visible, Listing, Included;
      at := RowsShow(ordered, n - 1);
      var row := Row(ordered[n - 1], Included(ordered, n - 1));
      RowIfVisible(ordered, n - 1);
      if Visible(ordered, n - 1) {
        assert row == [row[0]];
        Appended(ordered, n, Rows(ordered, n - 1), at, row[0]);
        at := at + [n - 1];
      } else {
        assert Rows(ordered, n) == Rows(ordered, n - 1);
        NotAppended(ordered, n, Rows(ordered, n - 1), at);
      }
    }
  }

  lemma NotAppended(ordered: seq<Item>, n: nat, rows: seq<Activity>, at: seq<nat>)
    requires 0 < n <= |ordered| && Listing(ordered, n - 1, rows, at) && !Visible(ordered, n - 1)
    ensures Listing(ordered, n, rows, at)
  {
    hide Shows, Visible;
  }

  lemma Appended(ordered: seq<Item>, n: nat, rows: seq<Activity>, at: seq<nat>, r: Activity)
    requires 0 < n <= |ordered| && Listing(ordered, n - 1, rows, at)
    requires Visible(ordered, n - 1) && Shows(ordered[n - 1], r)
    ensures Listing(ordered, n, rows + [r], at + [n - 1])
  {
    hide Shows, Visible;
    forall i: nat | i < n ensures i in at + [n - 1] <==> Visible(ordered, i) {
      assert i in at + [n - 1] <==> i in at || i == n - 1;
    }
  }

  /** The history of a canonical chain's logs: the live logs of the listing, each once and in chain
      order, and one row for each of them that is visible. */
  lemma ReplayShows(items: seq<Item>, core: Address) returns (ordered: seq<Item>, at: seq<nat>)
    requires Canonical(items) && Replay(items, core).Ok?
    ensures forall x :: x in ordered <==> x in items && !x.log.removed
    ensures forall i, j :: 0 <= i < j < |ordered| ==>
      var a, b := ordered[i].log, ordered[j].log;
      a.blockNumber < b.blockNumber || (a.blockNumber == b.blockNumber && a.index < b.index)
    ensures Listing(ordered, |ordered|, Replay(items, core).value, at)
  {
    hide Unique, Sort, Rows;
    var u := Unique(items);
    ordered := Sort(u);
    UniqueHolds(items);
    UniqueComparable(items);
    SortOrders(u);
    at := RowsShow(ordered, |ordered|);
  }
}
