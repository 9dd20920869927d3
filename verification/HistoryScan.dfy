/** Reading a Core history from a cached prefix and the blocks after it. */
module HistoryScan {
  import opened Wrappers
  import opened CoreHistory

  const CHAIN_ID := 46630

  /** What the provider answers during one read. */
  datatype Provider = Provider(chainId: int, head: nat, hash: nat -> Hash, time: nat -> int,
                               logs: (nat, nat) -> seq<Log>, headAfter: Hash)

  /** Where the factory says the market was created. */
  datatype Origin = Origin(factory: Address, market: Address, block: nat, hash: Hash)

  datatype Checkpoint = Checkpoint(version: int, factory: Address, market: Address, core: Address,
                                   creationBlock: nat, creationHash: Hash, latestBlock: nat, latestHash: Hash,
                                   logs: seq<Item>)

  datatype Reading = Reading(events: seq<Activity>, checkpoint: Checkpoint, invalidated: Option<Hash>)

  datatype ReadError = WRONG_CHAIN | ORIGIN_REORGANIZED | EVENT_REORGANIZED | HEAD_REORGANIZED | REPLAY(error: Error)

  predicate InRange(items: seq<Item>, from: nat, to: nat) {
    forall i :: 0 <= i < |items| ==> from <= items[i].log.blockNumber <= to
  }

  /** Whether a cached checkpoint is of this history and its last block is still in the chain. */
  predicate Usable(p: Provider, core: Address, o: Origin, k: Checkpoint) {
    && k.version == 2 && k.factory == o.factory && k.market == o.market && k.core == core
    && k.creationBlock == o.block && k.creationHash == o.hash && o.block <= k.latestBlock <= p.head
    && InRange(k.logs, o.block, k.latestBlock) && Replay(k.logs, core).Ok?
    && p.hash(k.latestBlock) == k.latestHash
  }

  predicate UsesCache(p: Provider, core: Address, o: Origin, cached: Option<Checkpoint>) {
    cached.Some? && Usable(p, core, o, cached.value)
  }

  function Prefix(p: Provider, core: Address, o: Origin, cached: Option<Checkpoint>): seq<Item> {
    if UsesCache(p, core, o, cached) then cached.value.logs else []
  }

  function From(p: Provider, core: Address, o: Origin, cached: Option<Checkpoint>): nat {
    if UsesCache(p, core, o, cached) then cached.value.latestBlock + 1 else o.block
  }

  function Stamped(time: nat -> int, logs: seq<Log>): (items: seq<Item>)
    ensures |items| == |logs| && forall i :: 0 <= i < |logs| ==> items[i] == Item(logs[i], time(logs[i].blockNumber))
  {
    if logs == [] then []
    else
      var n := |logs| - 1;
      Stamped(time, logs[..n]) + [Item(logs[n], time(logs[n].blockNumber))]
  }

  predicate HashesMatch(p: Provider, logs: seq<Log>) {
    forall i :: 0 <= i < |logs| ==> p.hash(logs[i].blockNumber) == logs[i].blockHash
  }

  function Read(p: Provider, core: Address, o: Origin, cached: Option<Checkpoint>): Result<Reading, ReadError> {
    if p.chainId != CHAIN_ID then Err(WRONG_CHAIN)
    else if o.block > p.head || p.hash(o.block) != o.hash then Err(ORIGIN_REORGANIZED)
    else
      var from := From(p, core, o, cached);
      var logs := p.logs(from, p.head);
      var all := Prefix(p, core, o, cached) + Stamped(p.time, logs);
      if !HashesMatch(p, logs) then Err(EVENT_REORGANIZED)
      else if p.headAfter != p.hash(p.head) then Err(HEAD_REORGANIZED)
      else
        match Replay(all, core)
        case Err(e) => Err(REPLAY(e))
        case Ok(events) =>
          Ok(Reading(events,
                     Checkpoint(2, o.factory, o.market, core, o.block, o.hash, p.head, p.hash(p.head), all),
                     if from == o.block && cached.Some? then Some(cached.value.latestHash) else None))
  }

  /** The same, accumulating prefix, start and logs as the source does. */
  method ReadCoreHistory(p: Provider, core: Address, o: Origin, cached: Option<Checkpoint>)
    returns (r: Result<Reading, ReadError>)
    ensures r == Read(p, core, o, cached)
  {
    hide Replay;
    if p.chainId != CHAIN_ID {
      return Err(WRONG_CHAIN);
    }
    if o.block > p.head || p.hash(o.block) != o.hash {
      return Err(ORIGIN_REORGANIZED);
    }
    var prefix: seq<Item>, from := [], o.block;
    if cached.Some? {
      var k := cached.value;
      var usable := CheckCache(p, core, o, k);
      if usable && p.hash(k.latestBlock) == k.latestHash {
        prefix, from := k.logs, k.latestBlock + 1;
      }
    }
    var logs := p.logs(from, p.head);
    var all := prefix;
    for i := 0 to |logs|
      invariant HashesMatch(p, logs[..i])
      invariant all == prefix + Stamped(p.time, logs[..i])
    {
      if p.hash(logs[i].blockNumber) != logs[i].blockHash {
        return Err(EVENT_REORGANIZED);
      }
      assert logs[..i + 1][..i] == logs[..i];
      all := all + [Item(logs[i], p.time(logs[i].blockNumber))];
    }
    assert logs[..|logs|] == logs;
    if p.headAfter != p.hash(p.head) {
      return Err(HEAD_REORGANIZED);
    }
    var events := ReplayCoreHistory(all, core);
    if events.Err? {
      return Err(REPLAY(events.error));
    }
    return Ok(Reading(events.value,
                      Checkpoint(2, o.factory, o.market, core, o.block, o.hash, p.head, p.hash(p.head), all),
                      if from == o.block && cached.Some? then Some(cached.value.latestHash) else None));
  }

  method CheckCache(p: Provider, core: Address, o: Origin, k: Checkpoint) returns (usable: bool)
    ensures usable && p.hash(k.latestBlock) == k.latestHash <==> Usable(p, core, o, k)
  {
    hide Replay;
    if k.version != 2 || k.factory != o.factory || k.market != o.market || k.core != core
       || k.creationBlock != o.block || k.creationHash != o.hash || k.latestBlock < o.block || k.latestBlock > p.head {
      return false;
    }
    for i := 0 to |k.logs|
      invariant InRange(k.logs[..i], o.block, k.latestBlock)
    {
      if k.logs[i].log.blockNumber < o.block || k.logs[i].log.blockNumber > k.latestBlock {
        return false;
      }
    }
    assert k.logs[..|k.logs|] == k.logs;
    var replayed := ReplayCoreHistory(k.logs, core);
    return replayed.Ok?;
  }

  // ---- chains ----

  /** One history of the chain: block hashes and times, and the logs of this Core in each block. */
  datatype Chain = Chain(head: nat, hash: nat -> Hash, time: nat -> int, logs: nat -> seq<Log>)

  ghost predicate GoodLog(c: Chain, core: Address, n: nat, x: Log) {
    x in c.logs(n) ==> x.blockNumber == n && x.blockHash == c.hash(n) && x.address == core && !x.removed
  }

  ghost predicate GoodChain(c: Chain, core: Address) {
    && (forall n: nat, x :: GoodLog(c, core, n, x))
    && (forall n: nat, x, y :: x in c.logs(n) && y in c.logs(n) && x.index == y.index ==> x == y)
    && (forall m: nat, n: nat :: c.hash(m) == c.hash(n) ==> m == n)
  }

  /** A block hash fixes the block and every block before it. */
  ghost predicate Commits(a: Chain, b: Chain) {
    forall n: nat :: a.hash(n) == b.hash(n) ==>
      forall m: nat :: m <= n ==> a.hash(m) == b.hash(m) && a.time(m) == b.time(m) && a.logs(m) == b.logs(m)
  }

  ghost predicate OnChain(c: Chain, from: nat, to: nat, x: Log) {
    from <= x.blockNumber <= to && x in c.logs(x.blockNumber)
  }

  /** The provider answers from chain `c`; logs may come in any order, and repeatedly. */
  ghost predicate Faithful(p: Provider, c: Chain) {
    && p.chainId == CHAIN_ID && p.head == c.head && p.headAfter == c.hash(c.head)
    && (forall n: nat :: n <= c.head ==> p.hash(n) == c.hash(n) && p.time(n) == c.time(n))
    && (forall from: nat, to: nat, x :: x in p.logs(from, to) <==> OnChain(c, from, to, x))
  }

  /** The items of blocks `from` to `to`. */
  function ItemsIn(c: Chain, from: nat, to: nat): seq<Item> {
    if from > to then []
    else (if to == 0 then [] else ItemsIn(c, from, to - 1)) + Stamped(c.time, c.logs(to))
  }

  ghost predicate ItemOnChain(c: Chain, from: nat, to: nat, x: Item) {
    OnChain(c, from, to, x.log) && x.timestamp == c.time(x.log.blockNumber)
  }

  /** The listing holds exactly the items of its blocks. */
  lemma {:induction false} ItemsInHolds(c: Chain, core: Address, from: nat, to: nat)
    requires GoodChain(c, core)
    ensures forall x: Item :: x in ItemsIn(c, from, to) <==> ItemOnChain(c, from, to, x)
  {
    hide GoodChain;
    if from <= to {
      var front := if to == 0 then [] else ItemsIn(c, from, to - 1);
      if to > 0 {
        ItemsInHolds(c, core, from, to - 1);
      }
      forall x: Item ensures x in ItemsIn(c, from, to) <==> ItemOnChain(c, from, to, x) {
        BlockHolds(c, core, to, x);
        assert x in ItemsIn(c, from, to) <==> x in front || x in Stamped(c.time, c.logs(to));
        assert to > 0 ==> (x in front <==> ItemOnChain(c, from, to - 1, x));
      }
    }
  }

  lemma BlockHolds(c: Chain, core: Address, n: nat, x: Item)
    requires GoodChain(c, core)
    ensures x in Stamped(c.time, c.logs(n)) <==> ItemOnChain(c, n, n, x)
  {
    StampedHolds(c.time, c.logs(n), x);
    assert GoodLog(c, core, n, x.log);
  }

  lemma StampedHolds(time: nat -> int, logs: seq<Log>, x: Item)
    ensures x in Stamped(time, logs) <==> x.log in logs && x.timestamp == time(x.log.blockNumber)
  {
    if x.log in logs && x.timestamp == time(x.log.blockNumber) {
      var i :| 0 <= i < |logs| && logs[i] == x.log;
      assert Stamped(time, logs)[i] == x;
    }
  }

  lemma ItemsCanonical(c: Chain, core: Address, from: nat, to: nat)
    requires GoodChain(c, core)
    ensures Canonical(ItemsIn(c, from, to)) && AllFrom(ItemsIn(c, from, to), core)
  {
    hide GoodChain;
    var items := ItemsIn(c, from, to);
    ItemsInHolds(c, core, from, to);
    forall i | 0 <= i < |items| ensures items[i].log.address == core {
      assert items[i] in items;
      OnePlace(c, core, from, to, items[i], items[i]);
    }
    forall x, y | Has(items, x) && Has(items, y) && x != y
      ensures KeyOf(x) != KeyOf(y) && (Before(x, y) || Before(y, x))
    {
      OnePlace(c, core, from, to, x, y);
    }
  }

  /** Two items of one chain are the same or differ in key and place. */
  lemma OnePlace(c: Chain, core: Address, from: nat, to: nat, x: Item, y: Item)
    requires GoodChain(c, core) && ItemOnChain(c, from, to, x) && ItemOnChain(c, from, to, y)
    ensures x.log.address == core
    ensures x == y || (KeyOf(x) != KeyOf(y) && (Before(x, y) || Before(y, x)))
  {
    assert GoodLog(c, core, x.log.blockNumber, x.log);
    assert GoodLog(c, core, y.log.blockNumber, y.log);
    if x.log.blockNumber != y.log.blockNumber {
      assert c.hash(x.log.blockNumber) != c.hash(y.log.blockNumber);
    }
  }

  // ---- a cached read is a full scan ----

  /** `k` was taken from chain `c` and holds all its items up to `latestBlock`. */
  ghost predicate Genuine(k: Checkpoint, c: Chain, core: Address) {
    && GoodChain(c, core) && k.latestHash == c.hash(k.latestBlock)
    && SameItems(k.logs, ItemsIn(c, k.creationBlock, k.latestBlock))
  }

  /** Chains that share a block share every item up to it. */
  lemma SharedItems(a: Chain, b: Chain, core: Address, from: nat, to: nat)
    requires GoodChain(a, core) && GoodChain(b, core) && Commits(a, b) && a.hash(to) == b.hash(to)
    ensures SameItems(ItemsIn(a, from, to), ItemsIn(b, from, to))
  {
    ItemsInHolds(a, core, from, to);
    ItemsInHolds(b, core, from, to);
    forall m: nat | m <= to ensures a.time(m) == b.time(m) && a.logs(m) == b.logs(m) {
      assert a.hash(to) == b.hash(to);
    }
  }

  /** The provider's new logs are the items of the blocks asked for. */
  lemma NewItems(p: Provider, c: Chain, core: Address, from: nat)
    requires Faithful(p, c) && GoodChain(c, core)
    ensures SameItems(Stamped(p.time, p.logs(from, p.head)), ItemsIn(c, from, p.head))
    ensures HashesMatch(p, p.logs(from, p.head))
  {
    var logs := p.logs(from, p.head);
    ItemsInHolds(c, core, from, p.head);
    forall x: Item ensures x in Stamped(p.time, logs) <==> x in ItemsIn(c, from, p.head) {
      StampedHolds(p.time, logs, x);
      assert x.log in logs <==> OnChain(c, from, p.head, x.log);
    }
    forall i | 0 <= i < |logs| ensures p.hash(logs[i].blockNumber) == logs[i].blockHash {
      assert logs[i] in logs && OnChain(c, from, p.head, logs[i]);
      assert GoodLog(c, core, logs[i].blockNumber, logs[i]);
    }
  }

  lemma ItemsSplit(c: Chain, core: Address, from: nat, middle: nat, to: nat)
    requires GoodChain(c, core) && from <= middle <= to
    ensures SameItems(ItemsIn(c, from, middle) + ItemsIn(c, middle + 1, to), ItemsIn(c, from, to))
  {
    ItemsInHolds(c, core, from, middle);
    ItemsInHolds(c, core, middle + 1, to);
    ItemsInHolds(c, core, from, to);
  }

  /** What a scan of the whole range would show. */
  function FullScan(c: Chain, core: Address, o: Origin): Result<seq<Activity>, Error> {
    Replay(ItemsIn(c, o.block, c.head), core)
  }

  /** A cache written from chain `source` may be used on a chain that agrees with it. */
  ghost predicate GoodCache(cached: Option<Checkpoint>, source: Chain, c: Chain, core: Address) {
    cached.Some? ==> Genuine(cached.value, source, core) && Commits(source, c)
  }

  lemma AllItems(p: Provider, c: Chain, core: Address, o: Origin, cached: Option<Checkpoint>, source: Chain)
    requires Faithful(p, c) && GoodChain(c, core) && GoodCache(cached, source, c, core)
    ensures SameItems(Prefix(p, core, o, cached) + Stamped(p.time, p.logs(From(p, core, o, cached), p.head)),
                      ItemsIn(c, o.block, c.head))
  {
    hide Replay, GoodChain, ItemsIn;
    NewItems(p, c, core, From(p, core, o, cached));
    if UsesCache(p, core, o, cached) {
      var k := cached.value;
      SharedItems(source, c, core, o.block, k.latestBlock);
      ItemsSplit(c, core, o.block, k.latestBlock, p.head);
    }
  }

  /** Reading with any cache that was truthfully written on this or an earlier chain shows exactly
      what a full scan of the current chain shows, and leaves a truthful checkpoint: a cached
      prefix is used only while its last block is still in the chain. */
  lemma ReadIsFullScan(p: Provider, c: Chain, core: Address, o: Origin, cached: Option<Checkpoint>, source: Chain)
    requires Faithful(p, c) && GoodChain(c, core) && GoodCache(cached, source, c, core)
    requires o.block <= c.head && c.hash(o.block) == o.hash
    ensures Read(p, core, o, cached).Ok? && FullScan(c, core, o) == Ok(Read(p, core, o, cached).value.events)
    ensures Genuine(Read(p, core, o, cached).value.checkpoint, c, core)
  {
    hide Replay, GoodChain, ItemsIn, Usable, Canonical;
    var from := From(p, core, o, cached);
    var all := Prefix(p, core, o, cached) + Stamped(p.time, p.logs(from, p.head));
    var items := ItemsIn(c, o.block, c.head);
    AllItems(p, c, core, o, cached, source);
    NewItems(p, c, core, from);
    ItemsCanonical(c, core, o.block, c.head);
    ReplaySame(items, all, core);
    ReplayOk(items, core);
  }

  lemma ReplayOk(items: seq<Item>, core: Address)
    requires AllFrom(items, core)
    ensures Replay(items, core).Ok?
  {}

  /** A truthful checkpoint of this history whose last block is still in the chain is used: only the
      blocks after it are read. */
  lemma CacheUsed(p: Provider, c: Chain, core: Address, o: Origin, k: Checkpoint, source: Chain)
    requires Faithful(p, c) && Genuine(k, source, core)
    requires k.version == 2 && k.factory == o.factory && k.market == o.market && k.core == core
    requires k.creationBlock == o.block && k.creationHash == o.hash
    requires o.block <= k.latestBlock <= c.head && c.hash(k.latestBlock) == k.latestHash
    ensures From(p, core, o, Some(k)) == k.latestBlock + 1 && Prefix(p, core, o, Some(k)) == k.logs
  {
    hide GoodChain, Replay;
    ItemsInHolds(source, core, k.creationBlock, k.latestBlock);
    ItemsCanonical(source, core, k.creationBlock, k.latestBlock);
    var items := ItemsIn(source, k.creationBlock, k.latestBlock);
    forall i | 0 <= i < |k.logs| ensures o.block <= k.logs[i].log.blockNumber <= k.latestBlock {
      assert k.logs[i] in k.logs && k.logs[i] in items;
    }
    AllFromSame(items, k.logs, core);
    ReplayOk(k.logs, core);
  }

  /** After a read, the next read scans only the blocks added since, as long as the chain still has
      the head that was read. */
  lemma NextReadContinues(p: Provider, c: Chain, core: Address, o: Origin, cached: Option<Checkpoint>, source: Chain,
      q: Provider, d: Chain)
    requires Faithful(p, c) && GoodChain(c, core) && GoodCache(cached, source, c, core)
    requires o.block <= c.head && c.hash(o.block) == o.hash
    requires Faithful(q, d) && c.head <= d.head && d.hash(c.head) == c.hash(c.head)
    ensures Read(p, core, o, cached).Ok?
    ensures var k := Read(p, core, o, cached).value.checkpoint;
      From(q, core, o, Some(k)) == c.head + 1 && Prefix(q, core, o, Some(k)) == k.logs
  {
    hide GoodChain, Replay, Genuine, GoodCache, From, Prefix;
    ReadIsFullScan(p, c, core, o, cached, source);
    CacheUsed(q, d, core, o, Read(p, core, o, cached).value.checkpoint, c);
  }

  /** A read succeeds only on the right chain, while the origin and the head it started from are in
      it and every new log is in the block the provider shows at its height. */
  lemma ReadVouches(p: Provider, core: Address, o: Origin, cached: Option<Checkpoint>)
    requires Read(p, core, o, cached).Ok?
    ensures p.chainId == 46630 && o.block <= p.head && p.hash(o.block) == o.hash && p.headAfter == p.hash(p.head)
    ensures var r := Read(p, core, o, cached).value;
      && r.checkpoint.latestBlock == p.head && r.checkpoint.latestHash == p.hash(p.head)
      && forall x :: x in r.checkpoint.logs ==>
           x.log.address == core && (x in Prefix(p, core, o, cached) || p.hash(x.log.blockNumber) == x.log.blockHash)
  {
    hide Rows, Sort, Unique;
    var from := From(p, core, o, cached);
    var logs := p.logs(from, p.head);
    var all := Prefix(p, core, o, cached) + Stamped(p.time, logs);
    forall x | x in all
      ensures x.log.address == core && (x in Prefix(p, core, o, cached) || p.hash(x.log.blockNumber) == x.log.blockHash)
    {
      if x in Stamped(p.time, logs) {
        StampedHolds(p.time, logs, x);
      }
    }
  }

  // ---- any number of visits ----

  /** What is stored after a save: an older scan never replaces a newer one unless that one was
      found to be of another chain. */
  function Saved(stored: Option<Checkpoint>, r: Reading): Option<Checkpoint> {
    if stored.Some? && stored.value.latestBlock > r.checkpoint.latestBlock && Some(stored.value.latestHash) != r.invalidated
    then stored else Some(r.checkpoint)
  }

  /** A read's checkpoint replaces whatever is stored by then, possibly by somebody else, unless that
      covers more blocks; a longer one is lost only if it is the very one this read found unusable. */
  lemma NewerNeverLost(p: Provider, core: Address, o: Origin, cached: Option<Checkpoint>, stored: Option<Checkpoint>)
    requires Read(p, core, o, cached).Ok?
    ensures var r := Read(p, core, o, cached).value;
      var kept := Saved(stored, r);
      && kept.Some? && (kept == stored || kept.value == r.checkpoint)
      && kept.value.latestBlock >= r.checkpoint.latestBlock
      && (stored.Some? && kept.value.latestBlock < stored.value.latestBlock ==>
            cached.Some? && stored.value.latestHash == cached.value.latestHash && !Usable(p, core, o, cached.value))
  {
    hide Replay;
  }

  /** A visit finds the stored checkpoint, or none if the store is unavailable, and sees a chain. */
  datatype Visit = Visit(p: Provider, c: Chain, available: bool)

  function Found(stored: Option<Checkpoint>, v: Visit): Option<Checkpoint> {
    if v.available then stored else None
  }

  function Shown(stored: Option<Checkpoint>, visits: seq<Visit>, core: Address, o: Origin): seq<Result<Reading,
      ReadError>>
    decreases |visits|
  {
    if visits == [] then []
    else
      var r := Read(visits[0].p, core, o, Found(stored, visits[0]));
      var left := if r.Ok? && visits[0].available then Saved(stored, r.value) else stored;
      [r] + Shown(left, visits[1..], core, o)
  }

  ghost predicate GoodVisit(v: Visit, core: Address, o: Origin) {
    Faithful(v.p, v.c) && GoodChain(v.c, core) && o.block <= v.c.head && v.c.hash(o.block) == o.hash
  }

  ghost predicate GoodVisits(visits: seq<Visit>, core: Address, o: Origin) {
    && (forall i :: 0 <= i < |visits| ==> GoodVisit(visits[i], core, o))
    && (forall i, j :: 0 <= i < j < |visits| ==> Commits(visits[i].c, visits[j].c))
  }

  ghost predicate GoodStore(stored: Option<Checkpoint>, source: Chain, visits: seq<Visit>, core: Address) {
    stored.Some? ==>
      Genuine(stored.value, source, core) && forall i :: 0 <= i < |visits| ==> Commits(source, visits[i].c)
  }

  /** Over any number of visits, with the chain growing and reorganizing in between and the store
      coming and going, every visit shows exactly the history of the chain it sees. */
  lemma {:induction false} EveryVisitComplete(stored: Option<Checkpoint>, source: Chain, visits: seq<Visit>,
      core: Address, o: Origin)
    requires GoodVisits(visits, core, o) && GoodStore(stored, source, visits, core)
    ensures var shown := Shown(stored, visits, core, o);
      && |shown| == |visits|
      && forall i :: 0 <= i < |visits| ==>
           shown[i].Ok? && FullScan(visits[i].c, core, o) == Ok(shown[i].value.events)
    decreases |visits|
  {
    hide Read, FullScan, GoodChain, Faithful, Commits, Genuine;
    if visits != [] {
      var v := visits[0];
      var found := Found(stored, v);
      ReadIsFullScan(v.p, v.c, core, o, found, source);
      var r := Read(v.p, core, o, found);
      var left := if r.Ok? && v.available then Saved(stored, r.value) else stored;
      var next := if left == stored then source else v.c;
      if left.Some? {
        forall i | 0 <= i < |visits[1..]| ensures Commits(next, visits[1..][i].c) {
          assert visits[1..][i] == visits[i + 1];
        }
      }
      EveryVisitComplete(left, next, visits[1..], core, o);
    }
  }
}
