/** Finding the blocks with one timestamp: a predicted block, galloping away from it, bisection. */
module BlockSearch {
  import opened Wrappers

  datatype Header = Header(number: int, timestamp: int)

  datatype Fault =
    | INVALID_HEAD | INVALID_HEADER | PREDATES_BLOCK_ONE | NONMONOTONIC
    | BRACKET_EXCEEDED | BOUNDARY_UNAVAILABLE | BINARY_EXCEEDED

  datatype Bracket = Bracket(low: int, high: int)

  datatype Range = Range(first: int, last: int)

  const MAX_SAFE_INTEGER: int := 9007199254740991

  predicate ValidHeader(h: Header) {
    1 <= h.number <= MAX_SAFE_INTEGER && 0 <= h.timestamp <= MAX_SAFE_INTEGER
  }

  /** The header the search sees for block n: the given head, or what the provider returns. */
  function Seen(head: Header, header: int -> Header, n: int): Header {
    if n == head.number then head else header(n)
  }

  function Stamp(head: Header, header: int -> Header, n: int): int {
    Seen(head, header, n).timestamp
  }

  predicate GoodBlock(head: Header, header: int -> Header, n: int) {
    ValidHeader(Seen(head, header, n)) && Seen(head, header, n).number == n
  }

  predicate AcceptedHead(head: Header, createdAt: int) {
    ValidHeader(head) && head.number < MAX_SAFE_INTEGER && 0 <= createdAt <= head.timestamp
  }

  /** A chain as the search expects it: every block answers, and timestamps never decrease. */
  ghost predicate Chain(head: Header, header: int -> Header) {
    && (forall n :: 1 <= n <= head.number ==> GoodBlock(head, header, n))
    && (forall m, n :: 1 <= m <= n <= head.number ==> Stamp(head, header, m) <= Stamp(head, header, n))
  }

  /** The least block stamped `target` or later is `n`, as far as its neighbours show. */
  predicate Boundary(head: Header, header: int -> Header, target: int, n: int) {
    && 1 <= n <= head.number + 1
    && (n <= head.number ==> Stamp(head, header, n) >= target)
    && (n > 1 ==> Stamp(head, header, n - 1) < target)
  }

  ghost predicate SomeBadBlock(head: Header, header: int -> Header) {
    exists n :: 1 <= n <= head.number && !GoodBlock(head, header, n)
  }

  lemma BadBlock(head: Header, header: int -> Header, n: int)
    requires 1 <= n <= head.number && !GoodBlock(head, header, n)
    ensures SomeBadBlock(head, header)
  {}

  function Pow2(n: nat): nat {
    if n == 0 then 1 else 2 * Pow2(n - 1)
  }

  lemma Pow2Limit()
    ensures Pow2(53) == MAX_SAFE_INTEGER + 1
  {
    assert Pow2(10) == 1024;
    assert Pow2(20) == 1048576 by { Pow2Sum(10, 10); }
    assert Pow2(40) == 1099511627776 by { Pow2Sum(20, 20); }
    assert Pow2(50) == 1125899906842624 by { Pow2Sum(40, 10); }
    assert Pow2(53) == 8 * Pow2(50);
  }

  lemma {:induction false} Pow2Sum(m: nat, n: nat)
    ensures Pow2(m + n) == Pow2(m) * Pow2(n)
  {
    if m > 0 {
      Pow2Sum(m - 1, n);
      assert Pow2(m + n) == 2 * (Pow2(m - 1) * Pow2(n));
    }
  }

  lemma {:induction false} Pow2Monotone(m: nat, n: nat)
    requires m <= n
    ensures 1 <= Pow2(m) <= Pow2(n)
  {
    if m < n {
      Pow2Monotone(m, n - 1);
    } else if m > 0 {
      Pow2Monotone(m - 1, m - 1);
    }
  }

  function Min(x: int, y: int): int {
    if x <= y then x else y
  }

  function Max(x: int, y: int): int {
    if x >= y then x else y
  }

  /** Galloping step after `k` doublings. */
  function StepAfter(top: int, k: nat): int {
    Min(top, Pow2(k))
  }

  lemma FirstStep(top: int)
    requires top >= 1
    ensures StepAfter(top, 0) == 1
  {}

  lemma StepDoubles(top: int, k: nat)
    requires top >= 1
    ensures StepAfter(top, k + 1) == Min(top, 2 * StepAfter(top, k)) && 1 <= StepAfter(top, k) <= top
  {
    Pow2Monotone(0, k);
  }

  /** A step that has not reached the whole chain has been doubled fewer than 53 times. */
  lemma StepShort(top: int, k: nat)
    requires 1 <= top <= MAX_SAFE_INTEGER && StepAfter(top, k) < top
    ensures k < 53
  {
    Pow2Limit();
    if k >= 53 {
      Pow2Monotone(53, k);
    }
  }

  /** One search: the provider, the head, and the headers read so far. */
  class Search {
    const head: Header
    const header: int -> Header
    var cache: map<int, Header>

    ghost predicate Valid()
      reads this
    {
      && ValidHeader(head) && head.number < MAX_SAFE_INTEGER
      && head.number in cache
      && forall n :: n in cache ==> cache[n] == Seen(head, header, n) && GoodBlock(head, header, n)
    }

    constructor (head: Header, header: int -> Header)
      requires ValidHeader(head) && head.number < MAX_SAFE_INTEGER
      ensures Valid() && this.head == head && this.header == header
    {
      this.head, this.header := head, header;
      cache := map[head.number := head];
    }

    /** `high` is new enough and `low` is not. */
    ghost predicate Brackets(b: Bracket, target: int) {
      && 1 <= b.low < b.high <= head.number
      && Stamp(head, header, b.low) < target <= Stamp(head, header, b.high)
    }

    /** Reads a header once; later reads of the block come from the cache. */
    method Read(n: int) returns (r: Result<Header, Fault>)
      requires Valid()
      modifies `cache
      ensures Valid()
      ensures r == if GoodBlock(head, header, n) then Ok(Seen(head, header, n)) else Err(INVALID_HEADER)
      ensures cache == if r.Ok? then old(cache)[n := r.value] else old(cache)
    {
      if n in cache {
        assert cache == cache[n := cache[n]];
        return Ok(cache[n]);
      }
      var h := header(n);
      if !ValidHeader(h) || h.number != n {
        return Err(INVALID_HEADER);
      }
      cache := cache[n := h];
      return Ok(h);
    }

    /** Linear prediction from the sampled rate, kept inside the chain. */
    function Predict(sample: Header, target: int): (n: int)
      requires 1 <= head.number && sample.timestamp <= head.timestamp
      ensures 1 <= n <= head.number
    {
      var elapsed := head.timestamp - sample.timestamp;
      if elapsed == 0 then head.number
      else
        var estimate := head.number - (head.timestamp - target) * (head.number - sample.number) / elapsed;
        if estimate < 1 then 1 else if estimate > head.number then head.number else estimate
    }

    /** Gallops down from `guess` until a block is older than the target. */
    method GallopDown(guess: int, target: int) returns (r: Result<Bracket, Fault>)
      requires Valid() && 1 <= guess <= head.number
      requires Stamp(head, header, 1) < target <= Stamp(head, header, guess)
      modifies `cache
      ensures Valid()
      ensures r.Ok? ==> Brackets(r.value, target)
      ensures r.Err? ==> r.error == INVALID_HEADER && SomeBadBlock(head, header)
    {
      hide StepAfter;
      var low, high, step, iterations := 1, guess, 1, 0;
      FirstStep(head.number);
      while true
        invariant Valid() && 0 <= iterations && step == StepAfter(head.number, iterations)
        invariant iterations > 0 ==> StepAfter(head.number, iterations - 1) < head.number
        invariant guess - step < high <= guess && 1 <= high && low == 1 && Stamp(head, header, high) >= target
        decreases 64 - iterations
      {
        StepDoubles(head.number, iterations);
        if iterations > 0 {
          StepShort(head.number, iterations - 1);
        }
        iterations := iterations + 1;
        if iterations > 64 {
          return Err(BRACKET_EXCEEDED);
        }
        var n := Max(1, guess - step);
        var h := Read(n);
        if h.Err? {
          BadBlock(head, header, n);
          return Err(h.error);
        }
        if h.value.timestamp < target {
          low := n;
          break;
        }
        high := n;
        if n == 1 {
          return Ok(Bracket(0, 1));
        }
        step := Min(head.number, step * 2);
      }
      return Ok(Bracket(low, high));
    }

    /** Gallops up from `guess` until a block is at least as new as the target. */
    method GallopUp(guess: int, target: int) returns (r: Result<Bracket, Fault>)
      requires Valid() && 1 <= guess <= head.number
      requires Stamp(head, header, guess) < target <= Stamp(head, header, head.number)
      modifies `cache
      ensures Valid()
      ensures r.Ok? ==> Brackets(r.value, target)
      ensures r.Err? ==> r.error == INVALID_HEADER && SomeBadBlock(head, header)
    {
      hide StepAfter;
      var low, high, step, iterations := guess, head.number, 1, 0;
      FirstStep(head.number);
      while true
        invariant Valid() && 0 <= iterations && step == StepAfter(head.number, iterations)
        invariant iterations > 0 ==> StepAfter(head.number, iterations - 1) < head.number
        invariant guess <= low < guess + step && low < head.number == high && Stamp(head, header, low) < target
        decreases 64 - iterations
      {
        StepDoubles(head.number, iterations);
        if iterations > 0 {
          StepShort(head.number, iterations - 1);
        }
        iterations := iterations + 1;
        if iterations > 64 {
          return Err(BRACKET_EXCEEDED);
        }
        var n := Min(head.number, guess + step);
        var h := Read(n);
        if h.Err? {
          BadBlock(head, header, n);
          return Err(h.error);
        }
        if h.value.timestamp >= target {
          high := n;
          break;
        }
        low := n;
        if n == head.number {
          return Err(BOUNDARY_UNAVAILABLE);
        }
        step := Min(head.number, step * 2);
      }
      return Ok(Bracket(low, high));
    }

    /** The boundary of `target`, from the predicted block. On no chain does it run into one of its
        iteration limits or miss the boundary; it fails only if a header it reads is bad. */
    method LowerBound(oldest: Header, sample: Header, target: int) returns (r: Result<int, Fault>)
      requires Valid() && oldest == Seen(head, header, 1) && GoodBlock(head, header, 1)
      requires sample.timestamp <= head.timestamp
      modifies `cache
      ensures Valid()
      ensures r.Ok? ==> Boundary(head, header, target, r.value)
      ensures r.Err? ==> r.error == INVALID_HEADER && SomeBadBlock(head, header)
    {
      hide Predict;
      if target > head.timestamp {
        return Ok(head.number + 1);
      }
      if target <= oldest.timestamp {
        return Ok(1);
      }
      var guess := Predict(sample, target);
      var g := Read(guess);
      if g.Err? {
        BadBlock(head, header, guess);
        return Err(g.error);
      }
      var bracket;
      if g.value.timestamp >= target {
        bracket := GallopDown(guess, target);
      } else {
        bracket := GallopUp(guess, target);
      }
      if bracket.Err? {
        return Err(bracket.error);
      }
      r := Bisect(bracket.value.low, bracket.value.high, target);
    }

    method Bisect(low0: int, high0: int, target: int) returns (r: Result<int, Fault>)
      requires Valid() && Brackets(Bracket(low0, high0), target)
      modifies `cache
      ensures Valid()
      ensures r.Ok? ==> Boundary(head, header, target, r.value)
      ensures r.Err? ==> r.error == INVALID_HEADER && SomeBadBlock(head, header)
    {
      var low, high, iterations := low0, high0, 0;
      Pow2Limit();
      while high - low > 1
        invariant Valid() && Brackets(Bracket(low, high), target)
        invariant 0 <= iterations <= 53 && high - low <= Pow2(53 - iterations)
        decreases high - low
      {
        if iterations >= 64 {
          return Err(BINARY_EXCEEDED);
        }
        var middle := low + (high - low) / 2;
        var h := Read(middle);
        if h.Err? {
          BadBlock(head, header, middle);
          return Err(h.error);
        }
        if h.value.timestamp >= target {
          high := middle;
        } else {
          low := middle;
        }
        iterations := iterations + 1;
      }
      return Ok(high);
    }
  }

  lemma SamplesOrdered(head: Header, header: int -> Header, m: int)
    requires Chain(head, header) && 1 <= m <= head.number
    ensures Stamp(head, header, 1) <= Stamp(head, header, m) <= head.timestamp
  {
    assert Stamp(head, header, head.number) == head.timestamp;
  }

  /** Bounds of the blocks stamped `createdAt`. Whatever the provider returns, the only faults are
      a bad head or request, a bad header, a request before block one and a sampled time going
      backwards, and a returned range is bracketed by real headers. */
  method FindTimestampRange(head: Header, createdAt: int, header: int -> Header) returns (r: Result<Range, Fault>)
    ensures r == Err(INVALID_HEAD) <==> !AcceptedHead(head, createdAt)
    ensures r.Err? ==> r.error != BRACKET_EXCEEDED && r.error != BOUNDARY_UNAVAILABLE && r.error != BINARY_EXCEEDED
    ensures r == Err(INVALID_HEADER) ==> SomeBadBlock(head, header)
    ensures r == Err(PREDATES_BLOCK_ONE) ==> createdAt < Stamp(head, header, 1)
    ensures r == Err(NONMONOTONIC) ==> !Chain(head, header)
    ensures r.Ok? ==>
      && Boundary(head, header, createdAt, r.value.first)
      && Boundary(head, header, createdAt + 1, r.value.last + 1)
    ensures r.Ok? ==> AcceptedHead(head, createdAt) && Stamp(head, header, 1) <= createdAt
  {
    if !AcceptedHead(head, createdAt) {
      return Err(INVALID_HEAD);
    }
    var search := new Search(head, header);
    var oldest := search.Read(1);
    if oldest.Err? {
      BadBlock(head, header, 1);
      return Err(oldest.error);
    }
    if createdAt < oldest.value.timestamp {
      return Err(PREDATES_BLOCK_ONE);
    }
    var sample := search.Read(Max(1, head.number - 10000));
    if sample.Err? {
      BadBlock(head, header, Max(1, head.number - 10000));
      return Err(sample.error);
    }
    if sample.value.timestamp > head.timestamp || oldest.value.timestamp > sample.value.timestamp {
      if Chain(head, header) {
        SamplesOrdered(head, header, Max(1, head.number - 10000));
      }
      return Err(NONMONOTONIC);
    }
    var first := search.LowerBound(oldest.value, sample.value, createdAt);
    if first.Err? {
      return Err(first.error);
    }
    var last := search.LowerBound(oldest.value, sample.value, createdAt + 1);
    if last.Err? {
      return Err(last.error);
    }
    return Ok(Range(first.value, last.value - 1));
  }

  /** On a chain whose timestamps never decrease, a boundary splits the blocks exactly. */
  lemma BoundarySplits(head: Header, header: int -> Header, target: int, n: int)
    requires Chain(head, header) && Boundary(head, header, target, n)
    ensures forall m :: 1 <= m <= head.number ==> (m >= n <==> Stamp(head, header, m) >= target)
  {
    forall m | 1 <= m <= head.number
      ensures m >= n <==> Stamp(head, header, m) >= target
    {
      if m >= n {
        assert Stamp(head, header, n) <= Stamp(head, header, m);
      } else {
        assert Stamp(head, header, m) <= Stamp(head, header, n - 1);
      }
    }
  }

  /** The blocks between the two boundaries are exactly those stamped `createdAt`, and the range is
      empty exactly when no block carries that timestamp. */
  lemma RangeIsExact(head: Header, header: int -> Header, createdAt: int, range: Range)
    requires Chain(head, header)
    requires Boundary(head, header, createdAt, range.first) && Boundary(head, header, createdAt + 1, range.last + 1)
    ensures forall n :: 1 <= n <= head.number ==> (range.first <= n <= range.last <==> Stamp(head, header, n) == createdAt)
    ensures range.first > range.last <==> forall n :: 1 <= n <= head.number ==> Stamp(head, header, n) != createdAt
    ensures range.first <= range.last + 1
  {
    BoundarySplits(head, header, createdAt, range.first);
    BoundarySplits(head, header, createdAt + 1, range.last + 1);
    if range.first <= range.last {
      assert Stamp(head, header, range.first) == createdAt;
    }
    assert range.last + 1 <= head.number ==> Stamp(head, header, range.last + 1) >= createdAt;
  }

  /** The whole promise: on any such chain the search succeeds with the exact range, or says that the
      head is not one or does not reach the request, or that the request predates block one. */
  method FindOnChain(head: Header, createdAt: int, header: int -> Header) returns (r: Result<Range, Fault>)
    requires Chain(head, header)
    ensures r == Err(INVALID_HEAD) <==>
      !(1 <= head.number < 9007199254740991 && 0 <= createdAt <= head.timestamp <= 9007199254740991)
    ensures r == Err(PREDATES_BLOCK_ONE) <==> r != Err(INVALID_HEAD) && createdAt < Stamp(head, header, 1)
    ensures r.Err? ==> r.error == INVALID_HEAD || r.error == PREDATES_BLOCK_ONE
    ensures r.Ok? ==> forall n :: 1 <= n <= head.number ==>
      (r.value.first <= n <= r.value.last <==> Stamp(head, header, n) == createdAt)
    ensures r.Ok? ==>
      (r.value.first > r.value.last <==> forall n :: 1 <= n <= head.number ==> Stamp(head, header, n) != createdAt)
  {
    r := FindTimestampRange(head, createdAt, header);
    if r.Ok? {
      RangeIsExact(head, header, createdAt, r.value);
    }
  }
}
