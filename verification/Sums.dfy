/** Sums over any number of records. */
module Sums {

  function Sum<T>(f: T -> real, xs: seq<T>): real {
    if xs == [] then 0.0 else f(xs[0]) + Sum(f, xs[1..])
  }

  function Map<T>(t: T -> T, xs: seq<T>): (ys: seq<T>)
    ensures |ys| == |xs|
    ensures forall i :: 0 <= i < |xs| ==> ys[i] == t(xs[i])
  {
    if xs == [] then [] else [t(xs[0])] + Map(t, xs[1..])
  }

  lemma {:induction false} SumUpdateOne<T>(f: T -> real, xs: seq<T>, i: nat, a: T)
    requires i < |xs|
    ensures Sum(f, xs[i := a]) == Sum(f, xs) - f(xs[i]) + f(a)
  {
    if i == 0 {
      assert xs[i := a][1..] == xs[1..];
    } else {
      assert xs[i := a][1..] == xs[1..][i - 1 := a];
      SumUpdateOne(f, xs[1..], i - 1, a);
    }
  }

  /** Replacing one account changes every sum by that account's difference. */
  lemma SumUpdate<T>(xs: seq<T>, i: nat, a: T)
    requires i < |xs|
    ensures forall f: T -> real :: Sum(f, xs[i := a]) == Sum(f, xs) - f(xs[i]) + f(a)
  {
    forall f: T -> real
      ensures Sum(f, xs[i := a]) == Sum(f, xs) - f(xs[i]) + f(a)
    {
      SumUpdateOne(f, xs, i, a);
    }
  }

  lemma {:induction false} SumNonNeg<T>(f: T -> real, xs: seq<T>)
    requires forall i :: 0 <= i < |xs| ==> f(xs[i]) >= 0.0
    ensures Sum(f, xs) >= 0.0
    ensures forall i :: 0 <= i < |xs| ==> f(xs[i]) <= Sum(f, xs)
  {
    if xs != [] {
      SumNonNeg(f, xs[1..]);
      forall i | 0 <= i < |xs| ensures f(xs[i]) <= Sum(f, xs) {
        if i > 0 {
          assert xs[i] == xs[1..][i - 1];
        }
      }
    }
  }

  /** If every account's `f` moves by `c` times its `g`, the sum moves by `c` times the sum. */
  lemma {:induction false} SumLinear<T>(f: T -> real, xs: seq<T>, ys: seq<T>, c: real, g: T -> real)
    requires |xs| == |ys|
    requires forall i :: 0 <= i < |xs| ==> f(ys[i]) == f(xs[i]) + c * g(xs[i])
    ensures Sum(f, ys) == Sum(f, xs) + c * Sum(g, xs)
  {
    if xs != [] {
      forall i | 0 <= i < |xs[1..]|
        ensures f(ys[1..][i]) == f(xs[1..][i]) + c * g(xs[1..][i])
      {
        assert xs[1..][i] == xs[i + 1] && ys[1..][i] == ys[i + 1];
      }
      SumLinear(f, xs[1..], ys[1..], c, g);
    }
  }

  lemma {:induction false} SumSame<T>(f: T -> real, xs: seq<T>, g: T -> real, ys: seq<T>)
    requires |xs| == |ys|
    requires forall i :: 0 <= i < |xs| ==> g(ys[i]) == f(xs[i])
    ensures Sum(g, ys) == Sum(f, xs)
  {
    if xs != [] {
      forall i | 0 <= i < |xs[1..]|
        ensures g(ys[1..][i]) == f(xs[1..][i])
      {
        assert xs[1..][i] == xs[i + 1] && ys[1..][i] == ys[i + 1];
      }
      SumSame(f, xs[1..], g, ys[1..]);
    }
  }

  lemma {:induction false} SumZero<T>(f: T -> real, xs: seq<T>)
    requires forall i :: 0 <= i < |xs| ==> f(xs[i]) == 0.0
    ensures Sum(f, xs) == 0.0
  {
    if xs != [] {
      SumZero(f, xs[1..]);
    }
  }
}
