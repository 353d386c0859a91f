/** Weighted counting over a sequence: "how many threads are in section k", "how many slots name p". */
module Tally {

  function Total<K, T>(xs: seq<T>, weight: (K, T) -> nat, k: K): nat {
    if xs == [] then 0 else weight(k, xs[0]) + Total(xs[1..], weight, k)
  }

  /** Replacing one element changes the total by exactly the difference of the two weights. */
  lemma {:induction false} TotalUpdate<K, T>(xs: seq<T>, i: nat, x: T, weight: (K, T) -> nat, k: K)
    requires i < |xs|
    ensures Total(xs[i := x], weight, k) == Total(xs, weight, k) - weight(k, xs[i]) + weight(k, x)
  {
    if i == 0 {
      assert xs[0 := x][1..] == xs[1..];
    } else {
      assert xs[i := x][1..] == xs[1..][i - 1 := x];
      TotalUpdate(xs[1..], i - 1, x, weight, k);
    }
  }

  lemma TotalUpdateAll<K(!new), T>(xs: seq<T>, i: nat, x: T, weight: (K, T) -> nat)
    requires i < |xs|
    ensures forall k :: Total(xs[i := x], weight, k) == Total(xs, weight, k) - weight(k, xs[i]) + weight(k, x)
  {
    forall k ensures Total(xs[i := x], weight, k) == Total(xs, weight, k) - weight(k, xs[i]) + weight(k, x) {
      TotalUpdate(xs, i, x, weight, k);
    }
  }

  /** One element's weight is part of the total. */
  lemma {:induction false} TotalAtLeast<K, T>(xs: seq<T>, i: nat, weight: (K, T) -> nat, k: K)
    requires i < |xs|
    ensures Total(xs, weight, k) >= weight(k, xs[i])
  {
    if i > 0 {
      TotalAtLeast(xs[1..], i - 1, weight, k);
    }
  }

  /** Two different elements both contribute. */
  lemma {:induction false} TotalAtLeastTwo<K, T>(xs: seq<T>, i: nat, j: nat, weight: (K, T) -> nat, k: K)
    requires i < j < |xs|
    ensures Total(xs, weight, k) >= weight(k, xs[i]) + weight(k, xs[j])
  {
    if i == 0 {
      TotalAtLeast(xs[1..], j - 1, weight, k);
    } else {
      TotalAtLeastTwo(xs[1..], i - 1, j - 1, weight, k);
    }
  }

  /** A positive total has a contributing element. */
  lemma {:induction false} TotalWitness<K, T>(xs: seq<T>, weight: (K, T) -> nat, k: K) returns (i: nat)
    requires Total(xs, weight, k) > 0
    ensures i < |xs| && weight(k, xs[i]) > 0
  {
    if weight(k, xs[0]) > 0 {
      i := 0;
    } else {
      i := TotalWitness(xs[1..], weight, k);
      i := i + 1;
    }
  }

  lemma {:induction false} TotalZero<K, T>(xs: seq<T>, weight: (K, T) -> nat, k: K)
    requires forall x :: x in xs ==> weight(k, x) == 0
    ensures Total(xs, weight, k) == 0
  {
    if xs != [] {
      assert weight(k, xs[0]) == 0;
      TotalZero(xs[1..], weight, k);
    }
  }

  lemma {:induction false} TotalAppend<K, T>(xs: seq<T>, ys: seq<T>, weight: (K, T) -> nat, k: K)
    ensures Total(xs + ys, weight, k) == Total(xs, weight, k) + Total(ys, weight, k)
  {
    if xs == [] {
      assert xs + ys == ys;
    } else {
      assert (xs + ys)[1..] == xs[1..] + ys;
      TotalAppend(xs[1..], ys, weight, k);
    }
  }
}
