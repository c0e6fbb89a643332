/** Bubble sorting from the end of a list, and its inversions. */
module Sorting {

  predicate Sorted(xs: seq<int>) { forall i, j :: 0 <= i < j < |xs| ==> xs[i] <= xs[j] }

  function Exchange(xs: seq<int>, j: nat): (ys: seq<int>)
    requires 0 < j < |xs|
    ensures |ys| == |xs|
  {
    xs[j := xs[j - 1]][j - 1 := xs[j]]
  }

  /** How many elements exceed v. */
  function Above(xs: seq<int>, v: int): nat {
    if xs == [] then 0 else Above(xs[..|xs| - 1], v) + if xs[|xs| - 1] > v then 1 else 0
  }

  /** The number of pairs that are out of order. */
  function Inversions(xs: seq<int>): nat {
    if xs == [] then 0 else Inversions(xs[..|xs| - 1]) + Above(xs[..|xs| - 1], xs[|xs| - 1])
  }

  lemma {:induction false} AboveExchange(xs: seq<int>, j: nat, v: int)
    requires 0 < j < |xs|
    ensures Above(Exchange(xs, j), v) == Above(xs, v)
    decreases |xs|
  {
    var n := |xs| - 1;
    var ys := Exchange(xs, j);
    if j < n {
      AboveExchange(xs[..n], j, v);
      assert ys[..n] == Exchange(xs[..n], j);
    } else {
      assert xs[..n][..n - 1] == ys[..n][..n - 1];
    }
  }

  /** Exchanging two neighbours that are out of order removes exactly one inversion. */
  lemma {:induction false} ExchangeInversions(xs: seq<int>, j: nat)
    requires 0 < j < |xs| && xs[j - 1] > xs[j]
    ensures Inversions(Exchange(xs, j)) == Inversions(xs) - 1
    decreases |xs|
  {
    var n := |xs| - 1;
    var ys := Exchange(xs, j);
    if j < n {
      ExchangeInversions(xs[..n], j);
      AboveExchange(xs[..n], j, xs[n]);
      assert ys[..n] == Exchange(xs[..n], j);
    } else {
      assert xs[..n][..n - 1] == ys[..n][..n - 1];
    }
  }

  /** One sweep over the neighbours (j - 1, j), ..., (0, 1). */
  function Sweep(xs: seq<int>, j: nat): (ys: seq<int>)
    requires j < |xs|
    ensures |ys| == |xs|
    decreases j
  {
    if j == 0 then xs
    else if xs[j] < xs[j - 1] then Sweep(Exchange(xs, j), j - 1)
    else Sweep(xs, j - 1)
  }

  lemma {:induction false} SweepPermutes(xs: seq<int>, j: nat)
    requires j < |xs|
    ensures multiset(Sweep(xs, j)) == multiset(xs)
    decreases j
  {
    if j == 0 {
    } else {
      var ys := if xs[j] < xs[j - 1] then Exchange(xs, j) else xs;
      assert multiset(ys) == multiset(xs);
      SweepPermutes(ys, j - 1);
    }
  }

  /** A sweep removes inversions, or finds everything it looks at in order and changes nothing. */
  lemma {:induction false} SweepInversions(xs: seq<int>, j: nat)
    requires j < |xs|
    ensures var ys := Sweep(xs, j);
      Inversions(ys) < Inversions(xs) || (ys == xs && forall i :: 0 < i <= j ==> xs[i - 1] <= xs[i])
    decreases j
  {
    hide Inversions, Exchange;
    if j == 0 {
    } else {
      if xs[j] < xs[j - 1] {
        ExchangeInversions(xs, j);
        SweepInversions(Exchange(xs, j), j - 1);
      } else {
        SweepInversions(xs, j - 1);
      }
    }
  }

  lemma NeighboursSorted(xs: seq<int>)
    requires forall k :: 0 < k < |xs| ==> xs[k - 1] <= xs[k]
    ensures Sorted(xs)
  {
    forall i, j | 0 <= i < j < |xs|
      ensures xs[i] <= xs[j]
    {
      PairSorted(xs, i, j);
    }
  }

  lemma {:induction false} PairSorted(xs: seq<int>, i: nat, j: nat)
    requires forall k :: 0 < k < |xs| ==> xs[k - 1] <= xs[k]
    requires i < j < |xs|
    ensures xs[i] <= xs[j]
    decreases j
  {
    if i < j - 1 {
      PairSorted(xs, i, j - 1);
    }
  }
}
