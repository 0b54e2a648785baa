/** The weighted sampler: one draw r in [0, total weight), then the first entry whose running
    weight sum exceeds r. */
module Sampling {

  /** Total weight of the entries, summed from the back so that prefixes extend one entry at a time. */
  function Sum<T>(states: seq<(T, nat)>): nat
  {
    if states == [] then 0 else Sum(states[..|states| - 1]) + states[|states| - 1].1
  }

  /** Summing from the front gives the same total. */
  lemma {:induction false} SumCons<T>(x: (T, nat), states: seq<(T, nat)>)
    ensures Sum([x] + states) == x.1 + Sum(states)
    decreases |states|
  {
    if states != [] {
      var init := states[..|states| - 1];
      assert ([x] + states)[..|[x] + states| - 1] == [x] + init;
      SumCons(x, init);
    }
  }

  /** Running weight sum of the first k entries. */
  function Prefix<T>(states: seq<(T, nat)>, k: nat): nat
    requires k <= |states|
  {
    Sum(states[..k])
  }

  lemma PrefixStep<T>(states: seq<(T, nat)>, k: nat)
    requires k < |states|
    ensures Prefix(states, k + 1) == Prefix(states, k) + states[k].1
  {
    assert states[..k + 1][..k] == states[..k];
  }

  lemma PrefixWhole<T>(states: seq<(T, nat)>)
    ensures Prefix(states, |states|) == Sum(states)
  {
    assert states[..|states|] == states;
  }

  /** Running sums never decrease. */
  lemma {:induction false} PrefixMonotone<T>(states: seq<(T, nat)>, i: nat, j: nat)
    requires i <= j <= |states|
    ensures Prefix(states, i) <= Prefix(states, j)
    decreases j - i
  {
    if i < j {
      PrefixMonotone(states, i, j - 1);
      PrefixStep(states, j - 1);
    }
  }

  function PickFrom<T>(states: seq<(T, nat)>, r: nat, k: nat): (i: nat)
    requires k < |states| && Prefix(states, k) <= r < Sum(states)
    ensures k <= i < |states|
    decreases |states| - k
  {
    PrefixStep(states, k);
    PrefixWhole(states);
    if r < Prefix(states, k + 1) then k else PickFrom(states, r, k + 1)
  }

  /** The index of the entry a draw r selects: the first whose running sum exceeds r. */
  function PickIndex<T>(states: seq<(T, nat)>, r: nat): (i: nat)
    requires r < Sum(states)
    ensures i < |states|
  {
    assert states != [];
    PickFrom(states, r, 0)
  }

  lemma {:induction false} PickFromBounds<T>(states: seq<(T, nat)>, r: nat, k: nat)
    requires k < |states| && Prefix(states, k) <= r < Sum(states)
    ensures var i := PickFrom(states, r, k);
      k <= i < |states| && Prefix(states, i) <= r < Prefix(states, i + 1)
    decreases |states| - k
  {
    PrefixStep(states, k);
    PrefixWhole(states);
    if r >= Prefix(states, k + 1) {
      PickFromBounds(states, r, k + 1);
    }
  }

  /** The selected index i satisfies prefix(i) <= r < prefix(i + 1). */
  lemma PickIndexBounds<T>(states: seq<(T, nat)>, r: nat)
    requires r < Sum(states)
    ensures var i := PickIndex(states, r);
      i < |states| && Prefix(states, i) <= r < Prefix(states, i + 1)
  {
    PickFromBounds(states, r, 0);
  }

  /** ... and it is the only index that does. */
  lemma PickIndexUnique<T>(states: seq<(T, nat)>, r: nat, j: nat)
    requires j < |states| && Prefix(states, j) <= r < Prefix(states, j + 1)
    ensures r < Sum(states) && PickIndex(states, r) == j
  {
    PrefixMonotone(states, j + 1, |states|);
    PrefixWhole(states);
    var i := PickIndex(states, r);
    PickIndexBounds(states, r);
    if i < j {
      PrefixMonotone(states, i + 1, j);
    } else if j < i {
      PrefixMonotone(states, j + 1, i);
    }
  }

  /** The selected entry is one of the input entries and its weight is positive: an entry of
      weight 0 is never selected. */
  lemma PickIndexPositive<T>(states: seq<(T, nat)>, r: nat)
    requires r < Sum(states)
    ensures PickIndex(states, r) < |states| && states[PickIndex(states, r)].1 > 0
  {
    PickIndexBounds(states, r);
    PrefixStep(states, PickIndex(states, r));
  }

  /** The sampler, with its source of random numbers.  `source(k)` is the k-th raw value the
      generator produces; a draw below a bound reduces it modulo the bound.  `bounds` records
      the upper bound of every draw, in call order. */
  class Chooser {
    const source: nat -> nat
    var draws: nat
    ghost var bounds: seq<nat>

    constructor (source: nat -> nat)
      ensures this.source == source && draws == 0 && bounds == []
    {
      this.source := source;
      draws := 0;
      bounds := [];
    }

    /** The value the next draw below `upperBound` yields. */
    function Upcoming(upperBound: nat): (r: nat)
      reads this
      requires upperBound > 0
      ensures r < upperBound
    {
      source(draws) % upperBound
    }

    method GenerateRandom(upperBound: nat) returns (r: nat)
      requires upperBound > 0
      modifies this
      ensures r == old(Upcoming(upperBound)) && r < upperBound
      ensures draws == old(draws) + 1 && bounds == old(bounds) + [upperBound]
    {
      r := source(draws) % upperBound;
      draws := draws + 1;
      bounds := bounds + [upperBound];
    }

    /** Draws exactly once, below the total weight, and returns the token of the entry that
        draw selects.  An empty input, a zero total, or a draw outside [0, total) would reach
        the source's unreachable end; the precondition rules them out. */
    method Choose<T>(states: seq<(T, nat)>) returns (t: T)
      requires Sum(states) > 0
      modifies this
      ensures t == states[PickIndex(states, old(Upcoming(Sum(states))))].0
      ensures exists i :: 0 <= i < |states| && states[i].0 == t && states[i].1 > 0
      ensures draws == old(draws) + 1 && bounds == old(bounds) + [Sum(states)]
    {
      var sum := Sum(states);
      var random := GenerateRandom(sum);
      var i := 0;
      for k := 0 to |states|
        invariant i == Prefix(states, k)
        invariant i <= random
        invariant draws == old(draws) + 1 && bounds == old(bounds) + [sum]
      {
        PrefixStep(states, k);
        i := i + states[k].1;
        if i > random {
          PickIndexUnique(states, random, k);
          PickIndexPositive(states, random);
          return states[k].0;
        }
      }
      PrefixWhole(states);
      assert false;
    }
  }

  /** Weights foo:3, bar:2, baz:1 give the boundaries foo [0,3), bar [3,5), baz [5,6). */
  lemma ExampleBoundaries()
    ensures var weights := [("foo", 3), ("bar", 2), ("baz", 1)];
      && Sum(weights) == 6
      && PickIndex(weights, 0) == 0 && PickIndex(weights, 2) == 0 && PickIndex(weights, 4) == 1
  {
    var weights := [("foo", 3), ("bar", 2), ("baz", 1)];
    assert Prefix(weights, 0) == 0 by { assert weights[..0] == []; }
    PrefixStep(weights, 0);
    PrefixStep(weights, 1);
    PrefixStep(weights, 2);
    PrefixWhole(weights);
    PickIndexUnique(weights, 0, 0);
    PickIndexUnique(weights, 2, 0);
    PickIndexUnique(weights, 4, 1);
  }

  /** With raw draws 0, 2, 4, 6 (reduced modulo the total 6) the sampler selects foo, foo, bar, foo. */
  method SamplesExample() returns (picks: seq<string>)
    ensures picks == ["foo", "foo", "bar", "foo"]
  {
    var sampler := new Chooser(k => 2 * k);
    var weights := [("foo", 3), ("bar", 2), ("baz", 1)];
    ExampleBoundaries();
    var a := sampler.Choose(weights);
    assert a == "foo";
    var b := sampler.Choose(weights);
    assert b == "foo";
    var c := sampler.Choose(weights);
    assert c == "bar";
    var d := sampler.Choose(weights);
    assert d == "foo";
    picks := [a, b, c, d];
  }
}
