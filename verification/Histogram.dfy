/** One histogram shard, observed by one thread: cumulative buckets, a count and a compare-and-swap sum. */
module Histogram {
  import opened Common

  /** The bit pattern of a floating-point sum. */
  type Bits(==, 0, !new)

  /** Floating-point addition on bit patterns; nothing is assumed of it, so rounding is any rounding. */
  datatype Arithmetic = Arithmetic(zero: Bits, add: (Bits, real) -> Bits)

  const BUCKETS: nat := 11

  function Bound(i: nat): real
    requires i < BUCKETS
  {
    [0.005, 0.01, 0.025, 0.05, 0.1, 0.25, 0.5, 1.0, 2.5, 5.0, 10.0][i]
  }

  datatype Shard = Shard(buckets: seq<nat>, plusInf: nat, count: nat, sum: Bits)

  predicate Shaped(s: Shard) { |s.buckets| == BUCKETS }

  function Empty(f: Arithmetic): (s: Shard)
    ensures Shaped(s)
  {
    Shard(seq(BUCKETS, _ => 0), 0, 0, f.zero)
  }

  function Observed(s: Shard, seconds: real, f: Arithmetic): (r: Shard)
    requires Shaped(s)
    ensures Shaped(r)
  {
    Shard(
      seq(BUCKETS, i requires 0 <= i < BUCKETS => s.buckets[i] + if seconds <= Bound(i) then 1 else 0),
      s.plusInf + 1, s.count + 1, f.add(s.sum, seconds))
  }

  function ObserveAll(s: Shard, values: seq<real>, f: Arithmetic): (r: Shard)
    requires Shaped(s)
    ensures Shaped(r)
  {
    if values == [] then s else Observed(ObserveAll(s, values[..|values| - 1], f), values[|values| - 1], f)
  }

  function Fold(values: seq<real>, f: Arithmetic): Bits {
    if values == [] then f.zero else f.add(Fold(values[..|values| - 1], f), values[|values| - 1])
  }

  /** The shard in memory. A weak compare-and-swap may fail although the values agree; `spurious` is how
      often it does. */
  class HistogramShard {
    const buckets: array<nat>
    var plusInf: nat
    var sumBits: Bits
    var count: nat

    constructor (f: Arithmetic)
      ensures Valid() && Value() == Empty(f) && fresh(buckets)
    {
      buckets := new nat[BUCKETS](_ => 0);
      plusInf, sumBits, count := 0, f.zero, 0;
      new;
      assert buckets[..] == Empty(f).buckets;
    }

    ghost predicate Valid() { buckets.Length == BUCKETS }

    ghost function Value(): (s: Shard)
      requires Valid()
      reads this, buckets
      ensures Shaped(s)
    {
      Shard(buckets[..], plusInf, count, sumBits)
    }

    method CompareExchangeWeak(current: Bits, updated: Bits, fails: bool) returns (swapped: bool, observed: Bits)
      requires Valid()
      modifies `sumBits
      ensures swapped == (old(sumBits) == current && !fails) && observed == old(sumBits)
      ensures sumBits == if swapped then updated else old(sumBits)
    {
      swapped, observed := sumBits == current && !fails, sumBits;
      if swapped { sumBits := updated; }
    }

    method AddToSum(seconds: real, f: Arithmetic, spurious: nat)
      requires Valid()
      modifies `sumBits
      ensures sumBits == f.add(old(sumBits), seconds)
    {
      var current := sumBits;
      var left := spurious;
      while true
        invariant sumBits == old(sumBits) && current == sumBits
        decreases left
      {
        var swapped, observed := CompareExchangeWeak(current, f.add(current, seconds), left > 0);
        if swapped { return; }
        current, left := observed, left - 1;
      }
    }

    method Observe(seconds: real, f: Arithmetic, spurious: nat)
      requires Valid()
      modifies this, buckets
      ensures Value() == Observed(old(Value()), seconds, f)
    {
      for i := 0 to BUCKETS
        invariant plusInf == old(plusInf) && count == old(count) && sumBits == old(sumBits)
        invariant forall k :: 0 <= k < i ==> buckets[k] == old(buckets[k]) + if seconds <= Bound(k) then 1 else 0
        invariant forall k :: i <= k < BUCKETS ==> buckets[k] == old(buckets[k])
      {
        if seconds <= Bound(i) { buckets[i] := buckets[i] + 1; }
      }
      plusInf := plusInf + 1;
      count := count + 1;
      AddToSum(seconds, f, spurious);
      assert buckets[..] == Observed(old(Value()), seconds, f).buckets;
    }
  }

  // ----- what a shard holds after any observations -----

  /** From empty: bucket i counts the values at or below bound i, the totals count all of them, and the sum
      is the left fold. */
  lemma {:induction false} ObserveAllExact(values: seq<real>, f: Arithmetic)
    ensures var s := ObserveAll(Empty(f), values, f);
            && s.plusInf == s.count == |values| && s.sum == Fold(values, f)
            && (forall i: nat :: i < BUCKETS ==> s.buckets[i] == Count(values, (v: real) => v <= Bound(i)))
  {
    if values != [] {
      ObserveAllExact(values[..|values| - 1], f);
    }
  }

  lemma BoundsAscend(i: nat, j: nat)
    requires i <= j < BUCKETS
    ensures Bound(i) <= Bound(j)
  {
  }

  /** The buckets are cumulative: each holds at most what the next does, and the last at most the total. */
  lemma BucketsAscend(values: seq<real>, f: Arithmetic, i: nat, j: nat)
    requires i <= j < BUCKETS
    ensures var s := ObserveAll(Empty(f), values, f); s.buckets[i] <= s.buckets[j] <= s.plusInf
  {
    ObserveAllExact(values, f);
    BoundsAscend(i, j);
    CountImplies(values, (v: real) => v <= Bound(i), (v: real) => v <= Bound(j));
    CountBounds(values, (v: real) => v <= Bound(j));
  }
}
