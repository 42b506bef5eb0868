/**
 The same shard observed by any number of threads at once. Each atomic operation of `observe` is one step;
 steps of different threads interleave in any order, threads start at any time, and a weak
 compare-and-swap may fail although nothing changed.
 */
module ConcurrentHistogram {
  import opened Common
  import opened Histogram

  /** Where a thread is inside `observe`. */
  datatype Point = AtBucket(i: nat) | AtPlusInf | AtCount | AtLoad | AtSwap(current: Bits) | Finished

  datatype Thread = Thread(seconds: real, point: Point)

  /** Shared memory, the threads, and the values in the order their swaps succeeded. */
  datatype World = World(shared: Shard, threads: seq<Thread>, swapped: seq<real>)

  datatype Action = Start(seconds: real) | Move(thread: nat, spurious: bool)

  function Boot(f: Arithmetic): World { World(Empty(f), [], []) }

  /** One atomic step of a thread. */
  function Advance(shared: Shard, t: Thread, spurious: bool, f: Arithmetic): (Shard, Point)
    requires Shaped(shared) && (t.point.AtBucket? ==> t.point.i < BUCKETS)
  {
    match t.point
    case AtBucket(i) =>
      (if t.seconds <= Bound(i) then shared.(buckets := shared.buckets[i := shared.buckets[i] + 1]) else shared,
       if i + 1 < BUCKETS then AtBucket(i + 1) else AtPlusInf)
    case AtPlusInf => (shared.(plusInf := shared.plusInf + 1), AtCount)
    case AtCount => (shared.(count := shared.count + 1), AtLoad)
    case AtLoad => (shared, AtSwap(shared.sum))
    case AtSwap(current) =>
      if shared.sum == current && !spurious then (shared.(sum := f.add(current, t.seconds)), Finished)
      else (shared, AtSwap(shared.sum))
    case Finished => (shared, Finished)
  }

  predicate WellFormed(w: World) {
    && Shaped(w.shared)
    && forall k :: 0 <= k < |w.threads| ==> w.threads[k].point.AtBucket? ==> w.threads[k].point.i < BUCKETS
  }

  function Next(w: World, a: Action, f: Arithmetic): (r: World)
    requires WellFormed(w)
    ensures WellFormed(r)
  {
    match a
    case Start(seconds) => w.(threads := w.threads + [Thread(seconds, AtBucket(0))])
    case Move(k, spurious) =>
      if k >= |w.threads| then w
      else
        var t := w.threads[k];
        var (shared, point) := Advance(w.shared, t, spurious, f);
        World(shared, w.threads[k := Thread(t.seconds, point)],
              if point.Finished? && !t.point.Finished? then w.swapped + [t.seconds] else w.swapped)
  }

  /** Every interleaving is a list of actions. */
  function Run(actions: seq<Action>, f: Arithmetic): (r: World)
    ensures WellFormed(r)
  {
    if actions == [] then Boot(f) else Next(Run(actions[..|actions| - 1], f), actions[|actions| - 1], f)
  }

  predicate Quiescent(w: World) {
    forall k :: 0 <= k < |w.threads| ==> w.threads[k].point == Finished
  }

  function Values(threads: seq<Thread>): seq<real> {
    if threads == [] then [] else Values(threads[..|threads| - 1]) + [threads[|threads| - 1].seconds]
  }

  // ----- the invariant -----

  function Rank(p: Point): nat {
    match p
    case AtBucket(i) => i
    case AtPlusInf => BUCKETS
    case AtCount => BUCKETS + 1
    case AtLoad => BUCKETS + 2
    case AtSwap(_) => BUCKETS + 3
    case Finished => BUCKETS + 4
  }

  /** Has the thread already added to bucket `i`? */
  predicate Added(t: Thread, i: nat)
    requires i < BUCKETS
  {
    Rank(t.point) > i && t.seconds <= Bound(i)
  }

  function InBucket(threads: seq<Thread>, i: nat): nat
    requires i < BUCKETS
  {
    Count(threads, (t: Thread) => Added(t, i))
  }

  function Past(threads: seq<Thread>, rank: nat): nat { Count(threads, (t: Thread) => Rank(t.point) > rank) }

  function Own(t: Thread): multiset<real> { if t.point.Finished? then multiset{t.seconds} else multiset{} }

  function Done(threads: seq<Thread>): multiset<real> {
    if threads == [] then multiset{} else Done(threads[..|threads| - 1]) + Own(threads[|threads| - 1])
  }

  /** Every counter counts the threads past it; the sum folds the swapped values; those are the values of
      the finished threads. */
  ghost predicate Accounted(w: World, f: Arithmetic)
    requires WellFormed(w)
  {
    && (forall i: nat :: i < BUCKETS ==> w.shared.buckets[i] == InBucket(w.threads, i))
    && w.shared.plusInf == Past(w.threads, BUCKETS)
    && w.shared.count == Past(w.threads, BUCKETS + 1)
    && w.shared.sum == Fold(w.swapped, f)
    && multiset(w.swapped) == Done(w.threads)
  }

  lemma DoneLast(threads: seq<Thread>)
    requires threads != []
    ensures Done(threads) == Done(threads[..|threads| - 1]) + Own(threads[|threads| - 1])
  {
  }

  lemma {:induction false} DoneUpdate(threads: seq<Thread>, k: nat, x: Thread)
    requires k < |threads|
    ensures Done(threads[k := x]) + Own(threads[k]) == Done(threads) + Own(x)
  {
    hide Done, Own;
    var n, updated := |threads| - 1, threads[k := x];
    DoneLast(updated);
    DoneLast(threads);
    if k == n {
      assert updated[..n] == threads[..n];
      Exchange(Done(threads[..n]), Own(x), Own(threads[k]));
    } else {
      assert updated[..n] == threads[..n][k := x];
      DoneUpdate(threads[..n], k, x);
      Regroup(Done(updated[..n]), Own(threads[k]), Done(threads[..n]), Own(x), Own(threads[n]));
    }
  }

  lemma Exchange<T>(a: multiset<T>, b: multiset<T>, c: multiset<T>)
    ensures (a + b) + c == (a + c) + b
  {
  }

  lemma Regroup<T>(a: multiset<T>, b: multiset<T>, c: multiset<T>, d: multiset<T>, e: multiset<T>)
    requires a + b == c + d
    ensures (a + e) + b == (c + e) + d
  {
    Exchange(a, e, b);
    Exchange(c, e, d);
  }

  lemma FoldLast(values: seq<real>, v: real, f: Arithmetic)
    ensures Fold(values + [v], f) == f.add(Fold(values, f), v)
  {
    assert (values + [v])[..|values|] == values;
  }

  lemma StartKeeps(w: World, seconds: real, f: Arithmetic)
    requires WellFormed(w) && Accounted(w, f)
    ensures Accounted(Next(w, Start(seconds), f), f)
  {
    var t := Thread(seconds, AtBucket(0));
    var r := Next(w, Start(seconds), f);
    forall i: nat | i < BUCKETS ensures r.shared.buckets[i] == InBucket(r.threads, i) {
      CountLast(w.threads, t, (x: Thread) => Added(x, i));
    }
    CountLast(w.threads, t, (x: Thread) => Rank(x.point) > BUCKETS);
    CountLast(w.threads, t, (x: Thread) => Rank(x.point) > BUCKETS + 1);
    assert r.threads[..|w.threads|] == w.threads;
  }

  /** A step adds to bucket `i` exactly when it takes the thread past it. */
  lemma BucketStep(w: World, k: nat, spurious: bool, f: Arithmetic, i: nat)
    requires WellFormed(w) && k < |w.threads| && i < BUCKETS && w.shared.buckets[i] == InBucket(w.threads, i)
    ensures var r := Next(w, Move(k, spurious), f); r.shared.buckets[i] == InBucket(r.threads, i)
  {
    var r := Next(w, Move(k, spurious), f);
    CountUpdate(w.threads, k, r.threads[k], (t: Thread) => Added(t, i));
  }

  lemma TotalsStep(w: World, k: nat, spurious: bool, f: Arithmetic)
    requires WellFormed(w) && k < |w.threads|
    requires w.shared.plusInf == Past(w.threads, BUCKETS) && w.shared.count == Past(w.threads, BUCKETS + 1)
    ensures var r := Next(w, Move(k, spurious), f);
            r.shared.plusInf == Past(r.threads, BUCKETS) && r.shared.count == Past(r.threads, BUCKETS + 1)
  {
    var r := Next(w, Move(k, spurious), f);
    CountUpdate(w.threads, k, r.threads[k], (t: Thread) => Rank(t.point) > BUCKETS);
    CountUpdate(w.threads, k, r.threads[k], (t: Thread) => Rank(t.point) > BUCKETS + 1);
  }

  /** A successful swap adds to the sum it replaces, even if others swapped in between. */
  lemma SumStep(w: World, k: nat, spurious: bool, f: Arithmetic)
    requires WellFormed(w) && k < |w.threads| && w.shared.sum == Fold(w.swapped, f)
    ensures var r := Next(w, Move(k, spurious), f); r.shared.sum == Fold(r.swapped, f)
  {
    FoldLast(w.swapped, w.threads[k].seconds, f);
  }

  lemma FinishUpdate(threads: seq<Thread>, k: nat, x: Thread)
    requires k < |threads| && !threads[k].point.Finished?
    ensures Done(threads[k := x]) == Done(threads) + Own(x)
  {
    DoneUpdate(threads, k, x);
    hide Done;
    assert Done(threads[k := x]) + multiset{} == Done(threads[k := x]);
  }

  lemma SwappedAfter(threads: seq<Thread>, swapped: seq<real>, k: nat, point: Point)
    requires k < |threads| && multiset(swapped) == Done(threads) && !threads[k].point.Finished?
    ensures var x := Thread(threads[k].seconds, point);
            Done(threads[k := x]) == multiset(if point.Finished? then swapped + [x.seconds] else swapped)
  {
    hide Done;
    FinishUpdate(threads, k, Thread(threads[k].seconds, point));
  }

  lemma SwappedStep(w: World, k: nat, spurious: bool, f: Arithmetic)
    requires WellFormed(w) && k < |w.threads| && multiset(w.swapped) == Done(w.threads)
    ensures var r := Next(w, Move(k, spurious), f); multiset(r.swapped) == Done(r.threads)
  {
    hide Done;
    var t := w.threads[k];
    var point := Advance(w.shared, t, spurious, f).1;
    if t.point.Finished? {
      assert w.threads[k := Thread(t.seconds, point)] == w.threads;
    } else {
      SwappedAfter(w.threads, w.swapped, k, point);
    }
  }

  lemma StepKeeps(w: World, a: Action, f: Arithmetic)
    requires WellFormed(w) && Accounted(w, f)
    ensures Accounted(Next(w, a, f), f)
  {
    match a {
      case Start(seconds) => StartKeeps(w, seconds, f);
      case Move(k, spurious) =>
        if k < |w.threads| {
          var r := Next(w, a, f);
          forall i: nat | i < BUCKETS ensures r.shared.buckets[i] == InBucket(r.threads, i) {
            BucketStep(w, k, spurious, f, i);
          }
          TotalsStep(w, k, spurious, f);
          SumStep(w, k, spurious, f);
          SwappedStep(w, k, spurious, f);
        }
    }
  }

  lemma {:induction false} RunIsAccounted(actions: seq<Action>, f: Arithmetic)
    ensures Accounted(Run(actions, f), f)
  {
    if actions != [] {
      RunIsAccounted(actions[..|actions| - 1], f);
      StepKeeps(Run(actions[..|actions| - 1], f), actions[|actions| - 1], f);
    }
  }

  // ----- at quiescence -----

  lemma {:induction false} QuiescentCounts(threads: seq<Thread>, i: nat)
    requires i < BUCKETS && forall k :: 0 <= k < |threads| ==> threads[k].point == Finished
    ensures InBucket(threads, i) == Count(Values(threads), (v: real) => v <= Bound(i))
    ensures Past(threads, BUCKETS) == Past(threads, BUCKETS + 1) == |threads| == |Values(threads)|
    ensures Done(threads) == multiset(Values(threads))
  {
    if threads != [] {
      var init, last := threads[..|threads| - 1], threads[|threads| - 1];
      QuiescentCounts(init, i);
      CountLast(Values(init), last.seconds, (v: real) => v <= Bound(i));
    }
  }

  /** When every `observe` has returned, memory is what one thread would have left by observing the same
      values one after another in the order their swaps succeeded: nothing is lost and nothing doubled. */
  lemma Linearizable(actions: seq<Action>, f: Arithmetic)
    requires Quiescent(Run(actions, f))
    ensures var w := Run(actions, f);
            && w.shared == ObserveAll(Empty(f), w.swapped, f)
            && multiset(w.swapped) == multiset(Values(w.threads)) && |w.swapped| == |w.threads|
  {
    var w := Run(actions, f);
    RunIsAccounted(actions, f);
    ObserveAllExact(w.swapped, f);
    QuiescentCounts(w.threads, 0);
    assert |multiset(w.swapped)| == |w.swapped| && |multiset(Values(w.threads))| == |Values(w.threads)|;
    var s := ObserveAll(Empty(f), w.swapped, f);
    forall i: nat | i < BUCKETS ensures w.shared.buckets[i] == s.buckets[i] {
      QuiescentCounts(w.threads, i);
      CountPermutation(w.swapped, Values(w.threads), (v: real) => v <= Bound(i));
    }
    assert w.shared.buckets == s.buckets;
  }

  /** The scrape a reader takes then: totals equal the number of calls, each bucket the values it bounds. */
  lemma QuiescentReading(actions: seq<Action>, f: Arithmetic, i: nat, j: nat)
    requires Quiescent(Run(actions, f)) && i <= j < BUCKETS
    ensures var w := Run(actions, f);
            && w.shared.plusInf == w.shared.count == |w.threads|
            && w.shared.buckets[i] == Count(Values(w.threads), (v: real) => v <= Bound(i))
            && w.shared.buckets[i] <= w.shared.buckets[j] <= w.shared.plusInf
            && w.shared.sum == Fold(w.swapped, f)
  {
    Linearizable(actions, f);
    RunIsAccounted(actions, f);
    QuiescentCounts(Run(actions, f).threads, i);
    BucketsAscend(Run(actions, f).swapped, f, i, j);
  }
}
