/** A scan streamed into the sink: what leaves does not depend on who finished first. */
module EndToEnd {
  import opened Common
  import opened Scans
  import opened Pipeline
  import opened Streaming
  import Batch
  import Scheduler
  import SchedulerRun
  import opened SchedulerLaws

  /** What a scan is streamed into. */
  datatype Sinks = Sinks(st: Stages, kinds: seq<ProbeKind>, fuser: FuserState, writer: Option<Writer>)

  /** The first `k` targets are among those delivered, and taking them in index order halts the pipeline. */
  ghost predicate HaltsWithin(env: Scheduler.Env, p: Sinks, delivered: seq<TargetScan>, k: nat) {
    var order := Ideals(env, |p.kinds|, k);
    && (forall i: nat :: i < k ==> Scheduler.Includes(delivered, i)) && AllInRange(p.kinds, order)
    && Drained(p.st, p.kinds, Start(p.fuser, p.writer), order, k, k).halted.Some?
  }

  /** The pipeline stops taking scans only when it has halted on those it was sent. */
  ghost predicate LeavesOnlyHalted(env: Scheduler.Env, p: Sinks, total: nat, max: nat) {
    var s := Scheduler.RunScan(env, total, |p.kinds|, max);
    s.abandoned ==> exists k: nat :: k <= total && HaltsWithin(env, p, s.delivered, k)
  }

  /** Probes finishing in any order, under any window, cut short or not by a pipeline that halts: the sink sees
      the calls, and the caller the result, of the targets processed one after another in index order.
      Uncancelled, that is every target. */
  method Discover(env: Scheduler.Env, p: Sinks, total: nat, max: nat, cancelled: bool)
    returns (log: seq<SinkOp>, result: Result<Summary, Error>)
    requires p.kinds != [] && LeavesOnlyHalted(env, p, total, max) && (!cancelled ==> NeverCancelled(env))
    ensures exists n: nat :: n <= total && (!cancelled ==> n == total) && InOrder(env, p, n, cancelled, log, result)
  {
    var delivered := SchedulerRun.RunBoundedScan(env, total, |p.kinds|, max);
    ghost var n, order := TakenInOrder(env, p, total, max, cancelled);
    SameScans(delivered, order);
    var d := new Discovery(p.st, p.kinds, p.fuser, p.writer);
    result := d.StreamDiscovery(delivered, cancelled, order);
    log := d.log;
    assert d.View().e.log == log;
    assert InOrder(env, p, n, cancelled, log, result);
  }

  /** The log and result of the first `n` targets processed in index order. */
  ghost predicate InOrder(env: Scheduler.Env, p: Sinks, n: nat, cancelled: bool, log: seq<SinkOp>,
                          result: Result<Summary, Error>) {
    var order := Ideals(env, |p.kinds|, n);
    && AllInRange(p.kinds, order)
    && var (d, r) := StreamSpec(p.st, p.kinds, Start(p.fuser, p.writer), order, cancelled);
       d.e.log == log && r == result
  }

  /** What was delivered, put in order, leads to the run over the first `n` targets. */
  lemma TakenInOrder(env: Scheduler.Env, p: Sinks, total: nat, max: nat, cancelled: bool)
    returns (n: nat, order: seq<TargetScan>)
    requires p.kinds != [] && LeavesOnlyHalted(env, p, total, max) && (!cancelled ==> NeverCancelled(env))
    ensures n <= total && (!cancelled ==> n == total)
    ensures Ascending(order) && multiset(order) == multiset(Scheduler.RunScan(env, total, |p.kinds|, max).delivered)
    ensures var ideals, start := Ideals(env, |p.kinds|, n), Start(p.fuser, p.writer);
            && AllInRange(p.kinds, order) && AllInRange(p.kinds, ideals)
            && StreamSpec(p.st, p.kinds, start, order, cancelled) == StreamSpec(p.st, p.kinds, start, ideals, cancelled)
  {
    var s := Scheduler.RunScan(env, total, |p.kinds|, max);
    if s.abandoned {
      var primed := RunScanUnfolds(env, total, |p.kinds|, max);
      n, order := total, Sorted(s.delivered);
      var k: nat :| k <= total && HaltsWithin(env, p, s.delivered, k);
      HaltCutsShort(env, p, total, s.delivered, k, cancelled);
    } else {
      DeliversPrefix(env, total, |p.kinds|, max);
      n := Frontier(s.feed);
      order := Ideals(env, |p.kinds|, n);
      IdealsAreInRange(env, p.kinds, n);
      if !cancelled { AllArrive(env, total, |p.kinds|, max); }
    }
  }

  lemma AllArrive(env: Scheduler.Env, total: nat, probers: nat, max: nat)
    requires probers > 0 && NeverCancelled(env) && !Scheduler.RunScan(env, total, probers, max).abandoned
    ensures Frontier(Scheduler.RunScan(env, total, probers, max).feed) == total
  {
    DeliversAll(env, total, probers, max);
    DeliversPrefix(env, total, probers, max);
    var delivered := Scheduler.RunScan(env, total, probers, max).delivered;
    assert |multiset(delivered)| == |delivered|;
    assert |multiset(Ideals(env, probers, total))| == total;
  }

  // ----- a scan given up because the pipeline halted -----

  ghost function Sorted(scans: seq<TargetScan>): (r: seq<TargetScan>)
    requires DistinctIndices(scans)
    ensures Ascending(r) && multiset(r) == multiset(scans) && forall s :: s in r <==> s in scans
  {
    if scans == [] then []
    else
      var rest, last := scans[..|scans| - 1], scans[|scans| - 1];
      assert scans == rest + [last] && forall s :: s in rest ==> s.index != last.index;
      var r := Batch.Insert(Sorted(rest), last);
      SameMembers(r, scans);
      r
  }

  lemma SameMembers<T>(a: seq<T>, b: seq<T>)
    requires multiset(a) == multiset(b)
    ensures forall x :: x in a <==> x in b
  {
    forall x ensures x in a <==> x in b {
      assert x in a <==> x in multiset(a);
      assert x in b <==> x in multiset(b);
    }
  }

  /** Perfect scans in order, each of the first `k` targets among them, begin with those. */
  lemma {:induction false} OrderBegins(env: Scheduler.Env, probers: nat, order: seq<TargetScan>, k: nat)
    requires Ascending(order)
    requires forall s :: s in order ==> s == Scheduler.Ideal(env, probers, s.index)
    requires forall i: nat :: i < k ==> Scheduler.Ideal(env, probers, i) in order
    ensures k <= Lead(order, 0) && forall i: nat :: i < k ==> order[i] == Scheduler.Ideal(env, probers, i)
  {
    if k > 0 {
      OrderBegins(env, probers, order, k - 1);
      var last := Scheduler.Ideal(env, probers, k - 1);
      assert last.index == k - 1;
      hide Scheduler.Ideal, Ascending;
      NextInOrder(order, last, k - 1);
    }
  }

  lemma SortedBegins(env: Scheduler.Env, probers: nat, delivered: seq<TargetScan>, k: nat)
    requires DistinctIndices(delivered)
    requires forall i :: 0 <= i < |delivered| ==> delivered[i] == Scheduler.Ideal(env, probers, delivered[i].index)
    requires forall i: nat :: i < k ==> Scheduler.Includes(delivered, i)
    ensures var order := Sorted(delivered);
            k <= Lead(order, 0) && forall i: nat :: i < k ==> order[i] == Scheduler.Ideal(env, probers, i)
  {
    hide Scheduler.Ideal;
    forall i: nat | i < k ensures Scheduler.Ideal(env, probers, i) in delivered {
      assert Scheduler.Includes(delivered, i);
      var j :| 0 <= j < |delivered| && delivered[j].index == i;
    }
    OrderBegins(env, probers, Sorted(delivered), k);
  }

  /** What the drain loop makes of its first targets does not depend on the ones behind them. */
  lemma {:induction false} DrainedAlike(p: Sinks, a: seq<TargetScan>, b: seq<TargetScan>, leadA: nat, leadB: nat,
                                        n: nat)
    requires AllInRange(p.kinds, a) && AllInRange(p.kinds, b) && n <= leadA <= |a| && n <= leadB <= |b|
    requires forall i :: 0 <= i < n ==> a[i] == b[i]
    ensures Drained(p.st, p.kinds, Start(p.fuser, p.writer), a, leadA, n) ==
            Drained(p.st, p.kinds, Start(p.fuser, p.writer), b, leadB, n)
  {
    if n > 0 { DrainedAlike(p, a, b, leadA, leadB, n - 1); }
  }

  lemma {:induction false} IdealsLead(env: Scheduler.Env, probers: nat, n: nat)
    ensures Lead(Ideals(env, probers, n), 0) == n
  {
  }

  lemma HaltCutsShort(env: Scheduler.Env, p: Sinks, total: nat, delivered: seq<TargetScan>, k: nat, cancelled: bool)
    requires k <= total && HaltsWithin(env, p, delivered, k) && DistinctIndices(delivered)
    requires forall i :: 0 <= i < |delivered| ==> delivered[i] == Scheduler.Ideal(env, |p.kinds|, delivered[i].index)
    ensures var order, ideals, start := Sorted(delivered), Ideals(env, |p.kinds|, total), Start(p.fuser, p.writer);
            && AllInRange(p.kinds, order) && AllInRange(p.kinds, ideals)
            && StreamSpec(p.st, p.kinds, start, order, cancelled) == StreamSpec(p.st, p.kinds, start, ideals, cancelled)
  {
    var order, ideals, first := Sorted(delivered), Ideals(env, |p.kinds|, total), Ideals(env, |p.kinds|, k);
    var start := Start(p.fuser, p.writer);
    SortedBegins(env, |p.kinds|, delivered, k);
    IdealsAreInRange(env, p.kinds, total);
    PerfectInRange(env, p.kinds, delivered);
    IdealsLead(env, |p.kinds|, total);
    DrainedAlike(p, first, order, k, Lead(order, 0), k);
    DrainedAlike(p, first, ideals, k, total, k);
    HaltedStays(p.st, p.kinds, start, order, Lead(order, 0), k);
    HaltedStays(p.st, p.kinds, start, ideals, total, k);
  }

  lemma PerfectInRange(env: Scheduler.Env, kinds: seq<ProbeKind>, scans: seq<TargetScan>)
    requires forall i :: 0 <= i < |scans| ==> scans[i] == Scheduler.Ideal(env, |kinds|, scans[i].index)
    ensures AllInRange(kinds, scans)
  {
    forall s | s in scans ensures ScanInRange(kinds, s) {
      IdealsAreInRange(env, kinds, s.index + 1);
      assert s == Ideals(env, |kinds|, s.index + 1)[s.index];
    }
  }
}
