/** What a raised cancel flag and a receiver that has gone away do to a scan, and how full its window is kept. */
module Cancellation {
  import opened Common
  import opened Scans
  import opened Scheduler
  import opened SchedulerLaws

  function Min(a: nat, b: nat): nat { if a <= b then a else b }

  /** How many targets the first `probes` probes make up. */
  function Made(probes: nat, probers: nat): nat
    requires probers > 0
  {
    probes / probers
  }

  /** How many of `n` probes there are to start. */
  function Available(total: nat, probers: nat, n: nat): nat { Min(total * probers, n) }

  /** How many probes the feed has handed out. */
  function HandedOut(f: Feed): nat {
    if f.current.None? then 0 else f.current.value.0 * f.probers + f.current.value.1
  }

  /** How often the flag was down when it was looked at, of the first `n` times. */
  function Clear(env: Env, n: nat): nat {
    if n == 0 then 0 else Clear(env, n - 1) + if env.cancelled(n - 1) then 0 else 1
  }

  /** Each call of the feed hands out one more probe, until all are out. */
  lemma FeedCounts(f: Feed)
    requires FeedOk(f)
    ensures var (g, probe) := FeedNext(f);
            && HandedOut(f) <= f.total * f.probers
            && (probe.None? <==> HandedOut(f) == f.total * f.probers)
            && HandedOut(g) == HandedOut(f) + if probe.Some? then 1 else 0
  {
    if f.current.Some? {
      var (target, pass) := f.current.value;
      Distributes(target, 1, f.probers);
      AtMost(target + 1, f.total, f.probers);
      if f.next < f.total { AtMost(target + 2, f.total, f.probers); Distributes(target, 2, f.probers); }
    } else if f.total > 0 {
      AtMost(1, f.total, f.probers);
    }
  }

  /** The scan has handed out a probe each time it looked and the flag was down, as long as there were any. */
  ghost predicate Paced(s: Scan, env: Env) {
    HandedOut(s.feed) == Available(s.feed.total, s.feed.probers, Clear(env, s.steps))
  }

  lemma RefillPaces(s: Scan, env: Env)
    requires FeedOk(s.feed) && Paced(s, env)
    ensures var r := Refill(s, env);
            && Paced(r, env) && r.steps == s.steps + 1
            && HandedOut(r.feed) - |r.inFlight| == HandedOut(s.feed) - |s.inFlight|
  {
    FeedCounts(s.feed);
    FeedHandsOut(s.feed);
  }

  lemma {:induction false} PrimePaces(s: Scan, env: Env, n: nat)
    requires Inv(s, env, None) && Paced(s, env)
    ensures var r := Prime(s, env, n);
            && Paced(r, env) && r.steps >= s.steps + Min(n, 1)
            && HandedOut(r.feed) - |r.inFlight| == HandedOut(s.feed) - |s.inFlight|
    decreases n
  {
    hide LiveOk, SentOk, NoneLost, FlightOk;
    if n > 0 {
      RefillPaces(s, env);
      RefillKeeps(s, env, None);
      PrimePaces(Refill(s, env), env, n - 1);
    }
  }

  lemma IteratePaces(s: Scan, env: Env, i: nat)
    requires Inv(s, env, None) && i < |s.inFlight| && Paced(s, env)
    ensures var r := Iterate(s, env, i);
            && Paced(r, env) && r.steps == s.steps + 1
            && HandedOut(r.feed) - |r.inFlight| == HandedOut(s.feed) - |s.inFlight| + 1
  {
    RecordKeeps(s, env, i);
    hide FlightOk, LiveOk, SentOk, NoneLost;
    RefillPaces(Record(s, env, i), env);
  }

  lemma {:induction false} LoopPaces(s: Scan, env: Env)
    requires Inv(s, env, None) && Paced(s, env)
    ensures var r := Loop(s, env);
            && Paced(r, env) && r.steps >= s.steps
            && HandedOut(r.feed) - |r.inFlight| - r.steps == HandedOut(s.feed) - |s.inFlight| - s.steps
    decreases TargetsLeft(s.feed), PassesLeft(s.feed), |s.inFlight|
  {
    hide Inv, Iterate, Paced, HandedOut;
    if s.inFlight != [] && !s.abandoned {
      var i := env.pick(s.steps) % |s.inFlight|;
      IterateProgresses(s, env, i);
      IteratePaces(s, env, i);
      LoopPaces(Iterate(s, env, i), env);
    }
  }

  lemma RunIsPaced(env: Env, total: nat, probers: nat, max: nat)
    requires probers > 0
    ensures var s := RunScan(env, total, probers, max);
            Paced(s, env) && s.steps > HandedOut(s.feed) - |s.inFlight|
  {
    var primed := RunScanUnfolds(env, total, probers, max);
    InitialOk(total, probers, env);
    PrimePaces(Initial(total, probers), env, Cap(max));
    LoopPaces(primed, env);
  }

  lemma FrontierIsQuotient(f: Feed)
    requires FeedOk(f)
    ensures Frontier(f) == Made(HandedOut(f), f.probers)
  {
    if f.current.Some? {
      var (target, pass) := f.current.value;
      if pass == f.probers {
        Distributes(target, 1, f.probers);
        Quotient(target + 1, 0, f.probers);
      } else {
        Quotient(target, pass, f.probers);
      }
    }
  }

  lemma {:induction false} ClearBefore(env: Env, k: nat, n: nat)
    requires forall i: nat :: env.cancelled(i) <==> i >= k
    ensures Clear(env, n) == Min(n, k)
  {
    if n > 0 { ClearBefore(env, k, n - 1); }
  }

  /** However often the flag goes up and down: what arrives is the targets all of whose probes were among those
      started, one for each look at the flag that found it down. */
  lemma DeliversWhatWasStarted(env: Env, total: nat, probers: nat, max: nat)
    requires probers > 0 && !RunScan(env, total, probers, max).abandoned
    ensures var s := RunScan(env, total, probers, max);
            var started := Available(total, probers, Clear(env, s.steps));
            multiset(s.delivered) == multiset(Ideals(env, probers, Made(started, probers)))
  {
    RunIsPaced(env, total, probers, max);
    var primed := RunScanUnfolds(env, total, probers, max);
    DeliversPrefix(env, total, probers, max);
    FrontierIsQuotient(RunScan(env, total, probers, max).feed);
  }

  /** A flag that goes up at its k-th look and stays up: exactly the targets whose probes are among the first `k`
      arrive, and each of those does. */
  lemma CancelStopsTheScan(env: Env, total: nat, probers: nat, max: nat, k: nat)
    requires probers > 0 && !RunScan(env, total, probers, max).abandoned
    requires forall i: nat :: env.cancelled(i) <==> i >= k
    ensures multiset(RunScan(env, total, probers, max).delivered) ==
            multiset(Ideals(env, probers, Made(Available(total, probers, k), probers)))
  {
    hide Made, Ideals, RunScan;
    var s := RunScan(env, total, probers, max);
    DeliversWhatWasStarted(env, total, probers, max);
    RunIsPaced(env, total, probers, max);
    ClearBefore(env, k, s.steps);
    var primed := RunScanUnfolds(env, total, probers, max);
    assert s.inFlight == [];
  }

  /** From a raised flag on, no probe is started. */
  lemma {:induction false} CancelFreezesTheFeed(s: Scan, env: Env)
    requires Inv(s, env, None) && forall i: nat :: i >= s.steps ==> env.cancelled(i)
    ensures Loop(s, env).feed == s.feed
    decreases TargetsLeft(s.feed), PassesLeft(s.feed), |s.inFlight|
  {
    if s.inFlight != [] && !s.abandoned {
      var i := env.pick(s.steps) % |s.inFlight|;
      IterateProgresses(s, env, i);
      FrozenStep(s, env, i);
      CancelFreezesTheFeed(Iterate(s, env, i), env);
    }
  }

  lemma FrozenStep(s: Scan, env: Env, i: nat)
    requires Inv(s, env, None) && i < |s.inFlight| && env.cancelled(s.steps)
    ensures Iterate(s, env, i).feed == s.feed && Iterate(s, env, i).steps == s.steps + 1
  {
    hide FlightOk, LiveOk, SentOk, NoneLost;
    RecordKeeps(s, env, i);
  }

  /** A flag that is up from the start: nothing is started and nothing arrives. */
  lemma CancelledFromTheStart(env: Env, total: nat, probers: nat, max: nat)
    requires forall i: nat :: env.cancelled(i)
    ensures RunScan(env, total, probers, max).delivered == []
  {
    if probers > 0 {
      var primed := RunScanUnfolds(env, total, probers, max);
      InitialOk(total, probers, env);
      assert Refill(Initial(total, probers), env).inFlight == [];
    }
  }

  // ----- a receiver that has gone -----

  lemma GoneStep(s: Scan, env: Env, i: nat)
    requires Inv(s, env, None) && i < |s.inFlight| && env.gone(s.steps + 1)
    ensures Iterate(s, env, i).delivered == s.delivered && Iterate(s, env, i).steps == s.steps + 1
  {
    hide FlightOk, LiveOk, SentOk, NoneLost;
    RecordKeeps(s, env, i);
  }

  /** Once the receiver has gone, nothing more is delivered. */
  lemma {:induction false} GoneStopsDelivery(s: Scan, env: Env)
    requires Inv(s, env, None) && forall i: nat :: i > s.steps ==> env.gone(i)
    ensures Loop(s, env).delivered == s.delivered
    decreases TargetsLeft(s.feed), PassesLeft(s.feed), |s.inFlight|
  {
    if s.inFlight != [] && !s.abandoned {
      var i := env.pick(s.steps) % |s.inFlight|;
      IterateProgresses(s, env, i);
      GoneStep(s, env, i);
      GoneStopsDelivery(Iterate(s, env, i), env);
    }
  }

  /** A receiver that stays is never given up on. */
  lemma {:induction false} StaysToTheEnd(s: Scan, env: Env)
    requires Inv(s, env, None) && !s.abandoned && forall i: nat :: !env.gone(i)
    ensures !Loop(s, env).abandoned
    decreases TargetsLeft(s.feed), PassesLeft(s.feed), |s.inFlight|
  {
    if s.inFlight != [] {
      var i := env.pick(s.steps) % |s.inFlight|;
      IterateProgresses(s, env, i);
      StaysToTheEnd(Iterate(s, env, i), env);
    }
  }

  // ----- the window -----

  /** The window is full, or every probe is out. */
  predicate Busy(s: Scan, cap: nat) { |s.inFlight| == cap || HandedOut(s.feed) == s.feed.total * s.feed.probers }

  lemma {:induction false} PrimeFills(s: Scan, env: Env, n: nat)
    requires Inv(s, env, None) && NeverCancelled(env)
    ensures Busy(Prime(s, env, n), |s.inFlight| + n)
    decreases n
  {
    if n > 0 {
      FeedCounts(s.feed);
      FeedHandsOut(s.feed);
      RefillKeeps(s, env, None);
      hide FlightOk, LiveOk, SentOk, NoneLost;
      if |Refill(s, env).inFlight| != |s.inFlight| { PrimeFills(Refill(s, env), env, n - 1); }
    }
  }

  lemma IterateFills(s: Scan, env: Env, i: nat, cap: nat)
    requires Inv(s, env, None) && i < |s.inFlight| && NeverCancelled(env) && Busy(s, cap)
    ensures Busy(Iterate(s, env, i), cap)
  {
    hide FlightOk, LiveOk, SentOk, NoneLost;
    RecordKeeps(s, env, i);
    FeedCounts(s.feed);
    FeedHandsOut(s.feed);
  }

  /** Unless cancelled, a scan keeps its window full as long as there are probes to start. */
  lemma {:induction false} WindowStaysFull(env: Env, total: nat, probers: nat, max: nat, n: nat)
    requires probers > 0 && NeverCancelled(env)
    ensures Inv(Prime(Initial(total, probers), env, Cap(max)), env, None)
    ensures Busy(After(Prime(Initial(total, probers), env, Cap(max)), env, n), if max == 0 then 1 else max)
  {
    InitialOk(total, probers, env);
    PrimeKeeps(Initial(total, probers), env, Cap(max));
    PrimeFills(Initial(total, probers), env, Cap(max));
    AfterFills(Prime(Initial(total, probers), env, Cap(max)), env, n, Cap(max));
  }

  lemma {:induction false} AfterFills(s: Scan, env: Env, n: nat, cap: nat)
    requires Inv(s, env, None) && NeverCancelled(env) && Busy(s, cap)
    ensures Busy(After(s, env, n), cap)
    decreases n
  {
    hide Inv, Busy, Iterate;
    if n > 0 && s.inFlight != [] && !s.abandoned {
      var i := env.pick(s.steps) % |s.inFlight|;
      IterateFills(s, env, i, cap);
      AfterFills(Iterate(s, env, i), env, n - 1, cap);
    }
  }
}
