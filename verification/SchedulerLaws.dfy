/** What the pipeline may rely on: whatever order probes finish in, a whole prefix of the targets arrives. */
module SchedulerLaws {
  import opened Common
  import opened Scans
  import opened Accumulation
  import opened Scheduler
  import Pipeline
  import Resume

  /** How many leading targets the feed has handed out whole. */
  function Frontier(f: Feed): nat {
    if f.current.None? then 0 else f.current.value.0 + if f.current.value.1 >= f.probers then 1 else 0
  }

  function Ideals(env: Env, probers: nat, n: nat): seq<TargetScan> {
    seq(n, (t: nat) => Ideal(env, probers, t))
  }

  // ----- at the end of a scan -----

  /** With nothing in flight, a target has been sent exactly if all its probes were handed out. */
  lemma SentIsWhole(s: Scan, env: Env, target: nat)
    requires Inv(s, env, None) && s.inFlight == [] && !s.abandoned
    ensures Sent(s, target) <==> Whole(s.feed, target)
  {
    if Whole(s.feed, target) && !Sent(s, target) {
      forall pass: nat | pass < s.feed.probers ensures HasCome(s, pass, target) {
        assert Handed(s.feed, pass, target);
      }
      assert HasCome(s, 0, target);
      var slot := s.live[target];
      assert SlotOk(s, env, target) && slot.completed < s.feed.probers;
      forall p | 0 <= p < |slot.outcomes| ensures slot.outcomes[p].Some? {
        assert HasCome(s, p, target);
      }
      CountFull(slot.outcomes, (o: Option<ProbeResult>) => o.Some?);
      assert false;
    }
  }

  /** Perfect scans of distinct targets below `n`, with none missing. */
  ghost predicate Covers(scans: seq<TargetScan>, env: Env, probers: nat, n: nat) {
    && (forall i :: 0 <= i < |scans| ==> scans[i] == Ideal(env, probers, scans[i].index) && scans[i].index < n)
    && (forall i, j :: 0 <= i < j < |scans| ==> scans[i].index != scans[j].index)
    && (forall t: nat :: t < n ==> Includes(scans, t))
  }

  lemma CoverRest(scans: seq<TargetScan>, env: Env, probers: nat, n: nat, i: nat)
    requires Covers(scans, env, probers, n) && n > 0 && i < |scans| && scans[i].index == n - 1
    ensures Covers(scans[..i] + scans[i + 1..], env, probers, n - 1)
  {
    var rest := scans[..i] + scans[i + 1..];
    assert forall k :: 0 <= k < |rest| ==> rest[k] == scans[if k < i then k else k + 1];
    forall t: nat | t < n - 1 ensures Includes(rest, t) {
      assert Includes(scans, t);
      var k :| 0 <= k < |scans| && scans[k].index == t;
      assert rest[if k < i then k else k - 1].index == t;
    }
  }

  lemma {:induction false} CoverIsIdeals(scans: seq<TargetScan>, env: Env, probers: nat, n: nat)
    requires Covers(scans, env, probers, n)
    ensures multiset(scans) == multiset(Ideals(env, probers, n)) && |scans| == n
  {
    if n == 0 {
      if scans != [] {
        FirstBelow(scans, env, probers, n);
        assert false;
      }
    } else {
      var i := LastOf(scans, env, probers, n);
      var rest := scans[..i] + scans[i + 1..];
      CoverIsIdeals(rest, env, probers, n - 1);
      hide Covers;
      TakeOut(scans, i);
      assert Ideals(env, probers, n) == Ideals(env, probers, n - 1) + [Ideal(env, probers, n - 1)];
    }
  }

  lemma FirstBelow(scans: seq<TargetScan>, env: Env, probers: nat, n: nat)
    requires Covers(scans, env, probers, n) && scans != []
    ensures scans[0].index < n
  {
  }

  lemma LastOf(scans: seq<TargetScan>, env: Env, probers: nat, n: nat) returns (i: nat)
    requires Covers(scans, env, probers, n) && n > 0
    ensures i < |scans| && scans[i] == Ideal(env, probers, n - 1)
    ensures Covers(scans[..i] + scans[i + 1..], env, probers, n - 1)
  {
    assert Includes(scans, n - 1);
    i :| 0 <= i < |scans| && scans[i].index == n - 1;
    CoverRest(scans, env, probers, n, i);
  }

  lemma EndOfScan(s: Scan, env: Env)
    requires Inv(s, env, None) && s.inFlight == [] && !s.abandoned
    ensures multiset(s.delivered) == multiset(Ideals(env, s.feed.probers, Frontier(s.feed)))
    ensures |s.delivered| == Frontier(s.feed) <= s.feed.total
  {
    forall target: nat ensures Includes(s.delivered, target) <==> target < Frontier(s.feed) {
      SentIsWhole(s, env, target);
    }
    forall i | 0 <= i < |s.delivered| ensures s.delivered[i].index < Frontier(s.feed) {
      assert Includes(s.delivered, s.delivered[i].index);
    }
    CoverIsIdeals(s.delivered, env, s.feed.probers, Frontier(s.feed));
  }

  lemma {:induction false} LoopKeepsPlan(s: Scan, env: Env)
    requires Inv(s, env, None)
    ensures Loop(s, env).feed.total == s.feed.total && Loop(s, env).feed.probers == s.feed.probers
    decreases TargetsLeft(s.feed), PassesLeft(s.feed), |s.inFlight|
  {
    if s.inFlight != [] && !s.abandoned {
      var i := env.pick(s.steps) % |s.inFlight|;
      IterateProgresses(s, env, i);
      LoopKeepsPlan(Iterate(s, env, i), env);
    }
  }

  /** The scan once its window is full, and the loop from there. */
  lemma RunScanUnfolds(env: Env, total: nat, probers: nat, max: nat) returns (primed: Scan)
    requires probers > 0
    ensures primed == Prime(Initial(total, probers), env, Cap(max)) && Inv(primed, env, None)
    ensures var s := RunScan(env, total, probers, max);
            && s == Loop(primed, env) && Inv(s, env, None) && (s.inFlight == [] || s.abandoned)
            && s.feed.total == total && s.feed.probers == probers
  {
    InitialOk(total, probers, env);
    PrimeKeeps(Initial(total, probers), env, Cap(max));
    primed := Prime(Initial(total, probers), env, Cap(max));
    LoopKeepsPlan(primed, env);
  }

  /** A scan nobody abandoned delivers each of the first targets once, whole and with its own outcomes in
      pass order, and nothing else. */
  lemma DeliversPrefix(env: Env, total: nat, probers: nat, max: nat)
    requires probers > 0 && !RunScan(env, total, probers, max).abandoned
    ensures var s := RunScan(env, total, probers, max);
            && multiset(s.delivered) == multiset(Ideals(env, probers, Frontier(s.feed)))
            && |s.delivered| == Frontier(s.feed) <= total
  {
    var primed := RunScanUnfolds(env, total, probers, max);
    EndOfScan(RunScan(env, total, probers, max), env);
  }

  /** However many targets and probers, at most the cap are in flight at once. */
  lemma {:induction false} WindowIsBounded(s: Scan, env: Env, max: nat, n: nat)
    requires Inv(s, env, None) && |s.inFlight| <= max
    ensures |After(s, env, n).inFlight| <= max
    decreases n
  {
    if n > 0 && s.inFlight != [] && !s.abandoned {
      var i := env.pick(s.steps) % |s.inFlight|;
      IterateProgresses(s, env, i);
      WindowIsBounded(Iterate(s, env, i), env, max, n - 1);
    }
  }

  /** The scan after at most `n` iterations of the join loop. */
  ghost function After(s: Scan, env: Env, n: nat): Scan
    requires Inv(s, env, None)
    decreases n
  {
    if n == 0 || s.inFlight == [] || s.abandoned then s
    else After(Iterate(s, env, env.pick(s.steps) % |s.inFlight|), env, n - 1)
  }

  lemma WindowStaysWithinCap(env: Env, total: nat, probers: nat, max: nat, n: nat)
    requires probers > 0
    ensures var primed := Prime(Initial(total, probers), env, Cap(max));
            Inv(primed, env, None) && |After(primed, env, n).inFlight| <= if max == 0 then 1 else max
  {
    InitialOk(total, probers, env);
    PrimeKeeps(Initial(total, probers), env, Cap(max));
    WindowIsBounded(Prime(Initial(total, probers), env, Cap(max)), env, Cap(max), n);
  }

  // ----- a scan nobody cancelled -----

  ghost predicate NeverCancelled(env: Env) { forall n: nat :: !env.cancelled(n) }

  predicate Dry(f: Feed) { f.next >= f.total && (f.current.Some? ==> f.current.value.1 >= f.probers) }

  lemma DryIsDone(f: Feed)
    requires FeedOk(f) && Dry(f)
    ensures Frontier(f) == f.total
  {
  }

  /** Nothing in flight only when there is nothing left to start. */
  predicate Hungry(s: Scan) { s.inFlight != [] || Dry(s.feed) }

  lemma RefillIsHungry(s: Scan, env: Env, ready: Option<nat>)
    requires Inv(s, env, ready) && !env.cancelled(s.steps)
    ensures Hungry(Refill(s, env))
  {
    FeedHandsOut(s.feed);
  }

  lemma {:induction false} PrimeIsHungry(s: Scan, env: Env, n: nat)
    requires Inv(s, env, None) && NeverCancelled(env) && (n > 0 || Hungry(s))
    ensures Hungry(Prime(s, env, n))
    decreases n
  {
    if n > 0 {
      RefillKeeps(s, env, None);
      RefillIsHungry(s, env, None);
      PrimeIsHungry(Refill(s, env), env, n - 1);
    }
  }

  lemma IterateIsHungry(s: Scan, env: Env, i: nat)
    requires Inv(s, env, None) && i < |s.inFlight| && NeverCancelled(env)
    ensures Hungry(Iterate(s, env, i))
  {
    RecordKeeps(s, env, i);
    RefillIsHungry(Record(s, env, i), env, Some(s.inFlight[i].1));
  }

  lemma {:induction false} LoopIsHungry(s: Scan, env: Env)
    requires Inv(s, env, None) && NeverCancelled(env) && Hungry(s)
    ensures Hungry(Loop(s, env))
    decreases TargetsLeft(s.feed), PassesLeft(s.feed), |s.inFlight|
  {
    if s.inFlight != [] && !s.abandoned {
      var i := env.pick(s.steps) % |s.inFlight|;
      IterateIsHungry(s, env, i);
      IterateProgresses(s, env, i);
      LoopIsHungry(Iterate(s, env, i), env);
    }
  }

  /** Unless cancelled, every target arrives. */
  lemma DeliversAll(env: Env, total: nat, probers: nat, max: nat)
    requires probers > 0 && NeverCancelled(env) && !RunScan(env, total, probers, max).abandoned
    ensures var s := RunScan(env, total, probers, max);
            multiset(s.delivered) == multiset(Ideals(env, probers, total))
  {
    var primed := RunScanUnfolds(env, total, probers, max);
    InitialOk(total, probers, env);
    PrimeIsHungry(Initial(total, probers), env, Cap(max));
    LoopIsHungry(primed, env);
    DeliversPrefix(env, total, probers, max);
    DryIsDone(RunScan(env, total, probers, max).feed);
  }

  // ----- what the pipeline and a resumed run assume of their scans -----

  lemma IdealsAreInRange(env: Env, kinds: seq<ProbeKind>, n: nat)
    ensures Pipeline.AllInRange(kinds, Ideals(env, |kinds|, n)) && Pipeline.Ascending(Ideals(env, |kinds|, n))
  {
    forall scan | scan in Ideals(env, |kinds|, n) ensures Pipeline.ScanInRange(kinds, scan) {
      forall a | a in Attempts(scan) ensures a.pass < |kinds| {
      }
    }
  }

  /** A scan of the targets left above a checkpoint, put in order, is one a run can have been delivered. */
  lemma ScansFeedTheRun(env: Env, st: Pipeline.Stages, kinds: seq<ProbeKind>, fuser: Pipeline.FuserState,
                        interval: nat, total: nat, base: nat, max: nat, cancelled: bool, cut: nat)
    requires kinds != [] && base <= total && !RunScan(env, total - base, |kinds|, max).abandoned
    requires !cancelled ==> NeverCancelled(env)
    ensures var s := RunScan(env, total - base, |kinds|, max);
            var order := Ideals(env, |kinds|, Frontier(s.feed));
            && multiset(order) == multiset(s.delivered)
            && Resume.Delivered(Resume.Launch(st, kinds, fuser, interval, order, cancelled, cut), total, base)
  {
    hide RunScan, Frontier, NeverCancelled;
    var s := RunScan(env, total - base, |kinds|, max);
    DeliversPrefix(env, total - base, |kinds|, max);
    IdealsAreInRange(env, kinds, Frontier(s.feed));
    if !cancelled {
      DeliversAll(env, total - base, |kinds|, max);
      assert |multiset(s.delivered)| == |s.delivered|;
      assert |multiset(Ideals(env, |kinds|, total - base))| == total - base;
    }
  }
}
