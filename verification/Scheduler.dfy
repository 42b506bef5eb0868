/**
 The bounded scheduler: `Feed` hands out probes target by target, a window of them is in flight, they
 finish in any order, and a target is sent on when its last probe is in.
 */
module Scheduler {
  import opened Common
  import opened Scans

  /** The generator of probe starts over a stream of `total` targets; `current` is the target being handed
      out and the next pass to hand out for it. */
  datatype Feed = Feed(total: nat, probers: nat, next: nat, current: Option<(nat, nat)>)

  /** The next probe to start, as its pass and its target. */
  function FeedNext(f: Feed): (Feed, Option<(nat, nat)>) {
    if f.current.Some? && f.current.value.1 < f.probers then
      var (target, pass) := f.current.value;
      (f.(current := Some((target, pass + 1))), Some((pass, target)))
    else if f.next >= f.total then (f, None)
    else (f.(next := f.next + 1, current := Some((f.next, 1))), Some((0, f.next)))
  }

  /** What a target's probes have reported so far. */
  datatype Partial = Partial(outcomes: seq<Option<ProbeResult>>, completed: nat)

  datatype Scan = Scan(
    feed: Feed,
    inFlight: seq<(nat, nat)>,
    live: map<nat, Partial>,
    delivered: seq<TargetScan>,
    steps: nat,
    abandoned: bool)

  /** The world: which probe in flight finishes next, whether the cancel flag is up when it is looked at,
      whether the receiver has gone away, and what each probe reports. */
  datatype Env = Env(
    pick: nat -> nat,
    cancelled: nat -> bool,
    gone: nat -> bool,
    answer: (nat, nat) -> ProbeResult)

  /** Start one more probe unless the flag is up or the feed is dry. */
  function Refill(s: Scan, env: Env): Scan {
    var s := s.(steps := s.steps + 1);
    if env.cancelled(s.steps - 1) then s
    else
      var (feed, probe) := FeedNext(s.feed);
      if probe.None? then s.(feed := feed) else s.(feed := feed, inFlight := s.inFlight + [probe.value])
  }

  function Slot(s: Scan, target: nat): Partial {
    if target in s.live then s.live[target] else Partial(seq(s.feed.probers, _ => None), 0)
  }

  /** Take the outcome of the i-th probe in flight into its target's slots. */
  function Record(s: Scan, env: Env, i: nat): Scan
    requires i < |s.inFlight| && s.inFlight[i].0 < |Slot(s, s.inFlight[i].1).outcomes|
  {
    var (pass, target) := s.inFlight[i];
    var slot := Slot(s, target);
    s.(inFlight := s.inFlight[..i] + s.inFlight[i + 1..],
       live := s.live[target := Partial(slot.outcomes[pass := Some(env.answer(pass, target))], slot.completed + 1)])
  }

  function Filled(outcomes: seq<Option<ProbeResult>>): seq<Probe>
    requires forall p :: 0 <= p < |outcomes| ==> outcomes[p].Some?
  {
    seq(|outcomes|, p requires 0 <= p < |outcomes| => Probe(p, outcomes[p].value))
  }

  /** Send on the target just completed, if it was its last probe; to a receiver that has gone, nothing is
      delivered and the scan is given up. */
  function Deliver(s: Scan, env: Env, target: nat): Scan
    requires target in s.live
    requires s.live[target].completed == s.feed.probers ==>
               forall p :: 0 <= p < |s.live[target].outcomes| ==> s.live[target].outcomes[p].Some?
  {
    if s.live[target].completed != s.feed.probers then s
    else if env.gone(s.steps) then s.(live := s.live - {target}, abandoned := true)
    else s.(live := s.live - {target},
            delivered := s.delivered + [TargetScan(target, Filled(s.live[target].outcomes))])
  }

  /** What the scan of a target is when nothing is lost or swapped. */
  function Ideal(env: Env, probers: nat, target: nat): TargetScan {
    TargetScan(target, seq(probers, (pass: nat) => Probe(pass, env.answer(pass, target))))
  }

  // ----- the invariant -----

  predicate FeedOk(f: Feed) {
    && f.probers > 0
    && (f.current.None? ==> f.next == 0)
    && (f.current.Some? ==> f.next == f.current.value.0 + 1 <= f.total && f.current.value.1 <= f.probers)
  }

  /** Has the feed handed this probe out? */
  predicate Handed(f: Feed, pass: nat, target: nat) {
    && pass < f.probers && f.current.Some?
    && (target < f.current.value.0 || (target == f.current.value.0 && pass < f.current.value.1))
  }

  /** Has it handed out every probe of the target? */
  predicate Whole(f: Feed, target: nat) {
    f.current.Some? && (target < f.current.value.0 || (target == f.current.value.0 && f.current.value.1 >= f.probers))
  }

  predicate HasCome(s: Scan, pass: nat, target: nat) {
    target in s.live && pass < |s.live[target].outcomes| && s.live[target].outcomes[pass].Some?
  }

  ghost predicate Includes(scans: seq<TargetScan>, target: nat) {
    exists i :: 0 <= i < |scans| && scans[i].index == target
  }

  ghost predicate Sent(s: Scan, target: nat) { Includes(s.delivered, target) }

  /** Until the scan is given up, every probe handed out is in flight, recorded or sent on. */
  ghost predicate NoneLost(s: Scan) {
    !s.abandoned ==> forall pass: nat, target: nat :: Handed(s.feed, pass, target) ==>
      (pass, target) in s.inFlight || HasCome(s, pass, target) || Sent(s, target)
  }

  ghost predicate FlightOk(s: Scan) {
    && (forall i :: 0 <= i < |s.inFlight| ==> Handed(s.feed, s.inFlight[i].0, s.inFlight[i].1))
    && (forall i, j :: 0 <= i < j < |s.inFlight| ==> s.inFlight[i] != s.inFlight[j])
  }

  ghost predicate SlotOk(s: Scan, env: Env, target: nat)
    requires target in s.live
  {
    var slot := s.live[target];
    && |slot.outcomes| == s.feed.probers
    && slot.completed == Count(slot.outcomes, (o: Option<ProbeResult>) => o.Some?)
    && !Sent(s, target)
    && forall pass :: 0 <= pass < |slot.outcomes| && slot.outcomes[pass].Some? ==>
         slot.outcomes[pass] == Some(env.answer(pass, target)) && Handed(s.feed, pass, target)
         && (pass, target) !in s.inFlight
  }

  /** Only the target `ready`, about to be sent, may have all its outcomes. */
  ghost predicate LiveOk(s: Scan, env: Env, ready: Option<nat>) {
    forall target :: target in s.live ==>
      SlotOk(s, env, target) && (s.live[target].completed < s.feed.probers || ready == Some(target))
  }

  ghost predicate SentOk(s: Scan, env: Env) {
    && (forall i :: 0 <= i < |s.delivered| ==>
          && s.delivered[i] == Ideal(env, s.feed.probers, s.delivered[i].index)
          && Whole(s.feed, s.delivered[i].index)
          && forall k :: 0 <= k < |s.inFlight| ==> s.inFlight[k].1 != s.delivered[i].index)
    && (forall i, j :: 0 <= i < j < |s.delivered| ==> s.delivered[i].index != s.delivered[j].index)
  }

  ghost predicate Inv(s: Scan, env: Env, ready: Option<nat>) {
    FeedOk(s.feed) && FlightOk(s) && LiveOk(s, env, ready) && SentOk(s, env) && NoneLost(s)
  }

  // ----- each part of an iteration keeps it -----

  lemma FeedHandsOut(f: Feed)
    requires FeedOk(f)
    ensures var (g, probe) := FeedNext(f);
            && FeedOk(g) && g.total == f.total && g.probers == f.probers
            && (probe.None? ==> g == f && f.next >= f.total && (f.current.Some? ==> f.current.value.1 == f.probers))
            && (forall target: nat :: Whole(f, target) ==>
                  Whole(g, target) && (probe.Some? ==> probe.value.1 != target))
            && (probe.Some? ==> !Handed(f, probe.value.0, probe.value.1) && probe.value.0 < f.probers)
            && (forall pass: nat, target: nat ::
                  Handed(g, pass, target) <==> Handed(f, pass, target) || probe == Some((pass, target)))
  {
  }

  lemma RefillKeeps(s: Scan, env: Env, ready: Option<nat>)
    requires Inv(s, env, ready)
    ensures Inv(Refill(s, env), env, ready)
  {
    FeedHandsOut(s.feed);
    var (feed, probe) := FeedNext(s.feed);
    var r := Refill(s, env);
    if !env.cancelled(s.steps) && probe.Some? {
      assert r.inFlight == s.inFlight + [probe.value];
      RefillFlight(s, r, probe.value);
      RefillLive(s, r, env, ready, probe.value);
      RefillSent(s, r, env, probe.value);
    } else {
      Unmoved(s, r, env, ready);
    }
  }

  lemma Unmoved(s: Scan, r: Scan, env: Env, ready: Option<nat>)
    requires Inv(s, env, ready) && r == s.(steps := r.steps)
    ensures Inv(r, env, ready)
  {
    assert forall target :: Sent(r, target) <==> Sent(s, target);
    assert forall target :: target in r.live ==> (SlotOk(r, env, target) <==> SlotOk(s, env, target));
  }

  lemma RefillFlight(s: Scan, r: Scan, probe: (nat, nat))
    requires FlightOk(s) && NoneLost(s) && OneMore(s, r, probe)
    ensures FlightOk(r) && NoneLost(r)
  {
    assert forall target :: Sent(r, target) <==> Sent(s, target);
    assert forall pass, target :: HasCome(s, pass, target) ==> HasCome(r, pass, target);
    assert probe in r.inFlight && forall p :: p in s.inFlight ==> p in r.inFlight;
  }

  /** `r` is `s` with one more probe handed out and in flight. */
  ghost predicate OneMore(s: Scan, r: Scan, probe: (nat, nat)) {
    && r.live == s.live && r.delivered == s.delivered && r.abandoned == s.abandoned && r.feed.probers == s.feed.probers
    && r.inFlight == s.inFlight + [probe] && !Handed(s.feed, probe.0, probe.1) && probe.0 < s.feed.probers
    && (forall target: nat :: Whole(s.feed, target) ==> Whole(r.feed, target) && probe.1 != target)
    && forall pass: nat, target: nat ::
         Handed(r.feed, pass, target) <==> Handed(s.feed, pass, target) || probe == (pass, target)
  }

  lemma RefillLive(s: Scan, r: Scan, env: Env, ready: Option<nat>, probe: (nat, nat))
    requires LiveOk(s, env, ready) && OneMore(s, r, probe)
    ensures LiveOk(r, env, ready)
  {
    forall target | target in r.live ensures SlotOk(r, env, target) {
      assert SlotOk(s, env, target);
      assert Sent(r, target) <==> Sent(s, target);
    }
  }

  lemma RefillSent(s: Scan, r: Scan, env: Env, probe: (nat, nat))
    requires SentOk(s, env) && OneMore(s, r, probe) && FeedOk(s.feed)
    ensures SentOk(r, env)
  {
    forall i | 0 <= i < |r.delivered| ensures probe.1 != r.delivered[i].index {
      assert Whole(s.feed, s.delivered[i].index);
    }
  }

  lemma {:induction false} NoneCome(n: nat)
    ensures Count(seq<Option<ProbeResult>>(n, _ => None), (o: Option<ProbeResult>) => o.Some?) == 0
  {
    if n > 0 {
      var all := seq<Option<ProbeResult>>(n, _ => None);
      assert all[..n - 1] == seq<Option<ProbeResult>>(n - 1, _ => None);
      NoneCome(n - 1);
    }
  }

  lemma SlotReady(s: Scan, env: Env, i: nat)
    requires Inv(s, env, None) && i < |s.inFlight|
    ensures var (pass, target) := s.inFlight[i];
            var slot := Slot(s, target);
            && pass < |slot.outcomes| == s.feed.probers && slot.outcomes[pass].None?
            && slot.completed == Count(slot.outcomes, (o: Option<ProbeResult>) => o.Some?)
            && !Sent(s, target)
  {
    var (pass, target) := s.inFlight[i];
    assert Handed(s.feed, pass, target) && (pass, target) in s.inFlight;
    if target in s.live {
      assert SlotOk(s, env, target);
    } else {
      NoneCome(s.feed.probers);
    }
  }

  lemma RecordFlight(s: Scan, env: Env, i: nat)
    requires Inv(s, env, None) && i < |s.inFlight|
    requires s.inFlight[i].0 < |Slot(s, s.inFlight[i].1).outcomes|
    ensures var r := Record(s, env, i);
            FlightOk(r) && s.inFlight[i] !in r.inFlight
            && forall probe :: probe in r.inFlight <==> probe in s.inFlight && probe != s.inFlight[i]
  {
    var r := Record(s, env, i);
    assert s.inFlight == s.inFlight[..i] + [s.inFlight[i]] + s.inFlight[i + 1..];
  }

  lemma RecordLive(s: Scan, env: Env, i: nat)
    requires Inv(s, env, None) && i < |s.inFlight|
    requires s.inFlight[i].0 < |Slot(s, s.inFlight[i].1).outcomes|
    ensures LiveOk(Record(s, env, i), env, Some(s.inFlight[i].1))
  {
    var r := Record(s, env, i);
    var (pass, target) := s.inFlight[i];
    SlotReady(s, env, i);
    RecordFlight(s, env, i);
    var slot := Slot(s, target);
    CountUpdate(slot.outcomes, pass, Some(env.answer(pass, target)), (o: Option<ProbeResult>) => o.Some?);
    forall t | t in r.live ensures SlotOk(r, env, t) {
      assert Sent(r, t) <==> Sent(s, t);
      if t in s.live {
        assert SlotOk(s, env, t);
      }
    }
  }

  lemma RecordKeeps(s: Scan, env: Env, i: nat)
    requires Inv(s, env, None) && i < |s.inFlight|
    ensures s.inFlight[i].0 < |Slot(s, s.inFlight[i].1).outcomes|
    ensures Inv(Record(s, env, i), env, Some(s.inFlight[i].1))
  {
    SlotReady(s, env, i);
    RecordFlight(s, env, i);
    RecordLive(s, env, i);
    var r := Record(s, env, i);
    assert forall k :: 0 <= k < |r.inFlight| ==> r.inFlight[k] in s.inFlight;
    forall pass: nat, target: nat | !r.abandoned && Handed(r.feed, pass, target)
      ensures (pass, target) in r.inFlight || HasCome(r, pass, target) || Sent(r, target)
    {
      assert Sent(r, target) <==> Sent(s, target);
    }
  }

  lemma AllIn(s: Scan, env: Env, target: nat)
    requires Inv(s, env, Some(target)) && target in s.live
    ensures s.live[target].completed == s.feed.probers <==>
            forall p :: 0 <= p < |s.live[target].outcomes| ==> s.live[target].outcomes[p].Some?
  {
    assert SlotOk(s, env, target);
    CountFull(s.live[target].outcomes, (o: Option<ProbeResult>) => o.Some?);
  }

  lemma DeliverKeeps(s: Scan, env: Env, target: nat)
    requires Inv(s, env, Some(target)) && target in s.live
    requires s.live[target].completed == s.feed.probers ==>
               forall p :: 0 <= p < |s.live[target].outcomes| ==> s.live[target].outcomes[p].Some?
    ensures Inv(Deliver(s, env, target), env, None)
  {
    if s.live[target].completed == s.feed.probers && env.gone(s.steps) {
      GivenUp(s, Deliver(s, env, target), env, target);
    } else if s.live[target].completed == s.feed.probers {
      var r := Deliver(s, env, target);
      assert SlotOk(s, env, target);
      var outcomes := s.live[target].outcomes;
      assert outcomes[s.feed.probers - 1].Some?;
      assert Whole(s.feed, target);
      assert Filled(outcomes) == Ideal(env, s.feed.probers, target).probes;
      forall k | 0 <= k < |s.inFlight| ensures s.inFlight[k].1 != target {
        var probe := s.inFlight[k];
        assert Handed(s.feed, probe.0, probe.1) && probe in s.inFlight;
        assert outcomes[probe.0].Some?;
      }
      assert r.delivered[|s.delivered|].index == target;
      forall t: nat ensures Sent(r, t) <==> Sent(s, t) || t == target { SentAppend(s, r, t); }
      DeliverRest(s, r, env, target);
    } else {
      assert SlotOk(s, env, target);
      CountBounds(s.live[target].outcomes, (o: Option<ProbeResult>) => o.Some?);
    }
  }

  lemma GivenUp(s: Scan, r: Scan, env: Env, target: nat)
    requires Inv(s, env, Some(target)) && r == s.(live := s.live - {target}, abandoned := true)
    ensures Inv(r, env, None)
  {
    forall t | t in r.live ensures SlotOk(r, env, t) && r.live[t].completed < r.feed.probers {
      assert SlotOk(s, env, t);
      assert Sent(r, t) <==> Sent(s, t);
    }
  }

  lemma SentAppend(s: Scan, r: Scan, t: nat)
    requires |r.delivered| == |s.delivered| + 1 && r.delivered[..|s.delivered|] == s.delivered
    ensures Sent(r, t) <==> Sent(s, t) || t == r.delivered[|s.delivered|].index
  {
    if Sent(s, t) {
      var i :| 0 <= i < |s.delivered| && s.delivered[i].index == t;
      assert r.delivered[i].index == t;
    }
    if Sent(r, t) {
      var i :| 0 <= i < |r.delivered| && r.delivered[i].index == t;
      assert i < |s.delivered| ==> s.delivered[i].index == t;
    }
  }

  lemma DeliverRest(s: Scan, r: Scan, env: Env, target: nat)
    requires LiveOk(s, env, Some(target)) && NoneLost(s) && target in s.live
    requires r.live == s.live - {target} && r.inFlight == s.inFlight && r.feed == s.feed && r.abandoned == s.abandoned
    requires forall t: nat :: Sent(r, t) <==> Sent(s, t) || t == target
    ensures LiveOk(r, env, None) && NoneLost(r)
  {
    forall t | t in r.live ensures SlotOk(r, env, t) && r.live[t].completed < r.feed.probers {
      assert SlotOk(s, env, t);
    }
  }

  // ----- a whole scan -----

  /** One pass of the join loop. */
  ghost function Iterate(s: Scan, env: Env, i: nat): (r: Scan)
    requires Inv(s, env, None) && i < |s.inFlight|
    ensures Inv(r, env, None)
  {
    RecordKeeps(s, env, i);
    var target := s.inFlight[i].1;
    var recorded := Record(s, env, i);
    RefillKeeps(recorded, env, Some(target));
    var refilled := Refill(recorded, env);
    AllIn(refilled, env, target);
    DeliverKeeps(refilled, env, target);
    Deliver(refilled, env, target)
  }

  function PassesLeft(f: Feed): nat {
    if f.current.Some? && f.current.value.1 < f.probers then f.probers - f.current.value.1 else 0
  }

  function TargetsLeft(f: Feed): nat { if f.next < f.total then f.total - f.next else 0 }

  ghost predicate Progress(s: Scan, r: Scan) {
    || TargetsLeft(r.feed) < TargetsLeft(s.feed)
    || (TargetsLeft(r.feed) == TargetsLeft(s.feed) && PassesLeft(r.feed) < PassesLeft(s.feed))
    || (&& TargetsLeft(r.feed) == TargetsLeft(s.feed) && PassesLeft(r.feed) == PassesLeft(s.feed)
        && |r.inFlight| < |s.inFlight|)
  }

  /** An iteration starts a probe or leaves one fewer in flight; it never touches the plan of the scan. */
  lemma IterateProgresses(s: Scan, env: Env, i: nat)
    requires Inv(s, env, None) && i < |s.inFlight|
    ensures var r := Iterate(s, env, i);
            && Progress(s, r) && |r.inFlight| <= |s.inFlight|
            && r.feed.total == s.feed.total && r.feed.probers == s.feed.probers
  {
    hide FlightOk, LiveOk, SentOk, NoneLost;
    RecordKeeps(s, env, i);
  }

  /** The join loop: any probe in flight may be the next to finish. */
  ghost function Loop(s: Scan, env: Env): (r: Scan)
    requires Inv(s, env, None)
    ensures Inv(r, env, None) && (r.inFlight == [] || r.abandoned)
    decreases TargetsLeft(s.feed), PassesLeft(s.feed), |s.inFlight|
  {
    if s.inFlight == [] || s.abandoned then s
    else
      var i := env.pick(s.steps) % |s.inFlight|;
      IterateProgresses(s, env, i);
      Loop(Iterate(s, env, i), env)
  }

  /** Filling the window: at most `n` probes, fewer if the flag goes up or the targets run out. */
  function Prime(s: Scan, env: Env, n: nat): Scan
    decreases n
  {
    if n == 0 then s
    else
      var r := Refill(s, env);
      if |r.inFlight| == |s.inFlight| then r else Prime(r, env, n - 1)
  }

  function Initial(total: nat, probers: nat): Scan {
    Scan(Feed(total, probers, 0, None), [], map[], [], 0, false)
  }

  lemma {:induction false} PrimeKeeps(s: Scan, env: Env, n: nat)
    requires Inv(s, env, None)
    ensures Inv(Prime(s, env, n), env, None)
    ensures |Prime(s, env, n).inFlight| <= |s.inFlight| + n
    ensures Prime(s, env, n).feed.total == s.feed.total && Prime(s, env, n).feed.probers == s.feed.probers
    decreases n
  {
    hide Inv;
    if n > 0 {
      RefillKeeps(s, env, None);
      PrimeKeeps(Refill(s, env), env, n - 1);
    }
  }

  function Cap(max: nat): nat { if max == 0 then 1 else max }

  lemma InitialOk(total: nat, probers: nat, env: Env)
    requires probers > 0
    ensures Inv(Initial(total, probers), env, None)
  {
  }

  ghost function RunScan(env: Env, total: nat, probers: nat, max: nat): Scan {
    if probers == 0 then Initial(total, probers)
    else
      InitialOk(total, probers, env);
      PrimeKeeps(Initial(total, probers), env, Cap(max));
      Loop(Prime(Initial(total, probers), env, Cap(max)), env)
  }
}
