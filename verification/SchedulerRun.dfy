/** `run_scan` with its loops, over a feed object it advances in place. */
module SchedulerRun {
  import opened Common
  import opened Scans
  import opened Scheduler

  class TargetFeed {
    const total: nat
    const probers: nat
    var next: nat
    var current: Option<(nat, nat)>

    constructor (total: nat, probers: nat)
      ensures Value() == Feed(total, probers, 0, None)
    {
      this.total, this.probers, next, current := total, probers, 0, None;
    }

    function Value(): Feed
      reads this
    {
      Feed(total, probers, next, current)
    }

    /** Hand out the current target's next pass, or pull a target and look again. */
    method Next() returns (probe: Option<(nat, nat)>)
      requires probers > 0
      modifies this
      ensures (Value(), probe) == FeedNext(old(Value()))
    {
      while true
        invariant FeedNext(Value()) == FeedNext(old(Value()))
        decreases if next < total then total - next else 0
      {
        if current.Some? {
          var (target, pass) := current.value;
          if pass < probers {
            current := Some((target, pass + 1));
            return Some((pass, target));
          }
        }
        if next >= total { return None; }
        current := Some((next, 0));
        next := next + 1;
      }
    }
  }

  method Start(s: Scan, feed: TargetFeed, env: Env) returns (r: Scan)
    requires feed.probers > 0 && feed.Value() == s.feed
    modifies feed
    ensures r == Refill(s, env) && feed.Value() == r.feed
  {
    r := s.(steps := s.steps + 1);
    if env.cancelled(s.steps) { return; }
    var probe := feed.Next();
    r := r.(feed := feed.Value());
    if probe.Some? { r := r.(inFlight := s.inFlight + [probe.value]); }
  }

  method FillWindow(s: Scan, feed: TargetFeed, env: Env, n: nat) returns (r: Scan)
    requires feed.probers > 0 && feed.Value() == s.feed
    modifies feed
    ensures r == Prime(s, env, n) && feed.Value() == r.feed
  {
    r := s;
    for left := n downto 0
      invariant feed.Value() == r.feed && Prime(r, env, left) == Prime(s, env, n)
    {
      var before := |r.inFlight|;
      r := Start(r, feed, env);
      if |r.inFlight| == before { return; }
    }
  }

  method JoinOne(s: Scan, feed: TargetFeed, env: Env, i: nat) returns (r: Scan)
    requires Inv(s, env, None) && i < |s.inFlight| && feed.Value() == s.feed
    modifies feed
    ensures r == Iterate(s, env, i) && feed.Value() == r.feed
  {
    RecordKeeps(s, env, i);
    var target := s.inFlight[i].1;
    r := Record(s, env, i);
    RefillKeeps(r, env, Some(target));
    r := Start(r, feed, env);
    AllIn(r, env, target);
    r := Deliver(r, env, target);
  }

  method RunBoundedScan(env: Env, total: nat, probers: nat, max: nat) returns (delivered: seq<TargetScan>)
    ensures delivered == RunScan(env, total, probers, max).delivered
  {
    if probers == 0 { return []; }
    var feed := new TargetFeed(total, probers);
    InitialOk(total, probers, env);
    PrimeKeeps(Initial(total, probers), env, Cap(max));
    var s := FillWindow(Initial(total, probers), feed, env, Cap(max));
    ghost var primed := s;
    while s.inFlight != [] && !s.abandoned
      invariant feed.Value() == s.feed && Inv(s, env, None)
      invariant Loop(s, env) == Loop(primed, env)
      decreases TargetsLeft(s.feed), PassesLeft(s.feed), |s.inFlight|
    {
      var i := env.pick(s.steps) % |s.inFlight|;
      IterateProgresses(s, env, i);
      s := JoinOne(s, feed, env, i);
    }
    delivered := s.delivered;
  }
}
