/**
 The run of the live-infrastructure harness over an explicit clock: `poll_until`,
 `snapshot_failure_state`, `run_all` and the budget that is meant to bound them.

 The outside world is an oracle: asked for the n-th time, it says how long the operation took and how it
 ended. An operation with a budget never takes longer than its budget, however it ends.
 */
module RunBudget {
  import opened Common

  const READINESS_TIMEOUT_S := 60.0
  const READINESS_POLL_INTERVAL_S := 1.0
  const COMPOSE_CONFIG_TIMEOUT_S := 30.0
  const COMPOSE_DOWN_TIMEOUT_S := 120.0
  const COMPOSE_PS_TIMEOUT_S := 10.0
  const DIAGNOSTIC_BUDGET_S := 30.0

  /** An ordinary end, good or bad; an exception; a Ctrl-C. */
  datatype Signal = Done(ok: bool) | Raised | Interrupted

  datatype Reaction = Reaction(spent: real, signal: Signal)

  type Oracle = nat -> Reaction

  datatype Event = Worked | Snapshot | TearDown

  /** The clock, how often the outside world was asked, what happened, and the verdicts reported so far. */
  datatype World = World(clock: real, steps: nat, events: seq<Event>, results: seq<bool>)

  function Clamp(x: real, limit: real): real {
    if x <= 0.0 || limit <= 0.0 then 0.0 else if x <= limit then x else limit
  }

  function Act(o: Oracle, w: World, budget: real): (World, Signal) {
    (w.(clock := w.clock + Clamp(o(w.steps).spent, budget), steps := w.steps + 1, events := w.events + [Worked]),
     o(w.steps).signal)
  }

  function Note(w: World, event: Event): World { w.(events := w.events + [event]) }

  function Report(w: World, ok: bool): World { w.(results := w.results + [ok]) }

  // ----- poll_until -----

  /** How many sleeps of `interval` fit before the deadline, and one more. */
  function SleepsLeft(left: real, interval: real): nat
    requires interval > 0.0
  {
    if left <= 0.0 then 0 else (left / interval).Floor + 1
  }

  lemma ScalesDown(a: real, b: real, unit: real)
    requires unit > 0.0 && a * unit <= b * unit
    ensures a <= b
  {
    assert a > b ==> (a - b) * unit > 0.0;
  }

  lemma SleepShortens(left: real, less: real, interval: real)
    requires interval > 0.0 && left > 0.0 && less <= left - interval
    ensures SleepsLeft(less, interval) < SleepsLeft(left, interval)
  {
    if less > 0.0 {
      ghost var was, becomes := left / interval, less / interval;
      assert was * interval == left && becomes * interval == less;
      assert (becomes + 1.0) * interval == less + interval;
      ScalesDown(becomes + 1.0, was, interval);
    }
  }

  function Slept(o: Oracle, w: World, interval: real): World {
    w.(clock := w.clock + interval, steps := w.steps + 1, events := w.events + [Worked])
  }

  /** Attempt, look at the clock, sleep; an attempt that raises counts as one that failed. */
  function Poll(o: Oracle, w: World, deadline: real, interval: real, ceiling: real): (World, Signal)
    requires interval > 0.0
    decreases SleepsLeft(deadline - w.clock, interval)
  {
    var (tried, signal) := Act(o, w, ceiling);
    if signal.Interrupted? || signal == Done(true) then (tried, signal)
    else if tried.clock >= deadline then (tried, Done(false))
    else
      var (woken, sleep) := Act(o, tried, interval);
      if sleep.Interrupted? then (woken, Interrupted)
      else
        SleepShortens(deadline - w.clock, deadline - Slept(o, tried, interval).clock, interval);
        Poll(o, Slept(o, tried, interval), deadline, interval, ceiling)
  }

  method PollUntil(o: Oracle, start: World, timeout: real, interval: real, ceiling: real)
    returns (w: World, signal: Signal)
    requires interval > 0.0
    ensures (w, signal) == Poll(o, start, start.clock + timeout, interval, ceiling)
  {
    w := start;
    var deadline := w.clock + timeout;
    while true
      invariant Poll(o, w, deadline, interval, ceiling) == Poll(o, start, deadline, interval, ceiling)
      decreases SleepsLeft(deadline - w.clock, interval)
    {
      var (tried, attempt) := Act(o, w, ceiling);
      if attempt.Interrupted? || attempt == Done(true) { return tried, attempt; }
      if tried.clock >= deadline { return tried, Done(false); }
      var (woken, sleep) := Act(o, tried, interval);
      if sleep.Interrupted? { return woken, Interrupted; }
      SleepShortens(deadline - w.clock, deadline - Slept(o, tried, interval).clock, interval);
      w := Slept(o, tried, interval);
    }
  }

  /** No attempt or sleep is cut short by the deadline: the ceiling is the timeout, one interval and one
      attempt, and a poll that gives up has waited at least the timeout. */
  lemma {:induction false} PollBound(o: Oracle, w: World, deadline: real, interval: real, ceiling: real)
    requires interval > 0.0 && ceiling >= 0.0 && w.clock <= deadline + interval
    ensures var (r, signal) := Poll(o, w, deadline, interval, ceiling);
            && w.clock <= r.clock <= deadline + interval + ceiling
            && (signal == Done(false) ==> r.clock >= deadline)
            && !signal.Raised? && Snapshots(r) == Snapshots(w)
    decreases SleepsLeft(deadline - w.clock, interval)
  {
    var (tried, signal) := Act(o, w, ceiling);
    NoSnapshot(w, Worked);
    if !signal.Interrupted? && signal != Done(true) && tried.clock < deadline {
      NoSnapshot(tried, Worked);
      if !Act(o, tried, interval).1.Interrupted? {
        SleepShortens(deadline - w.clock, deadline - Slept(o, tried, interval).clock, interval);
        PollBound(o, Slept(o, tried, interval), deadline, interval, ceiling);
      }
    }
  }

  // ----- snapshot_failure_state -----

  function Snapshots(w: World): nat { Count(w.events, (e: Event) => e == Snapshot) }

  lemma NoSnapshot(w: World, event: Event)
    ensures Snapshots(Note(w, event)) == Snapshots(w) + if event == Snapshot then 1 else 0
  {
    CountLast(w.events, event, (e: Event) => e == Snapshot);
  }

  function Min(a: real, b: real): real { if a <= b then a else b }

  function Max(a: real, b: real): real { if a >= b then a else b }

  /** One log tail for each service the budget still reaches. */
  function Tails(o: Oracle, w: World, deadline: real, services: nat): (World, Signal)
    decreases services
  {
    if services == 0 then (w, Done(true))
    else if deadline - w.clock <= 0.0 then Tails(o, w, deadline, services - 1)
    else
      var (w, signal) := Act(o, w, deadline - w.clock);
      if signal.Interrupted? then (w, Interrupted) else Tails(o, w, deadline, services - 1)
  }

  function Capture(o: Oracle, w: World, services: nat, budget: real): (World, Signal) {
    var deadline := w.clock + budget;
    var (w, signal) := Act(o, Note(w, Snapshot), Min(COMPOSE_PS_TIMEOUT_S, Max(0.0, budget)));
    if signal.Interrupted? then (w, Interrupted) else Tails(o, w, deadline, services)
  }

  method SnapshotFailureState(o: Oracle, start: World, services: nat, budget: real) returns (w: World, signal: Signal)
    ensures (w, signal) == Capture(o, start, services, budget)
  {
    var deadline := start.clock + budget;
    var (listed, ps) := Act(o, Note(start, Snapshot), Min(COMPOSE_PS_TIMEOUT_S, Max(0.0, deadline - start.clock)));
    w, signal := listed, ps;
    if ps.Interrupted? { return; }
    for left := services downto 0
      invariant Tails(o, w, deadline, left) == Tails(o, listed, deadline, services)
    {
      var remaining := deadline - w.clock;
      if remaining <= 0.0 { continue; }
      w, signal := Act(o, w, remaining).0, Act(o, w, remaining).1;
      if signal.Interrupted? { return; }
    }
    signal := Done(true);
  }

  lemma {:induction false} TailsBound(o: Oracle, w: World, deadline: real, services: nat)
    requires w.clock <= deadline
    ensures w.clock <= Tails(o, w, deadline, services).0.clock <= deadline
    ensures Snapshots(Tails(o, w, deadline, services).0) == Snapshots(w)
    ensures !Tails(o, w, deadline, services).1.Raised?
    decreases services
  {
    if services > 0 {
      if deadline - w.clock <= 0.0 {
        TailsBound(o, w, deadline, services - 1);
      } else {
        NoSnapshot(w, Worked);
        TailsBound(o, Act(o, w, deadline - w.clock).0, deadline, services - 1);
      }
    }
  }

  /** A service is skipped only once the deadline has passed. */
  lemma {:induction false} TailsAskAll(o: Oracle, w: World, deadline: real, services: nat)
    ensures var (r, signal) := Tails(o, w, deadline, services);
            && (signal.Interrupted? || r.clock >= deadline || r.steps == w.steps + services)
            && (services > 0 && w.clock < deadline ==> r.steps > w.steps)
            && r.steps >= w.steps && r.clock >= w.clock
    decreases services
  {
    if services > 0 {
      TailsAskAll(o, if w.clock < deadline then Act(o, w, deadline - w.clock).0 else w, deadline, services - 1);
    }
  }

  /** A snapshot that was not interrupted and has time left has listed the containers and asked every service. */
  lemma CaptureAsksAll(o: Oracle, w: World, services: nat, budget: real)
    ensures var (r, signal) := Capture(o, w, services, budget);
            signal.Interrupted? || r.clock >= w.clock + budget || r.steps == w.steps + 1 + services
  {
    var listed := Act(o, Note(w, Snapshot), Min(COMPOSE_PS_TIMEOUT_S, Max(0.0, budget))).0;
    TailsAskAll(o, listed, w.clock + budget, services);
  }

  /** However many services it asks, one snapshot spends at most its budget and never raises. */
  lemma CaptureBound(o: Oracle, w: World, services: nat, budget: real)
    requires budget >= 0.0
    ensures var (r, signal) := Capture(o, w, services, budget);
            && w.clock <= r.clock <= w.clock + budget
            && Snapshots(r) == Snapshots(w) + 1 && !signal.Raised?
  {
    NoSnapshot(w, Snapshot);
    NoSnapshot(Note(w, Snapshot), Worked);
    var (listed, signal) := Act(o, Note(w, Snapshot), Min(COMPOSE_PS_TIMEOUT_S, Max(0.0, budget)));
    TailsBound(o, listed, w.clock + budget, services);
  }
}
