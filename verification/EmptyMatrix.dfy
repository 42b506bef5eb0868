/**
 When the worst case is no bound. With no rows to run, a run may still spend every budget up to its last gate,
 snapshot that gate's failure, and be interrupted at the end of the snapshot, so that the handler takes
 another: one diagnostic budget more than was charged, less what each gate leaves of its polling interval.
 */
module EmptyMatrix {
  import opened Common
  import opened RunBudget
  import opened HarnessRun
  import opened WorstCase

  // ----- runs written out as scripts -----

  /** From step `at` on, the outside world reacts as `script` says. */
  ghost predicate Plays(o: Oracle, at: nat, script: seq<Reaction>) {
    forall i :: 0 <= i < |script| ==> o(at + i) == script[i]
  }

  lemma PlaysParts(o: Oracle, at: nat, a: seq<Reaction>, b: seq<Reaction>)
    requires Plays(o, at, a + b)
    ensures Plays(o, at, a) && Plays(o, at + |a|, b)
  {
    forall i | 0 <= i < |a| ensures o(at + i) == a[i] { assert (a + b)[i] == a[i]; }
    forall i | 0 <= i < |b| ensures o(at + |a| + i) == b[i] { assert (a + b)[|a| + i] == b[i]; }
  }

  lemma PlaysFirst(o: Oracle, at: nat, first: Reaction)
    requires Plays(o, at, [first])
    ensures o(at) == first
  {
    assert o(at + 0) == [first][0];
  }

  /** An operation that takes as long as it may, and how it ends. */
  function Full(big: real, signal: Signal): Reaction { Reaction(big, signal) }

  lemma FullAct(o: Oracle, w: World, budget: real, big: real)
    requires 0.0 <= budget <= big && o(w.steps).spent == big
    ensures Act(o, w, budget).0.clock == w.clock + budget && Act(o, w, budget).0.steps == w.steps + 1
  {
  }

  // ----- phases -----

  function PhaseScript(n: nat, big: real): seq<Reaction> { seq(n, _ => Full(big, Done(true))) }

  lemma {:induction false} PhasesPlay(o: Oracle, w: World, phases: seq<real>, services: nat, big: real)
    requires Plays(o, w.steps, PhaseScript(|phases|, big))
    requires forall i :: 0 <= i < |phases| ==> 0.0 <= phases[i] <= big
    ensures var (r, flow) := Phases(o, w, phases, services);
            flow == Continue && r.clock == w.clock + Total(phases) && r.steps == w.steps + |phases|
    decreases |phases|
  {
    if phases != [] {
      assert o(w.steps + 0) == PhaseScript(|phases|, big)[0];
      FullAct(o, w, phases[0], big);
      var m := Act(o, w, phases[0]).0;
      assert OnePhase(o, w, phases[0], services) == (m, Continue);
      var rest := PhaseScript(|phases| - 1, big);
      forall i | 0 <= i < |rest| ensures o(m.steps + i) == rest[i] {
        assert o(w.steps + (i + 1)) == PhaseScript(|phases|, big)[i + 1];
      }
      PhasesPlay(o, m, phases[1..], services, big);
    }
  }

  /** Every phase but the last succeeds, and the last one fails. */
  lemma {:induction false} PhasesFail(o: Oracle, w: World, phases: seq<real>, services: nat, big: real)
    returns (c: World)
    requires phases != [] && Plays(o, w.steps, PhaseScript(|phases| - 1, big) + [Full(big, Done(false))])
    requires forall i :: 0 <= i < |phases| ==> 0.0 <= phases[i] <= big
    ensures Phases(o, w, phases, services) == SnapshotThen(o, c, services, Return)
    ensures c.clock == w.clock + Total(phases) && c.steps == w.steps + |phases|
    decreases |phases|
  {
    var script := PhaseScript(|phases| - 1, big) + [Full(big, Done(false))];
    assert o(w.steps + 0) == script[0];
    FullAct(o, w, phases[0], big);
    var m := Act(o, w, phases[0]).0;
    if |phases| == 1 {
      c := m;
      assert OnePhase(o, w, phases[0], services) == SnapshotThen(o, c, services, Return);
      assert Total(phases) == phases[0] + Total([]);
    } else {
      assert OnePhase(o, w, phases[0], services) == (m, Continue);
      var rest := PhaseScript(|phases| - 2, big) + [Full(big, Done(false))];
      forall i | 0 <= i < |rest| ensures o(m.steps + i) == rest[i] {
        assert o(w.steps + (i + 1)) == script[i + 1] == rest[i];
      }
      c := PhasesFail(o, m, phases[1..], services, big);
    }
  }

  // ----- gates -----

  /** An attempt that fails and a sleep, `k` times over; the last of the attempts takes `late` seconds and the
      others none. */
  function Waits(k: nat, late: real): seq<Reaction> {
    if k == 0 then []
    else [Reaction(if k == 1 then late else 0.0, Done(false)), Reaction(0.0, Done(true))] + Waits(k - 1, late)
  }

  lemma {:induction false} WaitsLength(k: nat, late: real)
    ensures |Waits(k, late)| == 2 * k
  {
    if k > 0 { WaitsLength(k - 1, late); }
  }

  /** A poll that sleeps past its deadline by `late`, and whose last attempt then takes all the time it may. */
  lemma {:induction false} PollPlays(o: Oracle, w: World, k: nat, late: real, ceiling: real, ok: bool, big: real)
    requires 0.0 <= late <= ceiling <= big && late < 1.0 && k > 0
    requires Plays(o, w.steps, Waits(k, late) + [Full(big, Done(ok))])
    ensures var (r, signal) := Poll(o, w, w.clock + k as real, READINESS_POLL_INTERVAL_S, ceiling);
            signal == Done(ok) && r.clock == w.clock + k as real + late + ceiling && r.steps == w.steps + 2 * k + 1
    decreases k
  {
    var script := Waits(k, late) + [Full(big, Done(ok))];
    assert o(w.steps + 0) == script[0] && o(w.steps + 1) == script[1];
    var tried := Act(o, w, ceiling).0;
    assert Act(o, w, ceiling).1 == Done(false);
    var slept := Slept(o, tried, READINESS_POLL_INTERVAL_S);
    if k == 1 {
      assert |Waits(1, late)| == 2 && o(w.steps + 2) == script[2] == Full(big, Done(ok));
      FullAct(o, slept, ceiling, big);
    } else {
      var rest := Waits(k - 1, late) + [Full(big, Done(ok))];
      forall i | 0 <= i < |rest| ensures o(slept.steps + i) == rest[i] {
        assert o(w.steps + (i + 2)) == script[i + 2] == rest[i];
      }
      PollPlays(o, slept, k - 1, late, ceiling, ok, big);
      assert slept.clock + (k - 1) as real == w.clock + k as real;
    }
  }

  const SLEEPS: nat := 60

  /** The line printed before a gate, its poll, and for a gate that is ready the line printed after. */
  function GateScript(ok: bool, late: real, big: real): seq<Reaction> {
    [Full(big, Done(true))] + (Waits(SLEEPS, late) + [Full(big, Done(ok))])
  }

  lemma GatePolls(o: Oracle, w: World, late: real, ceiling: real, ok: bool, big: real) returns (n: World)
    requires 0.0 <= late <= ceiling <= big && late < 1.0 && Plays(o, w.steps, GateScript(ok, late, big))
    ensures Pause(o, w).1 == Continue
    ensures var m := Pause(o, w).0;
            Poll(o, m, m.clock + READINESS_TIMEOUT_S, READINESS_POLL_INTERVAL_S, ceiling) == (n, Done(ok))
    ensures n.clock == w.clock + 60.0 + late + ceiling && n.steps == w.steps + |GateScript(ok, late, big)|
  {
    PlaysParts(o, w.steps, [Full(big, Done(true))], Waits(SLEEPS, late) + [Full(big, Done(ok))]);
    PlaysFirst(o, w.steps, Full(big, Done(true)));
    var m := Pause(o, w).0;
    PollPlays(o, m, SLEEPS, late, ceiling, ok, big);
    WaitsLength(SLEEPS, late);
    n := Poll(o, m, m.clock + READINESS_TIMEOUT_S, READINESS_POLL_INTERVAL_S, ceiling).0;
  }

  lemma PrintPlays(o: Oracle, w: World, big: real)
    requires o(w.steps) == Full(big, Done(true))
    ensures Pause(o, w).1 == Continue && Pause(o, w).0.clock == w.clock && Pause(o, w).0.steps == w.steps + 1
  {
  }

  function GatesScript(n: nat, late: real, big: real): seq<Reaction> {
    if n == 0 then []
    else if n == 1 then GateScript(false, late, big)
    else GateScript(true, late, big) + ([Full(big, Done(true))] + GatesScript(n - 1, late, big))
  }

  function Polled(gates: seq<real>, late: real): real {
    if gates == [] then 0.0 else 60.0 + late + gates[0] + Polled(gates[1..], late)
  }

  /** Every attempt may take `late` seconds. */
  ghost predicate Allows(gates: seq<real>, late: real, big: real) {
    0.0 <= late < 1.0 && forall i :: 0 <= i < |gates| ==> late <= gates[i] <= big
  }

  /** Every gate but the last becomes ready at the last moment, and the last one never does. */
  lemma {:induction false} GatesFail(o: Oracle, w: World, gates: seq<real>, late: real, big: real) returns (c: World)
    requires gates != [] && Plays(o, w.steps, GatesScript(|gates|, late, big)) && Allows(gates, late, big)
    ensures Gates(o, w, gates) == SnapshotThen(o, c, 1, Return) && SnapshotThen(o, c, 1, Return).1 != Continue
    ensures c.clock == w.clock + Polled(gates, late) && c.steps == w.steps + |GatesScript(|gates|, late, big)|
    decreases |gates|
  {
    hide Poll, Capture, Pause, GateScript, Plays;
    if |gates| == 1 {
      c := GatePolls(o, w, late, gates[0], false, big);
      assert OneGate(o, w, gates[0]) == SnapshotThen(o, c, 1, Return);
      assert Polled(gates, late) == 60.0 + late + gates[0] + Polled([], late);
    } else {
      var rest := [Full(big, Done(true))] + GatesScript(|gates| - 1, late, big);
      PlaysParts(o, w.steps, GateScript(true, late, big), rest);
      var n := GatePolls(o, w, late, gates[0], true, big);
      PlaysParts(o, n.steps, [Full(big, Done(true))], GatesScript(|gates| - 1, late, big));
      PlaysFirst(o, n.steps, Full(big, Done(true)));
      PrintPlays(o, n, big);
      assert OneGate(o, w, gates[0]) == Pause(o, n) && Pause(o, n).1 == Continue;
      c := GatesFail(o, Pause(o, n).0, gates[1..], late, big);
    }
  }

  // ----- snapshots -----

  /** With its deadline reached, a capture asks no more services. */
  lemma {:induction false} TailsDone(o: Oracle, w: World, services: nat)
    ensures Tails(o, w, w.clock, services) == (w, Done(true))
    decreases services
  {
    if services > 0 { TailsDone(o, w, services - 1); }
  }

  /** A snapshot whose first log tail takes all that is left of the budget. */
  lemma FullCapture(o: Oracle, w: World, services: nat, big: real)
    requires services > 0 && big >= DIAGNOSTIC_BUDGET_S && o(w.steps) == Full(big, Done(true))
    requires o(w.steps + 1).spent == big && !o(w.steps + 1).signal.Raised?
    ensures var (r, signal) := Capture(o, w, services, DIAGNOSTIC_BUDGET_S);
            && r.clock == w.clock + DIAGNOSTIC_BUDGET_S && r.steps == w.steps + 2
            && (signal.Interrupted? <==> o(w.steps + 1).signal.Interrupted?)
  {
    var listed := Act(o, Note(w, Snapshot), COMPOSE_PS_TIMEOUT_S).0;
    FullAct(o, Note(w, Snapshot), COMPOSE_PS_TIMEOUT_S, big);
    var tail := Act(o, listed, 20.0);
    FullAct(o, listed, 20.0, big);
    TailsDone(o, tail.0, services - 1);
  }

  // ----- the run -----

  function Largest(budgets: seq<real>): real { if budgets == [] then 0.0 else Max(budgets[0], Largest(budgets[1..])) }

  lemma {:induction false} LargestBounds(budgets: seq<real>)
    ensures Largest(budgets) >= 0.0 && forall i :: 0 <= i < |budgets| ==> budgets[i] <= Largest(budgets)
  {
    if budgets != [] { LargestBounds(budgets[1..]); }
  }

  /** More than any single operation of the plan may take. */
  function Ample(p: Plan): real { Largest(p.phases) + Largest(p.gates) + COMPOSE_DOWN_TIMEOUT_S }

  /** How long the last attempt before each deadline takes. */
  function Late(p: Plan): real { if |p.gates| < 30 then 0.0 else 1.0 - 1.0 / |p.gates| as real }

  /** Coverage and all phases pass, all gates but the last become ready, the last gate fails (without gates,
      the last phase does), and a Ctrl-C arrives at the very end of the snapshot of that failure. */
  function Script(p: Plan): seq<Reaction>
    requires p.phases != []
  {
    var big := Ample(p);
    [Full(big, Done(true)), Full(big, Done(true))] + (Middle(p, big) + [Full(big, Done(true)), Full(big, Interrupted)])
  }

  function Middle(p: Plan, big: real): seq<Reaction>
    requires p.phases != []
  {
    if p.gates == [] then PhaseScript(|p.phases| - 1, big) + [Full(big, Done(false))]
    else PhaseScript(|p.phases|, big) + GatesScript(|p.gates|, Late(p), big)
  }

  /** The world that plays the script, and afterwards lets everything take its time and succeed. */
  function Playing(p: Plan, w: World): Oracle
    requires p.phases != []
  {
    var script, big := Script(p), Ample(p);
    (n: nat) => if w.steps <= n < w.steps + |script| then script[n - w.steps] else Full(big, Done(true))
  }

  lemma PlayingPlays(p: Plan, w: World)
    requires p.phases != []
    ensures Plays(Playing(p, w), w.steps, Script(p))
    ensures forall n :: n >= w.steps + |Script(p)| ==> Playing(p, w)(n) == Full(Ample(p), Done(true))
  {
  }

  lemma CoveragePlays(o: Oracle, w: World, big: real)
    requires big >= COMPOSE_CONFIG_TIMEOUT_S && Plays(o, w.steps, [Full(big, Done(true)), Full(big, Done(true))])
    ensures var (r, flow) := Coverage(o, w);
            flow == Continue && r.clock == w.clock + COMPOSE_CONFIG_TIMEOUT_S && r.steps == w.steps + 2
  {
    assert [Full(big, Done(true))] + [Full(big, Done(true))] == [Full(big, Done(true)), Full(big, Done(true))];
    PlaysParts(o, w.steps, [Full(big, Done(true))], [Full(big, Done(true))]);
    PlaysFirst(o, w.steps, Full(big, Done(true)));
    PlaysFirst(o, w.steps + 1, Full(big, Done(true)));
    FullAct(o, w, COMPOSE_CONFIG_TIMEOUT_S, big);
  }

  /** Everything up to the snapshot of the failure that ends the run. */
  lemma BodyFails(o: Oracle, a: World, p: Plan, big: real) returns (c: World, services: nat)
    requires Valid(p) && p.phases != [] && p.services > 0
    requires forall i :: 0 <= i < |p.phases| ==> p.phases[i] <= big
    requires Allows(p.gates, Late(p), big)
    requires Plays(o, a.steps, Middle(p, big))
    ensures services > 0 && c.clock == a.clock + Total(p.phases) + Polled(p.gates, Late(p))
    ensures c.steps == a.steps + |Middle(p, big)|
    ensures var (b, started) := Phases(o, a, p.phases, p.services);
            SnapshotThen(o, c, services, Return) == if started != Continue then (b, started) else Gates(o, b, p.gates)
    ensures SnapshotThen(o, c, services, Return).1 != Continue
  {
    hide Capture;
    if p.gates == [] {
      services := p.services;
      c := PhasesFail(o, a, p.phases, p.services, big);
    } else {
      PlaysParts(o, a.steps, PhaseScript(|p.phases|, big), GatesScript(|p.gates|, Late(p), big));
      PhasesPlay(o, a, p.phases, p.services, big);
      services := 1;
      c := GatesFail(o, Phases(o, a, p.phases, p.services).0, p.gates, Late(p), big);
    }
  }

  /** What the polls of `gates` gates leave of their last intervals. */
  function Unspent(gates: nat, late: real): real { gates as real * (1.0 - late) }

  lemma {:induction false} PolledLess(gates: seq<real>, late: real)
    ensures Polled(gates, late) == GateTotal(gates) - Unspent(|gates|, late)
  {
    if gates != [] { PolledLess(gates[1..], late); }
  }

  lemma BodyPlays(o: Oracle, p: Plan, w: World, big: real) returns (c: World, services: nat)
    requires Valid(p) && p.phases != [] && p.services > 0 && big >= COMPOSE_CONFIG_TIMEOUT_S
    requires forall i :: 0 <= i < |p.phases| ==> p.phases[i] <= big
    requires Allows(p.gates, Late(p), big)
    requires Plays(o, w.steps, [Full(big, Done(true)), Full(big, Done(true))] + Middle(p, big))
    ensures services > 0 && Body(o, w, p) == SnapshotThen(o, c, services, Return) && Body(o, w, p).1 != Continue
    ensures c.clock == w.clock + COMPOSE_CONFIG_TIMEOUT_S + Total(p.phases) + Polled(p.gates, Late(p))
    ensures c.steps == w.steps + 2 + |Middle(p, big)|
  {
    hide Middle, Phases, Gates, Coverage, SnapshotThen;
    PlaysParts(o, w.steps, [Full(big, Done(true)), Full(big, Done(true))], Middle(p, big));
    CoveragePlays(o, w, big);
    c, services := BodyFails(o, Coverage(o, w).0, p, big);
  }

  lemma ScriptedBody(p: Plan, w: World) returns (c: World, services: nat)
    requires Valid(p) && p.phases != [] && p.services > 0 && Roomy(p)
    ensures var o := Playing(p, w);
            && services > 0 && Body(o, w, p) == SnapshotThen(o, c, services, Return) && Body(o, w, p).1 != Continue
            && c.clock == w.clock + COMPOSE_CONFIG_TIMEOUT_S + Total(p.phases) + Polled(p.gates, Late(p))
            && c.steps == w.steps + |Script(p)| - 2
            && o(c.steps) == Full(Ample(p), Done(true)) && o(c.steps + 1) == Full(Ample(p), Interrupted)
  {
    var o, big := Playing(p, w), Ample(p);
    PlayingPlays(p, w);
    LargestBounds(p.phases);
    LargestBounds(p.gates);
    LateFits(p);
    hide Body, Playing, Middle, SnapshotThen, Largest, Late;
    var opening := [Full(big, Done(true)), Full(big, Done(true))];
    var ending := [Full(big, Done(true)), Full(big, Interrupted)];
    assert Script(p) == (opening + Middle(p, big)) + ending;
    PlaysParts(o, w.steps, opening + Middle(p, big), ending);
    c, services := BodyPlays(o, p, w, big);
    assert o(c.steps + 0) == ending[0] && o(c.steps + 1) == ending[1];
  }

  lemma ScriptedEnd(o: Oracle, d: World, services: nat, big: real)
    requires services > 0 && big >= COMPOSE_DOWN_TIMEOUT_S && forall n :: n >= d.steps ==> o(n) == Full(big, Done(true))
    ensures var (h, after) := Handle(o, d, KeyboardInterrupt, services);
            Finally(o, h, after).0.clock == d.clock + DIAGNOSTIC_BUDGET_S + COMPOSE_DOWN_TIMEOUT_S
  {
    assert o(d.steps) == Full(big, Done(true)) && o(d.steps + 1) == Full(big, Done(true));
    FullCapture(o, d, services, big);
    hide Capture;
    var h := Handle(o, d, KeyboardInterrupt, services).0;
    assert o(h.steps) == Full(big, Done(true)) && o(h.steps + 1) == Full(big, Done(true));
    var announced := Pause(o, h).0;
    FullAct(o, announced, COMPOSE_DOWN_TIMEOUT_S, big);
  }

  /** There are fewer gates than the diagnostic budget has seconds, or each attempt may take a second. */
  ghost predicate Roomy(p: Plan) {
    |p.gates| < 30 || forall i :: 0 <= i < |p.gates| ==> p.gates[i] >= READINESS_POLL_INTERVAL_S
  }

  lemma LateFits(p: Plan)
    requires Valid(p) && Roomy(p)
    ensures 0.0 <= Late(p) < 1.0 && Unspent(|p.gates|, Late(p)) < DIAGNOSTIC_BUDGET_S
    ensures Allows(p.gates, Late(p), Ample(p))
  {
    LargestBounds(p.phases);
    LargestBounds(p.gates);
    if |p.gates| >= 30 {
      var n := |p.gates| as real;
      assert n * (1.0 / n) == 1.0;
    }
  }

  /** A plan without rows can overrun the worst case by a diagnostic budget, less what each gate leaves of its
      interval. */
  lemma EmptyMatrixOverruns(p: Plan, w: World)
    requires Valid(p) && p.rows == [] && p.phases != [] && p.services > 0 && Roomy(p)
    ensures Run(Playing(p, w), w, p).0.clock ==
            w.clock + WorstCaseRunBudget(p) + DIAGNOSTIC_BUDGET_S - Unspent(|p.gates|, Late(p))
  {
    var o, big := Playing(p, w), Ample(p);
    var d := ScriptedFailure(p, w);
    PlayingPlays(p, w);
    LargestBounds(p.phases);
    LargestBounds(p.gates);
    hide Body, Handle, Finally, Playing, Script, Late, Unspent;
    ScriptedEnd(o, d, p.services, big);
    PolledLess(p.gates, Late(p));
  }

  /** The failure is snapshotted in full, and the Ctrl-C arrives. */
  lemma ScriptedFailure(p: Plan, w: World) returns (d: World)
    requires Valid(p) && p.phases != [] && p.services > 0 && Roomy(p)
    ensures Body(Playing(p, w), w, p) == (d, KeyboardInterrupt) && d.steps == w.steps + |Script(p)|
    ensures d.clock == w.clock + COMPOSE_CONFIG_TIMEOUT_S + Total(p.phases) + Polled(p.gates, Late(p))
                       + DIAGNOSTIC_BUDGET_S
  {
    var o, big := Playing(p, w), Ample(p);
    LargestBounds(p.phases);
    LargestBounds(p.gates);
    hide Body, Playing, Script, Late, Polled, Total;
    var c, services := ScriptedBody(p, w);
    FullCapture(o, c, services, big);
    d := Capture(o, c, services, DIAGNOSTIC_BUDGET_S).0;
  }

  predicate ClockFits(o: Oracle, p: Plan, w: World) { Run(o, w, p).0.clock <= w.clock + WorstCaseRunBudget(p) }

  /** For a plan as `run_all` makes them, with startup phases and services, and with few gates or gates whose
      attempts may take a second, every run stays within the worst case if and only if there is a row. */
  lemma ClockBoundExact(p: Plan, w: World)
    requires Valid(p) && p.phases != [] && p.services > 0 && Roomy(p)
    ensures (forall o: Oracle :: ClockFits(o, p, w)) <==> p.rows != []
  {
    if p.rows == [] {
      EmptyMatrixOverruns(p, w);
      LateFits(p);
      assert !ClockFits(Playing(p, w), p, w);
    } else {
      forall o: Oracle ensures ClockFits(o, p, w) { RunStaysWithinWorstCase(o, p, w); }
    }
  }
}
