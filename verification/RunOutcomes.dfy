/** How a run of the harness ends, read off what the outside world did: interrupts and the way to a green run. */
module RunOutcomes {
  import opened Common
  import opened RunBudget
  import opened HarnessRun
  import opened RunReports

  // ----- interrupts -----

  /** A Ctrl-C arrived between two steps. */
  ghost predicate CtrlC(o: Oracle, from: nat, to: nat) {
    exists k :: from <= k < to && o(k).signal.Interrupted?
  }

  lemma CtrlCSplits(o: Oracle, a: nat, b: nat, c: nat)
    requires a <= b <= c
    ensures CtrlC(o, a, c) <==> CtrlC(o, a, b) || CtrlC(o, b, c)
  {
    if CtrlC(o, a, c) {
      var k :| a <= k < c && o(k).signal.Interrupted?;
      if k < b { assert CtrlC(o, a, b); } else { assert CtrlC(o, b, c); }
    }
  }

  lemma OneStep(o: Oracle, a: nat)
    ensures CtrlC(o, a, a + 1) <==> o(a).signal.Interrupted?
    ensures !CtrlC(o, a, a)
  {
    assert o(a).signal.Interrupted? ==> a <= a < a + 1;
  }

  lemma {:induction false} PollHears(o: Oracle, w: World, deadline: real, interval: real, ceiling: real)
    requires interval > 0.0
    ensures var (r, signal) := Poll(o, w, deadline, interval, ceiling);
            r.steps > w.steps && !signal.Raised? && (signal.Interrupted? <==> CtrlC(o, w.steps, r.steps))
    decreases SleepsLeft(deadline - w.clock, interval)
  {
    var (tried, signal) := Act(o, w, ceiling);
    OneStep(o, w.steps);
    if !signal.Interrupted? && signal != Done(true) && tried.clock < deadline {
      var (woken, sleep) := Act(o, tried, interval);
      OneStep(o, tried.steps);
      CtrlCSplits(o, w.steps, tried.steps, woken.steps);
      if !sleep.Interrupted? {
        var slept := Slept(o, tried, interval);
        SleepShortens(deadline - w.clock, deadline - slept.clock, interval);
        PollHears(o, slept, deadline, interval, ceiling);
        CtrlCSplits(o, w.steps, slept.steps, Poll(o, slept, deadline, interval, ceiling).0.steps);
      }
    }
  }

  lemma {:induction false} TailsHear(o: Oracle, w: World, deadline: real, services: nat)
    ensures var (r, signal) := Tails(o, w, deadline, services);
            r.steps >= w.steps && (signal.Interrupted? <==> CtrlC(o, w.steps, r.steps))
    decreases services
  {
    OneStep(o, w.steps);
    if services > 0 {
      if deadline - w.clock <= 0.0 {
        TailsHear(o, w, deadline, services - 1);
      } else {
        var asked := Act(o, w, deadline - w.clock).0;
        TailsHear(o, asked, deadline, services - 1);
        CtrlCSplits(o, w.steps, asked.steps, Tails(o, asked, deadline, services - 1).0.steps);
      }
    }
  }

  lemma CaptureHears(o: Oracle, w: World, services: nat, budget: real)
    ensures var (r, signal) := Capture(o, w, services, budget);
            r.steps > w.steps && (signal.Interrupted? <==> CtrlC(o, w.steps, r.steps))
  {
    var listed := Act(o, Note(w, Snapshot), Min(COMPOSE_PS_TIMEOUT_S, Max(0.0, budget))).0;
    OneStep(o, w.steps);
    TailsHear(o, listed, w.clock + budget, services);
    CtrlCSplits(o, w.steps, listed.steps, Tails(o, listed, w.clock + budget, services).0.steps);
  }

  /** A part of the run ends by an interrupt exactly if a Ctrl-C arrived while it ran. */
  ghost predicate Hears(o: Oracle, w: World, r: (World, Flow)) {
    && r.0.steps >= w.steps
    && (r.1 == KeyboardInterrupt || r.1 == HarnessInterrupt <==> CtrlC(o, w.steps, r.0.steps))
  }

  lemma HearsThen(o: Oracle, w: World, m: World, r: (World, Flow))
    requires w.steps <= m.steps && !CtrlC(o, w.steps, m.steps) && Hears(o, m, r)
    ensures Hears(o, w, r)
  {
    CtrlCSplits(o, w.steps, m.steps, r.0.steps);
  }

  lemma PauseHears(o: Oracle, w: World)
    ensures Hears(o, w, Pause(o, w))
  {
    OneStep(o, w.steps);
  }

  lemma SnapshotHears(o: Oracle, w: World, services: nat, after: Flow)
    requires after == Continue || after == Return
    ensures Hears(o, w, SnapshotThen(o, w, services, after))
  {
    CaptureHears(o, w, services, DIAGNOSTIC_BUDGET_S);
  }

  lemma PhaseHears(o: Oracle, w: World, budget: real, services: nat)
    ensures Hears(o, w, OnePhase(o, w, budget, services))
  {
    hide SnapshotThen;
    OneStep(o, w.steps);
    var m := Act(o, w, budget).0;
    SnapshotHears(o, m, services, Return);
    if o(w.steps).signal == Done(false) { HearsThen(o, w, m, SnapshotThen(o, m, services, Return)); }
  }

  lemma {:induction false} PhasesHear(o: Oracle, w: World, phases: seq<real>, services: nat)
    ensures Hears(o, w, Phases(o, w, phases, services))
    decreases |phases|
  {
    OneStep(o, w.steps);
    if phases != [] {
      PhaseHears(o, w, phases[0], services);
      var (m, flow) := OnePhase(o, w, phases[0], services);
      hide OnePhase;
      if flow == Continue {
        PhasesHear(o, m, phases[1..], services);
        HearsThen(o, w, m, Phases(o, m, phases[1..], services));
      }
    }
  }

  lemma GateHears(o: Oracle, w: World, ceiling: real)
    ensures Hears(o, w, OneGate(o, w, ceiling))
  {
    hide Poll, SnapshotThen, Pause;
    PauseHears(o, w);
    var (m, flow) := Pause(o, w);
    if flow == Continue {
      PollHears(o, m, m.clock + READINESS_TIMEOUT_S, READINESS_POLL_INTERVAL_S, ceiling);
      var (n, signal) := Poll(o, m, m.clock + READINESS_TIMEOUT_S, READINESS_POLL_INTERVAL_S, ceiling);
      CtrlCSplits(o, w.steps, m.steps, n.steps);
      match signal
      case Done(true) =>
        PauseHears(o, n);
        HearsThen(o, w, n, Pause(o, n));
      case Done(false) =>
        SnapshotHears(o, n, 1, Return);
        HearsThen(o, w, n, SnapshotThen(o, n, 1, Return));
      case Interrupted =>
    }
  }

  lemma {:induction false} GatesHear(o: Oracle, w: World, gates: seq<real>)
    ensures Hears(o, w, Gates(o, w, gates))
    decreases |gates|
  {
    OneStep(o, w.steps);
    if gates != [] {
      GateHears(o, w, gates[0]);
      var (m, flow) := OneGate(o, w, gates[0]);
      hide OneGate;
      if flow == Continue {
        GatesHear(o, m, gates[1..]);
        HearsThen(o, w, m, Gates(o, m, gates[1..]));
      }
    }
  }

  lemma RowHears(o: Oracle, w: World, row: Row)
    ensures Hears(o, w, OneRow(o, w, row))
  {
    hide Capture, Pause;
    PauseHears(o, w);
    var (m, flow) := Pause(o, w);
    if flow == Continue {
      var (n, signal) := Act(o, m, row.budget);
      OneStep(o, m.steps);
      CtrlCSplits(o, w.steps, m.steps, n.steps);
      CaptureHears(o, n, row.containers, DIAGNOSTIC_BUDGET_S);
      var c := Capture(o, n, row.containers, DIAGNOSTIC_BUDGET_S).0;
      CtrlCSplits(o, w.steps, n.steps, c.steps);
      PauseHears(o, c);
      CtrlCSplits(o, w.steps, c.steps, Pause(o, c).0.steps);
      PauseHears(o, n);
      CtrlCSplits(o, w.steps, n.steps, Pause(o, n).0.steps);
    }
  }

  lemma {:induction false} RowsHear(o: Oracle, w: World, rows: seq<Row>)
    ensures Hears(o, w, Rows(o, w, rows))
    decreases |rows|
  {
    OneStep(o, w.steps);
    if rows != [] {
      RowHears(o, w, rows[0]);
      var (m, flow) := OneRow(o, w, rows[0]);
      hide OneRow;
      if flow == Continue {
        RowsHear(o, m, rows[1..]);
        HearsThen(o, w, m, Rows(o, m, rows[1..]));
      }
    }
  }

  lemma CoverageHears(o: Oracle, w: World)
    ensures Hears(o, w, Coverage(o, w))
  {
    hide Pause;
    OneStep(o, w.steps);
    var m := Act(o, w, COMPOSE_CONFIG_TIMEOUT_S).0;
    PauseHears(o, m);
    if o(w.steps).signal == Done(true) { HearsThen(o, w, m, Pause(o, m)); }
  }

  /** Wherever a Ctrl-C arrives before the handlers, in a print, a phase, a poll, a sleep, a row or a snapshot, it
      ends the body as an interrupt, and nothing else does. */
  lemma InterruptsAreHeard(o: Oracle, w: World, p: Plan)
    ensures Hears(o, w, Body(o, w, p))
  {
    hide Coverage, Phases, Gates, Rows;
    CoverageHears(o, w);
    var (a, covered) := Coverage(o, w);
    PhasesHear(o, a, p.phases, p.services);
    var (b, started) := Phases(o, a, p.phases, p.services);
    GatesHear(o, b, p.gates);
    var (c, ready) := Gates(o, b, p.gates);
    RowsHear(o, c, p.rows);
    if covered == Continue {
      HearsThen(o, w, a, (b, started));
      if started == Continue {
        HearsThen(o, w, b, (c, ready));
        if ready == Continue { HearsThen(o, w, c, Rows(o, c, p.rows)); }
      }
    }
  }

  /** Unless the report is lost, the run ends as interrupted exactly if a Ctrl-C arrived before the handlers, and
      otherwise it returns; a snapshot the last handler could not finish lets the Ctrl-C out. */
  lemma ExitFollowsInterrupts(o: Oracle, w: World, p: Plan)
    ensures !PrintCut(o, w, p) ==>
              Run(o, w, p).1 == if SnapshotCut(o, w, p) then KeyboardInterrupt
                                else if CtrlC(o, w.steps, Body(o, w, p).0.steps) then HarnessInterrupt
                                else Return
  {
    InterruptsAreHeard(o, w, p);
    hide Body, Capture, Pause, Down;
    var (body, ended) := Body(o, w, p);
    HandleReports(o, body, ended, p.services);
    var (h, after) := Handle(o, body, ended, p.services);
    FinallyReports(o, h, after);
  }

  // ----- the way through -----

  ghost predicate Passed(o: Oracle, step: nat) { o(step).signal == Done(true) }

  /** Steps in the order they were taken, all before `end`. */
  ghost predicate InTurn(steps: seq<nat>, from: nat, end: nat) {
    && (forall i :: 0 <= i < |steps| ==> from <= steps[i] < end)
    && (forall i, j :: 0 <= i < j < |steps| ==> steps[i] < steps[j])
  }

  lemma {:induction false} PhasesPass(o: Oracle, w: World, phases: seq<real>, services: nat)
    requires Phases(o, w, phases, services).1 == Continue
    ensures Phases(o, w, phases, services).0.steps == w.steps + |phases|
    ensures forall k :: w.steps <= k < w.steps + |phases| ==> Passed(o, k)
    decreases |phases|
  {
    if phases != [] {
      var m := OnePhase(o, w, phases[0], services).0;
      PhasesPass(o, m, phases[1..], services);
    }
  }

  /** A poll that comes out ready ended with an attempt that succeeded. */
  lemma {:induction false} PollPasses(o: Oracle, w: World, deadline: real, interval: real, ceiling: real)
    requires interval > 0.0 && Poll(o, w, deadline, interval, ceiling).1 == Done(true)
    ensures var r := Poll(o, w, deadline, interval, ceiling).0;
            r.steps > w.steps && Passed(o, r.steps - 1)
    decreases SleepsLeft(deadline - w.clock, interval)
  {
    var (tried, signal) := Act(o, w, ceiling);
    if signal != Done(true) {
      var slept := Slept(o, tried, interval);
      SleepShortens(deadline - w.clock, deadline - slept.clock, interval);
      PollPasses(o, slept, deadline, interval, ceiling);
    }
  }

  lemma GatePasses(o: Oracle, w: World, ceiling: real) returns (at: nat)
    requires OneGate(o, w, ceiling).1 == Continue
    ensures w.steps <= at < OneGate(o, w, ceiling).0.steps && Passed(o, at)
  {
    var m := Pause(o, w).0;
    var n := Poll(o, m, m.clock + READINESS_TIMEOUT_S, READINESS_POLL_INTERVAL_S, ceiling).0;
    hide Poll, Capture;
    PollPasses(o, m, m.clock + READINESS_TIMEOUT_S, READINESS_POLL_INTERVAL_S, ceiling);
    at := n.steps - 1;
  }

  lemma {:induction false} GatesPass(o: Oracle, w: World, gates: seq<real>) returns (ready: seq<nat>)
    requires Gates(o, w, gates).1 == Continue
    ensures |ready| == |gates| && InTurn(ready, w.steps, Gates(o, w, gates).0.steps)
    ensures w.steps <= Gates(o, w, gates).0.steps && forall i :: 0 <= i < |ready| ==> Passed(o, ready[i])
    decreases |gates|
  {
    ready := [];
    if gates != [] {
      var at := GatePasses(o, w, gates[0]);
      var m := OneGate(o, w, gates[0]).0;
      hide OneGate;
      var rest := GatesPass(o, m, gates[1..]);
      ready := [at] + rest;
    }
  }

  lemma RowRuns(o: Oracle, w: World, row: Row)
    requires OneRow(o, w, row).1 == Continue
    ensures OneRow(o, w, row).0.results == w.results + [Passed(o, w.steps + 1)]
    ensures OneRow(o, w, row).0.steps > w.steps + 1
  {
    var n := Act(o, Pause(o, w).0, row.budget).0;
    CaptureHears(o, n, row.containers, DIAGNOSTIC_BUDGET_S);
    RowReports(o, w, row);
    hide Capture;
  }

  /** What the rows run at the given steps are reported as. */
  ghost function Verdicts(o: Oracle, ran: seq<nat>): seq<bool> {
    seq(|ran|, i requires 0 <= i < |ran| => Passed(o, ran[i]))
  }

  lemma {:induction false} RowsRun(o: Oracle, w: World, rows: seq<Row>) returns (ran: seq<nat>)
    requires Rows(o, w, rows).1 == Continue
    ensures |ran| == |rows| && InTurn(ran, w.steps, Rows(o, w, rows).0.steps) && w.steps <= Rows(o, w, rows).0.steps
    ensures Rows(o, w, rows).0.results == w.results + Verdicts(o, ran)
    decreases |rows|
  {
    hide OneRow, Passed;
    ran := [];
    if rows != [] {
      RowRuns(o, w, rows[0]);
      var m := OneRow(o, w, rows[0]).0;
      var rest := RowsRun(o, m, rows[1..]);
      ran := [w.steps + 1] + rest;
      assert Verdicts(o, ran) == [Passed(o, w.steps + 1)] + Verdicts(o, rest);
    }
  }

  /**
   A run gets through the matrix only if coverage was complete, every startup phase succeeded and every gate saw an
   attempt succeed; it then reports, row by row and in order, whether that row itself passed.
   */
  lemma ThroughTheMatrix(o: Oracle, w: World, p: Plan) returns (ready: seq<nat>, ran: seq<nat>)
    requires Body(o, w, p).1 == Continue
    ensures Passed(o, w.steps) && forall k :: w.steps + 2 <= k < w.steps + 2 + |p.phases| ==> Passed(o, k)
    ensures |ready| == |p.gates| && InTurn(ready, w.steps + 2 + |p.phases|, Body(o, w, p).0.steps)
    ensures forall i :: 0 <= i < |ready| ==> Passed(o, ready[i])
    ensures |ran| == |p.rows| && InTurn(ran, w.steps + 2 + |p.phases|, Body(o, w, p).0.steps)
    ensures forall i, j :: 0 <= i < |ready| && 0 <= j < |ran| ==> ready[i] < ran[j]
    ensures Body(o, w, p).0.results == w.results + Verdicts(o, ran)
  {
    var a := Coverage(o, w).0;
    assert a.results == w.results && a.steps == w.steps + 2;
    var b := Phases(o, a, p.phases, p.services).0;
    var c := Gates(o, b, p.gates).0;
    hide Phases, Gates, Rows;
    PhasesPass(o, a, p.phases, p.services);
    PhasesReport(o, a, p.phases, p.services);
    ready := GatesPass(o, b, p.gates);
    GatesReport(o, b, p.gates);
    ran := RowsRun(o, c, p.rows);
  }
}
