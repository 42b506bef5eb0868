/** What a run of the harness reports, and the one way it fails to. */
module RunReports {
  import opened Common
  import opened RunBudget
  import opened HarnessRun

  /** What a part of the run added to the report: nothing, or one failure as the last thing. */
  predicate EndsInFailure(before: seq<bool>, after: seq<bool>) { after == before + [false] }

  // ----- nothing but an ending reports -----

  lemma {:induction false} PollReportsNothing(o: Oracle, w: World, deadline: real, interval: real, ceiling: real)
    requires interval > 0.0
    ensures Poll(o, w, deadline, interval, ceiling).0.results == w.results
    ensures !Poll(o, w, deadline, interval, ceiling).1.Raised?
    decreases SleepsLeft(deadline - w.clock, interval)
  {
    var (tried, signal) := Act(o, w, ceiling);
    if !signal.Interrupted? && signal != Done(true) && tried.clock < deadline
       && !Act(o, tried, interval).1.Interrupted? {
      SleepShortens(deadline - w.clock, deadline - Slept(o, tried, interval).clock, interval);
      PollReportsNothing(o, Slept(o, tried, interval), deadline, interval, ceiling);
    }
  }

  lemma {:induction false} TailsReportNothing(o: Oracle, w: World, deadline: real, services: nat)
    ensures Tails(o, w, deadline, services).0.results == w.results
    decreases services
  {
    if services > 0 {
      TailsReportNothing(o, w, deadline, services - 1);
      TailsReportNothing(o, Act(o, w, deadline - w.clock).0, deadline, services - 1);
    }
  }

  lemma SnapshotReports(o: Oracle, w: World, services: nat, after: Flow)
    ensures var (r, flow) := SnapshotThen(o, w, services, after);
            var cut := Capture(o, w, services, DIAGNOSTIC_BUDGET_S).1.Interrupted?;
            && flow == (if cut then KeyboardInterrupt else after)
            && r.results == (if cut || after == Continue then w.results else w.results + [false])
  {
    var listed := Act(o, Note(w, Snapshot), Min(COMPOSE_PS_TIMEOUT_S, Max(0.0, DIAGNOSTIC_BUDGET_S))).0;
    TailsReportNothing(o, listed, w.clock + DIAGNOSTIC_BUDGET_S, services);
  }

  /** A part that ends the run for good has reported one failure; one that does not has reported none. */
  predicate Reports(w: World, r: (World, Flow)) {
    if r.1 == Return || r.1 == HarnessInterrupt then EndsInFailure(w.results, r.0.results)
    else r.0.results == w.results
  }

  lemma PhaseReports(o: Oracle, w: World, budget: real, services: nat)
    ensures Reports(w, OnePhase(o, w, budget, services))
  {
    SnapshotReports(o, Act(o, w, budget).0, services, Return);
  }

  lemma {:induction false} PhasesReport(o: Oracle, w: World, phases: seq<real>, services: nat)
    ensures Reports(w, Phases(o, w, phases, services))
    decreases |phases|
  {
    if phases != [] {
      PhaseReports(o, w, phases[0], services);
      PhasesReport(o, OnePhase(o, w, phases[0], services).0, phases[1..], services);
    }
  }

  lemma GateReports(o: Oracle, w: World, ceiling: real)
    ensures Reports(w, OneGate(o, w, ceiling))
  {
    var m := Pause(o, w).0;
    PollReportsNothing(o, m, m.clock + READINESS_TIMEOUT_S, READINESS_POLL_INTERVAL_S, ceiling);
    SnapshotReports(o, Poll(o, m, m.clock + READINESS_TIMEOUT_S, READINESS_POLL_INTERVAL_S, ceiling).0, 1, Return);
  }

  lemma {:induction false} GatesReport(o: Oracle, w: World, gates: seq<real>)
    ensures Reports(w, Gates(o, w, gates))
    decreases |gates|
  {
    if gates != [] {
      GateReports(o, w, gates[0]);
      GatesReport(o, OneGate(o, w, gates[0]).0, gates[1..]);
    }
  }

  // ----- rows -----

  /** A row that runs to its end reports its own verdict, and only what it did decides it. */
  lemma RowReports(o: Oracle, w: World, row: Row)
    ensures var (r, flow) := OneRow(o, w, row);
            && flow != Return
            && (flow == HarnessInterrupt ==> EndsInFailure(w.results, r.results))
            && (flow == Continue ==> r.results == w.results + [o(w.steps + 1).signal == Done(true)])
            && (flow == KeyboardInterrupt || flow == Crash ==> r.results == w.results)
  {
    var m := Pause(o, w).0;
    var n := Act(o, m, row.budget).0;
    SnapshotReports(o, n, row.containers, HarnessInterrupt);
    SnapshotReports(o, n, row.containers, Continue);
  }

  /** The rows that ran to their end, and the failure that ended the run if one did. */
  lemma {:induction false} RowsReport(o: Oracle, w: World, rows: seq<Row>) returns (verdicts: seq<bool>)
    ensures var (r, flow) := Rows(o, w, rows);
            && flow != Return
            && r.results == w.results + verdicts + (if flow == HarnessInterrupt then [false] else [])
            && |verdicts| <= |rows| && (flow == Continue ==> |verdicts| == |rows|)
    decreases |rows|
  {
    hide OneRow;
    verdicts := [];
    if rows != [] {
      RowReports(o, w, rows[0]);
      var (m, flow) := OneRow(o, w, rows[0]);
      if flow == Continue {
        var rest := RowsReport(o, m, rows[1..]);
        verdicts := [o(w.steps + 1).signal == Done(true)] + rest;
      }
    }
  }

  // ----- the whole run -----

  lemma CoverageReports(o: Oracle, w: World)
    ensures Reports(w, Coverage(o, w)) && Coverage(o, w).1 != HarnessInterrupt
  {
  }

  lemma BodyReports(o: Oracle, w: World, p: Plan) returns (verdicts: seq<bool>)
    ensures var (r, flow) := Body(o, w, p);
            && r.results == w.results + verdicts + (if flow == Return || flow == HarnessInterrupt then [false] else [])
            && |verdicts| <= |p.rows| && (flow == Continue ==> |verdicts| == |p.rows|)
  {
    hide Coverage, Phases, Gates, Rows;
    CoverageReports(o, w);
    var (a, covered) := Coverage(o, w);
    PhasesReport(o, a, p.phases, p.services);
    var (b, started) := Phases(o, a, p.phases, p.services);
    GatesReport(o, b, p.gates);
    var (c, ready) := Gates(o, b, p.gates);
    verdicts := [];
    if covered == Continue && started == Continue && ready == Continue {
      verdicts := RowsReport(o, c, p.rows);
    }
  }

  /** A Ctrl-C arrives while the last handler takes its snapshot. */
  predicate SnapshotCut(o: Oracle, w: World, p: Plan) {
    var (body, ended) := Body(o, w, p);
    (ended == KeyboardInterrupt || ended == Crash) && Capture(o, body, p.services, DIAGNOSTIC_BUDGET_S).1.Interrupted?
  }

  /** One of the lines the tear-down prints cannot be printed: the first one, or the warning after a
      `compose down` that did not succeed. */
  predicate PrintCut(o: Oracle, w: World, p: Plan) {
    var (body, ended) := Body(o, w, p);
    var (announced, raised) := Pause(o, Handle(o, body, ended, p.services).0);
    || raised != Continue
    || (Down(o, announced).1 != Done(true) && Pause(o, Down(o, announced).0).1 != Continue)
  }

  lemma HandleReports(o: Oracle, body: World, ended: Flow, services: nat)
    ensures var (h, after) := Handle(o, body, ended, services);
            var cut := && (ended == KeyboardInterrupt || ended == Crash)
                       && Capture(o, body, services, DIAGNOSTIC_BUDGET_S).1.Interrupted?;
            && (after == KeyboardInterrupt <==> cut) && after != Continue && after != Crash
            && h.results == body.results +
                            (if (ended == KeyboardInterrupt || ended == Crash) && !cut then [false] else [])
  {
    hide Capture, SnapshotThen;
    SnapshotReports(o, body, services, HarnessInterrupt);
    SnapshotReports(o, body, services, Return);
  }

  /** The tear-down reports nothing, and lets out what the run ended with unless a print of its own raises. */
  lemma FinallyReports(o: Oracle, h: World, after: Flow)
    requires after != Continue && after != Crash
    ensures var (r, flow) := Finally(o, h, after);
            var (announced, raised) := Pause(o, h);
            var cut := || raised != Continue
                       || (Down(o, announced).1 != Done(true) && Pause(o, Down(o, announced).0).1 != Continue);
            r.results == h.results && flow != Continue
            && (if cut then flow == KeyboardInterrupt || flow == Crash else flow == after)
  {
  }

  /** A run reports one verdict for each row that ran to its end, all of them if it got through the matrix,
      and one more failure for whatever else ended it. A bare exception takes the place of the report if and
      only if a Ctrl-C cuts the last handler's snapshot short or a line of the tear-down cannot be printed. */
  lemma RunReportsItsVerdicts(o: Oracle, w: World, p: Plan) returns (verdicts: seq<bool>)
    ensures var ended := Body(o, w, p).1;
            var (r, flow) := Run(o, w, p);
            && flow != Continue
            && (flow == KeyboardInterrupt || flow == Crash <==> SnapshotCut(o, w, p) || PrintCut(o, w, p))
            && |verdicts| <= |p.rows| && (ended == Continue ==> |verdicts| == |p.rows|)
            && r.results == w.results + verdicts + (if ended == Continue || SnapshotCut(o, w, p) then [] else [false])
  {
    hide Body, Capture, Handle, Finally, Pause, Down;
    verdicts := BodyReports(o, w, p);
    var (body, ended) := Body(o, w, p);
    HandleReports(o, body, ended, p.services);
    var (h, after) := Handle(o, body, ended, p.services);
    FinallyReports(o, h, after);
  }
}
