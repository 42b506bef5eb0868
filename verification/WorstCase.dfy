/** The bound `worst_case_run_budget_s` puts on a run, and exactly when it is one. */
module WorstCase {
  import opened Common
  import opened RunBudget
  import opened HarnessRun

  function DiagnosticSnapshots(rows: nat): nat { rows + 1 }

  function Total(budgets: seq<real>): real {
    if budgets == [] then 0.0 else budgets[0] + Total(budgets[1..])
  }

  function GateBudget(ceiling: real): real { READINESS_TIMEOUT_S + READINESS_POLL_INTERVAL_S + ceiling }

  function GateTotal(gates: seq<real>): real {
    if gates == [] then 0.0 else GateBudget(gates[0]) + GateTotal(gates[1..])
  }

  function RowTotal(rows: seq<Row>): real {
    if rows == [] then 0.0 else rows[0].budget + RowTotal(rows[1..])
  }

  function WorstCaseRunBudget(p: Plan): real {
    COMPOSE_CONFIG_TIMEOUT_S + Total(p.phases) + GateTotal(p.gates) + RowTotal(p.rows)
    + DiagnosticSnapshots(|p.rows|) as real * DIAGNOSTIC_BUDGET_S + COMPOSE_DOWN_TIMEOUT_S
  }

  // ----- what each part spends -----

  /** From `w` to `r` the run spent at most `budget` and one diagnostic budget per snapshot it took. */
  predicate Within(w: World, r: World, budget: real, snapshots: nat) {
    && w.clock <= r.clock <= w.clock + budget + snapshots as real * DIAGNOSTIC_BUDGET_S
    && Snapshots(r) == Snapshots(w) + snapshots
    && Quiet(w, r)
  }

  /** Nothing between `w` and `r` tore the stack down. */
  predicate Quiet(w: World, r: World) { TearDowns(r) == TearDowns(w) }

  function TearDowns(w: World): nat { Count(w.events, (e: Event) => e == TearDown) }

  lemma NoteCounts(w: World, event: Event)
    ensures TearDowns(Note(w, event)) == TearDowns(w) + if event == TearDown then 1 else 0
  {
    CountLast(w.events, event, (e: Event) => e == TearDown);
  }

  lemma ActSpends(o: Oracle, w: World, budget: real)
    requires budget >= 0.0
    ensures Within(w, Act(o, w, budget).0, budget, 0)
  {
    NoSnapshot(w, Worked);
    NoteCounts(w, Worked);
  }

  lemma {:induction false} PollIsQuiet(o: Oracle, w: World, deadline: real, interval: real, ceiling: real)
    requires interval > 0.0
    ensures Quiet(w, Poll(o, w, deadline, interval, ceiling).0)
    decreases SleepsLeft(deadline - w.clock, interval)
  {
    var (tried, signal) := Act(o, w, ceiling);
    NoteCounts(w, Worked);
    if !signal.Interrupted? && signal != Done(true) && tried.clock < deadline {
      NoteCounts(tried, Worked);
      if !Act(o, tried, interval).1.Interrupted? {
        SleepShortens(deadline - w.clock, deadline - Slept(o, tried, interval).clock, interval);
        PollIsQuiet(o, Slept(o, tried, interval), deadline, interval, ceiling);
      }
    }
  }

  lemma {:induction false} TailsAreQuiet(o: Oracle, w: World, deadline: real, services: nat)
    ensures Quiet(w, Tails(o, w, deadline, services).0)
    decreases services
  {
    if services > 0 {
      if deadline - w.clock <= 0.0 {
        TailsAreQuiet(o, w, deadline, services - 1);
      } else {
        NoteCounts(w, Worked);
        TailsAreQuiet(o, Act(o, w, deadline - w.clock).0, deadline, services - 1);
      }
    }
  }

  lemma SnapshotSpends(o: Oracle, w: World, services: nat, after: Flow)
    ensures Within(w, SnapshotThen(o, w, services, after).0, 0.0, 1)
    ensures after != Continue ==> SnapshotThen(o, w, services, after).1 != Continue
  {
    CaptureBound(o, w, services, DIAGNOSTIC_BUDGET_S);
    NoteCounts(w, Snapshot);
    NoteCounts(Note(w, Snapshot), Worked);
    TailsAreQuiet(o, Act(o, Note(w, Snapshot), COMPOSE_PS_TIMEOUT_S).0, w.clock + DIAGNOSTIC_BUDGET_S, services);
  }

  lemma Chain(w: World, m: World, r: World, b: real, s: nat, c: real, t: nat)
    requires Within(w, m, b, s) && Within(m, r, c, t)
    ensures Within(w, r, b + c, s + t)
  {
  }

  lemma Slack(w: World, r: World, b: real, c: real, s: nat)
    requires Within(w, r, b, s) && b <= c
    ensures Within(w, r, c, s)
  {
  }

  // ----- the parts of the try body -----

  /** A part that falls through took no snapshot; one that ends the run took at most one. */
  predicate PartSpends(w: World, r: (World, Flow), budget: real) {
    || Within(w, r.0, budget, 0)
    || (Within(w, r.0, budget, 1) && r.1 != Continue)
  }

  lemma PartAfter(w: World, m: World, r: (World, Flow), first: real, rest: real)
    requires Within(w, m, first, 0) && PartSpends(m, r, rest)
    ensures PartSpends(w, r, first + rest)
  {
    if Within(m, r.0, rest, 0) {
      Chain(w, m, r.0, first, 0, rest, 0);
    } else {
      Chain(w, m, r.0, first, 0, rest, 1);
    }
  }

  lemma PartSlack(w: World, r: (World, Flow), b: real, c: real)
    requires PartSpends(w, r, b) && b <= c
    ensures PartSpends(w, r, c)
  {
  }

  lemma TotalNonNegative(budgets: seq<real>)
    requires forall i :: 0 <= i < |budgets| ==> budgets[i] >= 0.0
    ensures Total(budgets) >= 0.0
  {
  }

  lemma GateTotalNonNegative(gates: seq<real>)
    requires forall i :: 0 <= i < |gates| ==> gates[i] >= 0.0
    ensures GateTotal(gates) >= 0.0
  {
  }

  lemma RowTotalNonNegative(rows: seq<Row>)
    requires forall i :: 0 <= i < |rows| ==> rows[i].budget >= 0.0
    ensures RowTotal(rows) >= 0.0
  {
  }

  lemma PhaseSpends(o: Oracle, w: World, budget: real, services: nat)
    requires budget >= 0.0
    ensures PartSpends(w, OnePhase(o, w, budget, services), budget)
  {
    ActSpends(o, w, budget);
    SnapshotSpends(o, Act(o, w, budget).0, services, Return);
  }

  lemma {:induction false} PhasesSpend(o: Oracle, w: World, phases: seq<real>, services: nat)
    requires forall i :: 0 <= i < |phases| ==> phases[i] >= 0.0
    ensures PartSpends(w, Phases(o, w, phases, services), Total(phases))
    decreases |phases|
  {
    if phases != [] {
      TotalNonNegative(phases[1..]);
      PhaseSpends(o, w, phases[0], services);
      var first := OnePhase(o, w, phases[0], services);
      if first.1 == Continue {
        PhasesSpend(o, first.0, phases[1..], services);
        PartAfter(w, first.0, Phases(o, first.0, phases[1..], services), phases[0], Total(phases[1..]));
      } else {
        PartSlack(w, first, phases[0], Total(phases));
      }
    }
  }

  lemma PollSpends(o: Oracle, w: World, ceiling: real)
    requires ceiling >= 0.0
    ensures var r := Poll(o, w, w.clock + READINESS_TIMEOUT_S, READINESS_POLL_INTERVAL_S, ceiling);
            Within(w, r.0, GateBudget(ceiling), 0) && !r.1.Raised?
  {
    PollBound(o, w, w.clock + READINESS_TIMEOUT_S, READINESS_POLL_INTERVAL_S, ceiling);
    PollIsQuiet(o, w, w.clock + READINESS_TIMEOUT_S, READINESS_POLL_INTERVAL_S, ceiling);
  }

  lemma GateSpends(o: Oracle, w: World, ceiling: real)
    requires ceiling >= 0.0
    ensures PartSpends(w, OneGate(o, w, ceiling), GateBudget(ceiling))
  {
    hide Within, Act, Poll, SnapshotThen;
    ActSpends(o, w, 0.0);
    var (m, flow) := Pause(o, w);
    Slack(w, m, 0.0, GateBudget(ceiling), 0);
    PollSpends(o, m, ceiling);
    var n := Poll(o, m, m.clock + READINESS_TIMEOUT_S, READINESS_POLL_INTERVAL_S, ceiling).0;
    Chain(w, m, n, 0.0, 0, GateBudget(ceiling), 0);
    ActSpends(o, n, 0.0);
    Chain(w, n, Act(o, n, 0.0).0, GateBudget(ceiling), 0, 0.0, 0);
    SnapshotSpends(o, n, 1, Return);
    Chain(w, n, SnapshotThen(o, n, 1, Return).0, GateBudget(ceiling), 0, 0.0, 1);
  }

  lemma {:induction false} GatesSpend(o: Oracle, w: World, gates: seq<real>)
    requires forall i :: 0 <= i < |gates| ==> gates[i] >= 0.0
    ensures PartSpends(w, Gates(o, w, gates), GateTotal(gates))
    decreases |gates|
  {
    if gates != [] {
      GateTotalNonNegative(gates[1..]);
      GateSpends(o, w, gates[0]);
      var first := OneGate(o, w, gates[0]);
      if first.1 == Continue {
        GatesSpend(o, first.0, gates[1..]);
        PartAfter(w, first.0, Gates(o, first.0, gates[1..]), GateBudget(gates[0]), GateTotal(gates[1..]));
      } else {
        PartSlack(w, first, GateBudget(gates[0]), GateTotal(gates));
      }
    }
  }

  lemma RowSpends(o: Oracle, w: World, row: Row)
    requires row.budget >= 0.0
    ensures var r := OneRow(o, w, row).0; Within(w, r, row.budget, 0) || Within(w, r, row.budget, 1)
  {
    hide Within, Act, SnapshotThen;
    ActSpends(o, w, 0.0);
    var m := Pause(o, w).0;
    Slack(w, m, 0.0, row.budget, 0);
    ActSpends(o, m, row.budget);
    var n := Act(o, m, row.budget).0;
    Chain(w, m, n, 0.0, 0, row.budget, 0);
    ActSpends(o, n, 0.0);
    Chain(w, n, Act(o, n, 0.0).0, row.budget, 0, 0.0, 0);
    SnapshotSpends(o, n, row.containers, HarnessInterrupt);
    Chain(w, n, SnapshotThen(o, n, row.containers, HarnessInterrupt).0, row.budget, 0, 0.0, 1);
    SnapshotSpends(o, n, row.containers, Continue);
    var taken := SnapshotThen(o, n, row.containers, Continue).0;
    Chain(w, n, taken, row.budget, 0, 0.0, 1);
    ActSpends(o, taken, 0.0);
    Chain(w, taken, Act(o, taken, 0.0).0, row.budget, 1, 0.0, 0);
    forall r: World, ok: bool, s: nat ensures Within(w, r, row.budget, s) ==> Within(w, Report(r, ok), row.budget, s) {
      ReportSpends(w, r, ok, row.budget, s);
    }
  }

  lemma ReportSpends(w: World, r: World, ok: bool, budget: real, s: nat)
    ensures Within(w, r, budget, s) ==> Within(w, Report(r, ok), budget, s)
  {
  }

  lemma {:induction false} RowsSpend(o: Oracle, w: World, rows: seq<Row>) returns (taken: nat)
    requires forall i :: 0 <= i < |rows| ==> rows[i].budget >= 0.0
    ensures Within(w, Rows(o, w, rows).0, RowTotal(rows), taken) && taken <= |rows|
    decreases |rows|
  {
    if rows == [] {
      taken := 0;
    } else {
      RowTotalNonNegative(rows[1..]);
      RowSpends(o, w, rows[0]);
      var (m, flow) := OneRow(o, w, rows[0]);
      var first: nat := if Within(w, m, rows[0].budget, 0) then 0 else 1;
      taken := first;
      if flow == Continue {
        var rest := RowsSpend(o, m, rows[1..]);
        Chain(w, m, Rows(o, m, rows[1..]).0, rows[0].budget, first, RowTotal(rows[1..]), rest);
        taken := first + rest;
      } else {
        Slack(w, m, rows[0].budget, RowTotal(rows), first);
      }
    }
  }

  // ----- the whole run -----

  lemma CoverageSpends(o: Oracle, w: World)
    ensures Within(w, Coverage(o, w).0, COMPOSE_CONFIG_TIMEOUT_S, 0)
  {
    ActSpends(o, w, COMPOSE_CONFIG_TIMEOUT_S);
    ActSpends(o, Act(o, w, COMPOSE_CONFIG_TIMEOUT_S).0, 0.0);
  }

  function BodyBudget(p: Plan): real {
    COMPOSE_CONFIG_TIMEOUT_S + Total(p.phases) + GateTotal(p.gates) + RowTotal(p.rows)
  }

  /** The body takes at most one snapshot a row, or one where it never reaches the rows. */
  lemma BodySpends(o: Oracle, w: World, p: Plan) returns (taken: nat)
    requires Valid(p)
    ensures Within(w, Body(o, w, p).0, BodyBudget(p), taken)
    ensures taken <= |p.rows| || taken == 1
  {
    TotalNonNegative(p.phases);
    GateTotalNonNegative(p.gates);
    RowTotalNonNegative(p.rows);
    CoverageSpends(o, w);
    var (a, covered) := Coverage(o, w);
    taken := 0;
    if covered == Continue {
      PhasesSpend(o, a, p.phases, p.services);
      var b := Phases(o, a, p.phases, p.services);
      PartAfter(w, a, b, COMPOSE_CONFIG_TIMEOUT_S, Total(p.phases));
      if b.1 == Continue {
        taken := AfterPhases(o, w, b.0, p);
      } else {
        taken := if Within(w, b.0, COMPOSE_CONFIG_TIMEOUT_S + Total(p.phases), 0) then 0 else 1;
        Slack(w, b.0, COMPOSE_CONFIG_TIMEOUT_S + Total(p.phases), BodyBudget(p), taken);
      }
    } else {
      Slack(w, a, COMPOSE_CONFIG_TIMEOUT_S, BodyBudget(p), 0);
    }
  }

  lemma AfterPhases(o: Oracle, w: World, b: World, p: Plan) returns (taken: nat)
    requires Valid(p) && Within(w, b, COMPOSE_CONFIG_TIMEOUT_S + Total(p.phases), 0)
    ensures var (g, flow) := Gates(o, b, p.gates);
            Within(w, if flow != Continue then g else Rows(o, g, p.rows).0, BodyBudget(p), taken)
    ensures taken <= |p.rows| || taken == 1
  {
    RowTotalNonNegative(p.rows);
    var spent := COMPOSE_CONFIG_TIMEOUT_S + Total(p.phases);
    GatesSpend(o, b, p.gates);
    var g := Gates(o, b, p.gates);
    PartAfter(w, b, g, spent, GateTotal(p.gates));
    if g.1 == Continue {
      taken := RowsSpend(o, g.0, p.rows);
      Chain(w, g.0, Rows(o, g.0, p.rows).0, spent + GateTotal(p.gates), 0, RowTotal(p.rows), taken);
    } else {
      taken := if Within(w, g.0, spent + GateTotal(p.gates), 0) then 0 else 1;
      Slack(w, g.0, spent + GateTotal(p.gates), BodyBudget(p), taken);
    }
  }

  lemma HandleSpends(o: Oracle, w: World, flow: Flow, services: nat) returns (taken: nat)
    ensures Within(w, Handle(o, w, flow, services).0, 0.0, taken) && taken <= 1
  {
    SnapshotSpends(o, w, services, HarnessInterrupt);
    SnapshotSpends(o, w, services, Return);
    taken := if flow == KeyboardInterrupt || flow == Crash then 1 else 0;
  }

  /** The line the tear-down announces itself with was printed. */
  predicate Announced(o: Oracle, w: World, p: Plan) {
    var (body, flow) := Body(o, w, p);
    Pause(o, Handle(o, body, flow, p.services).0).1 == Continue
  }

  /** `r` is `h` with one printed line and, if that was printed, one `compose down` and at most one more. */
  predicate EndsRun(h: World, r: World, reached: bool) {
    if reached then r.events == h.events + [Worked, TearDown] || r.events == h.events + [Worked, TearDown, Worked]
    else r.events == h.events + [Worked]
  }

  lemma FinallySpends(o: Oracle, h: World, flow: Flow)
    ensures var r, reached := Finally(o, h, flow).0, Pause(o, h).1 == Continue;
            && h.clock <= r.clock <= h.clock + COMPOSE_DOWN_TIMEOUT_S && Snapshots(r) == Snapshots(h)
            && TearDowns(r) == TearDowns(h) + (if reached then 1 else 0)
            && EndsRun(h, r, reached)
  {
    var announced := Pause(o, h).0;
    NoSnapshot(h, Worked);
    NoteCounts(h, Worked);
    var down := Down(o, announced).0;
    NoSnapshot(announced, TearDown);
    NoteCounts(announced, TearDown);
    NoSnapshot(down, Worked);
    NoteCounts(down, Worked);
  }

  /** Whatever the plan, a run spends its budgets and one diagnostic budget per snapshot, and takes at most
      one snapshot a row and one more, or two. It brings the stack down at most once, after everything else,
      and does so if and only if the line announcing it was printed. */
  lemma RunSpends(o: Oracle, w: World, p: Plan) returns (taken: nat)
    requires Valid(p)
    ensures var r := Run(o, w, p).0;
            && w.clock <= r.clock <= w.clock + BodyBudget(p) + taken as real * DIAGNOSTIC_BUDGET_S
                                     + COMPOSE_DOWN_TIMEOUT_S
            && Snapshots(r) == Snapshots(w) + taken
            && (taken <= DiagnosticSnapshots(|p.rows|) || taken == 2)
            && TearDowns(r) == TearDowns(w) + (if Announced(o, w, p) then 1 else 0)
            && var (body, flow) := Body(o, w, p);
               EndsRun(Handle(o, body, flow, p.services).0, r, Announced(o, w, p))
  {
    hide Body, Handle, Finally;
    var inBody := BodySpends(o, w, p);
    var (b, flow) := Body(o, w, p);
    var inHandler := HandleSpends(o, b, flow, p.services);
    var (h, after) := Handle(o, b, flow, p.services);
    Chain(w, b, h, BodyBudget(p), inBody, 0.0, inHandler);
    FinallySpends(o, h, after);
    taken := inBody + inHandler;
  }

  predicate SnapshotsFit(o: Oracle, p: Plan, w: World) {
    Snapshots(Run(o, w, p).0) - Snapshots(w) <= DiagnosticSnapshots(|p.rows|)
  }

  lemma DiagnosticsScale(taken: nat, allowed: nat)
    requires taken <= allowed
    ensures taken as real * DIAGNOSTIC_BUDGET_S <= allowed as real * DIAGNOSTIC_BUDGET_S
  {
  }

  /** With at least one row, no run outlasts the worst case or takes more snapshots than it charges for. */
  lemma RunStaysWithinWorstCase(o: Oracle, p: Plan, w: World)
    requires Valid(p) && p.rows != []
    ensures SnapshotsFit(o, p, w)
    ensures w.clock <= Run(o, w, p).0.clock <= w.clock + WorstCaseRunBudget(p)
  {
    var taken := RunSpends(o, w, p);
    DiagnosticsScale(taken, DiagnosticSnapshots(|p.rows|));
  }

  // ----- an empty matrix -----

  /** The first startup phase fails, and a Ctrl-C lands at step `at`, while its snapshot is taken; every
      operation takes as long as it may. */
  function Interrupting(w: World, at: nat): Oracle {
    (n: nat) => Reaction(1000.0, if n == w.steps + 2 then Done(false) else if n == at then Interrupted else Done(true))
  }

  lemma InterruptedBody(p: Plan, w: World) returns (c: World)
    requires p.phases != []
    ensures var o := Interrupting(w, w.steps + 3);
            Body(o, w, p) == SnapshotThen(o, c, p.services, Return) && Body(o, w, p).1 == KeyboardInterrupt
    ensures Snapshots(c) == Snapshots(w)
  {
    var o := Interrupting(w, w.steps + 3);
    var a := Act(o, w, COMPOSE_CONFIG_TIMEOUT_S).0;
    var b := Act(o, a, 0.0).0;
    assert Coverage(o, w) == (b, Continue);
    c := Act(o, b, p.phases[0]).0;
    assert OnePhase(o, b, p.phases[0], p.services) == SnapshotThen(o, c, p.services, Return);
    NoSnapshot(w, Worked);
    NoSnapshot(a, Worked);
    NoSnapshot(b, Worked);
  }

  lemma SecondSnapshot(p: Plan, w: World)
    requires p.phases != []
    ensures Snapshots(Run(Interrupting(w, w.steps + 3), w, p).0) == Snapshots(w) + 2
  {
    hide Body, SnapshotThen, Interrupting, Finally;
    var o := Interrupting(w, w.steps + 3);
    var c := InterruptedBody(p, w);
    var d := SnapshotThen(o, c, p.services, Return);
    SnapshotSpends(o, c, p.services, Return);
    SnapshotSpends(o, d.0, p.services, HarnessInterrupt);
    var h := SnapshotThen(o, d.0, p.services, HarnessInterrupt);
    FinallySpends(o, h.0, h.1);
  }

  /** Every plan has startup phases. Its runs all stay within `row_count + 1` snapshots exactly when it has
      a row: with none, a Ctrl-C during a failed phase's snapshot takes a second one. */
  lemma SnapshotBoundExact(p: Plan, w: World)
    requires Valid(p) && p.phases != []
    ensures (forall o: Oracle :: SnapshotsFit(o, p, w)) <==> p.rows != []
  {
    if p.rows == [] {
      SecondSnapshot(p, w);
      assert !SnapshotsFit(Interrupting(w, w.steps + 3), p, w);
    } else {
      forall o: Oracle ensures SnapshotsFit(o, p, w) { RunStaysWithinWorstCase(o, p, w); }
    }
  }

  // ----- every failure leaves evidence -----

  /** A part that returned, or raised what the handlers let through, took a snapshot first. */
  predicate Evidence(w: World, r: (World, Flow)) {
    && Snapshots(r.0) >= Snapshots(w)
    && (r.1 == Return || r.1 == HarnessInterrupt ==> Snapshots(r.0) > Snapshots(w))
  }

  lemma ActTakesNone(o: Oracle, w: World, budget: real)
    ensures Snapshots(Act(o, w, budget).0) == Snapshots(w)
  {
    NoSnapshot(w, Worked);
  }

  lemma ReportTakesNone(w: World, ok: bool)
    ensures Snapshots(Report(w, ok)) == Snapshots(w)
  {
  }

  lemma PollTakesNone(o: Oracle, w: World, ceiling: real)
    requires ceiling >= 0.0
    ensures var r := Poll(o, w, w.clock + READINESS_TIMEOUT_S, READINESS_POLL_INTERVAL_S, ceiling);
            Snapshots(r.0) == Snapshots(w) && !r.1.Raised?
  {
    PollSpends(o, w, ceiling);
  }

  lemma SnapshotTakesOne(o: Oracle, w: World, services: nat, after: Flow)
    ensures Snapshots(SnapshotThen(o, w, services, after).0) == Snapshots(w) + 1
  {
    SnapshotSpends(o, w, services, after);
  }

  lemma PhaseEvidence(o: Oracle, w: World, budget: real, services: nat)
    ensures Evidence(w, OnePhase(o, w, budget, services))
  {
    hide Snapshots, Act, SnapshotThen;
    ActTakesNone(o, w, budget);
    SnapshotTakesOne(o, Act(o, w, budget).0, services, Return);
  }

  lemma {:induction false} PhasesEvidence(o: Oracle, w: World, phases: seq<real>, services: nat)
    ensures Evidence(w, Phases(o, w, phases, services))
    decreases |phases|
  {
    if phases != [] {
      PhaseEvidence(o, w, phases[0], services);
      PhasesEvidence(o, OnePhase(o, w, phases[0], services).0, phases[1..], services);
    }
  }

  lemma GateEvidence(o: Oracle, w: World, ceiling: real)
    requires ceiling >= 0.0
    ensures Evidence(w, OneGate(o, w, ceiling))
  {
    hide Snapshots, Act, Poll, SnapshotThen;
    ActTakesNone(o, w, 0.0);
    var (m, flow) := Pause(o, w);
    PollTakesNone(o, m, ceiling);
    var n := Poll(o, m, m.clock + READINESS_TIMEOUT_S, READINESS_POLL_INTERVAL_S, ceiling).0;
    ActTakesNone(o, n, 0.0);
    SnapshotTakesOne(o, n, 1, Return);
  }

  lemma {:induction false} GatesEvidence(o: Oracle, w: World, gates: seq<real>)
    requires forall i :: 0 <= i < |gates| ==> gates[i] >= 0.0
    ensures Evidence(w, Gates(o, w, gates))
    decreases |gates|
  {
    if gates != [] {
      GateEvidence(o, w, gates[0]);
      GatesEvidence(o, OneGate(o, w, gates[0]).0, gates[1..]);
    }
  }

  lemma RowEvidence(o: Oracle, w: World, row: Row)
    ensures Evidence(w, OneRow(o, w, row))
  {
    hide Snapshots, Act, SnapshotThen;
    ActTakesNone(o, w, 0.0);
    var m := Pause(o, w).0;
    ActTakesNone(o, m, row.budget);
    var n := Act(o, m, row.budget).0;
    SnapshotTakesOne(o, n, row.containers, HarnessInterrupt);
    SnapshotTakesOne(o, n, row.containers, Continue);
    ActTakesNone(o, n, 0.0);
    ReportTakesNone(Act(o, n, 0.0).0, true);
    var taken := SnapshotThen(o, n, row.containers, Continue).0;
    ActTakesNone(o, taken, 0.0);
    ReportTakesNone(Act(o, taken, 0.0).0, false);
  }

  lemma {:induction false} RowsEvidence(o: Oracle, w: World, rows: seq<Row>)
    ensures Evidence(w, Rows(o, w, rows))
    decreases |rows|
  {
    if rows != [] {
      RowEvidence(o, w, rows[0]);
      RowsEvidence(o, OneRow(o, w, rows[0]).0, rows[1..]);
    }
  }

  /** Once the coverage check has passed, a run that does not get through the whole matrix has taken a
      snapshot, however it failed, and before it began to tear down. */
  lemma FailuresLeaveEvidence(o: Oracle, w: World, p: Plan)
    requires Valid(p) && Coverage(o, w).1 == Continue && Body(o, w, p).1 != Continue
    ensures var (body, flow) := Body(o, w, p);
            var h := Handle(o, body, flow, p.services).0;
            Snapshots(h) > Snapshots(w) && EndsRun(h, Run(o, w, p).0, Announced(o, w, p))
  {
    CoverageSpends(o, w);
    var a := Coverage(o, w).0;
    PhasesEvidence(o, a, p.phases, p.services);
    var b := Phases(o, a, p.phases, p.services).0;
    GatesEvidence(o, b, p.gates);
    RowsEvidence(o, Gates(o, b, p.gates).0, p.rows);
    var (c, flow) := Body(o, w, p);
    assert Evidence(w, (c, flow));
    hide Body, SnapshotThen, Finally;
    SnapshotSpends(o, c, p.services, HarnessInterrupt);
    SnapshotSpends(o, c, p.services, Return);
    FinallySpends(o, Handle(o, c, flow, p.services).0, Handle(o, c, flow, p.services).1);
  }
}
