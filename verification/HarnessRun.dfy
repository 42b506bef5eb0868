/**
 `run_all`: coverage check, startup phases, readiness gates, matrix rows, the exception handlers around
 them, and the tear-down in the `finally`.
 */
module HarnessRun {
  import opened Common
  import opened RunBudget

  /** A matrix row: its budget and how many containers it names for diagnostics. */
  datatype Row = Row(budget: real, containers: nat)

  /** What the run is made of: phase budgets, the attempt ceiling behind each gate, rows, and the number of
      services a whole-stack snapshot asks. */
  datatype Plan = Plan(phases: seq<real>, gates: seq<real>, rows: seq<Row>, services: nat)

  /** How a part of the `try` body ends: falls through, returns, or raises one of the three things the
      handlers tell apart. */
  datatype Flow = Continue | Return | HarnessInterrupt | KeyboardInterrupt | Crash

  predicate Valid(p: Plan) {
    && (forall i :: 0 <= i < |p.phases| ==> p.phases[i] >= 0.0)
    && (forall i :: 0 <= i < |p.gates| ==> p.gates[i] >= 0.0)
    && (forall i :: 0 <= i < |p.rows| ==> p.rows[i].budget >= 0.0)
  }

  // ----- the run as a function -----

  /** Code that takes no time of its own, such as a print, and may still raise. */
  function Pause(o: Oracle, w: World): (World, Flow) {
    var (w, signal) := Act(o, w, 0.0);
    (w, match signal case Done(_) => Continue case Raised => Crash case Interrupted => KeyboardInterrupt)
  }

  /** A snapshot, and then `after` unless a Ctrl-C arrives while it is taken. Where the run ends there, the
      failure is reported with it. */
  function SnapshotThen(o: Oracle, w: World, services: nat, after: Flow): (World, Flow) {
    var (w, signal) := Capture(o, w, services, DIAGNOSTIC_BUDGET_S);
    if signal.Interrupted? then (w, KeyboardInterrupt)
    else (if after == Continue then w else Report(w, false), after)
  }

  function OnePhase(o: Oracle, w: World, budget: real, services: nat): (World, Flow) {
    var (w, signal) := Act(o, w, budget);
    match signal
    case Done(ok) => if ok then (w, Continue) else SnapshotThen(o, w, services, Return)
    case Raised => (w, Crash)
    case Interrupted => (w, KeyboardInterrupt)
  }

  function Phases(o: Oracle, w: World, phases: seq<real>, services: nat): (World, Flow)
    decreases |phases|
  {
    if phases == [] then (w, Continue)
    else
      var (w, flow) := OnePhase(o, w, phases[0], services);
      if flow != Continue then (w, flow) else Phases(o, w, phases[1..], services)
  }

  function OneGate(o: Oracle, w: World, ceiling: real): (World, Flow) {
    var (w, flow) := Pause(o, w);
    if flow != Continue then (w, flow)
    else
      var (w, signal) := Poll(o, w, w.clock + READINESS_TIMEOUT_S, READINESS_POLL_INTERVAL_S, ceiling);
      match signal
      case Done(ready) => if ready then Pause(o, w) else SnapshotThen(o, w, 1, Return)
      case Raised => (w, Crash)
      case Interrupted => (w, KeyboardInterrupt)
  }

  function Gates(o: Oracle, w: World, gates: seq<real>): (World, Flow)
    decreases |gates|
  {
    if gates == [] then (w, Continue)
    else
      var (w, flow) := OneGate(o, w, gates[0]);
      if flow != Continue then (w, flow) else Gates(o, w, gates[1..])
  }

  /** One row from its start to the line that reports it. */
  function OneRow(o: Oracle, w: World, row: Row): (World, Flow) {
    var (w, flow) := Pause(o, w);
    if flow != Continue then (w, flow)
    else
      var (w, signal) := Act(o, w, row.budget);
      if signal.Interrupted? then SnapshotThen(o, w, row.containers, HarnessInterrupt)
      else
        var (w, flow) :=
          if signal == Done(true) then (w, Continue) else SnapshotThen(o, w, row.containers, Continue);
        if flow != Continue then (w, flow)
        else
          var (w, flow) := Pause(o, w);
          (if flow == Continue then Report(w, signal == Done(true)) else w, flow)
  }

  function Rows(o: Oracle, w: World, rows: seq<Row>): (World, Flow)
    decreases |rows|
  {
    if rows == [] then (w, Continue)
    else
      var (w, flow) := OneRow(o, w, rows[0]);
      if flow != Continue then (w, flow) else Rows(o, w, rows[1..])
  }

  /** The coverage check; a gap ends the run with nothing to snapshot. */
  function Coverage(o: Oracle, w: World): (World, Flow) {
    var (w, signal) := Act(o, w, COMPOSE_CONFIG_TIMEOUT_S);
    match signal
    case Done(covered) => if covered then Pause(o, w) else (Report(w, false), Return)
    case Raised => (w, Crash)
    case Interrupted => (w, KeyboardInterrupt)
  }

  function Body(o: Oracle, w: World, p: Plan): (World, Flow) {
    var (w, flow) := Coverage(o, w);
    if flow != Continue then (w, flow)
    else
      var (w, flow) := Phases(o, w, p.phases, p.services);
      if flow != Continue then (w, flow)
      else
        var (w, flow) := Gates(o, w, p.gates);
        if flow != Continue then (w, flow) else Rows(o, w, p.rows)
  }

  /** The handlers: what was already reported passes through, anything else owes one more snapshot. */
  function Handle(o: Oracle, w: World, flow: Flow, services: nat): (World, Flow) {
    match flow
    case KeyboardInterrupt => SnapshotThen(o, w, services, HarnessInterrupt)
    case Crash => SnapshotThen(o, w, services, Return)
    case Continue => (w, Return)
    case Return => (w, Return)
    case HarnessInterrupt => (w, HarnessInterrupt)
  }

  /** `compose down`, which its own handlers keep from raising. */
  function Down(o: Oracle, w: World): (World, Signal) {
    var (r, signal) := Act(o, w, COMPOSE_DOWN_TIMEOUT_S);
    (r.(events := w.events + [TearDown]), signal)
  }

  /** The `finally`: a line printed outside any handler, `compose down`, and a warning if it did not succeed.
      What a print raises replaces what the run was about to return or raise. */
  function Finally(o: Oracle, w: World, flow: Flow): (World, Flow) {
    var (announced, raised) := Pause(o, w);
    if raised != Continue then (announced, raised)
    else
      var (down, signal) := Down(o, announced);
      if signal == Done(true) then (down, flow)
      else
        var (warned, raised) := Pause(o, down);
        (warned, if raised == Continue then flow else raised)
  }

  function Run(o: Oracle, w: World, p: Plan): (World, Flow) {
    var (w, flow) := Body(o, w, p);
    var (w, flow) := Handle(o, w, flow, p.services);
    Finally(o, w, flow)
  }

  // ----- run_all with its loops -----

  method RunRow(o: Oracle, start: World, row: Row) returns (w: World, flow: Flow)
    ensures (w, flow) == OneRow(o, start, row)
  {
    w, flow := Pause(o, start).0, Pause(o, start).1;
    if flow != Continue { return; }
    var (ran, signal) := Act(o, w, row.budget);
    w := ran;
    if signal.Interrupted? {
      var caught := signal;
      w, caught := SnapshotFailureState(o, w, row.containers, DIAGNOSTIC_BUDGET_S);
      if caught.Interrupted? { return w, KeyboardInterrupt; }
      return Report(w, false), HarnessInterrupt;
    }
    if signal != Done(true) {
      var taken := signal;
      w, taken := SnapshotFailureState(o, w, row.containers, DIAGNOSTIC_BUDGET_S);
      if taken.Interrupted? { return w, KeyboardInterrupt; }
    }
    w, flow := Pause(o, w).0, Pause(o, w).1;
    if flow == Continue { w := Report(w, signal == Done(true)); }
  }

  method RunStartupPhase(o: Oracle, start: World, budget: real, services: nat) returns (w: World, flow: Flow)
    ensures (w, flow) == OnePhase(o, start, budget, services)
  {
    var (ran, signal) := Act(o, start, budget);
    match signal {
      case Done(true) => return ran, Continue;
      case Done(false) =>
        w, signal := SnapshotFailureState(o, ran, services, DIAGNOSTIC_BUDGET_S);
        if signal.Interrupted? { return w, KeyboardInterrupt; }
        return Report(w, false), Return;
      case Raised => return ran, Crash;
      case Interrupted => return ran, KeyboardInterrupt;
    }
  }

  method RunPhases(o: Oracle, start: World, phases: seq<real>, services: nat) returns (w: World, flow: Flow)
    ensures (w, flow) == Phases(o, start, phases, services)
  {
    w, flow := start, Continue;
    for i := 0 to |phases|
      invariant flow == Continue && Phases(o, start, phases, services) == Phases(o, w, phases[i..], services)
    {
      assert phases[i..][1..] == phases[i + 1..];
      w, flow := RunStartupPhase(o, w, phases[i], services);
      if flow != Continue { return; }
    }
  }

  method WaitForGate(o: Oracle, start: World, ceiling: real) returns (w: World, flow: Flow)
    ensures (w, flow) == OneGate(o, start, ceiling)
  {
    w, flow := Pause(o, start).0, Pause(o, start).1;
    if flow != Continue { return; }
    var signal := Raised;
    w, signal := PollUntil(o, w, READINESS_TIMEOUT_S, READINESS_POLL_INTERVAL_S, ceiling);
    match signal {
      case Done(true) => w, flow := Pause(o, w).0, Pause(o, w).1;
      case Done(false) =>
        w, signal := SnapshotFailureState(o, w, 1, DIAGNOSTIC_BUDGET_S);
        if signal.Interrupted? { return w, KeyboardInterrupt; }
        return Report(w, false), Return;
      case Raised => return w, Crash;
      case Interrupted => return w, KeyboardInterrupt;
    }
  }

  method WaitForGates(o: Oracle, start: World, gates: seq<real>) returns (w: World, flow: Flow)
    ensures (w, flow) == Gates(o, start, gates)
  {
    w, flow := start, Continue;
    for i := 0 to |gates|
      invariant flow == Continue && Gates(o, start, gates) == Gates(o, w, gates[i..])
    {
      assert gates[i..][1..] == gates[i + 1..];
      w, flow := WaitForGate(o, w, gates[i]);
      if flow != Continue { return; }
    }
  }

  method RunRows(o: Oracle, start: World, rows: seq<Row>) returns (w: World, flow: Flow)
    ensures (w, flow) == Rows(o, start, rows)
  {
    w, flow := start, Continue;
    for i := 0 to |rows|
      invariant flow == Continue && Rows(o, start, rows) == Rows(o, w, rows[i..])
    {
      assert rows[i..][1..] == rows[i + 1..];
      w, flow := RunRow(o, w, rows[i]);
      if flow != Continue { return; }
    }
  }

  method TearDownStack(o: Oracle, start: World, flow: Flow) returns (w: World, after: Flow)
    ensures (w, after) == Finally(o, start, flow)
  {
    w, after := Pause(o, start).0, Pause(o, start).1;
    if after != Continue { return; }
    var (down, signal) := Down(o, w);
    w := down;
    if signal != Done(true) {
      w, after := Pause(o, w).0, Pause(o, w).1;
      if after != Continue { return; }
    }
    after := flow;
  }

  method RunAll(o: Oracle, start: World, p: Plan) returns (w: World, flow: Flow)
    ensures (w, flow) == Run(o, start, p)
  {
    w, flow := Coverage(o, start).0, Coverage(o, start).1;
    if flow == Continue { w, flow := RunPhases(o, w, p.phases, p.services); }
    if flow == Continue { w, flow := WaitForGates(o, w, p.gates); }
    if flow == Continue { w, flow := RunRows(o, w, p.rows); }
    if flow == KeyboardInterrupt || flow == Crash {
      var signal := Raised;
      w, signal := SnapshotFailureState(o, w, p.services, DIAGNOSTIC_BUDGET_S);
      if signal.Interrupted? {
        flow := KeyboardInterrupt;
      } else {
        w, flow := Report(w, false), if flow == Crash then Return else HarnessInterrupt;
      }
    } else if flow == Continue {
      flow := Return;
    }
    w, flow := TearDownStack(o, w, flow);
  }
}
