/**
 The background task that builds the configured sink, attaches it once and probes it every interval.

 A cycle of the prober meets the outside world up to three times: it may build the sink, it waits for the
 sink's lock, and it probes. `Cycle` says how each of those would go and how long it would take; the prober
 decides which of them happen.
 */
module SinkProbe {
  import opened Common
  import opened FailureLog

  type Kind(==, !new)

  datatype Sink = Sink(id: nat, kind: Kind)

  datatype Build = Built(sink: Sink) | Failed(hint: Option<Kind>, detail: string) | BuildPanics

  datatype Answer = Reached | Refused(message: string) | TimedOut | ProbePanics

  datatype Cycle = Cycle(build: Build, buildTime: real, locked: bool, lockTime: real, answer: Answer, answerTime: real)

  /** The probe timeout, and the message a timed-out probe leaves behind. */
  datatype Config = Config(timeout: real, timedOut: string)

  /** The slot, the cached reachability, the two probe counters, how often a build was attempted, the failure
      log with the number of warnings it has written, and the time it has spent. */
  datatype Task = Task(
    slot: Option<Sink>,
    reachable: bool,
    lastError: Option<string>,
    sinkType: Option<Kind>,
    ticks: nat,
    successes: nat,
    failures: nat,
    builds: nat,
    log: Log,
    warnings: nat,
    clock: real)

  const IDLE := Task(None, false, None, None, 0, 0, 0, 0, FRESH, 0, 0.0)

  function ConstructionError(detail: string): string { "sink construction failed: " + detail }

  /** An await under `timeout` takes no longer than the timeout. */
  function Bounded(time: real, timeout: real): (spent: real)
    ensures 0.0 <= time <= timeout ==> spent == time
    ensures 0.0 <= timeout <= time ==> spent == timeout
  {
    if time <= 0.0 || timeout <= 0.0 then 0.0 else if time <= timeout then time else timeout
  }

  function Waited(t: Task, time: real, cfg: Config): Task { t.(clock := t.clock + Bounded(time, cfg.timeout)) }

  function Succeed(t: Task): Task { t.(reachable := true, lastError := None, successes := t.successes + 1) }

  function Fail(t: Task, message: string): Task {
    t.(reachable := false, lastError := Some(message), failures := t.failures + 1)
  }

  function Probe(t: Task, c: Cycle, cfg: Config): Task {
    var waiting := Waited(t, c.lockTime, cfg);
    if !c.locked then waiting
    else
      var asked := Waited(waiting, c.answerTime, cfg);
      match c.answer
      case Reached => Succeed(asked)
      case Refused(message) => Fail(asked, message)
      case TimedOut => Fail(asked, cfg.timedOut)
      case ProbePanics => asked
  }

  /** A build begun, and the time it takes. */
  function Attempted(t: Task, c: Cycle, cfg: Config): Task { Waited(t.(builds := t.builds + 1), c.buildTime, cfg) }

  function BuildFailed(t: Task, hint: Option<Kind>, detail: string): Task {
    var told := t.(
      log := Noted(t.log, detail),
      warnings := t.warnings + (if Loudness(t.log, detail) == Warn then 1 else 0),
      sinkType := if hint.Some? then hint else t.sinkType);
    Fail(told, ConstructionError(detail))
  }

  /** One cycle: tick, build if nothing is attached, and probe what is. */
  function Step(t: Task, c: Cycle, cfg: Config): Task {
    var ticked := t.(ticks := t.ticks + 1);
    if t.slot.Some? then Probe(ticked, c, cfg)
    else
      var built := Attempted(ticked, c, cfg);
      match c.build
      case Built(sink) => Probe(built.(slot := Some(sink), sinkType := Some(sink.kind)), c, cfg)
      case Failed(hint, detail) => BuildFailed(built, hint, detail)
      case BuildPanics => built
  }

  function Run(t: Task, cycles: seq<Cycle>, cfg: Config): Task {
    if cycles == [] then t else Step(Run(t, cycles[..|cycles| - 1], cfg), cycles[|cycles| - 1], cfg)
  }

  predicate Panics(t: Task, c: Cycle) {
    if t.slot.None? && !c.build.Built? then c.build.BuildPanics? else c.locked && c.answer.ProbePanics?
  }

  /** The task's state as the source keeps it, updated in place. */
  class Prober {
    var slot: Option<Sink>
    var reachable: bool
    var lastError: Option<string>
    var sinkType: Option<Kind>
    var ticks: nat
    var successes: nat
    var failures: nat
    var builds: nat
    const log: ConstructionFailures
    var warnings: nat
    var clock: real

    constructor ()
      ensures Value() == IDLE && fresh(log)
    {
      slot, reachable, lastError, sinkType := None, false, None, None;
      ticks, successes, failures, builds, warnings, clock := 0, 0, 0, 0, 0, 0.0;
      log := new ConstructionFailures();
    }

    ghost function Value(): Task
      reads this, log
    {
      Task(slot, reachable, lastError, sinkType, ticks, successes, failures, builds, log.Value(), warnings, clock)
    }

    method Wait(time: real, cfg: Config)
      modifies `clock
      ensures clock == old(clock) + Bounded(time, cfg.timeout)
    {
      clock := clock + Bounded(time, cfg.timeout);
    }

    method RecordTick()
      modifies `ticks
      ensures ticks == old(ticks) + 1
    {
      ticks := ticks + 1;
    }

    method RecordSuccess()
      modifies this
      ensures Value() == Succeed(old(Value()))
    {
      reachable := true;
      lastError := None;
      successes := successes + 1;
    }

    method RecordFailure(message: string)
      modifies this
      ensures Value() == Fail(old(Value()), message)
    {
      reachable := false;
      lastError := Some(message);
      failures := failures + 1;
    }

    /** A write-once cell: attaching over an attached sink changes nothing. */
    method Attach(sink: Sink)
      modifies `slot
      ensures slot == if old(slot).Some? then old(slot) else Some(sink)
    {
      if slot.None? { slot := Some(sink); }
    }

    method RunProbe(c: Cycle, cfg: Config) returns (panicked: bool)
      modifies this
      ensures Value() == Probe(old(Value()), c, cfg)
      ensures panicked == (c.locked && c.answer.ProbePanics?)
    {
      Wait(c.lockTime, cfg);
      if !c.locked { return false; }
      Wait(c.answerTime, cfg);
      match c.answer {
        case Reached => RecordSuccess();
        case Refused(message) => RecordFailure(message);
        case TimedOut => RecordFailure(cfg.timedOut);
        case ProbePanics => return true;
      }
      return false;
    }

    method RetryConstruction(c: Cycle, cfg: Config) returns (sink: Option<Sink>, panicked: bool)
      modifies this, log
      ensures panicked == c.build.BuildPanics?
      ensures sink == if c.build.Built? then Some(c.build.sink) else None
      ensures var built := Attempted(old(Value()), c, cfg);
              Value() == match c.build
                         case Built(s) => built.(sinkType := Some(s.kind))
                         case Failed(hint, detail) => BuildFailed(built, hint, detail)
                         case BuildPanics => built
    {
      builds := builds + 1;
      Wait(c.buildTime, cfg);
      sink, panicked := None, false;
      match c.build {
        case Built(s) =>
          sinkType := Some(s.kind);
          sink := Some(s);
        case Failed(hint, detail) =>
          var volume := log.Observe(detail);
          if volume == Warn { warnings := warnings + 1; }
          if hint.Some? { sinkType := hint; }
          RecordFailure(ConstructionError(detail));
        case BuildPanics => panicked := true;
      }
    }

    /** What is known of the sink while building it fails, and the failure logged. */
    method ConstructionFailed(hint: Option<Kind>, detail: string)
      requires !reachable && sinkType.None?
      modifies this, log
      ensures Value() == BuildFailed(old(Value()), hint, detail)
    {
      var volume := log.Observe(detail);
      if volume == Warn { warnings := warnings + 1; }
      failures := failures + 1;
      sinkType, lastError := hint, Some(ConstructionError(detail));
    }

    method ProbeTick(c: Cycle, cfg: Config) returns (panicked: bool)
      modifies this, log
      ensures Value() == Step(old(Value()), c, cfg)
      ensures panicked == Panics(old(Value()), c)
    {
      hide Probe, BuildFailed;
      RecordTick();
      if slot.None? {
        var sink;
        sink, panicked := RetryConstruction(c, cfg);
        if sink.None? { return; }
        Attach(sink.value);
      }
      panicked := RunProbe(c, cfg);
    }

    /** The task's loop: a panicking tick is caught and the next tick follows. */
    method RunTask(cycles: seq<Cycle>, cfg: Config)
      modifies this, log
      ensures Value() == Run(old(Value()), cycles, cfg)
    {
      for i := 0 to |cycles|
        invariant Value() == Run(old(Value()), cycles[..i], cfg)
      {
        assert cycles[..i + 1][..i] == cycles[..i];
        var panicked := ProbeTick(cycles[i], cfg);
      }
      assert cycles[..|cycles|] == cycles;
    }
  }

  lemma ProbeKeepsTicks(t: Task, c: Cycle, cfg: Config, n: nat)
    ensures Probe(t.(ticks := n), c, cfg) == Probe(t, c, cfg).(ticks := n) && Probe(t, c, cfg).ticks == t.ticks
  {
  }

  /** Startup runs the first cycle itself, outside any guard, and stamps its tick last; a panic there
      leaves no task at all. */
  method SpawnSinkProbe(c: Cycle, cfg: Config) returns (prober: Prober?)
    ensures prober == null <==> Panics(IDLE, c)
    ensures prober != null ==> prober.Value() == Step(IDLE, c, cfg)
  {
    hide Probe;
    prober := new Prober();
    prober.builds := 1;
    prober.Wait(c.buildTime, cfg);
    match c.build {
      case Built(sink) =>
        prober.sinkType := Some(sink.kind);
        prober.Attach(sink);
        ProbeKeepsTicks(prober.Value(), c, cfg, 1);
        var panicked := prober.RunProbe(c, cfg);
        if panicked { return null; }
      case Failed(hint, detail) => prober.ConstructionFailed(hint, detail);
      case BuildPanics => return null;
    }
    prober.RecordTick();
  }
}
