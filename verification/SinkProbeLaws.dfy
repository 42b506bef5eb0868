/** What every run of the sink-probe task keeps, stated from the cycles alone. */
module SinkProbeLaws {
  import opened Common
  import opened FailureLog
  import opened SinkProbe

  // ----- reading a run off its cycles, without the prober's state -----

  /** The sink of the first cycle whose build would succeed. */
  function FirstBuilt(cycles: seq<Cycle>): Option<Sink> {
    if cycles == [] then None
    else
      var earlier := FirstBuilt(cycles[..|cycles| - 1]);
      var last := cycles[|cycles| - 1];
      if earlier.Some? then earlier else if last.build.Built? then Some(last.build.sink) else None
  }

  /** What a cycle reports: a verdict, a lock it never got, or a panic. */
  datatype Report = Success | Failure(message: string) | Skipped | Panicked

  function ProbeReport(c: Cycle, cfg: Config): Report {
    if !c.locked then Skipped
    else match c.answer
         case Reached => Success
         case Refused(message) => Failure(message)
         case TimedOut => Failure(cfg.timedOut)
         case ProbePanics => Panicked
  }

  function CycleReport(attached: bool, c: Cycle, cfg: Config): Report {
    if attached || c.build.Built? then ProbeReport(c, cfg)
    else if c.build.Failed? then Failure(ConstructionError(c.build.detail))
    else Panicked
  }

  function Reports(cycles: seq<Cycle>, cfg: Config): seq<Report> {
    if cycles == [] then []
    else
      var before := cycles[..|cycles| - 1];
      Reports(before, cfg) + [CycleReport(FirstBuilt(before).Some?, cycles[|cycles| - 1], cfg)]
  }

  /** The latest report that is a verdict. */
  function Latest(reports: seq<Report>): Option<Report> {
    if reports == [] then None
    else
      var last := reports[|reports| - 1];
      if last.Success? || last.Failure? then Some(last) else Latest(reports[..|reports| - 1])
  }

  /** The label: the attached sink's kind, or else the latest hint a failed build gave. */
  function Known(cycles: seq<Cycle>): Option<Kind> {
    if cycles == [] then None
    else
      var before, last := cycles[..|cycles| - 1], cycles[|cycles| - 1];
      if FirstBuilt(cycles).Some? then Some(FirstBuilt(cycles).value.kind)
      else if last.build.Failed? && last.build.hint.Some? then last.build.hint
      else Known(before)
  }

  /** The texts of the failed builds, in order. */
  function Details(cycles: seq<Cycle>): seq<string> {
    if cycles == [] then []
    else
      var before, last := cycles[..|cycles| - 1], cycles[|cycles| - 1];
      Details(before) + if FirstBuilt(before).None? && last.build.Failed? then [last.build.detail] else []
  }

  /** How many cycles try to build: those that find nothing attached. */
  function Attempts(cycles: seq<Cycle>): nat {
    if cycles == [] then 0
    else
      var before := cycles[..|cycles| - 1];
      Attempts(before) + if FirstBuilt(before).None? then 1 else 0
  }

  // ----- attaching -----

  lemma {:induction false} AttachesFirstBuilt(cycles: seq<Cycle>, cfg: Config)
    ensures Run(IDLE, cycles, cfg).slot == FirstBuilt(cycles)
  {
    if cycles != [] {
      AttachesFirstBuilt(cycles[..|cycles| - 1], cfg);
    }
  }

  lemma {:induction false} BuildsAreAttempts(cycles: seq<Cycle>, cfg: Config)
    ensures Run(IDLE, cycles, cfg).builds == Attempts(cycles)
  {
    if cycles != [] {
      AttachesFirstBuilt(cycles[..|cycles| - 1], cfg);
      BuildsAreAttempts(cycles[..|cycles| - 1], cfg);
    }
  }

  lemma {:induction false} LabelIsKnown(cycles: seq<Cycle>, cfg: Config)
    ensures Run(IDLE, cycles, cfg).sinkType == Known(cycles)
  {
    if cycles != [] {
      AttachesFirstBuilt(cycles[..|cycles| - 1], cfg);
      LabelIsKnown(cycles[..|cycles| - 1], cfg);
    }
  }

  lemma LastCycle(cycles: seq<Cycle>, more: seq<Cycle>, cfg: Config)
    requires more != []
    ensures Run(IDLE, cycles + more, cfg) == Step(Run(IDLE, cycles + more[..|more| - 1], cfg), more[|more| - 1], cfg)
  {
    assert (cycles + more)[..|cycles + more| - 1] == cycles + more[..|more| - 1];
  }

  /** Once the prober has attached a sink it keeps it: whatever further cycles meet, they neither replace the
      sink, nor attempt another build, nor change the label. */
  lemma {:induction false} AttachedForGood(cycles: seq<Cycle>, more: seq<Cycle>, cfg: Config)
    requires Run(IDLE, cycles, cfg).slot.Some?
    ensures var before, after := Run(IDLE, cycles, cfg), Run(IDLE, cycles + more, cfg);
            after.slot == before.slot && after.builds == before.builds && after.sinkType == Some(before.slot.value.kind)
  {
    if more == [] {
      assert cycles + more == cycles;
      AttachesFirstBuilt(cycles, cfg);
      LabelIsKnown(cycles, cfg);
    } else {
      AttachedForGood(cycles, more[..|more| - 1], cfg);
      LastCycle(cycles, more, cfg);
    }
  }

  lemma StepKeepsLabel(t: Task, c: Cycle, cfg: Config)
    requires t.sinkType.Some?
    ensures Step(t, c, cfg).sinkType.Some?
  {
  }

  /** A label the prober has shown is never withdrawn. */
  lemma {:induction false} LabelStaysKnown(cycles: seq<Cycle>, more: seq<Cycle>, cfg: Config)
    requires Run(IDLE, cycles, cfg).sinkType.Some?
    ensures Run(IDLE, cycles + more, cfg).sinkType.Some?
  {
    hide Run, Step;
    if more == [] {
      assert cycles + more == cycles;
    } else {
      LabelStaysKnown(cycles, more[..|more| - 1], cfg);
      LastCycle(cycles, more, cfg);
      StepKeepsLabel(Run(IDLE, cycles + more[..|more| - 1], cfg), more[|more| - 1], cfg);
    }
  }

  // ----- accounting -----

  function Booked(reports: seq<Report>): (nat, nat) {
    (Count(reports, (r: Report) => r.Success?), Count(reports, (r: Report) => r.Failure?))
  }

  lemma BookedLast(reports: seq<Report>, r: Report)
    ensures Booked(reports + [r]).0 == Booked(reports).0 + if r.Success? then 1 else 0
    ensures Booked(reports + [r]).1 == Booked(reports).1 + if r.Failure? then 1 else 0
    ensures Latest(reports + [r]) == if r.Success? || r.Failure? then Some(r) else Latest(reports)
  {
    CountLast(reports, r, (x: Report) => x.Success?);
    CountLast(reports, r, (x: Report) => x.Failure?);
    assert (reports + [r])[..|reports|] == reports;
  }

  /** One cycle books exactly its report. */
  lemma StepBooks(t: Task, c: Cycle, cfg: Config)
    ensures var r, next := CycleReport(t.slot.Some?, c, cfg), Step(t, c, cfg);
            && next.ticks == t.ticks + 1
            && next.successes == t.successes + (if r.Success? then 1 else 0)
            && next.failures == t.failures + (if r.Failure? then 1 else 0)
            && next.reachable == (if r.Success? then true else if r.Failure? then false else t.reachable)
            && next.lastError == (if r.Success? then None else if r.Failure? then Some(r.message) else t.lastError)
            && (r.Panicked? <==> Panics(t, c))
  {
  }

  /** Every prefix of every run: the counters, the flag and the stored error are what the reports say. */
  lemma {:induction false} StateFollowsReports(cycles: seq<Cycle>, cfg: Config)
    ensures var t, reports := Run(IDLE, cycles, cfg), Reports(cycles, cfg);
            && |reports| == |cycles| == t.ticks
            && (t.successes, t.failures) == Booked(reports)
            && (t.reachable <==> Latest(reports) == Some(Success))
            && t.lastError == match Latest(reports)
                              case Some(Failure(message)) => Some(message)
                              case _ => None
  {
    if cycles != [] {
      var before, last := cycles[..|cycles| - 1], cycles[|cycles| - 1];
      StateFollowsReports(before, cfg);
      AttachesFirstBuilt(before, cfg);
      StepBooks(Run(IDLE, before, cfg), last, cfg);
      BookedLast(Reports(before, cfg), CycleReport(FirstBuilt(before).Some?, last, cfg));
    }
  }

  lemma {:induction false} ReportsPartition(reports: seq<Report>)
    ensures |reports| == Booked(reports).0 + Booked(reports).1
                         + Count(reports, (r: Report) => r.Skipped?) + Count(reports, (r: Report) => r.Panicked?)
  {
    if reports != [] {
      ReportsPartition(reports[..|reports| - 1]);
    }
  }

  /** Ticks are successes, failures, skips and panics, at every point between cycles of every run. */
  lemma TicksBalance(cycles: seq<Cycle>, cfg: Config)
    ensures var t, reports := Run(IDLE, cycles, cfg), Reports(cycles, cfg);
            t.ticks == t.successes + t.failures
                       + Count(reports, (r: Report) => r.Skipped?) + Count(reports, (r: Report) => r.Panicked?)
  {
    StateFollowsReports(cycles, cfg);
    ReportsPartition(Reports(cycles, cfg));
  }

  /** Ticks less outcomes is documented as the number of skipped probes. It is exactly when no cycle panicked. */
  lemma GapCountsSkips(cycles: seq<Cycle>, cfg: Config)
    ensures var t, reports := Run(IDLE, cycles, cfg), Reports(cycles, cfg);
            t.ticks - t.successes - t.failures == Count(reports, (r: Report) => r.Skipped?)
            <==> forall i :: 0 <= i < |reports| ==> !reports[i].Panicked?
  {
    TicksBalance(cycles, cfg);
    var reports := Reports(cycles, cfg);
    var panicked := (r: Report) => r.Panicked?;
    CountBounds(reports, panicked);
    if Count(reports, panicked) == 0 {
      forall i | 0 <= i < |reports| ensures !reports[i].Panicked? {
        assert reports[i] in reports;
        assert !panicked(reports[i]);
      }
    } else {
      var r :| r in reports && panicked(r);
    }
  }

  lemma {:induction false} VerdictNeedsSink(cycles: seq<Cycle>, cfg: Config)
    requires Latest(Reports(cycles, cfg)) == Some(Success)
    ensures FirstBuilt(cycles).Some?
  {
    var before := cycles[..|cycles| - 1];
    BookedLast(Reports(before, cfg), CycleReport(FirstBuilt(before).Some?, cycles[|cycles| - 1], cfg));
    if Latest(Reports(before, cfg)) == Some(Success) {
      VerdictNeedsSink(before, cfg);
    }
  }

  /** `/readyz` says reachable only of an attached sink whose latest verdict was a success, and then no
      error is stored and the label is that sink's kind. */
  lemma ReachableIsAttached(cycles: seq<Cycle>, cfg: Config)
    requires Run(IDLE, cycles, cfg).reachable
    ensures var t := Run(IDLE, cycles, cfg);
            t.slot.Some? && t.slot == FirstBuilt(cycles) && t.lastError == None && t.sinkType == Some(t.slot.value.kind)
  {
    StateFollowsReports(cycles, cfg);
    VerdictNeedsSink(cycles, cfg);
    AttachesFirstBuilt(cycles, cfg);
    LabelIsKnown(cycles, cfg);
  }

  // ----- logging -----

  function Logged(log: Log, details: seq<string>): Log {
    if details == [] then log else Noted(Logged(log, details[..|details| - 1]), details[|details| - 1])
  }

  lemma {:induction false} LoggedFirst(log: Log, details: seq<string>)
    requires details != []
    ensures Logged(log, details) == Logged(Noted(log, details[0]), details[1..])
  {
    if |details| > 1 {
      LoggedFirst(log, details[..|details| - 1]);
      assert details[..|details| - 1][1..] == details[1..][..|details| - 2];
    }
  }

  lemma {:induction false} VolumesAppend(log: Log, details: seq<string>, detail: string)
    ensures Volumes(log, details + [detail]) == Volumes(log, details) + [Loudness(Logged(log, details), detail)]
    decreases |details|
  {
    if details == [] {
      assert details + [detail] == [detail];
    } else {
      LoggedFirst(log, details);
      VolumesAppend(Noted(log, details[0]), details[1..], detail);
      assert (details + [detail])[1..] == details[1..] + [detail];
    }
  }

  lemma StepLogs(t: Task, c: Cycle, cfg: Config)
    ensures var next := Step(t, c, cfg);
            if t.slot.None? && c.build.Failed? then
              && next.log == Noted(t.log, c.build.detail)
              && next.warnings == t.warnings + if Loudness(t.log, c.build.detail) == Warn then 1 else 0
            else
              next.log == t.log && next.warnings == t.warnings
  {
  }

  function Warnings(details: seq<string>): nat { Count(Volumes(FRESH, details), (v: Volume) => v == Warn) }

  lemma OneMoreDetail(details: seq<string>, detail: string)
    ensures Logged(FRESH, details + [detail]) == Noted(Logged(FRESH, details), detail)
    ensures Warnings(details + [detail]) ==
            Warnings(details) + if Loudness(Logged(FRESH, details), detail) == Warn then 1 else 0
  {
    VolumesAppend(FRESH, details, detail);
    CountLast(Volumes(FRESH, details), Loudness(Logged(FRESH, details), detail), (v: Volume) => v == Warn);
    assert (details + [detail])[..|details|] == details;
  }

  lemma {:induction false} LogFollowsDetails(cycles: seq<Cycle>, cfg: Config)
    ensures var t := Run(IDLE, cycles, cfg);
            t.log == Logged(FRESH, Details(cycles)) && t.warnings == Warnings(Details(cycles))
  {
    if cycles != [] {
      var before, last := cycles[..|cycles| - 1], cycles[|cycles| - 1];
      LogFollowsDetails(before, cfg);
      AttachesFirstBuilt(before, cfg);
      StepLogs(Run(IDLE, before, cfg), last, cfg);
      if FirstBuilt(before).None? && last.build.Failed? {
        OneMoreDetail(Details(before), last.build.detail);
      } else {
        assert Details(cycles) == Details(before);
      }
    }
  }

  /** However long the outage, the prober warns at most 32 times and once per change of error text. */
  lemma OutageIsQuiet(cycles: seq<Cycle>, cfg: Config)
    ensures Run(IDLE, cycles, cfg).warnings <= 32 + Changes(Details(cycles))
  {
    LogFollowsDetails(cycles, cfg);
    WarningsAreRare(Details(cycles));
  }

  // ----- time -----

  function Timeouts(n: nat, cfg: Config): real { if n == 0 then 0.0 else Timeouts(n - 1, cfg) + cfg.timeout }

  /** What a cycle waits for: the build if nothing is attached, then the lock, then the answer if it got the lock. */
  function Waits(attached: bool, c: Cycle, cfg: Config): real {
    var building := if attached then 0.0 else Bounded(c.buildTime, cfg.timeout);
    var probing := if c.locked then Bounded(c.lockTime, cfg.timeout) + Bounded(c.answerTime, cfg.timeout)
                   else Bounded(c.lockTime, cfg.timeout);
    building + if attached || c.build.Built? then probing else 0.0
  }

  function Elapsed(cycles: seq<Cycle>, cfg: Config): real {
    if cycles == [] then 0.0
    else
      var before := cycles[..|cycles| - 1];
      Elapsed(before, cfg) + Waits(FirstBuilt(before).Some?, cycles[|cycles| - 1], cfg)
  }

  /** The clock of a run is the sum of what its cycles waited for. */
  lemma {:induction false} ClockFollowsCycles(cycles: seq<Cycle>, cfg: Config)
    ensures Run(IDLE, cycles, cfg).clock == Elapsed(cycles, cfg)
  {
    if cycles != [] {
      AttachesFirstBuilt(cycles[..|cycles| - 1], cfg);
      ClockFollowsCycles(cycles[..|cycles| - 1], cfg);
    }
  }

  /** A cycle lasts at most three probe timeouts, two once the sink is attached. */
  lemma CycleTime(t: Task, c: Cycle, cfg: Config)
    requires cfg.timeout >= 0.0
    ensures t.clock <= Step(t, c, cfg).clock
    ensures Step(t, c, cfg).clock <= t.clock + Timeouts(if t.slot.Some? then 2 else 3, cfg)
  {
    assert Timeouts(3, cfg) == Timeouts(2, cfg) + cfg.timeout;
    assert Timeouts(2, cfg) == Timeouts(1, cfg) + cfg.timeout;
  }

  lemma {:induction false} TimeoutsAdd(m: nat, n: nat, cfg: Config)
    ensures Timeouts(m + n, cfg) == Timeouts(m, cfg) + Timeouts(n, cfg)
  {
    if n > 0 {
      TimeoutsAdd(m, n - 1, cfg);
    }
  }

  /** A run lasts at most two timeouts a cycle and one more for each attempt to build. */
  lemma {:induction false} RunTime(cycles: seq<Cycle>, cfg: Config)
    requires cfg.timeout >= 0.0
    ensures Run(IDLE, cycles, cfg).clock <= Timeouts(2 * |cycles| + Attempts(cycles), cfg)
  {
    if cycles != [] {
      var before := cycles[..|cycles| - 1];
      RunTime(before, cfg);
      AttachesFirstBuilt(before, cfg);
      var t := Run(IDLE, before, cfg);
      CycleTime(t, cycles[|cycles| - 1], cfg);
      TimeoutsAdd(2 * |before| + Attempts(before), if t.slot.Some? then 2 else 3, cfg);
    }
  }
}
