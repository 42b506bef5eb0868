# rastreo, verified

A Dafny model of the hard core of rastreo: a network scan streamed into a sink with checkpoint and resume,
the server around it, and the live-infrastructure harness that bounds its own run. Each part is written in
the form the code has, classes and loops where it updates state and functions where it computes, and each
loop or object is proved against a function of its inputs whose properties are proved as lemmas.

`dafny verify dfyconfig.toml` checks everything.

## What is proved

**From probes to the sink.** `Scheduler` is the join loop of `run_scan` with probes finishing in any order.
Every probe handed out is in flight, recorded or sent; what arrives is a whole prefix of the targets, all of
them unless cancelled. `Streaming` is `stream_discovery` with its reorder buffer. For every arrival order it
is the run that takes the targets in index order, and `EndToEnd.Discover` joins the two, a pipeline that halts
and drops the scan included. `Cancellation` says exactly which targets a raised flag still lets through.
`Deliveries` says which writes reach the sink and what the summary counts, without the pipeline's own steps.
`Equivalence` compares it with the buffer-then-emit reference, under any sink or encoder failure.
`TraceLaws` fixes what may follow what on every path, errors included.

**Crash and resume.** `CheckpointLaws` proves that a recorded index names only durable targets. `Resume`
proves over any history of crashes, cancellations and resumes that a clean completion has lost no target,
even when each crash tears the boundary target. `CheckpointCadence` says when the file is written and removed.

**The server.** `ConcurrentHistogram` proves the lock-free histogram linearizable: after any interleaving, with
spurious compare-and-swap failures, memory is what one thread would have left. `MetricsLaws` carries probe
counts from the pipeline's summaries into the server's counters without loss. `SinkProbeLaws` derives the
probe task's flags, counters, label and log volume from what its cycles met, for every run.

**The harness.** `Soundness` proves the time analysis of its own source: if `_bounded_work_s` returns a number,
no execution spends more. Executions follow what names stand for, not how they are spelt. `Refusals` says what
it refuses, for any code. `WorstCase` and `EmptyMatrix` prove the whole-run budget against failures and
interrupts at any step and say exactly when it is one, `FullMatrix` that it is tight, `RunReports` what the run
reports, `RunOutcomes` how it ends.

## Where code and documentation part

- The reference groups outcomes by address, not by target. Streaming and reference agree if and only if
  targets have their own addresses, for a fuser making one record per group (`AgreeExactlyOnOwnAddresses`).
- `diagnostic_snapshots` promises rows + 1. That is a bound if and only if there is a row
  (`SnapshotBoundExact`), and so is `worst_case_run_budget_s` (`ClockBoundExact`).
- `run_all` promises to tear down once whatever happens. `tear_down` prints a line before its `try`:
  `compose down` is reached if and only if that line was printed (`RunSpends`).
- `run_all` promises `HarnessInterrupted` with the results on Ctrl-C. A bare exception comes out instead if and
  only if a Ctrl-C cuts the last handler's snapshot short or a tear-down line cannot be printed
  (`RunReportsItsVerdicts`).
- The gap between ticks and probe outcomes is documented as the skipped probes. It is if and only if no cycle
  panicked (`GapCountsSkips`).
- The log is loud on attempts 1, 2, 4, 8 and so on, and the attempt count saturates: with one persisting
  error the doubling promise holds if and only if fewer than 2^31 attempts came before (`DoublingExact`).
- An allow-list entry longer than the label limit is accepted and can never be a label (`EntryReachable`).
- `has_arc_prefix` asks for a validated prefix. The test is exact for every text (`ArcPrefixExact`).
- The analysis promises never to guess low. It does for these shapes of program, each shown with a program
  and an execution. `Undercharged`: a receiver, a nested function's defaults, what a loop or a comprehension
  assigns its elements to, a `while` test, the `else` of an empty loop, an inner iterable, a filter before an
  empty generator, a negative constant as timeout, recursion, a shadowed constant, an overridden default.
  `Miscalled`: a shadowed callee, a parameter defaulting to a blocking call, a global standing for one, one
  handed out by name, one imported inside a function, one taken out of a container, a blocking method under
  another spelling, `time.sleep`, a timed call into the module, a shadowed `range`, a list that grows while it
  is iterated. `Execution.FunctionOk` excludes each by a test on the source and on what its globals stand for, and
  `AnalysisIsSound` holds for what meets it, under the assumptions listed below.

## Model

| member | source | states |
|---|---|---|
| SchedulerRun.TargetFeed.Next | rastreo-core/src/scheduler/mod.rs:145-162 | hands out every pass of a target before pulling the next one; ends when the targets do |
| SchedulerRun.FillWindow | rastreo-core/src/scheduler/mod.rs:225-245 | fills the window up to the cap, stopping early on cancel or when the targets run out |
| SchedulerRun.JoinOne | rastreo-core/src/scheduler/mod.rs:247-328 | one iteration of the join loop: record the outcome under its own pass, refill, then send the target if it is complete |
| SchedulerRun.RunBoundedScan | rastreo-core/src/scheduler/mod.rs:197-329 | the whole of `run_scan`, for any order in which probes finish, any cancel and a receiver that may go away |
| Scheduler.RecordKeeps | rastreo-core/src/scheduler/mod.rs:265-280 | taking in an outcome keeps the invariant: every probe handed out is in flight, recorded or sent, never two of these |
| Scheduler.RefillKeeps | rastreo-core/src/scheduler/mod.rs:283-299 | starting a probe keeps it; no probe is ever started twice |
| Scheduler.DeliverKeeps | rastreo-core/src/scheduler/mod.rs:303-327 | sending a target keeps it: what is sent holds that target's own outcomes, one per pass and in pass order |
| Scheduler.IterateProgresses | rastreo-core/src/scheduler/mod.rs:247-328 | every iteration makes progress, so the join loop ends, and never widens the window |
| SchedulerLaws.WindowStaysWithinCap | rastreo-core/src/scheduler/mod.rs:225-299 | at no point are more probes in flight than the cap, a cap of 0 counting as 1 |
| SchedulerLaws.DeliversPrefix | rastreo-core/src/scheduler/mod.rs:220-329 | however probes interleave and whenever a cancel comes, what arrives is exactly the first n targets, each once and whole |
| SchedulerLaws.DeliversAll | rastreo-core/src/scheduler/mod.rs:247-329 | a scan nobody cancelled or abandoned delivers every target |
| Cancellation.CancelStopsTheScan | rastreo-core/src/scheduler/mod.rs:225-299 | a flag that goes up at its k-th look and stays up: exactly the targets whose probes are among the first k arrive, and every one of those does |
| Cancellation.DeliversWhatWasStarted | rastreo-core/src/scheduler/mod.rs:225-299 | however the flag moves, what arrives is the targets whose probes are all among those started, one for each look that found it down |
| Cancellation.CancelFreezesTheFeed | rastreo-core/src/scheduler/mod.rs:283-299 | from a raised flag on, the rest of the scan starts no probe |
| Cancellation.CancelledFromTheStart | rastreo-core/src/scheduler/mod.rs:225-228 | a flag up from the start: nothing is started and nothing arrives |
| Cancellation.GoneStopsDelivery | rastreo-core/src/scheduler/mod.rs:318-327 | once the receiver has gone away nothing more is delivered |
| Cancellation.StaysToTheEnd | rastreo-core/src/scheduler/mod.rs:318-327 | a receiver that stays is never given up on |
| Cancellation.WindowStaysFull | rastreo-core/src/scheduler/mod.rs:225-299 | unless cancelled, at every point the window is full or every probe has been started |
| SchedulerLaws.ScansFeedTheRun | rastreo-core/src/pipeline.rs:290-307 | a scan of the targets left above a checkpoint is a delivery the resume theorems cover |
| Accumulation.ScanAccumulation.AccumulateTarget | rastreo-core/src/pipeline.rs:352-392 | folds one target into the mutable counters exactly as `Observe` folds its attempts |
| AccumulationLaws.AccumulationIgnoresOrder | rastreo-core/src/pipeline.rs:352-392 | targets with distinct indices give the same counters and the same sample fault in any order |
| AccumulationLaws.FirstFaultMatchesProberOuterLoop | rastreo-core/src/pipeline.rs:348-351 | the sample fault is the one a prober-outer loop would have met first |
| AccumulationLaws.FirstFaultOfNestedLoops | rastreo-core/src/pipeline.rs:348-351 | written out as two loops, over passes and inside them over targets in index order, the sample fault is the first they meet |
| AccumulationLaws.ObserveAllExact | rastreo-core/src/pipeline.rs:352-392 | after any attempts each counter is exactly the number of attempts, of each kind, of each kind that failed, of each error |
| AccumulationLaws.EveryProbeCounts | rastreo-core/src/pipeline.rs:359-360 | every probe of every target is one attempt |
| AccumulationLaws.TalliesConserve | rastreo-core/src/pipeline.rs:352-392 | per-kind attempts sum to all attempts, per-kind errors to all tallied errors, and no kind errs more than it attempts |
| AccumulationLaws.KindRowsListed | rastreo-core/src/pipeline.rs:946-963 | the breakdown lists exactly the kinds that ran, in vocabulary order, each with its own counters |
| AccumulationLaws.BuildProbesByKind | rastreo-core/src/pipeline.rs:946-963 | the loop over the two counter arrays builds that breakdown |
| AccumulationLaws.BreakdownConserves | rastreo-core/src/pipeline.rs:946-963 | dropping idle kinds drops no probe: the rows account for every attempt and every fault |
| Streaming.Discovery.WriteEncoded | rastreo-core/src/pipeline.rs:400-410 | an empty buffer makes no sink call and counts nothing; otherwise one write, counted if accepted |
| Streaming.Discovery.EmitAll | rastreo-core/src/pipeline.rs:612-667 | the emission loops stop at the first encode or write error and write nothing after it |
| Streaming.Discovery.EmitTargetRecords | rastreo-core/src/pipeline.rs:413-454 | fuse, classify, stamp and emit one target; a fuse or classify error halts the run, an emit error only stops emission |
| Streaming.Discovery.CheckpointIfDue | rastreo-core/src/checkpoint/mod.rs:134-146 | flush first, record the index only if the flush succeeded, move the cadence only if the record did |
| Streaming.Discovery.Receive | rastreo-core/src/pipeline.rs:534-571 | between receives the processed targets are exactly the first ones in order, each once, and everything buffered lies above the next expected index; the inner loop ends |
| Streaming.Discovery.DrainStragglers | rastreo-core/src/pipeline.rs:575-597 | what is left when the channel closes goes out in ascending index order |
| Streaming.Discovery.FinishAll | rastreo-core/src/pipeline.rs:605-671 | tail records, then links, then profiles |
| Streaming.Discovery.FinalizeCheckpoint | rastreo-core/src/pipeline.rs:926-944 | a completed run removes the checkpoint, a cancelled one records its full prefix if it has one |
| Streaming.Discovery.ConcludeRun | rastreo-core/src/pipeline.rs:680-732 | close always, finalize only a clean run, rank halted over emit over close over checkpoint errors |
| Streaming.Discovery.StreamDiscovery | rastreo-core/src/pipeline.rs:460-732 | for every arrival order, the run is the one that processes the targets in index order: same sink calls, counters, checkpoint and result |
| Deliveries.OutcomesAreTheOkResults | rastreo-core/src/pipeline.rs:428-431 | the outcomes fused are exactly the results of the probes that could be attempted, in order |
| Deliveries.PrepareFinishes | rastreo-core/src/pipeline.rs:434-441 | records are ready if and only if each can be classified, and are then each record classified and stamped |
| Deliveries.WritesAreExpected | rastreo-core/src/pipeline.rs:532-693 | whatever fails, the sink has accepted a prefix of these writes, and all of them if no write, encoding or checkpoint failed: each record the fuser released, classified and stamped, then the links and profiles drawn from all outcomes and all of those records; without the latter if something could not be fused or classified |
| Deliveries.SummaryIsExact | rastreo-core/src/pipeline.rs:695-732 | every summary counts the non-empty encodings of each stream, the attempts in all and by kind, the failures by error, and names the first fault of the nested loops |
| Deliveries.ReferenceWrites | rastreo-core/src/pipeline.rs:735-924 | the reference writes nothing and returns the error if anything could not be fused or classified, and otherwise a prefix of the same three streams |
| CheckpointCadence.CheckpointsAreOnTime | rastreo-core/src/checkpoint/mod.rs:134-146 | a run that ends well has saved after every interval-th target of the contiguous prefix and at no other time, then removed the file, or on cancel recorded the prefix |
| CheckpointCadence.CheckpointKeeps | rastreo-core/src/checkpoint/mod.rs:134-146 | a checkpoint is saved exactly when due, after a flush, at the global index reached |
| EndToEnd.Discover | rastreo-core/src/pipeline.rs:488-572 | scheduler and pipeline together: the sink and the caller see the targets processed in index order, whoever finished first and whatever a pipeline that halts leaves unscanned; uncancelled, all of them |
| Batch.CollectScansSorted | rastreo-core/src/pipeline.rs:737-771 | sorts what the channel delivered: ascending and a permutation |
| Differential.AccumulateScans | rastreo-core/src/pipeline.rs:774-793 | the reference's metrics and outcomes over all scans |
| Differential.GroupByAddress | rastreo-core/src/fuser/mod.rs:42-55 | groups outcomes by address in order of first occurrence |
| Differential.DriveFuser | rastreo-core/src/fuser/mod.rs:60-70 | ingest group by group, then finish; the first error ends it |
| Differential.RunBatch | rastreo-core/src/pipeline.rs:797-920 | the whole buffer-then-emit reference |
| Equivalence.GroupsAreTargets | rastreo-core/src/fuser/mod.rs:42-55 | if every target has its own address, grouping by address gives back the targets |
| Equivalence.StreamingEqualsBatch | rastreo-core/src/pipeline.rs:734-920 | streaming and reference agree on sink log, counters and result, with a sink or encoder failing anywhere, for a fuser and classifier that never fail, a fuser indifferent to empty groups, and targets with their own addresses |
| SharedAddresses.AgreeExactlyOnOwnAddresses | rastreo-core/src/fuser/mod.rs:42-70 | for a fuser that makes one record per group: the two deliver equally many records if and only if the targets have addresses of their own |
| Differential.RunBoth | rastreo-core/src/pipeline.rs:734-920 | both run side by side on any arrival order end with equal logs and equal results |
| TraceLaws.EmitItemsKept | rastreo-core/src/pipeline.rs:612-667 | emitting a stream keeps the discipline of the trace and the counters |
| TraceLaws.TraceDiscipline | rastreo-core/src/pipeline.rs:400-732 | on every path: nothing but stop marks after the first failed call or error, devices before links before profiles, counters equal accepted non-empty writes, exactly one close after the last write, the checkpoint finalized only after a clean run and close, success exactly if every call succeeded, halting over emit over close over checkpoint errors |
| CheckpointLaws.CheckpointTracked | rastreo-core/src/checkpoint/mod.rs:134-146 | a recorded index is below the emitted prefix and everything up to it was committed by a flush or close before it was recorded |
| CheckpointLaws.CheckpointsAreSafe | rastreo-core/src/pipeline.rs:558-694 | every checkpoint a run records, at the cadence or at the end, stays within the contiguous prefix and names only durable targets, stragglers notwithstanding; recorded indices never go back; a successful run made its whole prefix durable |
| Resume.RunKeepsSafe | rastreo-core/src/pipeline.rs:225-307 | one run from a safe checkpoint, cut anywhere, leaves a safe checkpoint |
| Resume.NoTargetIsLost | rastreo-core/src/pipeline.rs:294-297 | over any history of crashes, cancellations and resumes, even if each crash tears the boundary target, a run that completes cleanly leaves every target durable |
| Resume.CheckpointNeverRegresses | rastreo-core/src/pipeline.rs:225-307 | from run to run, for as long as a checkpoint is there, its index never goes back |
| Resume.EmittedTargetsAreDelivered | rastreo-core/src/pipeline.rs:294-303 | a resumed run emits only targets counted from its checkpoint, each mark preceded by the accepted writes of all its records |
| Resume.EveryRecordIsCommitted | rastreo-core/src/pipeline.rs:225-307 | over any such history a clean completion leaves every target with all its records written, accepted and committed by one of the runs, and not torn since |
| Analyser.EnteringShrinks | scripts/live_infra_uat.py:2916-2934 | entering a function not yet seen shrinks the set of those left, which is what ends the mutual recursion on recursive modules |
| Refusals.RefusesWhatItCannotRead | scripts/live_infra_uat.py:2758-2798 | for any code: where the analysis returns a number, every call it met, however deep, has a timeout that is a number or is a named call that needs none; no blocking function goes without |
| Soundness.SpeltIsRefused | scripts/live_infra_uat.py:2772-2778 | a blocking function called by its own name without a timeout is refused, which soundness relies on |
| Soundness.RangeCountsTerms | scripts/live_infra_uat.py:2744-2749 | the trips computed for a `range` are the terms of its arithmetic sequence, counted one by one |
| Soundness.NodeSound | scripts/live_infra_uat.py:2835-2865 | no execution of a node in the fragment hangs or outlasts what the analysis charged for it, names standing for whatever they stand for when it runs |
| Soundness.ForSound | scripts/live_infra_uat.py:2889-2895 | the same for a loop: the trip count the analysis multiplies by bounds the trips taken |
| Soundness.ComprehensionSound | scripts/live_infra_uat.py:2898-2913 | the same for a comprehension and the product of its generators |
| Soundness.InvokeSound | scripts/live_infra_uat.py:2758-2798 | the same for a call, by its timeout, by the body it enters, or by both when it enters a body with a timeout |
| Soundness.TimedAgrees | scripts/live_infra_uat.py:2760-2771 | a function of the module called with a timeout reads its names as if the timeout were its default |
| Soundness.NameSound | scripts/live_infra_uat.py:2841-2854 | a name handed out does not block, and a function it stands for costs nothing however often it is run |
| Soundness.HeldSound | scripts/live_infra_uat.py:2817-2832 | a callable the analysis lets through costs nothing however often its holder runs it |
| Soundness.AnalysisIsSound | scripts/live_infra_uat.py:2916-2934 | if the analysis returns a number, no execution of the function reaches an untimed blocking call or spends more, for programs in the fragment |
| Undercharged.ReceiverIsMissed | scripts/live_infra_uat.py:2859-2865 | outside the fragment: the receiver of a method call is never charged |
| Undercharged.HeaderIsMissed | scripts/live_infra_uat.py:2837-2840 | outside the fragment: defaults of a nested function or lambda are never charged |
| Undercharged.WhileTestRepeats | scripts/live_infra_uat.py:2889-2895 | outside the fragment: a `while` test is charged once and runs every round |
| Undercharged.ElseOfEmptyLoop | scripts/live_infra_uat.py:2889-2895 | outside the fragment: the `else` of an empty loop is charged zero times and runs once |
| Undercharged.LoopTargetIsMissed | scripts/live_infra_uat.py:2889-2895 | outside the fragment: what a loop assigns its elements to is never charged, nor an untimed blocking call in it refused |
| Undercharged.GeneratorTargetIsMissed | scripts/live_infra_uat.py:2898-2913 | outside the fragment: the same for what a comprehension assigns its elements to |
| Undercharged.InnerIterableRepeats | scripts/live_infra_uat.py:2898-2913 | outside the fragment: an inner iterable is charged once and evaluated for each outer element |
| Undercharged.FilterBeforeEmptyGenerator | scripts/live_infra_uat.py:2898-2913 | outside the fragment: filters before an empty generator are multiplied by zero and still run |
| Undercharged.NegativeTimeout | scripts/live_infra_uat.py:2716-2725 | outside the fragment: a negative module constant given as a timeout is charged as negative time |
| Undercharged.RecursionIsCharged | scripts/live_infra_uat.py:2780-2782 | outside the fragment: recursion is charged one activation, and depth n spends n + 1 of them |
| Undercharged.ShadowedConstant | scripts/live_infra_uat.py:2716-2725 | outside the fragment: a local named like a module constant is read as the constant |
| Miscalled.ShadowedCallee | scripts/live_infra_uat.py:2779-2782 | outside the fragment: a parameter named like a function of the module is followed as that function |
| Miscalled.BlockingDefault | scripts/live_infra_uat.py:2783-2785 | outside the fragment: a parameter that defaults to a blocking call is charged nothing when called |
| Miscalled.BlockingAlias | scripts/live_infra_uat.py:2783-2785 | outside the fragment: a global that stands for a blocking call is charged nothing when called |
| Miscalled.BlockingHandedOut | scripts/live_infra_uat.py:2841-2854 | outside the fragment: a blocking call handed to another by name is charged nothing |
| Miscalled.AliasedMethod | scripts/live_infra_uat.py:2791-2793 | outside the fragment: a blocking method under another spelling of its module is charged nothing |
| Miscalled.BlockingImport | scripts/live_infra_uat.py:2783-2785 | outside the fragment: a parameter that an import inside the function rebinds to a blocking call, or to `sleep`, is charged nothing when called |
| Miscalled.BlockingInTable | scripts/live_infra_uat.py:2783-2785 | outside the fragment: so is one rebound to a blocking call taken out of a module-level container |
| Miscalled.SleepIsFree | scripts/live_infra_uat.py:2690-2700 | outside the fragment: `time.sleep` is not on the list of blocking calls and is charged nothing |
| Miscalled.TimedCallOverruns | scripts/live_infra_uat.py:2760-2771 | outside the fragment: a timed call into the module is charged its timeout, and a body that spends it twice spends twice that |
| Miscalled.ShadowedRange | scripts/live_infra_uat.py:2744-2748 | outside the fragment: a trip count is read off anything spelt `range`, which can make any number of trips |
| Miscalled.GrowingList | scripts/live_infra_uat.py:2750-2755 | outside the fragment: a module-level list that grows while it is iterated is charged the trips of its first length, and can make any number |
| Miscalled.HelperIsCovered | scripts/live_infra_uat.py:2760-2771 | inside the fragment: a helper that passes its timeout on, called with another timeout |
| Undercharged.OverriddenDefault | scripts/live_infra_uat.py:2716-2725 | outside the fragment: a defaulted timeout passed another value is charged the default |
| RunBudget.PollUntil | scripts/live_infra_uat.py:358-384 | the polling loop over an explicit clock; it ends |
| RunBudget.PollBound | scripts/live_infra_uat.py:358-384 | a poll takes at most timeout, interval and one attempt; giving up takes at least the timeout; a raising attempt never escapes |
| RunBudget.SnapshotFailureState | scripts/live_infra_uat.py:1164-1210 | each capture gets what is left of the shared budget, a service it no longer reaches is skipped |
| RunBudget.CaptureBound | scripts/live_infra_uat.py:1164-1210 | for any number of services one snapshot stays within its budget and raises nothing but a Ctrl-C |
| RunBudget.CaptureAsksAll | scripts/live_infra_uat.py:1186-1209 | a snapshot that was not interrupted and has time left has asked every service |
| HarnessRun.RunAll | scripts/live_infra_uat.py:2465-2602 | the whole run with its loops, its handlers and its `finally`, every print of which may raise |
| HarnessRun.TearDownStack | scripts/live_infra_uat.py:2443-2462 | a line printed outside any handler, `compose down`, and a warning if that did not succeed; what a print raises replaces the run's own ending |
| WorstCase.PhaseSpends | scripts/live_infra_uat.py:2506-2519 | a phase spends at most its budget, and a snapshot only if that ends the run |
| RunReports.RowReports | scripts/live_infra_uat.py:2540-2574 | a row that runs to its end reports its own verdict, an interrupted one a failure, any other nothing |
| WorstCase.GateSpends | scripts/live_infra_uat.py:241-248 | waiting for a gate spends at most its `budget_s`, and a snapshot if it never becomes ready |
| WorstCase.RunSpends | scripts/live_infra_uat.py:2465-2602 | any run, any plan: each part within its budget, one diagnostic budget a snapshot; `compose down` is reached at most once, after everything else, if and only if the line announcing it was printed |
| WorstCase.RunStaysWithinWorstCase | scripts/live_infra_uat.py:1003-1025 | with at least one row, every run, interrupted and failing anywhere, stays within the worst case and its rows + 1 snapshots |
| WorstCase.SnapshotBoundExact | scripts/live_infra_uat.py:993-1000 | all runs of a plan stay within rows + 1 snapshots if and only if it has a row |
| EmptyMatrix.EmptyMatrixOverruns | scripts/live_infra_uat.py:1003-1025 | with no rows, any plan with phases and services has a run that outlasts the worst case by a diagnostic budget less what each gate leaves of one interval: all budgets spent, the last gate fails, a Ctrl-C ends its snapshot |
| EmptyMatrix.ClockBoundExact | scripts/live_infra_uat.py:1003-1025 | every run of a plan with phases and services, and with fewer than 30 gates or gates whose attempts may take a second, stays within the worst case if and only if it has a row |
| FullMatrix.WorstCaseIsAttained | scripts/live_infra_uat.py:1003-1025 | the worst case is tight: with rows some run lasts all of it, less a margin a gate as small as its attempts allow |
| EmptyMatrix.GatesFail | scripts/live_infra_uat.py:2521-2538 | gates can each spend all of their budget but part of one poll interval, whether they become ready or not |
| WorstCase.FailuresLeaveEvidence | scripts/live_infra_uat.py:2478-2600 | once coverage has passed, a run that does not get through the matrix took a snapshot before it began to tear down |
| RunReports.RunReportsItsVerdicts | scripts/live_infra_uat.py:2484-2602 | the report holds one verdict per row that ran to its end and one failure for what ended the run; a bare exception takes its place if and only if a Ctrl-C cuts the last handler's snapshot short or a tear-down line cannot be printed |
| RunOutcomes.InterruptsAreHeard | scripts/live_infra_uat.py:2484-2574 | the body ends as an interrupt if and only if a Ctrl-C arrived in one of its steps, whichever that was |
| RunOutcomes.ExitFollowsInterrupts | scripts/live_infra_uat.py:2575-2602 | unless the report is lost, the run ends as interrupted if and only if a Ctrl-C arrived before the handlers, and otherwise returns |
| RunOutcomes.ThroughTheMatrix | scripts/live_infra_uat.py:2484-2574 | a run gets through only if coverage was complete, every phase succeeded and every gate saw an attempt succeed, and then reports in order whether each row itself passed |
| SinkProbe.SpawnSinkProbe | rastreo-server/src/sink_probe.rs:22-74 | startup is the first cycle, except that a panic in it leaves no task |
| SinkProbe.Prober.ProbeTick | rastreo-server/src/sink_probe.rs:230-251 | one cycle: tick, build if nothing is attached, attach, probe |
| SinkProbe.Prober.RetryConstruction | rastreo-server/src/sink_probe.rs:271-297 | a build attempt: label from the sink or the hint, failure recorded and logged |
| SinkProbe.Prober.RunProbe | rastreo-server/src/sink_probe.rs:299-336 | a lock that is not granted in time gives no verdict; an answer, a refusal or a timeout gives one |
| SinkProbe.Prober.RunTask | rastreo-server/src/sink_probe.rs:206-228 | the loop: a panicking tick is caught and the next one follows |
| SinkProbeLaws.AttachesFirstBuilt | rastreo-server/src/state.rs:815-832 | the slot always holds the first sink that was built, or nothing |
| SinkProbeLaws.BuildsAreAttempts | rastreo-server/src/sink_probe.rs:240-249 | a build is attempted in exactly the cycles that find nothing attached |
| SinkProbeLaws.AttachedForGood | rastreo-server/src/sink_probe.rs:240-249 | once the prober has attached a sink, no further cycles replace it, attempt another build or change the label |
| SinkProbeLaws.LabelIsKnown | rastreo-server/src/state.rs:709-716 | the label is the attached sink's kind, or else the latest hint |
| SinkProbeLaws.LabelStaysKnown | rastreo-server/src/state.rs:713-716 | a label the prober has shown is never withdrawn, whatever cycles follow |
| SinkProbeLaws.StateFollowsReports | rastreo-server/src/state.rs:718-735 | at every point between cycles the counters, the reachable flag and the stored error are what the reports say: reachable exactly if the latest verdict was a success |
| SinkProbeLaws.TicksBalance | rastreo-server/src/sink_probe.rs:230-336 | ticks are successes, failures, skips and panicked cycles |
| SinkProbeLaws.GapCountsSkips | rastreo-server/src/state.rs:644-645 | the documented gap between ticks and outcomes is the number of skips if and only if no cycle panicked |
| SinkProbeLaws.ReachableIsAttached | rastreo-server/src/state.rs:718-735 | reachable implies attached, no stored error and the attached sink's label |
| SinkProbeLaws.CycleTime | rastreo-server/src/sink_probe.rs:151-184 | a cycle lasts at most three probe timeouts, two once attached |
| SinkProbeLaws.RunTime | rastreo-server/src/sink_probe.rs:206-336 | a run lasts at most two timeouts a cycle and one more per build attempt |
| SinkProbeLaws.ClockFollowsCycles | rastreo-server/src/sink_probe.rs:151-184 | the clock of a run is the sum of what its cycles waited for: the build if nothing was attached, the lock, and the answer if it got the lock |
| SinkProbeLaws.OutageIsQuiet | rastreo-server/src/sink_probe.rs:101-135 | an outage of any length writes at most 32 warnings and one per change of error text |
| FailureLog.ConstructionFailures.Observe | rastreo-server/src/sink_probe.rs:103-112 | saturating attempt count, last text, and whether this failure is loud |
| FailureLog.WarningsAreRare | rastreo-server/src/sink_probe.rs:102-112 | a failure sequence of any length warns at most 32 times plus once per change of text, saturation included |
| FailureLog.WarnsWhileDoubling | rastreo-server/src/sink_probe.rs:102-112 | for every n below 2^31 attempts n + 1 to 2n contain a warning |
| FailureLog.DoublingExact | rastreo-server/src/sink_probe.rs:102-112 | while one text persists that holds if and only if n is below 2^31: the saturated count is no power of two |
| Histogram.HistogramShard.Observe | rastreo-server/src/state.rs:53-74 | one observation with any number of spurious compare-and-swap failures |
| Histogram.ObserveAllExact | rastreo-server/src/state.rs:53-73 | bucket i counts the values at or below bound i, the totals count all, the sum is the left fold |
| Histogram.BucketsAscend | rastreo-server/src/state.rs:28-30 | buckets are cumulative and never exceed the total |
| ConcurrentHistogram.StepKeeps | rastreo-server/src/state.rs:53-73 | every atomic step of every thread keeps the accounting of all counters and of the sum |
| ConcurrentHistogram.Linearizable | rastreo-server/src/state.rs:53-73 | at quiescence, after any interleaving, memory is what one thread leaves observing the same values in the order their swaps succeeded |
| ConcurrentHistogram.QuiescentReading | rastreo-server/src/state.rs:53-83 | a reading then has totals equal to the number of calls, exact ascending buckets and the folded sum |
| ScenarioBank.FloorBoundary | rastreo-server/src/state.rs:157-162 | the longest prefix within the byte limit that splits no character |
| ScenarioBank.EntryReachable | rastreo-server/src/state.rs:156-168 | an allow-list entry is some scenario's label if and only if it fits the length limit |
| ScenarioBank.LabelIsTheCut | rastreo-server/src/state.rs:156-168 | the label of a scenario is as much of its name as fits, if that is on the allow-list; otherwise it has none |
| ScenarioBank.ScenarioHistograms.Observe | rastreo-server/src/state.rs:170-187 | one observation of the bank; the fallback insert never adds a key |
| ScenarioBank.ShardsHoldTheirSamples | rastreo-server/src/state.rs:130-188 | whatever the names, the shards are the allow-list's, and each observed exactly the samples whose name, cut to the limit, is its own |
| ScenarioBank.BankConserves | rastreo-server/src/state.rs:170-187 | bucket by bucket and in total, `all` is `other` plus the allow-listed shards |
| Metrics.ServerMetrics.RecordScanCompletion | rastreo-server/src/state.rs:300-320 | counters, per-kind credits, dead letters and one duration for a scan with a summary |
| Metrics.ServerMetrics.RecordScanError | rastreo-server/src/state.rs:322-335 | the same for a scan that failed |
| Metrics.ServerMetrics.RecordScanCancelled | rastreo-server/src/state.rs:337-342 | the same for one cancelled without a summary |
| MetricsLaws.ScansBalance | rastreo-server/src/state.rs:300-342 | success, error and cancelled scans sum to the durations observed, which `other` and the allow-listed shards share out |
| MetricsLaws.CountersAreExact | rastreo-server/src/state.rs:300-342 | after any scans every counter is exact: scans completed, failed and cancelled, records, sink errors of each class, probes of each kind succeeded and errored |
| MetricsLaws.RunsAreBalanced | rastreo-core/src/pipeline.rs:700-732 | every summary a streaming run returns accounts for its probes, whatever the stages did |
| MetricsLaws.ProbesAreConserved | rastreo-server/src/state.rs:308-313 | recording such summaries credits every probe once, as succeeded or errored, and the errored ones are the tallied faults; the saturating subtraction never saturates |
| Metrics.ServerMetrics.CreditLetters | rastreo-server/src/state.rs:343-350 | the dead letters a run reports are added to the Kafka or NATS counters by class; other sinks have none |
| MetricsLaws.DeadLettersAreCredited | rastreo-server/src/state.rs:314-316 | after any scans each dead-letter counter holds exactly the records its kind of sink put aside for its class of error |
| Oid.IsDottedDecimal | rastreo-core/src/oid.rs:2-11 | accepts exactly the joins of two or more non-empty digit strings |
| Oid.SplitJoin | rastreo-core/src/oid.rs:4-9 | splitting a join of arcs gives the arcs back |
| Oid.ArcPrefixExact | rastreo-core/src/oid.rs:14-21 | for all texts, the test holds if and only if the pieces of the prefix are the leading pieces of the oid |
| Oid.ArcPrefixOrders | rastreo-core/src/oid.rs:13-21 | the subtree relation is a partial order |

## Left out

- Soundness.AnalysisIsSound: assumes that a timed call outside the module keeps to its timeout; that a method, an attribute or an import takes no time when called unless it bears the name of a blocking call, of `sleep` or, for an import, of a function of the module; that what an unknown call returns does not block when called; that what Python runs unasked (iterating, entering a `with`, operators, properties) takes no time; that no function rebinds a global, or puts a callable into a module-level container, while the code runs; and that a caller from outside passes callables that cost nothing. What each global stands for, whether something in it blocks and whether it can grow are part of the module.
- Soundness.AnalysisIsSound, converse: one direction only; a program outside the fragment may still be charged enough by accident, so the fragment is sufficient and each of its conditions is shown to be needed by a program that breaks it.
- Equivalence.StreamingEqualsBatch: the fuser and the classifier never fail, because on such a failure the reference has emitted nothing where streaming has emitted a prefix.
- SharedAddresses.AgreeExactlyOnOwnAddresses: compares record counts, for a fuser that makes exactly one record per non-empty group; other fusers can merge shared addresses unnoticed.
- EndToEnd.Discover: the scan is run first and then streamed, where the code does both at once; that the receiver goes away only once the pipeline has halted on what it was sent is therefore a condition (`LeavesOnlyHalted`) and not derived.
- Streaming.Discovery.StreamDiscovery: the cancelled flag is an input, not read from the watch channel; the buffer's size is not bounded; progress messages are not modelled.
- Resume.NoTargetIsLost: the checkpoint file is its recorded index; atomic replacement, fingerprints, DNS pins and resume preflight are not modelled.
- Pipeline.StreamSpec: the topology and profile assemblers are functions of all outcomes and records in order, so that they do not care how observing the two interleaves is built in.
- Metrics.ServerMetrics.RecordScanCompletion: the dead letters are an input beside the summary, because they are read off the sink.
- Histogram.HistogramShard.Observe: counters are unbounded, so 64-bit wrap-around is not modelled; the same holds of every server counter except the saturating attempt count.
- ConcurrentHistogram.Linearizable: speaks of quiescent memory; readings taken while observers run are not constrained. Addition on bit patterns is an arbitrary function, so nothing depends on rounding.
- ScenarioBank.ScenarioHistograms.Observe: shards are values in the bank's fields rather than shared objects, and the read and write locks of the map are not modelled.
- SinkProbe.SpawnSinkProbe: the server without a configured sink starts no task and is not modelled; time stamps and the shutdown signal are left out, the cycles given being those that ran.
- HarnessRun.RunAll: a row, a phase and a gate attempt are operations with a budget and an ending; their commands, messages and output tails are not modelled.
- EmptyMatrix.ClockBoundExact: for 30 gates or more, one of them with attempts shorter than a second, only the direction from a row to the bound is proved (`RunStaysWithinWorstCase`); a gate whose attempts take no time leaves a whole interval unspent, so enough of them use up the diagnostic budget.
- Probers, resolver, concrete fusers, classifier, encoders and sinks: arbitrary functions here, so the theorems hold for all of them; the pacer only delays starts.
- `MonotonicStamp`, the readiness gate of the server, plan rendering, configuration parsing, redaction and rule tables: easy members over the same state.
- HTTP, OTLP export, tracing spans and the command line: plumbing over libraries.
