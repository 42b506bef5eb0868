/** The two pipelines run side by side on the same delivered scans. */
module Differential {
  import opened Common
  import opened Scans
  import opened Accumulation
  import opened AccumulationLaws
  import opened Pipeline
  import opened Streaming
  import opened Batch
  import opened Equivalence

  /** `accumulate_scans`: metrics and outcomes of the whole scan. */
  method AccumulateScans(acc: ScanAccumulation, kinds: seq<ProbeKind>, scans: seq<TargetScan>)
    returns (outcomes: seq<ProbeOutcome>)
    requires acc.Valid() && AllInRange(kinds, scans)
    modifies acc, acc.attemptsByKind, acc.errorsByKind
    ensures acc.Valid() && InRange(kinds, AllAttempts(scans)) && outcomes == AllOutcomes(scans)
    ensures acc.View() == ObserveAll(kinds, old(acc.View()), AllAttempts(scans))
  {
    AllAttemptsInRange(kinds, scans);
    outcomes := [];
    for i := 0 to |scans|
      invariant acc.Valid() && outcomes == AllOutcomes(scans[..i]) && InRange(kinds, AllAttempts(scans[..i]))
      invariant acc.View() == ObserveAll(kinds, old(acc.View()), AllAttempts(scans[..i]))
    {
      assert scans[..i + 1][..i] == scans[..i] && scans[i] in scans;
      ObserveAllSplit(kinds, old(acc.View()), AllAttempts(scans[..i]), Attempts(scans[i]));
      acc.AccumulateTarget(kinds, scans[i]);
      outcomes := outcomes + Outcomes(scans[i].probes);
    }
    assert scans[..|scans|] == scans;
  }

  /** `drive_fuser`. */
  method DriveFuser(st: Stages, fuser: FuserState, outcomes: seq<ProbeOutcome>) returns (r: Result<seq<Record>, Error>)
    ensures r == match Drive(st, fuser, Groups(outcomes)).1
                 case Err(error) => Err(error)
                 case Ok(records) =>
                   match st.finish(Drive(st, fuser, Groups(outcomes)).0)
                   case Err(error) => Err(error)
                   case Ok(tail) => Ok(records + tail)
  {
    var groups := GroupByAddress(outcomes);
    var f, records := fuser, [];
    for i := 0 to |groups|
      invariant Drive(st, fuser, groups[..i]) == (f, Ok(records))
    {
      assert groups[..i + 1][..i] == groups[..i];
      var (f', fused) := st.ingest(f, groups[i]);
      if fused.Err? {
        DriveFailsEarly(st, fuser, groups[..i + 1], groups[i + 1..]);
        assert groups[..i + 1] + groups[i + 1..] == groups;
        return Err(fused.error);
      }
      f, records := f', records + fused.value;
    }
    assert groups[..|groups|] == groups;
    var tail := st.finish(f);
    r := if tail.Err? then Err(tail.error) else Ok(records + tail.value);
  }

  method GroupByAddress(outcomes: seq<ProbeOutcome>) returns (groups: seq<seq<ProbeOutcome>>)
    ensures groups == Groups(outcomes)
  {
    groups := [];
    for i := 0 to |outcomes|
      invariant groups == Groups(outcomes[..i])
    {
      assert outcomes[..i + 1][..i] == outcomes[..i];
      groups := AddToGroup(groups, outcomes[i]);
    }
    assert outcomes[..|outcomes|] == outcomes;
  }

  lemma {:induction false} DriveFailsEarly(st: Stages, fuser: FuserState, a: seq<seq<ProbeOutcome>>,
                                           b: seq<seq<ProbeOutcome>>)
    requires Drive(st, fuser, a).1.Err?
    ensures Drive(st, fuser, a + b) == Drive(st, fuser, a)
  {
    if b == [] {
      assert a + b == a;
    } else {
      assert (a + b)[..|a + b| - 1] == a + b[..|b| - 1];
      DriveFailsEarly(st, fuser, a, b[..|b| - 1]);
    }
  }

  method EmitBatch(d: Discovery, prepared: Result<seq<Record>, Error>)
    requires d.Valid()
    modifies d
    ensures d.Valid() && d.View() == BatchEmit(d.st, old(d.View()), prepared)
  {
    if prepared.Err? {
      d.RaiseHalt(prepared.error);
      return;
    }
    d.seenRecords := prepared.value;
    d.EmitFinalStreams(prepared.value);
  }

  method DriveAndClassify(d: Discovery, fuser: FuserState, outcomes: seq<ProbeOutcome>)
    returns (r: Result<seq<Record>, Error>)
    ensures r == DriveAndPrepare(d.st, fuser, outcomes)
  {
    r := DriveFuser(d.st, fuser, outcomes);
    if r.Ok? { r := d.ClassifyAll(r.value); }
  }

  /** `finish_discovery_ref` over the scans of one run. */
  method RunBatch(st: Stages, kinds: seq<ProbeKind>, fuser: FuserState, order: seq<TargetScan>, cancelled: bool)
    returns (d: Discovery, result: Result<Summary, Error>)
    requires AllInRange(kinds, order)
    ensures fresh(d.repr) && d.Valid() && InRange(kinds, AllAttempts(order))
    ensures (d.View(), result) == BatchSpec(st, kinds, fuser, order, cancelled)
  {
    d := new Discovery(st, kinds, fuser, None);
    d.seenOutcomes := AccumulateScans(d.acc, kinds, order);
    var prepared := DriveAndClassify(d, fuser, d.seenOutcomes);
    EmitBatch(d, prepared);
    result := d.ConcludeRun(cancelled);
  }

  lemma OwnAddressesPermute(arrivals: seq<TargetScan>, order: seq<TargetScan>)
    requires Ascending(order) && multiset(order) == multiset(arrivals) && OwnAddresses(arrivals)
    ensures OwnAddresses(order)
  {
    SameScans(arrivals, order);
    forall i | 0 <= i < |order| ensures OneAddress(Outcomes(order[i].probes)) {
      assert order[i] in arrivals;
    }
    forall i, j | 0 <= i < j < |order| ensures Apart(Outcomes(order[i].probes), Outcomes(order[j].probes)) {
      assert order[i] in arrivals && order[j] in arrivals;
      var p :| 0 <= p < |arrivals| && arrivals[p] == order[i];
      var q :| 0 <= q < |arrivals| && arrivals[q] == order[j];
    }
  }

  /** Whatever order the scheduler delivers the targets in, both pipelines drive the sink through the
      same calls and return the same summary or error. */
  method RunBoth(st: Stages, kinds: seq<ProbeKind>, fuser: FuserState, arrivals: seq<TargetScan>, cancelled: bool)
    returns (streamLog: seq<SinkOp>, streamed: Result<Summary, Error>,
             batchLog: seq<SinkOp>, batched: Result<Summary, Error>)
    requires Reliable(st) && IgnoresEmpty(st)
    requires AllInRange(kinds, arrivals) && DistinctIndices(arrivals) && OwnAddresses(arrivals)
    ensures streamLog == batchLog && streamed == batched
  {
    var order := CollectScansSorted(arrivals);
    SameScans(arrivals, order);
    var d := new Discovery(st, kinds, fuser, None);
    streamed := d.StreamDiscovery(arrivals, cancelled, order);
    streamLog := d.log;
    var b;
    b, batched := RunBatch(st, kinds, fuser, order, cancelled);
    batchLog := b.log;
    OwnAddressesPermute(arrivals, order);
    StreamingEqualsBatch(st, kinds, fuser, order, cancelled);
  }
}
