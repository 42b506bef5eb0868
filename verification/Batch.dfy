/** The buffer-then-emit reference: `collect_scans_sorted`, `accumulate_scans`, `drive_fuser` and
    `finish_discovery_ref`. */
module Batch {
  import opened Common
  import opened Scans
  import opened Accumulation
  import opened AccumulationLaws
  import opened Pipeline

  // ----- Collecting and sorting -----

  function Insert(sorted: seq<TargetScan>, scan: TargetScan): (r: seq<TargetScan>)
    requires Ascending(sorted) && forall s :: s in sorted ==> s.index != scan.index
    ensures Ascending(r) && multiset(r) == multiset(sorted) + multiset{scan}
  {
    if sorted == [] then [scan]
    else
      var init, last := sorted[..|sorted| - 1], sorted[|sorted| - 1];
      assert sorted == init + [last] && last in sorted;
      if last.index < scan.index then
        InsertLast(sorted, scan);
        sorted + [scan]
      else
        var r := Insert(init, scan);
        InsertBelow(init, scan, last, r);
        r + [last]
  }

  lemma InsertLast(sorted: seq<TargetScan>, scan: TargetScan)
    requires Ascending(sorted) && sorted != [] && sorted[|sorted| - 1].index < scan.index
    ensures Ascending(sorted + [scan]) && multiset(sorted + [scan]) == multiset(sorted) + multiset{scan}
  {
  }

  lemma InsertBelow(init: seq<TargetScan>, scan: TargetScan, last: TargetScan, r: seq<TargetScan>)
    requires Ascending(init + [last]) && scan.index < last.index
    requires Ascending(r) && multiset(r) == multiset(init) + multiset{scan}
    ensures Ascending(r + [last]) && multiset(r + [last]) == multiset(init + [last]) + multiset{scan}
  {
    var all := init + [last];
    forall i | 0 <= i < |r| ensures r[i].index < last.index {
      assert r[i] in multiset(r);
      if r[i] != scan {
        var j :| 0 <= j < |init| && init[j] == r[i];
        assert all[j].index < all[|init|].index;
      }
    }
  }

  /** The scans a run delivered, in ascending target order. */
  method CollectScansSorted(arrivals: seq<TargetScan>) returns (out: seq<TargetScan>)
    requires DistinctIndices(arrivals)
    ensures Ascending(out) && multiset(out) == multiset(arrivals)
  {
    out := [];
    for r := 0 to |arrivals|
      invariant Ascending(out) && multiset(out) == multiset(arrivals[..r])
    {
      forall s | s in out ensures s.index != arrivals[r].index {
        assert s in multiset(out);
        var i :| 0 <= i < r && arrivals[i] == s;
      }
      assert arrivals[..r + 1] == arrivals[..r] + [arrivals[r]];
      out := Insert(out, arrivals[r]);
    }
    assert arrivals[..|arrivals|] == arrivals;
  }

  function AllOutcomes(scans: seq<TargetScan>): seq<ProbeOutcome> {
    if scans == [] then [] else AllOutcomes(scans[..|scans| - 1]) + Outcomes(scans[|scans| - 1].probes)
  }

  // ----- Driving the fuser -----

  /** Where in `groups` an address lives, or `|groups|`. */
  function GroupOf(groups: seq<seq<ProbeOutcome>>, a: Address, from: nat): (i: nat)
    requires from <= |groups|
    ensures from <= i <= |groups|
    ensures i < |groups| ==> groups[i] != [] && groups[i][0].address == a
    ensures forall k :: from <= k < i && groups[k] != [] ==> groups[k][0].address != a
    decreases |groups| - from
  {
    if from == |groups| then from
    else if groups[from] != [] && groups[from][0].address == a then from
    else GroupOf(groups, a, from + 1)
  }

  function AddToGroup(groups: seq<seq<ProbeOutcome>>, o: ProbeOutcome): seq<seq<ProbeOutcome>> {
    var i := GroupOf(groups, o.address, 0);
    if i < |groups| then groups[i := groups[i] + [o]] else groups + [[o]]
  }

  /** `group_outcomes_by_ip`: groups in first-occurrence order. */
  function Groups(outcomes: seq<ProbeOutcome>): seq<seq<ProbeOutcome>> {
    if outcomes == [] then []
    else AddToGroup(Groups(outcomes[..|outcomes| - 1]), outcomes[|outcomes| - 1])
  }

  /** Ingest group after group, or stop at the first failure. */
  function Drive(st: Stages, fuser: FuserState, groups: seq<seq<ProbeOutcome>>)
    : (FuserState, Result<seq<Record>, Error>)
  {
    if groups == [] then (fuser, Ok([]))
    else
      var (fuser', so_far) := Drive(st, fuser, groups[..|groups| - 1]);
      match so_far
      case Err(error) => (fuser', Err(error))
      case Ok(records) =>
        var (fuser'', fused) := st.ingest(fuser', groups[|groups| - 1]);
        match fused
        case Err(error) => (fuser'', Err(error))
        case Ok(more) => (fuser'', Ok(records + more))
  }

  /** `drive_fuser`, then classify everything: the records of the whole scan, ready to emit. */
  function DriveAndPrepare(st: Stages, fuser: FuserState, outcomes: seq<ProbeOutcome>): Result<seq<Record>, Error> {
    var (fuser', fused) := Drive(st, fuser, Groups(outcomes));
    match fused
    case Err(error) => Err(error)
    case Ok(records) =>
      match st.finish(fuser')
      case Err(error) => Err(error)
      case Ok(tail) => Prepare(st, records + tail)
  }

  /** Nothing is written if fusing or classifying failed anywhere; otherwise everything is, in one pass. */
  function BatchEmit(st: Stages, d: Run, prepared: Result<seq<Record>, Error>): Run {
    match prepared
    case Err(error) => Halt(d, error)
    case Ok(ready) =>
      d.(records := ready,
         e := EmitTail(st, d.e, ready, st.links(d.outcomes, ready), st.profiles(d.outcomes, ready)))
  }

  /** A whole batch run over scans already sorted. */
  ghost function BatchSpec(st: Stages, kinds: seq<ProbeKind>, fuser: FuserState, order: seq<TargetScan>,
                           cancelled: bool)
    : (Run, Result<Summary, Error>)
    requires InRange(kinds, AllAttempts(order))
  {
    var outcomes := AllOutcomes(order);
    var d := Start(fuser, None).(outcomes := outcomes, tally := ObserveAll(kinds, Empty(), AllAttempts(order)));
    Conclude(st, BatchEmit(st, d, DriveAndPrepare(st, fuser, outcomes)), cancelled)
  }
}
