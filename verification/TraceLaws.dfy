/** The discipline every streaming run keeps, whatever fails and wherever it fails. */
module TraceLaws {
  import opened Common
  import opened Scans
  import opened Accumulation
  import opened Pipeline

  predicate IsWrite(ev: Event) { ev.SinkEvent? && ev.op.call.Write? }

  predicate IsClose(ev: Event) { ev.SinkEvent? && ev.op.call.Close? }

  /** Nothing went wrong in this event. */
  predicate Clean(ev: Event) {
    match ev
    case SinkEvent(op) => op.ok
    case DiskEvent(_, ok) => ok
    case Emitted(_) => true
    case Stopped => false
  }

  /** Devices before links before profiles. */
  function Rank(kind: RecordKind): nat {
    match kind case Device => 0 case TopologyLink => 1 case CollectionProfile => 2
  }

  function Accepted(kind: RecordKind): Event -> bool {
    (ev: Event) => IsWrite(ev) && ev.op.ok && ev.op.call.kind == kind
  }

  /** While a run is open: writes are non-empty and in stream order, none above `rank`; nothing follows the
      first failed call or error but stop marks; and the run has stopped exactly if an error shows. */
  ghost predicate Disciplined(trace: seq<Event>, rank: nat, stopped: bool) {
    && (forall i :: 0 <= i < |trace| ==> !IsClose(trace[i]))
    && (forall i :: 0 <= i < |trace| && IsWrite(trace[i]) ==>
          Rank(trace[i].op.call.kind) <= rank && trace[i].op.call.bytes != [])
    && (forall i, j :: 0 <= i < j < |trace| && IsWrite(trace[i]) && IsWrite(trace[j]) ==>
          Rank(trace[i].op.call.kind) <= Rank(trace[j].op.call.kind))
    && (forall i, j :: 0 <= i < j < |trace| && !Clean(trace[i]) ==> trace[j].Stopped?)
    && (stopped <==> Stopped in trace)
    && (!stopped ==> forall i :: 0 <= i < |trace| ==> Clean(trace[i]))
  }

  /** The emitted counters are exactly the writes the sink accepted. */
  ghost predicate Counts(e: Emission) {
    && e.devices == Count(e.trace, Accepted(Device))
    && e.links == Count(e.trace, Accepted(TopologyLink))
    && e.profiles == Count(e.trace, Accepted(CollectionProfile))
  }

  ghost predicate Kept(e: Emission, rank: nat, stopped: bool) {
    Disciplined(e.trace, rank, stopped) && Counts(e)
  }

  // ----- Single events -----

  lemma AppendStopped(trace: seq<Event>, rank: nat, stopped: bool)
    requires Disciplined(trace, rank, stopped)
    ensures Disciplined(trace + [Stopped], rank, true)
  {
    assert (trace + [Stopped])[|trace|] == Stopped;
  }

  lemma AppendFailure(trace: seq<Event>, rank: nat, ev: Event)
    requires Disciplined(trace, rank, false) && !IsClose(ev) && !ev.Stopped?
    requires IsWrite(ev) ==> Rank(ev.op.call.kind) == rank && ev.op.call.bytes != []
    ensures Disciplined(trace + [ev, Stopped], rank, true)
  {
    assert (trace + [ev, Stopped])[|trace| + 1] == Stopped;
  }

  lemma AppendClean(trace: seq<Event>, rank: nat, ev: Event)
    requires Disciplined(trace, rank, false) && !IsClose(ev) && Clean(ev)
    requires IsWrite(ev) ==> Rank(ev.op.call.kind) == rank && ev.op.call.bytes != []
    ensures Disciplined(trace + [ev], rank, false)
  {
    assert forall x :: x in trace + [ev] <==> x in trace || x == ev;
  }

  lemma CountsAppend(trace: seq<Event>, ev: Event, kind: RecordKind)
    ensures Count(trace + [ev], Accepted(kind)) ==
            Count(trace, Accepted(kind)) + if Accepted(kind)(ev) then 1 else 0
  {
    CountLast(trace, ev, Accepted(kind));
  }

  lemma CountsQuiet(e: Emission, trace: seq<Event>, ev: Event)
    requires Counts(e.(trace := trace)) && !(IsWrite(ev) && ev.op.ok)
    ensures Counts(e.(trace := trace + [ev]))
  {
    CountsAppend(trace, ev, Device);
    CountsAppend(trace, ev, TopologyLink);
    CountsAppend(trace, ev, CollectionProfile);
  }

  // ----- Emission -----

  lemma RaiseRank(e: Emission, rank: nat, higher: nat, stopped: bool)
    requires Kept(e, rank, stopped) && rank <= higher
    ensures Kept(e, higher, stopped)
  {
  }

  lemma StopKept(e: Emission, error: Error, rank: nat, stopped: bool)
    requires Kept(e, rank, stopped)
    ensures Kept(Stop(e, error), rank, true)
  {
    AppendStopped(e.trace, rank, stopped);
    CountsQuiet(e, e.trace, Stopped);
  }

  /** A call that fails, and the stop that follows it. */
  lemma FailedCallKept(e: Emission, ev: Event, error: Error, rank: nat)
    requires Kept(e, rank, false) && !IsClose(ev) && !ev.Stopped? && !Clean(ev)
    requires IsWrite(ev) ==> Rank(ev.op.call.kind) == rank && ev.op.call.bytes != []
    ensures Kept(e.(trace := e.trace + [ev] + [Stopped], error := Some(error)), rank, true)
  {
    AppendFailure(e.trace, rank, ev);
    assert e.trace + [ev] + [Stopped] == e.trace + [ev, Stopped];
    CountsQuiet(e, e.trace, ev);
    CountsQuiet(e, e.trace + [ev], Stopped);
  }

  /** A write the sink refuses, and one it accepts. */
  lemma RefusedKept(st: Stages, e: Emission, call: SinkCall, error: Error)
    requires call.Write? && call.bytes != [] && st.sinkError(e.log, call).Some?
    requires Kept(e, Rank(call.kind), false)
    ensures Kept(Stop(Called(st, e, call), error), Rank(call.kind), true)
  {
    FailedCallKept(e.(log := Called(st, e, call).log), SinkEvent(SinkOp(call, false)), error, Rank(call.kind));
  }

  lemma AcceptedKept(st: Stages, e: Emission, call: SinkCall)
    requires call.Write? && call.bytes != [] && st.sinkError(e.log, call).None?
    requires Kept(e, Rank(call.kind), false)
    ensures Kept(Counted(Called(st, e, call), call.kind), Rank(call.kind), false)
  {
    hide Disciplined;
    var ev := SinkEvent(SinkOp(call, true));
    AppendClean(e.trace, Rank(call.kind), ev);
    CountsAppend(e.trace, ev, Device);
    CountsAppend(e.trace, ev, TopologyLink);
    CountsAppend(e.trace, ev, CollectionProfile);
  }

  lemma EmitItemKept(st: Stages, e: Emission, item: Item)
    requires Kept(e, Rank(KindOf(item)), e.error.Some?)
    ensures Kept(EmitItem(st, e, item), Rank(KindOf(item)), EmitItem(st, e, item).error.Some?)
  {
    hide Kept;
    if e.error.None? {
      match st.encode(item)
      case Err(error) => StopKept(e, error, Rank(KindOf(item)), false);
      case Ok(bytes) =>
        if bytes != [] {
          var call := Write(KindOf(item), bytes);
          match st.sinkError(e.log, call)
          case Some(error) => RefusedKept(st, e, call, error);
          case None => AcceptedKept(st, e, call);
        }
    }
  }

  lemma {:induction false} EmitItemsKept(st: Stages, e: Emission, items: seq<Item>, kind: RecordKind)
    requires Kept(e, Rank(kind), e.error.Some?) && forall i :: 0 <= i < |items| ==> KindOf(items[i]) == kind
    ensures Kept(EmitItems(st, e, items), Rank(kind), EmitItems(st, e, items).error.Some?)
  {
    if items != [] {
      EmitItemsKept(st, e, items[..|items| - 1], kind);
      EmitItemKept(st, EmitItems(st, e, items[..|items| - 1]), items[|items| - 1]);
    }
  }

  // ----- Targets -----

  ghost predicate RunKept(d: Run, rank: nat) {
    Kept(d.e, rank, d.e.error.Some? || d.halted.Some?)
  }

  lemma HaltKept(d: Run, error: Error, rank: nat)
    requires RunKept(d, rank)
    ensures RunKept(Halt(d, error), rank)
  {
    AppendStopped(d.e.trace, rank, d.e.error.Some? || d.halted.Some?);
    CountsQuiet(d.e, d.e.trace, Stopped);
  }

  lemma EmitTargetKept(st: Stages, d: Run, probes: seq<Probe>)
    requires RunKept(d, 0) && d.halted.None? && d.e.error.None?
    ensures RunKept(EmitTarget(st, d, probes), 0)
  {
    hide Kept, EmitItems, Prepare;
    var outcomes := Outcomes(probes);
    var (fuser, fused) := st.ingest(d.fuser, outcomes);
    var d1 := d.(fuser := fuser, outcomes := d.outcomes + outcomes);
    match fused
    case Err(error) => HaltKept(d1, error, 0);
    case Ok(records) =>
      match Prepare(st, records)
      case Err(error) => HaltKept(d1, error, 0);
      case Ok(ready) => EmitItemsKept(st, d1.e, Devices(ready), Device);
  }

  lemma MaybeCheckpointKept(st: Stages, d: Run)
    requires RunKept(d, 0) && d.halted.None?
    ensures RunKept(MaybeCheckpoint(st, d), 0)
  {
    if d.e.error.None? && d.writer.Some? && d.next > 0 && d.writer.value.Due(d.next) {
      var flushed := Called(st, d.e, Flush);
      var ev := SinkEvent(SinkOp(Flush, st.sinkError(d.e.log, Flush).None?));
      match st.sinkError(d.e.log, Flush)
      case Some(error) => FailedCallKept(d.e.(log := flushed.log), ev, error, 0);
      case None =>
        AppendClean(d.e.trace, 0, ev);
        CountsQuiet(d.e, d.e.trace, ev);
        var index := d.writer.value.RecordIndex(d.next);
        var failed := st.diskError(|flushed.trace|, Save(index));
        var saved := DiskEvent(Save(index), failed.None?);
        match failed
        case Some(error) => FailedCallKept(flushed, saved, error, 0);
        case None =>
          AppendClean(flushed.trace, 0, saved);
          CountsQuiet(flushed, flushed.trace, saved);
    }
  }

  lemma CountTargetKept(st: Stages, d: Run, index: nat, inPrefix: bool)
    requires RunKept(d, 0) && d.halted.None?
    ensures RunKept(CountTarget(st, d, index, inPrefix), 0)
  {
    hide Kept;
    MarkKept(d, index);
    if inPrefix {
      MaybeCheckpointKept(st, Mark(d, index).(next := d.next + 1));
    }
  }

  lemma MarkKept(d: Run, index: nat)
    requires RunKept(d, 0) && d.halted.None?
    ensures RunKept(Mark(d, index), 0) && Mark(d, index).next == d.next
    ensures RunKept(Mark(d, index).(next := d.next + 1), 0)
  {
    if d.e.error.None? {
      AppendClean(d.e.trace, 0, Emitted(index));
      CountsQuiet(d.e, d.e.trace, Emitted(index));
    }
  }

  lemma StepTargetKept(st: Stages, kinds: seq<ProbeKind>, d: Run, scan: TargetScan, inPrefix: bool)
    requires RunKept(d, 0) && ScanInRange(kinds, scan) && Shaped(d.tally)
    ensures RunKept(StepTarget(st, kinds, d, scan, inPrefix), 0)
  {
    hide Kept;
    if d.halted.None? {
      var tallied := d.(tally := ObserveAll(kinds, d.tally, Attempts(scan)));
      if tallied.e.error.None? { EmitTargetKept(st, tallied, scan.probes); }
      var emitted := if tallied.e.error.None? then EmitTarget(st, tallied, scan.probes) else tallied;
      if emitted.halted.None? { CountTargetKept(st, emitted, scan.index, inPrefix); }
    }
  }

  lemma {:induction false} DrainedKept(st: Stages, kinds: seq<ProbeKind>, d: Run, scans: seq<TargetScan>, prefix: nat,
                                       n: nat)
    requires AllInRange(kinds, scans) && n <= |scans| && Shaped(d.tally) && RunKept(d, 0)
    ensures RunKept(Drained(st, kinds, d, scans, prefix, n), 0)
  {
    hide Kept, StepTarget;
    if n > 0 {
      DrainedKept(st, kinds, d, scans, prefix, n - 1);
      StepTargetKept(st, kinds, Drained(st, kinds, d, scans, prefix, n - 1), scans[n - 1], n - 1 < prefix);
    }
  }

  // ----- The end of a run -----

  lemma EmitTailKept(st: Stages, e: Emission, tail: seq<Record>, links: seq<Link>, profiles: seq<Profile>)
    requires Kept(e, 0, e.error.Some?)
    ensures Kept(EmitTail(st, e, tail, links, profiles), 2, EmitTail(st, e, tail, links, profiles).error.Some?)
  {
    EmitItemsKept(st, e, Devices(tail), Device);
    var e1 := EmitItems(st, e, Devices(tail));
    RaiseRank(e1, 0, 1, e1.error.Some?);
    EmitItemsKept(st, e1, LinkItems(links), TopologyLink);
    var e2 := EmitItems(st, e1, LinkItems(links));
    RaiseRank(e2, 1, 2, e2.error.Some?);
    EmitItemsKept(st, e2, ProfileItems(profiles), CollectionProfile);
  }

  lemma FinishKept(st: Stages, d: Run)
    requires RunKept(d, 0)
    ensures RunKept(FinishStreams(st, d), 2)
  {
    hide Kept;
    RaiseRank(d.e, 0, 2, d.e.error.Some? || d.halted.Some?);
    if d.halted.None? {
      match st.finish(d.fuser)
      case Err(error) => HaltKept(d, error, 2);
      case Ok(tail) =>
        match Prepare(st, tail)
        case Err(error) => HaltKept(d, error, 2);
        case Ok(ready) =>
          var records := d.records + ready;
          EmitTailKept(st, d.e, ready, st.links(d.outcomes, records), st.profiles(d.outcomes, records));
    }
  }

  /** The trace of a finished run: an open part, one close, then at most one checkpoint operation, and
      that only if nothing has failed so far. */
  ghost predicate Finished(open: seq<Event>, trace: seq<Event>, stopped: bool) {
    && Disciplined(open, 2, stopped)
    && |open| < |trace| <= |open| + 2 && trace[..|open|] == open && IsClose(trace[|open|])
    && (|trace| == |open| + 2 ==> !stopped && Clean(trace[|open|]) && trace[|open| + 1].DiskEvent?)
  }

  /**
   On every path of a streaming run: no write follows the first error, device writes precede link
   writes precede profile writes, every counter is the number of non-empty writes the sink accepted
   of that kind, the sink is closed exactly once after the last write, the checkpoint file is touched
   after the close only when nothing failed, and the run succeeds exactly when nothing failed at all;
   otherwise a halting error outranks an emission error, which outranks a failed close, which outranks a
   failed operation on the checkpoint file, the last event of the trace.
   */
  lemma TraceDiscipline(st: Stages, kinds: seq<ProbeKind>, fuser: FuserState, writer: Option<Writer>,
                        order: seq<TargetScan>, cancelled: bool)
    requires AllInRange(kinds, order)
    ensures var (d, result) := StreamSpec(st, kinds, Start(fuser, writer), order, cancelled);
            var body := FinishStreams(st, Drained(st, kinds, Start(fuser, writer), order, Lead(order, 0), |order|));
            && Finished(body.e.trace, d.e.trace, body.e.error.Some? || body.halted.Some?)
            && Counts(d.e)
            && (result.Ok? <==> forall i :: 0 <= i < |d.e.trace| ==> Clean(d.e.trace[i]))
            && (body.halted.Some? ==> result == Err(body.halted.value))
            && (body.halted.None? && body.e.error.Some? ==> result == Err(body.e.error.value))
            && (body.halted.None? && body.e.error.None? && st.sinkError(body.e.log, Close).Some? ==>
                  result == Err(st.sinkError(body.e.log, Close).value))
            && (body.halted.None? && body.e.error.None? && st.sinkError(body.e.log, Close).None? && result.Err? ==>
                  FailedLast(st, d.e.trace, result.error))
  {
    DrainedKept(st, kinds, Start(fuser, writer), order, Lead(order, 0), |order|);
    var drained := Drained(st, kinds, Start(fuser, writer), order, Lead(order, 0), |order|);
    FinishKept(st, drained);
    ConcludeKept(st, FinishStreams(st, drained), cancelled);
    var body := FinishStreams(st, drained);
    if body.halted.None? && body.e.error.None? && st.sinkError(body.e.log, Close).None? {
      ConcludeDisk(st, body, cancelled);
    }
  }

  /** The last event is an operation on the checkpoint file that failed with `error`. */
  ghost predicate FailedLast(st: Stages, trace: seq<Event>, error: Error) {
    && trace != []
    && var last := trace[|trace| - 1];
       last.DiskEvent? && !last.ok && st.diskError(|trace| - 1, last.call) == Some(error)
  }

  lemma ConcludeDisk(st: Stages, body: Run, cancelled: bool)
    requires Shaped(body.tally) && body.halted.None? && body.e.error.None? && st.sinkError(body.e.log, Close).None?
    ensures var (d, result) := Conclude(st, body, cancelled);
            result.Err? ==> FailedLast(st, d.e.trace, result.error)
  {
  }

  /** What concluding appends: the close and, on a clean run with a writer, one disk operation. */
  lemma ConcludeAppends(st: Stages, body: Run, cancelled: bool) returns (tail: seq<Event>)
    requires Shaped(body.tally)
    ensures var (d, result) := Conclude(st, body, cancelled);
            var stopped := body.e.error.Some? || body.halted.Some?;
            && d.e == body.e.(log := d.e.log, trace := body.e.trace + tail)
            && 1 <= |tail| <= 2 && IsClose(tail[0])
            && (|tail| == 2 ==> !stopped && Clean(tail[0]) && tail[1].DiskEvent?)
            && (result.Ok? <==> !stopped && forall i :: 0 <= i < |tail| ==> Clean(tail[i]))
  {
    var close := SinkEvent(SinkOp(Close, st.sinkError(body.e.log, Close).None?));
    var closed := body.(e := Called(st, body.e, Close));
    if body.halted.Some? || body.e.error.Some? || !Clean(close) || Finalize(st, closed, cancelled).0 == closed {
      tail := [close];
    } else {
      var call := if cancelled then Save(body.writer.value.RecordIndex(body.next)) else Remove;
      var disk := DiskEvent(call, st.diskError(|closed.e.trace|, call).None?);
      tail := [close, disk];
      assert body.e.trace + tail == body.e.trace + [close] + [disk];
    }
  }

  lemma ConcludeKept(st: Stages, body: Run, cancelled: bool)
    requires RunKept(body, 2) && Shaped(body.tally)
    ensures var (d, result) := Conclude(st, body, cancelled);
            && Finished(body.e.trace, d.e.trace, body.e.error.Some? || body.halted.Some?)
            && Counts(d.e)
            && (result.Ok? <==> forall i :: 0 <= i < |d.e.trace| ==> Clean(d.e.trace[i]))
  {
    hide Conclude, Disciplined, Finished, Counts;
    var tail := ConcludeAppends(st, body, cancelled);
    var stopped := body.e.error.Some? || body.halted.Some?;
    CleanExtended(body.e.trace, tail, stopped);
    FinishedBy(body.e.trace, tail, stopped);
    CountsTail(body.e, Conclude(st, body, cancelled).0.e.log, tail);
  }

  lemma CountsTail(e: Emission, log: seq<SinkOp>, tail: seq<Event>)
    requires Counts(e) && 1 <= |tail| <= 2 && forall i :: 0 <= i < |tail| ==> !IsWrite(tail[i])
    ensures Counts(e.(log := log, trace := e.trace + tail))
  {
    CountsQuiet(e, e.trace, tail[0]);
    if |tail| == 2 {
      CountsQuiet(e, e.trace + [tail[0]], tail[1]);
      assert e.trace + tail == e.trace + [tail[0]] + [tail[1]];
    } else {
      assert tail == [tail[0]];
    }
  }

  lemma FinishedBy(open: seq<Event>, tail: seq<Event>, stopped: bool)
    requires Disciplined(open, 2, stopped) && 1 <= |tail| <= 2 && IsClose(tail[0])
    requires |tail| == 2 ==> !stopped && Clean(tail[0]) && tail[1].DiskEvent?
    ensures Finished(open, open + tail, stopped)
  {
  }

  lemma CleanExtended(open: seq<Event>, more: seq<Event>, stopped: bool)
    requires Disciplined(open, 2, stopped)
    ensures (forall i :: 0 <= i < |open + more| ==> Clean((open + more)[i])) <==>
            !stopped && forall i :: 0 <= i < |more| ==> Clean(more[i])
  {
    var all := open + more;
    assert forall i :: 0 <= i < |open| ==> all[i] == open[i];
    assert forall i :: 0 <= i < |more| ==> all[|open| + i] == more[i];
    if stopped {
      var i :| 0 <= i < |open| && open[i] == Stopped;
      assert !Clean(all[i]);
    }
  }
}
