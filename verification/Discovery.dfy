/** `stream_discovery` in place: the reorder buffer, the emission loops, checkpoints and the close. */
module Streaming {
  import opened Common
  import opened Scans
  import opened Accumulation
  import opened AccumulationLaws
  import opened Pipeline

  /** The scans received so far that wait for their turn. */
  function Waiting(received: seq<TargetScan>, next: nat): map<nat, TargetScan>
    requires DistinctIndices(received)
  {
    map s | s in received && s.index >= next :: s.index := s
  }

  class Discovery {
    const st: Stages
    const kinds: seq<ProbeKind>
    const acc: ScanAccumulation
    var fuser: FuserState
    var seenOutcomes: seq<ProbeOutcome>
    var seenRecords: seq<Record>
    var log: seq<SinkOp>
    var trace: seq<Event>
    var buf: Bytes
    var recordsEmitted: nat
    var linksEmitted: nat
    var profilesEmitted: nat
    var emitError: Option<Error>
    var haltedError: Option<Error>
    var checkpoint: Option<Writer>
    var reorder: map<nat, TargetScan>
    var nextExpected: nat

    ghost const repr: set<object> := {this, acc, acc.attemptsByKind, acc.errorsByKind}

    ghost predicate Valid() reads this, acc {
      acc.Valid()
    }

    ghost function Emitting(): Emission reads this {
      Emission(log, trace, recordsEmitted, linksEmitted, profilesEmitted, emitError)
    }

    ghost function View(): (d: Run)
      requires Valid()
      reads repr
      ensures Shaped(d.tally)
    {
      Run(fuser, seenOutcomes, seenRecords, Emitting(), haltedError, checkpoint, acc.View(), nextExpected)
    }

    constructor (st: Stages, kinds: seq<ProbeKind>, fuser: FuserState, checkpoint: Option<Writer>)
      ensures this.st == st && this.kinds == kinds
      ensures Valid() && View() == Start(fuser, checkpoint) && reorder == map[] && fresh(repr)
    {
      this.st, this.kinds, this.fuser, this.checkpoint := st, kinds, fuser, checkpoint;
      seenOutcomes, seenRecords, log, trace, buf := [], [], [], [], [];
      recordsEmitted, linksEmitted, profilesEmitted, nextExpected := 0, 0, 0, 0;
      emitError, haltedError, reorder := None, None, map[];
      acc := new ScanAccumulation();
    }

    method CallSink(call: SinkCall) returns (error: Option<Error>)
      modifies this`log, this`trace
      ensures error == old(st.sinkError(log, call))
      ensures Emitting() == Called(st, old(Emitting()), call)
    {
      error := st.sinkError(log, call);
      var op := SinkOp(call, error.None?);
      log, trace := log + [op], trace + [SinkEvent(op)];
    }

    /** Writes what is in the buffer; an empty buffer is not written. */
    method WriteEncoded(kind: RecordKind) returns (r: Result<bool, Error>)
      modifies this`log, this`trace
      ensures buf == [] ==> r == Ok(false) && Emitting() == old(Emitting())
      ensures buf != [] ==> Emitting() == Called(st, old(Emitting()), Write(kind, buf))
      ensures buf != [] ==> r == match old(st.sinkError(log, Write(kind, buf)))
                                 case Some(error) => Err(error)
                                 case None => Ok(true)
    {
      if buf == [] { return Ok(false); }
      var error := CallSink(Write(kind, buf));
      r := if error.Some? then Err(error.value) else Ok(true);
    }

    /** The body shared by the four emission loops. */
    method EmitOne(item: Item)
      requires emitError.None?
      modifies this`log, this`trace, this`buf, this`recordsEmitted, this`linksEmitted, this`profilesEmitted
      modifies this`emitError
      ensures Emitting() == EmitItem(st, old(Emitting()), item)
    {
      buf := [];
      var encoded := st.encode(item);
      if encoded.Err? {
        emitError, trace := Some(encoded.error), trace + [Stopped];
        return;
      }
      buf := buf + encoded.value;
      assert buf == encoded.value;
      var written := WriteEncoded(KindOf(item));
      if written.Err? {
        emitError, trace := Some(written.error), trace + [Stopped];
        return;
      }
      var n := if written.value then 1 else 0;
      match item
      case DeviceItem(_) => recordsEmitted := recordsEmitted + n;
      case LinkItem(_) => linksEmitted := linksEmitted + n;
      case ProfileItem(_) => profilesEmitted := profilesEmitted + n;
    }

    method EmitAll(items: seq<Item>)
      modifies this`log, this`trace, this`buf, this`recordsEmitted, this`linksEmitted, this`profilesEmitted
      modifies this`emitError
      ensures Emitting() == EmitItems(st, old(Emitting()), items)
    {
      ghost var start := Emitting();
      for i := 0 to |items|
        invariant Emitting() == EmitItems(st, start, items[..i])
      {
        if emitError.Some? {
          EmitItemsSplit(st, start, items[..i], items[i..]);
          EmitItemsStopped(st, Emitting(), items[i..]);
          assert items[..i] + items[i..] == items;
          return;
        }
        EmitOne(items[i]);
        assert items[..i + 1][..i] == items[..i];
      }
      assert items[..|items|] == items;
    }

    method RaiseHalt(error: Error)
      requires Valid()
      modifies this`haltedError, this`trace
      ensures Valid() && View() == Halt(old(View()), error)
    {
      haltedError, trace := Some(error), trace + [Stopped];
    }

    method ClassifyAll(records: seq<Record>) returns (r: Result<seq<Record>, Error>)
      ensures r == Prepare(st, records)
    {
      var ready := [];
      for i := 0 to |records|
        invariant Prepare(st, records[..i]) == Ok(ready)
      {
        assert records[..i + 1][..i] == records[..i];
        var classified := st.classify(records[i]);
        if classified.Err? {
          PrepareFailsEarly(st, records[..i + 1], records[i + 1..]);
          assert records[..i + 1] + records[i + 1..] == records;
          return Err(classified.error);
        }
        ready := ready + [st.stamp(classified.value)];
      }
      assert records[..|records|] == records;
      r := Ok(ready);
    }

    method EmitTargetRecords(probes: seq<Probe>)
      requires Valid() && haltedError.None? && emitError.None?
      modifies this
      ensures Valid() && View() == EmitTarget(st, old(View()), probes)
      ensures reorder == old(reorder)
    {
      hide Prepare, EmitItems, Outcomes;
      var outcomes := Outcomes(probes);
      seenOutcomes := seenOutcomes + outcomes;
      var (fuser', fused) := st.ingest(fuser, outcomes);
      fuser := fuser';
      if fused.Err? {
        RaiseHalt(fused.error);
        return;
      }
      var ready := ClassifyAll(fused.value);
      if ready.Err? {
        RaiseHalt(ready.error);
        return;
      }
      EmitReady(ready.value);
    }

    method EmitReady(ready: seq<Record>)
      requires Valid()
      modifies this`seenRecords, this`log, this`trace, this`buf
      modifies this`recordsEmitted, this`linksEmitted, this`profilesEmitted, this`emitError
      ensures Valid()
      ensures View() == old(View()).(records := old(View()).records + ready,
                                     e := EmitItems(st, old(View()).e, Devices(ready)))
    {
      seenRecords := seenRecords + ready;
      EmitAll(Devices(ready));
    }

    method CheckpointIfDue()
      requires Valid()
      modifies this`log, this`trace, this`emitError, this`checkpoint
      ensures Valid() && View() == MaybeCheckpoint(st, old(View()))
    {
      if emitError.Some? || checkpoint.None? { return; }
      var writer := checkpoint.value;
      if nextExpected == 0 || !writer.Due(nextExpected) { return; }
      var flushError := CallSink(Flush);
      if flushError.Some? {
        emitError, trace := flushError, trace + [Stopped];
        return;
      }
      var call := Save(writer.RecordIndex(nextExpected));
      var saveError := st.diskError(|trace|, call);
      trace := trace + [DiskEvent(call, saveError.None?)];
      if saveError.Some? {
        emitError, trace := saveError, trace + [Stopped];
        return;
      }
      checkpoint := Some(writer.(lastAt := nextExpected));
    }

    method FinishTarget(index: nat, inPrefix: bool)
      requires Valid()
      modifies this`log, this`trace, this`emitError, this`checkpoint, this`nextExpected
      ensures Valid() && View() == CountTarget(st, old(View()), index, inPrefix)
    {
      if emitError.None? { trace := trace + [Emitted(index)]; }
      if inPrefix {
        nextExpected := nextExpected + 1;
        CheckpointIfDue();
      }
    }

    method ProcessTarget(scan: TargetScan, inPrefix: bool)
      requires Valid() && haltedError.None? && ScanInRange(kinds, scan)
      modifies repr
      ensures Valid() && View() == StepTarget(st, kinds, old(View()), scan, inPrefix)
      ensures reorder == old(reorder)
    {
      ghost var d := View();
      acc.AccumulateTarget(kinds, scan);
      assert View() == d.(tally := ObserveAll(kinds, d.tally, Attempts(scan)));
      if emitError.None? {
        EmitTargetRecords(scan.probes);
        if haltedError.Some? { return; }
      }
      FinishTarget(scan.index, inPrefix);
    }

    /** The run has processed exactly `order[..nextExpected]`, in order and each once; all else that
        was received waits, keyed above `nextExpected`. */
    ghost predicate Reordering(d0: Run, order: seq<TargetScan>, received: seq<TargetScan>)
      requires Valid()
      reads repr
    {
      && Shaped(d0.tally) && AllInRange(kinds, order) && DistinctIndices(received)
      && haltedError.None? && nextExpected <= Lead(order, 0)
      && View() == Drained(st, kinds, d0, order, Lead(order, 0), nextExpected)
      && (forall i :: 0 <= i < nextExpected ==> order[i] in received)
      && reorder == Waiting(received, nextExpected)
    }

    /** What is left when processing a target halts the run: its step is the last one taken. */
    ghost predicate HaltedAt(d0: Run, order: seq<TargetScan>)
      requires Valid()
      reads repr
    {
      && Shaped(d0.tally) && AllInRange(kinds, order)
      && haltedError.Some? && nextExpected < Lead(order, 0)
      && View() == Drained(st, kinds, d0, order, Lead(order, 0), nextExpected + 1)
    }

    method TakeNext(ghost order: seq<TargetScan>, ghost received: seq<TargetScan>) returns (ready: TargetScan)
      requires Ascending(order) && DistinctIndices(received) && nextExpected <= Lead(order, 0)
      requires reorder == Waiting(received, nextExpected) && nextExpected in reorder
      requires forall s :: s in received ==> s in order
      modifies this`reorder
      ensures nextExpected < Lead(order, 0) && order[nextExpected] == ready && ready in received
      ensures reorder == Waiting(received, nextExpected + 1) && |reorder| < old(|reorder|)
    {
      hide Waiting, Lead;
      ready := reorder[nextExpected];
      WaitingAt(received, nextExpected, nextExpected);
      NextInOrder(order, ready, nextExpected);
      WaitingShrinks(received, nextExpected);
      RemovalShrinks(reorder, nextExpected);
      reorder := reorder - {nextExpected};
    }

    /** Take the next target off the reorder buffer and process it. */
    method DrainOne(ghost d0: Run, ghost order: seq<TargetScan>, ghost received: seq<TargetScan>)
      requires Valid() && Ascending(order) && Reordering(d0, order, received) && nextExpected in reorder
      requires forall s :: s in received ==> s in order
      modifies repr
      ensures Valid()
      ensures if haltedError.Some? then HaltedAt(d0, order)
              else Reordering(d0, order, received) && |reorder| < old(|reorder|)
    {
      hide StepTarget, Waiting;
      var ready := TakeNext(order, received);
      ghost var d := View();
      StepCounts(st, kinds, d, ready);
      ProcessTarget(ready, true);
    }

    method Buffer(scan: TargetScan, ghost d0: Run, ghost order: seq<TargetScan>, ghost received: seq<TargetScan>)
      requires Valid() && Reordering(d0, order, received) && DistinctIndices(received + [scan])
      modifies this`reorder
      ensures Valid() && Reordering(d0, order, received + [scan])
    {
      hide Drained, Waiting;
      NotYetProcessed(received, scan, order, nextExpected);
      WaitingGrows(received, scan, nextExpected);
      reorder := reorder[scan.index := scan];
    }

    /** One scan off the channel: buffer it, then process every target whose turn has come. */
    method Receive(scan: TargetScan, ghost d0: Run, ghost order: seq<TargetScan>, ghost received: seq<TargetScan>)
      requires Valid() && Ascending(order) && Reordering(d0, order, received)
      requires DistinctIndices(received + [scan])
      requires forall s :: s in received + [scan] ==> s in order
      modifies repr
      ensures Valid()
      ensures if haltedError.Some? then HaltedAt(d0, order)
              else Reordering(d0, order, received + [scan]) && forall k :: k in reorder ==> k > nextExpected
    {
      hide Drained, Waiting;
      Buffer(scan, d0, order, received);
      while nextExpected in reorder
        invariant Valid() && Reordering(d0, order, received + [scan])
        decreases |reorder|
      {
        DrainOne(d0, order, received + [scan]);
        if haltedError.Some? { return; }
      }
      NoneDue(received + [scan], nextExpected);
    }

    /** The run has processed `order[..n]`; what lies at or above `bound` is still buffered. */
    ghost predicate Straggling(d0: Run, order: seq<TargetScan>, prefix: nat, n: nat, bound: nat)
      requires Valid()
      reads repr
    {
      && Ascending(order) && AllInRange(kinds, order) && Shaped(d0.tally)
      && prefix <= n <= |order| && Splits(order, n, bound) && reorder == Waiting(order, bound)
      && View() == Drained(st, kinds, d0, order, prefix, n)
    }

    method DrainStraggler(ghost d0: Run, ghost order: seq<TargetScan>, ghost prefix: nat, ghost n: nat,
                          ghost bound: nat)
      requires Valid() && haltedError.None? && Straggling(d0, order, prefix, n, bound) && reorder != map[]
      modifies repr
      ensures Valid() && n < |order| && Straggling(d0, order, prefix, n + 1, order[n].index + 1)
      ensures |reorder| < old(|reorder|)
    {
      hide StepTarget, Waiting;
      LeastWaiting(order, n, bound);
      WaitingDropsLeast(order, n, bound);
      var k := LeastKey(reorder, order[n].index);
      var ready := reorder[k];
      RemovalShrinks(reorder, k);
      reorder := reorder - {k};
      ProcessTarget(ready, false);
    }

    /** Whatever is still buffered when the channel closes goes out in ascending index order. */
    method DrainStragglers(ghost d0: Run, ghost order: seq<TargetScan>, ghost prefix: nat)
      requires Valid() && haltedError.None? && Straggling(d0, order, prefix, prefix, nextExpected)
      modifies repr
      ensures Valid() && AllInRange(kinds, order) && Shaped(d0.tally)
      ensures View() == Drained(st, kinds, d0, order, prefix, |order|)
    {
      hide Waiting, Splits, Drained, Ascending, Shaped;
      ghost var n: nat, bound: nat := prefix, nextExpected;
      while reorder != map[]
        invariant Valid() && haltedError.None? && Straggling(d0, order, prefix, n, bound)
        decreases |reorder|
      {
        DrainStraggler(d0, order, prefix, n, bound);
        n, bound := n + 1, order[n].index + 1;
        if haltedError.Some? {
          HaltedStays(st, kinds, d0, order, prefix, n);
          return;
        }
      }
      NoneWaiting(order, n, bound);
    }

    method EmitFinalStreams(ready: seq<Record>)
      modifies this`log, this`trace, this`buf, this`recordsEmitted, this`linksEmitted, this`profilesEmitted
      modifies this`emitError
      ensures Emitting() == EmitTail(st, old(Emitting()), ready, st.links(seenOutcomes, seenRecords),
                                     st.profiles(seenOutcomes, seenRecords))
    {
      EmitAll(Devices(ready));
      EmitAll(LinkItems(st.links(seenOutcomes, seenRecords)));
      EmitAll(ProfileItems(st.profiles(seenOutcomes, seenRecords)));
    }

    method FinishAll()
      requires Valid()
      modifies this
      ensures Valid() && View() == FinishStreams(st, old(View()))
    {
      hide EmitTail, Prepare;
      if haltedError.Some? { return; }
      var tail := st.finish(fuser);
      if tail.Err? {
        RaiseHalt(tail.error);
        return;
      }
      var ready := ClassifyAll(tail.value);
      if ready.Err? {
        RaiseHalt(ready.error);
        return;
      }
      seenRecords := seenRecords + ready.value;
      EmitFinalStreams(ready.value);
    }

    method FinalizeCheckpoint(cancelled: bool) returns (error: Option<Error>)
      requires Valid()
      modifies this`trace
      ensures Valid() && (View(), error) == Finalize(st, old(View()), cancelled)
    {
      if checkpoint.None? { return None; }
      if cancelled && nextExpected == 0 { return None; }
      var call := if cancelled then Save(checkpoint.value.RecordIndex(nextExpected)) else Remove;
      error := st.diskError(|trace|, call);
      trace := trace + [DiskEvent(call, error.None?)];
    }

    method ConcludeRun(cancelled: bool) returns (result: Result<Summary, Error>)
      requires Valid()
      modifies this
      ensures Valid() && (View(), result) == Conclude(st, old(View()), cancelled)
    {
      var closeError := CallSink(Close);
      var checkpointError := None;
      if haltedError.None? && emitError.None? && closeError.None? {
        checkpointError := FinalizeCheckpoint(cancelled);
      }
      var rows := BuildProbesByKind(acc.attemptsByKind, acc.errorsByKind);
      if haltedError.Some? { return Err(haltedError.value); }
      if emitError.Some? { return Err(emitError.value); }
      if closeError.Some? { return Err(closeError.value); }
      if checkpointError.Some? { return Err(checkpointError.value); }
      result := Ok(Summary(acc.probeAttempts, recordsEmitted, linksEmitted, profilesEmitted,
                           acc.errorCounts, rows, cancelled, acc.firstProbeError));
    }

    /**
     `stream_discovery`: whatever order the scheduler delivers the scans in, the run is the one that
     processes them in ascending index order, `order`.
     */
    method StreamDiscovery(arrivals: seq<TargetScan>, cancelled: bool, ghost order: seq<TargetScan>)
      returns (result: Result<Summary, Error>)
      requires Valid() && haltedError.None? && nextExpected == 0 && reorder == map[]
      requires AllInRange(kinds, arrivals)
      requires Ascending(order) && multiset(order) == multiset(arrivals)
      modifies repr
      ensures Valid() && AllInRange(kinds, order)
      ensures (View(), result) == StreamSpec(st, kinds, old(View()), order, cancelled)
    {
      SameScans(arrivals, order);
      ghost var d0, prefix := View(), Lead(order, 0);
      assert arrivals[..0] == [] && Waiting([], 0) == map[] && Drained(st, kinds, d0, order, prefix, 0) == d0;
      hide Drained, Conclude, FinishStreams, Waiting;
      var r := 0;
      while r < |arrivals| && haltedError.None?
        invariant 0 <= r <= |arrivals| && Valid()
        invariant if haltedError.Some? then HaltedAt(d0, order) else Reordering(d0, order, arrivals[..r])
        invariant haltedError.None? ==> forall k :: k in reorder ==> k > nextExpected
      {
        assert arrivals[..r + 1] == arrivals[..r] + [arrivals[r]];
        Receive(arrivals[r], d0, order, arrivals[..r]);
        r := r + 1;
      }
      if haltedError.None? {
        assert arrivals[..r] == arrivals;
        PrefixExhausted(arrivals, order, nextExpected);
        DrainStragglers(d0, order, prefix);
      } else {
        HaltedStays(st, kinds, d0, order, prefix, nextExpected + 1);
      }
      FinishAll();
      result := ConcludeRun(cancelled);
    }
  }

  lemma SameScans(arrivals: seq<TargetScan>, order: seq<TargetScan>)
    requires Ascending(order) && multiset(order) == multiset(arrivals)
    ensures forall s :: s in arrivals <==> s in order
    ensures DistinctIndices(arrivals)
    ensures forall r :: 0 <= r <= |arrivals| ==> DistinctIndices(arrivals[..r])
  {
    forall s ensures s in arrivals <==> s in order {
      assert s in arrivals <==> s in multiset(arrivals);
      assert s in order <==> s in multiset(order);
    }
    forall i, j | 0 <= i < j < |arrivals| ensures arrivals[i].index != arrivals[j].index {
      assert arrivals[i] in order && arrivals[j] in order;
      var p :| 0 <= p < |order| && order[p] == arrivals[i];
      AscendingOnce(order, p);
      Repeated(arrivals, i, j);
    }
  }

  lemma AscendingOnce(order: seq<TargetScan>, p: nat)
    requires Ascending(order) && p < |order|
    ensures multiset(order)[order[p]] == 1
  {
    assert order == order[..p] + [order[p]] + order[p + 1..];
    assert order[p] !in order[..p] && order[p] !in order[p + 1..];
  }

  lemma Repeated<T>(s: seq<T>, i: nat, j: nat)
    requires i < j < |s|
    ensures s[i] == s[j] ==> multiset(s)[s[i]] >= 2
  {
    assert s == s[..i] + [s[i]] + s[i + 1..j] + [s[j]] + s[j + 1..];
  }

  lemma {:induction false} HaltedStays(st: Stages, kinds: seq<ProbeKind>, d0: Run, order: seq<TargetScan>,
                                       prefix: nat, n: nat)
    requires AllInRange(kinds, order) && Shaped(d0.tally) && n <= |order|
    requires Drained(st, kinds, d0, order, prefix, n).halted.Some?
    ensures Drained(st, kinds, d0, order, prefix, |order|) == Drained(st, kinds, d0, order, prefix, n)
    decreases |order| - n
  {
    if n < |order| {
      assert Drained(st, kinds, d0, order, prefix, n + 1) == Drained(st, kinds, d0, order, prefix, n);
      HaltedStays(st, kinds, d0, order, prefix, n + 1);
    }
  }

  /** The first key of an ordered map. */
  method LeastKey(m: map<nat, TargetScan>, ghost least: nat) returns (k: nat)
    requires least in m && forall j :: j in m ==> least <= j
    ensures k == least
  {
    assert exists i :: i in m && forall j :: j in m ==> i <= j;
    k :| k in m && forall j :: j in m ==> k <= j;
  }

  /** `order[..n]` is what lies below `bound`. */
  ghost predicate Splits(order: seq<TargetScan>, n: nat, bound: nat)
    requires n <= |order|
  {
    && (forall i :: 0 <= i < n ==> order[i].index < bound)
    && (forall i :: n <= i < |order| ==> order[i].index >= bound)
  }

  lemma SameWaiting(arrivals: seq<TargetScan>, order: seq<TargetScan>, next: nat)
    requires Ascending(order) && DistinctIndices(arrivals) && forall s :: s in arrivals <==> s in order
    ensures Waiting(arrivals, next) == Waiting(order, next)
  {
  }

  /** With everything received and nothing due, the contiguous prefix ends here. */
  lemma PrefixExhausted(arrivals: seq<TargetScan>, order: seq<TargetScan>, next: nat)
    requires Ascending(order) && DistinctIndices(arrivals) && forall s :: s in arrivals <==> s in order
    requires next <= Lead(order, 0) && forall k :: k in Waiting(arrivals, next) ==> k > next
    ensures next == Lead(order, 0) && Splits(order, next, next)
    ensures Waiting(arrivals, next) == Waiting(order, next)
  {
    SameWaiting(arrivals, order, next);
    forall i | next <= i < |order| ensures order[i].index > next {
      AscendingAbove(order, i);
      assert order[i] in order;
      assert order[i].index in Waiting(order, next);
    }
    hide Waiting;
    assert next < |order| ==> order[next].index > next;
  }

  lemma WaitingFirst(order: seq<TargetScan>, n: nat, bound: nat)
    requires Ascending(order) && n <= |order| && Splits(order, n, bound) && Waiting(order, bound) != map[]
    ensures n < |order| && order[n].index in Waiting(order, bound) && Waiting(order, bound)[order[n].index] == order[n]
  {
    var k :| k in Waiting(order, bound);
    var s := Waiting(order, bound)[k];
    var i :| 0 <= i < |order| && order[i] == s;
    assert order[n] in order;
  }

  lemma LeastWaiting(order: seq<TargetScan>, n: nat, bound: nat)
    requires Ascending(order) && n <= |order| && Splits(order, n, bound) && Waiting(order, bound) != map[]
    ensures n < |order| && Splits(order, n + 1, order[n].index + 1)
    ensures order[n].index in Waiting(order, bound) && Waiting(order, bound)[order[n].index] == order[n]
    ensures forall s :: s in order && s.index >= bound ==> order[n].index <= s.index
    ensures forall k :: k in Waiting(order, bound) ==> order[n].index <= k
  {
    WaitingFirst(order, n, bound);
    hide Ascending;
    SplitsNext(order, n, bound);
    hide Splits;
    LeastAbove(order, n, bound);
    forall k | k in Waiting(order, bound) ensures order[n].index <= k {
      WaitingAt(order, bound, k);
    }
  }

  lemma SplitsNext(order: seq<TargetScan>, n: nat, bound: nat)
    requires Ascending(order) && n < |order| && Splits(order, n, bound)
    ensures Splits(order, n + 1, order[n].index + 1)
  {
  }

  lemma LeastAbove(order: seq<TargetScan>, n: nat, bound: nat)
    requires Ascending(order) && n < |order| && Splits(order, n, bound)
    ensures forall s :: s in order && s.index >= bound ==> order[n].index <= s.index
  {
    forall s | s in order && s.index >= bound ensures order[n].index <= s.index {
      var i :| 0 <= i < |order| && order[i] == s;
    }
  }

  lemma WaitingDropsLeast(order: seq<TargetScan>, n: nat, bound: nat)
    requires Ascending(order) && n < |order| && order[n].index >= bound
    requires forall s :: s in order && s.index >= bound ==> order[n].index <= s.index
    ensures Waiting(order, bound) - {order[n].index} == Waiting(order, order[n].index + 1)
  {
    assert forall s :: s in order && s.index >= bound && s.index != order[n].index <==>
                       s in order && s.index >= order[n].index + 1;
  }

  lemma NoneWaiting(order: seq<TargetScan>, n: nat, bound: nat)
    requires Ascending(order) && n <= |order| && Splits(order, n, bound) && Waiting(order, bound) == map[]
    ensures n == |order|
  {
    forall s | s in order ensures s.index < bound {
      assert s.index in Waiting(order, bound) || s.index < bound;
    }
    assert forall i :: 0 <= i < |order| ==> order[i] in order;
    assert n < |order| ==> order[n].index >= bound;
  }

  lemma StepCounts(st: Stages, kinds: seq<ProbeKind>, d: Run, scan: TargetScan)
    requires ScanInRange(kinds, scan) && Shaped(d.tally) && d.halted.None?
    ensures var r := StepTarget(st, kinds, d, scan, true);
            r.next == if r.halted.None? then d.next + 1 else d.next
  {
  }

  lemma NextInOrder(order: seq<TargetScan>, scan: TargetScan, n: nat)
    requires Ascending(order) && scan in order && scan.index == n && n <= Lead(order, 0)
    ensures n < Lead(order, 0) && order[n] == scan
  {
    var j :| 0 <= j < |order| && order[j] == scan;
    AscendingAbove(order, j);
  }

  lemma {:induction false} AscendingAbove(order: seq<TargetScan>, i: nat)
    requires Ascending(order) && i < |order|
    ensures order[i].index >= i
  {
    if i > 0 {
      AscendingAbove(order, i - 1);
      assert order[i - 1].index < order[i].index;
    }
  }

  lemma NotYetProcessed(received: seq<TargetScan>, scan: TargetScan, order: seq<TargetScan>, next: nat)
    requires DistinctIndices(received + [scan]) && next <= Lead(order, 0)
    requires forall i :: 0 <= i < next ==> order[i] in received
    ensures scan.index >= next
  {
    var all := received + [scan];
    forall i | 0 <= i < |received| ensures received[i].index != scan.index {
      assert all[i].index != all[|received|].index;
    }
    var witnessed := if scan.index < |order| then order[scan.index] else scan;
  }

  lemma WaitingGrows(received: seq<TargetScan>, scan: TargetScan, next: nat)
    requires DistinctIndices(received) && DistinctIndices(received + [scan]) && scan.index >= next
    ensures Waiting(received + [scan], next) == Waiting(received, next)[scan.index := scan]
  {
    var all := received + [scan];
    assert all[|received|] == scan && forall i :: 0 <= i < |received| ==> all[i] == received[i];
  }

  lemma NoneDue(received: seq<TargetScan>, next: nat)
    requires DistinctIndices(received) && next !in Waiting(received, next)
    ensures forall k :: k in Waiting(received, next) ==> k > next
  {
  }

  lemma WaitingAt(received: seq<TargetScan>, next: nat, k: nat)
    requires DistinctIndices(received) && k in Waiting(received, next)
    ensures Waiting(received, next)[k] in received && Waiting(received, next)[k].index == k >= next
  {
  }

  lemma RemovalShrinks<T, U>(m: map<T, U>, k: T)
    requires k in m
    ensures |m - {k}| < |m|
  {
    assert m == (m - {k})[k := m[k]];
  }

  lemma WaitingShrinks(received: seq<TargetScan>, next: nat)
    requires DistinctIndices(received)
    ensures Waiting(received, next) - {next} == Waiting(received, next + 1)
  {
  }

  lemma {:induction false} PrepareFailsEarly(st: Stages, a: seq<Record>, b: seq<Record>)
    requires Prepare(st, a).Err?
    ensures Prepare(st, a + b) == Prepare(st, a)
  {
    if b == [] {
      assert a + b == a;
    } else {
      assert (a + b)[..|a + b| - 1] == a + b[..|b| - 1];
      PrepareFailsEarly(st, a, b[..|b| - 1]);
    }
  }
}
