/** When the checkpoint file is touched: every save that is due is made, and the end of a run settles the file. */
module CheckpointCadence {
  import opened Common
  import opened Scans
  import opened Accumulation
  import opened Pipeline
  import opened TraceLaws
  import opened CheckpointLaws

  function DiskCalls(trace: seq<Event>): seq<DiskCall> {
    if trace == [] then []
    else
      var last := trace[|trace| - 1];
      DiskCalls(trace[..|trace| - 1]) + if last.DiskEvent? then [last.call] else []
  }

  /** One save after every `interval`-th of the first `n` targets, at the global index of that target. */
  function Cadence(interval: nat, base: nat, n: nat): seq<DiskCall>
    requires interval > 0
  {
    if n == 0 then []
    else Cadence(interval, base, n - 1) + if n % interval == 0 then [Save(base + n - 1)] else []
  }

  /** What a run of `lead` targets does to the file in the end: a completed one removes it, a cancelled one records
      how far it got. */
  function Settles(base: nat, lead: nat, cancelled: bool): seq<DiskCall> {
    if !cancelled then [Remove] else if lead == 0 then [] else [Save(base + lead - 1)]
  }

  lemma {:induction false} DiskCallsJoin(a: seq<Event>, b: seq<Event>)
    ensures DiskCalls(a + b) == DiskCalls(a) + DiskCalls(b)
  {
    if b == [] {
      assert a + b == a;
    } else {
      assert (a + b)[..|a + b| - 1] == a + b[..|b| - 1];
      DiskCallsJoin(a, b[..|b| - 1]);
    }
  }

  lemma {:induction false} NoDiskCalls(more: seq<Event>)
    requires forall i :: 0 <= i < |more| ==> !more[i].DiskEvent?
    ensures DiskCalls(more) == []
  {
    if more != [] { NoDiskCalls(more[..|more| - 1]); }
  }

  lemma NextRemainder(n: nat, interval: nat)
    requires interval > 0
    ensures (n + 1) % interval == if n % interval + 1 == interval then 0 else n % interval + 1
  {
    var q, r := n / interval, n % interval;
    assert n == q * interval + r;
    if r + 1 == interval {
      Distributes(q, 1, interval);
      Quotient(q + 1, 0, interval);
    } else {
      Quotient(q, r + 1, interval);
    }
  }

  /** Where the file stands after `n` of the targets counted, as long as nothing has failed. */
  ghost predicate OnSchedule(d: Run, interval: nat, base: nat, n: nat)
    requires interval > 0
  {
    && d.next == n && d.writer == Some(Writer(interval, base, n - n % interval))
    && DiskCalls(d.e.trace) == Cadence(interval, base, n)
  }

  /** A checkpoint is saved exactly when it is due, after a flush. */
  lemma CheckpointKeeps(st: Stages, d: Run, interval: nat, base: nat)
    requires interval > 0 && d.next > 0 && d.e.error.None?
    requires OnSchedule(d.(next := d.next - 1), interval, base, d.next - 1)
    ensures var r := MaybeCheckpoint(st, d);
            && (r.e.error.None? ==> OnSchedule(r, interval, base, d.next))
            && (d.next % interval == 0 && r.e.error.None? ==>
                  r.e.trace == d.e.trace + [SinkEvent(SinkOp(Flush, true)),
                                            DiskEvent(Save(base + d.next - 1), true)])
            && (d.next % interval != 0 ==> r == d)
  {
    NextRemainder(d.next - 1, interval);
    var flush, save := SinkEvent(SinkOp(Flush, true)), DiskEvent(Save(base + d.next - 1), true);
    assert d.e.trace + [flush] + [save] == d.e.trace + [flush, save];
    DiskCallsJoin(d.e.trace, [flush, save]);
    assert [flush, save][..1] == [flush] && [flush][..0] == [] && DiskCalls([flush]) == [];
    assert DiskCalls([flush, save]) == [Save(base + d.next - 1)];
  }

  lemma CheckpointSkips(st: Stages, d: Run)
    ensures d.e.error.Some? ==> MaybeCheckpoint(st, d) == d
    ensures MaybeCheckpoint(st, d).halted == d.halted
  {
  }

  lemma OneDiskCall(call: DiskCall, ok: bool)
    ensures DiskCalls([DiskEvent(call, ok)]) == [call]
  {
    assert [DiskEvent(call, ok)][..0] == [] && DiskCalls([]) == [];
  }

  lemma StepKeepsSchedule(st: Stages, kinds: seq<ProbeKind>, d: Run, scan: TargetScan, inPrefix: bool, interval: nat,
                          base: nat, n: nat)
    requires ScanInRange(kinds, scan) && Shaped(d.tally) && interval > 0
    requires d.halted.None? && d.e.error.None? && OnSchedule(d, interval, base, n)
    ensures var r := StepTarget(st, kinds, d, scan, inPrefix);
            r.halted.None? && r.e.error.None? ==> OnSchedule(r, interval, base, n + if inPrefix then 1 else 0)
  {
    hide EmitTarget, MaybeCheckpoint, DiskCalls, Cadence, ObserveAll;
    var tallied := d.(tally := ObserveAll(kinds, d.tally, Attempts(scan)));
    var more := TargetEmissionAppends(st, tallied, scan.probes);
    var emitted := EmitTarget(st, tallied, scan.probes);
    DiskCallsJoin(d.e.trace, more);
    NoDiskCalls(more);
    DiskCallsJoin(emitted.e.trace, [Emitted(scan.index)]);
    NoDiskCalls([Emitted(scan.index)]);
    if emitted.halted.None? && inPrefix {
      var marked := Mark(emitted, scan.index);
      CheckpointSkips(st, marked.(next := marked.next + 1));
      if emitted.e.error.None? { CheckpointKeeps(st, marked.(next := marked.next + 1), interval, base); }
    }
  }

  lemma StepStaysFailed(st: Stages, kinds: seq<ProbeKind>, d: Run, scan: TargetScan, inPrefix: bool)
    requires ScanInRange(kinds, scan) && Shaped(d.tally) && (d.halted.Some? || d.e.error.Some?)
    ensures var r := StepTarget(st, kinds, d, scan, inPrefix); r.halted.Some? || r.e.error.Some?
  {
  }

  function Below(n: nat, limit: nat): nat { if n < limit then n else limit }

  lemma {:induction false} DrainedOnSchedule(st: Stages, kinds: seq<ProbeKind>, d0: Run, order: seq<TargetScan>,
                                             prefix: nat, interval: nat, base: nat, n: nat)
    requires AllInRange(kinds, order) && n <= |order| && Shaped(d0.tally) && interval > 0
    requires d0.halted.None? && d0.e.error.None? && OnSchedule(d0, interval, base, 0)
    ensures var d := Drained(st, kinds, d0, order, prefix, n);
            d.halted.None? && d.e.error.None? ==> OnSchedule(d, interval, base, Below(n, prefix))
  {
    if n > 0 {
      DrainedOnSchedule(st, kinds, d0, order, prefix, interval, base, n - 1);
      var d := Drained(st, kinds, d0, order, prefix, n - 1);
      hide StepTarget, OnSchedule;
      if d.halted.None? && d.e.error.None? {
        StepKeepsSchedule(st, kinds, d, order[n - 1], n - 1 < prefix, interval, base, Below(n - 1, prefix));
      } else {
        StepStaysFailed(st, kinds, d, order[n - 1], n - 1 < prefix);
      }
    }
  }

  lemma FinishOnSchedule(st: Stages, d: Run, interval: nat, base: nat, n: nat)
    requires interval > 0 && (d.halted.None? && d.e.error.None? ==> OnSchedule(d, interval, base, n))
    ensures var r := FinishStreams(st, d);
            r.halted.None? && r.e.error.None? ==> OnSchedule(r, interval, base, n)
  {
    if d.halted.None? && st.finish(d.fuser).Ok? && Prepare(st, st.finish(d.fuser).value).Ok? {
      var ready := Prepare(st, st.finish(d.fuser).value).value;
      var records := d.records + ready;
      var more := EmitTailAppends(st, d.e, ready, st.links(d.outcomes, records), st.profiles(d.outcomes, records));
      DiskCallsJoin(d.e.trace, more);
      NoDiskCalls(more);
    }
  }

  lemma ConcludeSettles(st: Stages, d: Run, cancelled: bool, interval: nat, base: nat, n: nat)
    requires Shaped(d.tally) && interval > 0
    requires d.halted.None? && d.e.error.None? ==> OnSchedule(d, interval, base, n)
    ensures var (r, result) := Conclude(st, d, cancelled);
            result.Ok? ==> DiskCalls(r.e.trace) == Cadence(interval, base, n) + Settles(base, n, cancelled)
  {
    hide DiskCalls, Cadence;
    if d.halted.None? && d.e.error.None? && st.sinkError(d.e.log, Close).None? {
      var close := SinkEvent(SinkOp(Close, true));
      DiskCallsJoin(d.e.trace, [close]);
      NoDiskCalls([close]);
      var call := if cancelled && n > 0 then Save(base + n - 1) else Remove;
      var ok := st.diskError(|d.e.trace| + 1, call).None?;
      DiskCallsJoin(d.e.trace + [close], [DiskEvent(call, ok)]);
      OneDiskCall(call, ok);
      if cancelled && n == 0 { assert Cadence(interval, base, n) + [] == Cadence(interval, base, n); }
    }
  }

  /**
   Every run that ends well has saved a checkpoint after each `interval`-th target of the contiguous prefix and at
   no other time, and has then removed the file if it completed or recorded how far it got if it was cancelled.
   */
  lemma CheckpointsAreOnTime(st: Stages, kinds: seq<ProbeKind>, fuser: FuserState, interval: nat, base: nat,
                             order: seq<TargetScan>, cancelled: bool)
    requires AllInRange(kinds, order)
    ensures var (d, result) := StreamSpec(st, kinds, Start(fuser, Some(NewWriter(interval, base))), order, cancelled);
            var every, lead := if interval == 0 then 1 else interval, Lead(order, 0);
            result.Ok? ==> DiskCalls(d.e.trace) == Cadence(every, base, lead) + Settles(base, lead, cancelled)
  {
    var every, lead := if interval == 0 then 1 else interval, Lead(order, 0);
    var d0 := Start(fuser, Some(NewWriter(interval, base)));
    assert DiskCalls([]) == [] && OnSchedule(d0, every, base, 0);
    hide Drained, OnSchedule, FinishStreams, Conclude;
    DrainedOnSchedule(st, kinds, d0, order, lead, every, base, |order|);
    var drained := Drained(st, kinds, d0, order, lead, |order|);
    FinishOnSchedule(st, drained, every, base, lead);
    ConcludeSettles(st, FinishStreams(st, drained), cancelled, every, base, lead);
  }
}
