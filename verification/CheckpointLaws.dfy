/** What a recorded checkpoint promises: everything up to its index has been emitted and committed. */
module CheckpointLaws {
  import opened Common
  import opened Scans
  import opened Accumulation
  import opened Pipeline
  import opened TraceLaws

  predicate Commits(ev: Event) {
    ev.SinkEvent? && !ev.op.call.Write? && ev.op.ok
  }

  predicate IsSave(ev: Event) { ev.DiskEvent? && ev.call.Save? }

  /** Every record of local target `i` was accepted, and a flush or a close has committed them since. */
  ghost predicate Durable(trace: seq<Event>, i: nat) {
    exists p, q :: 0 <= p < q < |trace| && trace[p] == Emitted(i) && Commits(trace[q])
  }

  /** Saving `k` is justified by `trace` for a run that started at `base`. */
  ghost predicate Justified(trace: seq<Event>, base: nat, k: nat) {
    k >= base && forall i :: 0 <= i <= k - base ==> Durable(trace, i)
  }

  /** Every save attempted so far was justified when made, and none went back; `top` bounds them. */
  ghost predicate SavesJustified(trace: seq<Event>, base: nat, top: nat) {
    && (forall j :: 0 <= j < |trace| && IsSave(trace[j]) ==>
          Justified(trace[..j], base, trace[j].call.index) && trace[j].call.index < top)
    && (forall i, j :: 0 <= i < j < |trace| && IsSave(trace[i]) && IsSave(trace[j]) ==>
          trace[i].call.index <= trace[j].call.index)
  }

  ghost predicate AllEmitted(trace: seq<Event>, n: nat) {
    forall i :: 0 <= i < n ==> Emitted(i) in trace
  }

  lemma DurableGrows(trace: seq<Event>, more: seq<Event>, i: nat)
    requires Durable(trace, i)
    ensures Durable(trace + more, i)
  {
    var p, q :| 0 <= p < q < |trace| && trace[p] == Emitted(i) && Commits(trace[q]);
    assert (trace + more)[p] == Emitted(i) && Commits((trace + more)[q]);
  }

  lemma CommitMakesDurable(trace: seq<Event>, ev: Event, n: nat)
    requires AllEmitted(trace, n) && Commits(ev)
    ensures forall i :: 0 <= i < n ==> Durable(trace + [ev], i)
  {
    var all := trace + [ev];
    forall i | 0 <= i < n ensures Durable(all, i) {
      assert Emitted(i) in trace;
      var p :| 0 <= p < |trace| && trace[p] == Emitted(i);
      assert all[p] == Emitted(i) && Commits(all[|trace|]);
    }
  }

  lemma AppendQuiet(trace: seq<Event>, more: seq<Event>, base: nat, top: nat, top': nat)
    requires SavesJustified(trace, base, top) && top <= top'
    requires forall i :: 0 <= i < |more| ==> !IsSave(more[i])
    ensures SavesJustified(trace + more, base, top')
  {
    var all := trace + more;
    assert forall j :: |trace| <= j < |all| ==> all[j] == more[j - |trace|];
    forall j | 0 <= j < |all| && IsSave(all[j]) ensures j < |trace| && all[..j] == trace[..j] && all[j] == trace[j] {
    }
  }

  lemma AppendSave(trace: seq<Event>, base: nat, top: nat, k: nat, ok: bool)
    requires SavesJustified(trace, base, top) && Justified(trace, base, k) && top <= k + 1
    ensures SavesJustified(trace + [DiskEvent(Save(k), ok)], base, k + 1)
  {
    var all := trace + [DiskEvent(Save(k), ok)];
    forall j | 0 <= j < |trace| ensures all[..j] == trace[..j] && all[j] == trace[j] {
    }
    assert all[..|trace|] == trace;
  }

  // ----- Through a run -----

  /** The state of a run that started at `base`: saves are justified and lie below the global position
      reached, and while nothing has failed every target counted has been emitted. */
  ghost predicate Tracked(d: Run, base: nat) {
    && d.writer.Some? && d.writer.value.base == base
    && SavesJustified(d.e.trace, base, base + d.next)
    && (d.e.error.None? && d.halted.None? ==> AllEmitted(d.e.trace, d.next))
  }

  lemma {:induction false} EmitItemsAppend(st: Stages, e: Emission, items: seq<Item>) returns (more: seq<Event>)
    ensures EmitItems(st, e, items).trace == e.trace + more
    ensures e.error.Some? ==> EmitItems(st, e, items).error.Some?
    ensures forall i :: 0 <= i < |more| ==> IsWrite(more[i]) || more[i].Stopped?
  {
    if items == [] {
      more := [];
    } else {
      var init := EmitItems(st, e, items[..|items| - 1]);
      var before := EmitItemsAppend(st, e, items[..|items| - 1]);
      var after := EmitItem(st, init, items[|items| - 1]);
      more := before + after.trace[|init.trace|..];
      assert after.trace == init.trace + after.trace[|init.trace|..];
    }
  }

  lemma TargetEmissionAppends(st: Stages, d: Run, probes: seq<Probe>) returns (more: seq<Event>)
    ensures EmitTarget(st, d, probes).e.trace == d.e.trace + more
    ensures forall i :: 0 <= i < |more| ==> IsWrite(more[i]) || more[i].Stopped?
    ensures EmitTarget(st, d, probes).writer == d.writer && EmitTarget(st, d, probes).next == d.next
  {
    var fused := st.ingest(d.fuser, Outcomes(probes)).1;
    if fused.Ok? && Prepare(st, fused.value).Ok? {
      more := EmitItemsAppend(st, d.e, Devices(Prepare(st, fused.value).value));
    } else {
      more := [Stopped];
    }
  }

  lemma CheckpointTracked(st: Stages, d: Run, base: nat)
    requires Tracked(d, base) && d.halted.None?
    ensures Tracked(MaybeCheckpoint(st, d), base) && MaybeCheckpoint(st, d).next == d.next
  {
    if d.e.error.None? && d.next > 0 && d.writer.value.Due(d.next) {
      var flushed := Called(st, d.e, Flush);
      var ev := SinkEvent(SinkOp(Flush, st.sinkError(d.e.log, Flush).None?));
      AppendQuiet(d.e.trace, [ev], base, base + d.next, base + d.next);
      if st.sinkError(d.e.log, Flush).Some? {
        AppendQuiet(flushed.trace, [Stopped], base, base + d.next, base + d.next);
      } else {
        CommitMakesDurable(d.e.trace, ev, d.next);
        var k := d.writer.value.RecordIndex(d.next);
        var failed := st.diskError(|flushed.trace|, Save(k));
        AppendSave(flushed.trace, base, base + d.next, k, failed.None?);
        var saved := SaveAt(st, flushed, k);
        if failed.Some? {
          AppendQuiet(saved.trace, [Stopped], base, base + d.next, base + d.next);
        } else {
          EmittedGrows(d.e.trace, [ev, DiskEvent(Save(k), true)], d.next);
          assert saved.trace == d.e.trace + [ev, DiskEvent(Save(k), true)];
        }
      }
    }
  }

  lemma EmittedGrows(trace: seq<Event>, more: seq<Event>, n: nat)
    ensures AllEmitted(trace, n) ==> AllEmitted(trace + more, n)
  {
  }

  lemma CountTargetTracked(st: Stages, d: Run, index: nat, inPrefix: bool, base: nat)
    requires Tracked(d, base) && d.halted.None? && (inPrefix ==> index == d.next)
    ensures Tracked(CountTarget(st, d, index, inPrefix), base)
    ensures CountTarget(st, d, index, inPrefix).next == d.next + if inPrefix then 1 else 0
  {
    hide MaybeCheckpoint, Durable;
    var marked := Mark(d, index);
    AppendQuiet(d.e.trace, [Emitted(index)], base, base + d.next, base + d.next);
    EmittedGrows(d.e.trace, [Emitted(index)], d.next);
    if inPrefix {
      var counted := marked.(next := marked.next + 1);
      AppendQuiet(marked.e.trace, [], base, base + d.next, base + counted.next);
      assert marked.e.trace + [] == marked.e.trace;
      assert d.e.error.None? ==> marked.e.trace[|d.e.trace|] == Emitted(index);
      CheckpointTracked(st, counted, base);
    }
  }

  lemma StepTracked(st: Stages, kinds: seq<ProbeKind>, d: Run, scan: TargetScan, inPrefix: bool, base: nat)
    requires ScanInRange(kinds, scan) && Shaped(d.tally) && Tracked(d, base) && d.halted.None?
    requires inPrefix ==> scan.index == d.next
    ensures Tracked(StepTarget(st, kinds, d, scan, inPrefix), base)
    ensures var r := StepTarget(st, kinds, d, scan, inPrefix);
            r.next == d.next + if r.halted.None? && inPrefix then 1 else 0
  {
    var tallied := d.(tally := ObserveAll(kinds, d.tally, Attempts(scan)));
    var emitted := tallied;
    if tallied.e.error.None? {
      emitted := EmitTarget(st, tallied, scan.probes);
      var more := TargetEmissionAppends(st, tallied, scan.probes);
      AppendQuiet(d.e.trace, more, base, base + d.next, base + d.next);
      EmittedGrows(d.e.trace, more, d.next);
    }
    if emitted.halted.None? {
      CountTargetTracked(st, emitted, scan.index, inPrefix, base);
    }
  }

  lemma {:induction false} DrainedTracked(st: Stages, kinds: seq<ProbeKind>, d0: Run, order: seq<TargetScan>, n: nat,
                                          base: nat)
    requires AllInRange(kinds, order) && n <= |order| && Shaped(d0.tally) && Tracked(d0, base) && d0.next == 0
    ensures Tracked(Drained(st, kinds, d0, order, Lead(order, 0), n), base)
    ensures var d := Drained(st, kinds, d0, order, Lead(order, 0), n);
            d.halted.None? ==> d.next == if n < Lead(order, 0) then n else Lead(order, 0)
  {
    if n > 0 {
      DrainedTracked(st, kinds, d0, order, n - 1, base);
      var d := Drained(st, kinds, d0, order, Lead(order, 0), n - 1);
      if d.halted.None? {
        StepTracked(st, kinds, d, order[n - 1], n - 1 < Lead(order, 0), base);
      }
    }
  }

  lemma EmitTailAppends(st: Stages, e: Emission, tail: seq<Record>, links: seq<Link>, profiles: seq<Profile>)
    returns (more: seq<Event>)
    ensures EmitTail(st, e, tail, links, profiles).trace == e.trace + more
    ensures e.error.Some? ==> EmitTail(st, e, tail, links, profiles).error.Some?
    ensures forall i :: 0 <= i < |more| ==> IsWrite(more[i]) || more[i].Stopped?
  {
    var a := EmitItemsAppend(st, e, Devices(tail));
    var e1 := EmitItems(st, e, Devices(tail));
    var b := EmitItemsAppend(st, e1, LinkItems(links));
    var c := EmitItemsAppend(st, EmitItems(st, e1, LinkItems(links)), ProfileItems(profiles));
    more := a + b + c;
  }

  lemma FinishTracked(st: Stages, d: Run, base: nat)
    requires Tracked(d, base)
    ensures Tracked(FinishStreams(st, d), base) && FinishStreams(st, d).next == d.next
  {
    if d.halted.None? {
      var finished := st.finish(d.fuser);
      var more := [Stopped];
      if finished.Ok? && Prepare(st, finished.value).Ok? {
        var ready := Prepare(st, finished.value).value;
        var records := d.records + ready;
        more := EmitTailAppends(st, d.e, ready, st.links(d.outcomes, records), st.profiles(d.outcomes, records));
      }
      AppendQuiet(d.e.trace, more, base, base + d.next, base + d.next);
      EmittedGrows(d.e.trace, more, d.next);
    }
  }

  lemma ConcludeTracked(st: Stages, d: Run, cancelled: bool, base: nat)
    requires Tracked(d, base) && Shaped(d.tally)
    ensures SavesJustified(Conclude(st, d, cancelled).0.e.trace, base, base + d.next)
    ensures Conclude(st, d, cancelled).1.Ok? ==>
              forall i :: 0 <= i < d.next ==> Durable(Conclude(st, d, cancelled).0.e.trace, i)
  {
    var close := SinkEvent(SinkOp(Close, st.sinkError(d.e.log, Close).None?));
    var closed := d.(e := Called(st, d.e, Close));
    AppendQuiet(d.e.trace, [close], base, base + d.next, base + d.next);
    if d.halted.None? && d.e.error.None? && Clean(close) && !(cancelled && d.next == 0) {
      CommitMakesDurable(d.e.trace, close, d.next);
      var call := if cancelled then Save(d.writer.value.RecordIndex(d.next)) else Remove;
      var ok := st.diskError(|closed.e.trace|, call).None?;
      if cancelled {
        AppendSave(closed.e.trace, base, base + d.next, call.index, ok);
      } else {
        AppendQuiet(closed.e.trace, [DiskEvent(call, ok)], base, base + d.next, base + d.next);
      }
      forall i | 0 <= i < d.next ensures Durable(closed.e.trace + [DiskEvent(call, ok)], i) {
        DurableGrows(closed.e.trace, [DiskEvent(call, ok)], i);
      }
    }
  }

  /**
   In every streaming run that checkpoints: whenever an index is recorded, every target up to it has
   been emitted and committed; recorded indices never go back and never fall below the position the
   run resumed from; and they never pass the contiguous prefix, whatever stragglers were emitted.
   */
  lemma CheckpointsAreSafe(st: Stages, kinds: seq<ProbeKind>, fuser: FuserState, interval: nat, base: nat,
                           order: seq<TargetScan>, cancelled: bool)
    requires AllInRange(kinds, order)
    ensures var (d, result) := StreamSpec(st, kinds, Start(fuser, Some(NewWriter(interval, base))), order, cancelled);
            && SavesJustified(d.e.trace, base, base + Lead(order, 0))
            && (result.Ok? ==> forall i :: 0 <= i < Lead(order, 0) ==> Durable(d.e.trace, i))
  {
    var d0 := Start(fuser, Some(NewWriter(interval, base)));
    DrainedTracked(st, kinds, d0, order, |order|, base);
    var drained := Drained(st, kinds, d0, order, Lead(order, 0), |order|);
    FinishTracked(st, drained, base);
    var body := FinishStreams(st, drained);
    ConcludeTracked(st, body, cancelled, base);
    NextBounded(st, kinds, d0, order, Lead(order, 0), |order|);
    var trace := Conclude(st, body, cancelled).0.e.trace;
    AppendQuiet(trace, [], base, base + body.next, base + Lead(order, 0));
    assert trace + [] == trace;
  }

  lemma {:induction false} NextBounded(st: Stages, kinds: seq<ProbeKind>, d0: Run, order: seq<TargetScan>,
                                       prefix: nat, n: nat)
    requires AllInRange(kinds, order) && n <= |order| && Shaped(d0.tally) && d0.next == 0
    ensures Drained(st, kinds, d0, order, prefix, n).next <= prefix
    ensures Drained(st, kinds, d0, order, prefix, n).next <= n
  {
    hide StepTarget;
    if n > 0 {
      NextBounded(st, kinds, d0, order, prefix, n - 1);
      StepNext(st, kinds, Drained(st, kinds, d0, order, prefix, n - 1), order[n - 1], n - 1 < prefix);
    }
  }

  lemma StepNext(st: Stages, kinds: seq<ProbeKind>, d: Run, scan: TargetScan, inPrefix: bool)
    requires ScanInRange(kinds, scan) && Shaped(d.tally)
    ensures StepTarget(st, kinds, d, scan, inPrefix).next <= d.next + if inPrefix then 1 else 0
  {
  }
}
