/** Crashes, cancellations and resumes of one scenario: no host is ever lost. */
module Resume {
  import opened Common
  import opened Scans
  import opened Accumulation
  import opened Pipeline
  import opened TraceLaws
  import opened CheckpointLaws
  import opened Deliveries

  /** What survives between runs: the checkpoint file, and the targets whose records are durable. */
  datatype World = World(file: Option<nat>, durable: set<nat>)

  /** One run: its collaborators, the scans it was delivered, and how many of its effects happened
      before the process died (all of them, if `cut` is past the end). */
  datatype Launch = Launch(
    st: Stages,
    kinds: seq<ProbeKind>,
    fuser: FuserState,
    interval: nat,
    order: seq<TargetScan>,
    cancelled: bool,
    cut: nat)

  /** `highest_flushed_index` of the checkpoint resumed from; a run without one starts at 0. */
  function Base(file: Option<nat>): nat { if file.Some? then file.value else 0 }

  /** The scans come from the targets left after skipping `base`; only a cancelled run misses any. */
  ghost predicate Delivered(l: Launch, total: nat, base: nat) {
    && base <= total && AllInRange(l.kinds, l.order) && Ascending(l.order)
    && (forall i :: 0 <= i < |l.order| ==> l.order[i].index < total - base)
    && (!l.cancelled ==> |l.order| == total - base)
  }

  ghost function Outcome(l: Launch, base: nat): (Run, Result<Summary, Error>)
    requires AllInRange(l.kinds, l.order)
  {
    StreamSpec(l.st, l.kinds, Start(l.fuser, Some(NewWriter(l.interval, base))), l.order, l.cancelled)
  }

  ghost predicate Crashes(l: Launch, base: nat)
    requires AllInRange(l.kinds, l.order)
  {
    l.cut < |Outcome(l, base).0.e.trace|
  }

  /** The effects that happened. */
  ghost function Effects(l: Launch, base: nat): seq<Event>
    requires AllInRange(l.kinds, l.order)
  {
    if Crashes(l, base) then Outcome(l, base).0.e.trace[..l.cut] else Outcome(l, base).0.e.trace
  }

  function FileAfter(file: Option<nat>, trace: seq<Event>): Option<nat> {
    if trace == [] then file
    else
      var before := FileAfter(file, trace[..|trace| - 1]);
      match trace[|trace| - 1]
      case DiskEvent(Save(k), true) => Some(k)
      case DiskEvent(Remove, true) => None
      case _ => before
  }

  /** The world after a run. A crash may also tear the records of the boundary target itself. */
  ghost predicate Leads(total: nat, w: World, l: Launch, w': World) {
    var base := Base(w.file);
    && Delivered(l, total, base)
    && w'.file == FileAfter(w.file, Effects(l, base))
    && forall g :: g in w.durable || (g >= base && Durable(Effects(l, base), g - base)) ==>
         g in w'.durable || (Crashes(l, base) && w'.file == Some(g))
  }

  ghost predicate History(total: nat, worlds: seq<World>, launches: seq<Launch>) {
    && |worlds| == |launches| + 1 && worlds[0].file.None?
    && forall i :: 0 <= i < |launches| ==> Leads(total, worlds[i], launches[i], worlds[i + 1])
  }

  /** Everything below the checkpoint is durable; the boundary itself need not be. */
  ghost predicate Safe(total: nat, w: World) {
    w.file.Some? ==> w.file.value < total && forall g :: 0 <= g < w.file.value ==> g in w.durable
  }

  ghost predicate AllDurable(total: nat, w: World) {
    forall g :: 0 <= g < total ==> g in w.durable
  }

  ghost predicate CompletesCleanly(l: Launch, base: nat)
    requires AllInRange(l.kinds, l.order)
  {
    !Crashes(l, base) && !l.cancelled && Outcome(l, base).1.Ok?
  }

  // ----- The file after a run -----

  /** Where the content of the file came from. */
  lemma {:induction false} FileOrigin(file: Option<nat>, trace: seq<Event>)
    ensures FileAfter(file, trace).Some? && FileAfter(file, trace) != file ==>
              exists j :: 0 <= j < |trace| && trace[j] == DiskEvent(Save(FileAfter(file, trace).value), true)
  {
    if trace != [] {
      var init := trace[..|trace| - 1];
      FileOrigin(file, init);
      if FileAfter(file, trace) == FileAfter(file, init) {
        if FileAfter(file, init).Some? && FileAfter(file, init) != file {
          var j :| 0 <= j < |init| && init[j] == DiskEvent(Save(FileAfter(file, init).value), true);
          assert trace[j] == init[j];
        }
      }
    }
  }

  lemma FullDelivery(order: seq<TargetScan>, n: nat)
    requires Ascending(order) && |order| == n && forall i :: 0 <= i < n ==> order[i].index < n
    ensures Lead(order, 0) == n
  {
    forall i | 0 <= i < n ensures order[i].index == i {
      Packed(order, n, i);
    }
  }

  lemma {:induction false} Packed(order: seq<TargetScan>, n: nat, i: nat)
    requires Ascending(order) && i < |order| && forall j :: 0 <= j < |order| ==> order[j].index < n
    ensures i <= order[i].index < n - (|order| - 1 - i)
    decreases i
  {
    Below(order, n, i);
    if i > 0 {
      Packed(order, n, i - 1);
      assert order[i - 1].index < order[i].index;
    }
  }

  lemma {:induction false} Below(order: seq<TargetScan>, n: nat, i: nat)
    requires Ascending(order) && i < |order| && forall j :: 0 <= j < |order| ==> order[j].index < n
    ensures order[i].index < n - (|order| - 1 - i)
    decreases |order| - i
  {
    if i < |order| - 1 {
      Below(order, n, i + 1);
      assert order[i].index < order[i + 1].index;
    }
  }

  // ----- One run -----

  /** A checkpoint recorded by this run covers every target up to it, all of them durable by now. */
  lemma RecordedIsCovered(l: Launch, total: nat, base: nat, j: nat)
    requires Delivered(l, total, base) && j < |Effects(l, base)| && IsSave(Effects(l, base)[j])
    ensures var k := Effects(l, base)[j].call.index;
            base <= k < total && forall i :: 0 <= i <= k - base ==> Durable(Effects(l, base), i)
  {
    CheckpointsAreSafe(l.st, l.kinds, l.fuser, l.interval, base, l.order, l.cancelled);
    var full, t := Outcome(l, base).0.e.trace, Effects(l, base);
    assert full[j] == t[j] && full[..j] == t[..j];
    var k := t[j].call.index;
    forall i | 0 <= i <= k - base ensures Durable(t, i) {
      assert Durable(full[..j], i);
      DurableGrows(t[..j], t[j..], i);
      assert t[..j] + t[j..] == t;
    }
    var lead := Lead(l.order, 0);
    if lead > 0 { assert l.order[lead - 1].index == lead - 1; }
  }

  lemma RunKeepsSafe(total: nat, w: World, l: Launch, w': World)
    requires Safe(total, w) && Leads(total, w, l, w')
    ensures Safe(total, w')
    ensures w.file.Some? && w'.file.Some? ==> w.file.value <= w'.file.value
  {
    var base, t := Base(w.file), Effects(l, Base(w.file));
    FileOrigin(w.file, t);
    if w'.file.Some? && w'.file != w.file {
      var j :| 0 <= j < |t| && t[j] == DiskEvent(Save(w'.file.value), true);
      RecordedIsCovered(l, total, base, j);
      forall g | 0 <= g < w'.file.value ensures g in w'.durable {
        if g >= base { assert Durable(t, g - base); }
      }
    }
  }

  lemma CleanRunIsComplete(total: nat, w: World, l: Launch, w': World)
    requires Safe(total, w) && Leads(total, w, l, w') && CompletesCleanly(l, Base(w.file))
    ensures AllDurable(total, w')
  {
    var base := Base(w.file);
    CheckpointsAreSafe(l.st, l.kinds, l.fuser, l.interval, base, l.order, l.cancelled);
    FullDelivery(l.order, total - base);
    forall g | 0 <= g < total ensures g in w'.durable {
      if g >= base { assert Durable(Effects(l, base), g - base); }
    }
  }

  // ----- Any history of runs -----

  lemma {:induction false} HistoryIsSafe(total: nat, worlds: seq<World>, launches: seq<Launch>, n: nat)
    requires History(total, worlds, launches) && n < |worlds|
    ensures Safe(total, worlds[n])
  {
    hide Leads;
    if n > 0 {
      assert worlds[n - 1 + 1] == worlds[n];
      HistoryIsSafe(total, worlds, launches, n - 1);
      RunKeepsSafe(total, worlds[n - 1], launches[n - 1], worlds[n]);
    }
  }

  /** Over any history of crashed, cancelled and resumed runs, once a run completes cleanly every
      target of the scenario is durable, even if every crash also tore its boundary target. */
  lemma NoTargetIsLost(total: nat, worlds: seq<World>, launches: seq<Launch>, n: nat)
    requires History(total, worlds, launches) && n < |launches|
    requires Delivered(launches[n], total, Base(worlds[n].file)) && CompletesCleanly(launches[n], Base(worlds[n].file))
    ensures AllDurable(total, worlds[n + 1])
  {
    HistoryIsSafe(total, worlds, launches, n);
    CleanRunIsComplete(total, worlds[n], launches[n], worlds[n + 1]);
  }

  /** The checkpoint never moves back while it exists, across any number of runs. */
  lemma {:induction false} CheckpointNeverRegresses(total: nat, worlds: seq<World>, launches: seq<Launch>, m: nat,
                                                    n: nat)
    requires History(total, worlds, launches) && m <= n < |worlds|
    requires forall i :: m <= i <= n ==> worlds[i].file.Some?
    ensures worlds[m].file.value <= worlds[n].file.value
    decreases n - m
  {
    hide Safe, Leads;
    if m < n {
      assert worlds[n - 1 + 1] == worlds[n];
      CheckpointNeverRegresses(total, worlds, launches, m, n - 1);
      HistoryIsSafe(total, worlds, launches, n - 1);
      RunKeepsSafe(total, worlds[n - 1], launches[n - 1], worlds[n]);
    }
  }

  // ----- What an emitted target stands for -----

  /** A fuser without cross-target state, the only kind a resumable scenario may use. */
  ghost predicate PerTarget(st: Stages) {
    forall f, o {:trigger st.ingest(f, o)} :: st.ingest(f, o).0 == f
  }

  function AllAccepted(calls: seq<SinkCall>): seq<Event> {
    seq(|calls|, i requires 0 <= i < |calls| => SinkEvent(SinkOp(calls[i], true)))
  }

  /** The accepted writes that deliver every record of a target: what the fuser made of its outcomes, classified,
      stamped and encoded. */
  ghost function Records(st: Stages, fuser: FuserState, scan: TargetScan): seq<Event> {
    var fused := st.ingest(fuser, Outcomes(scan.probes)).1;
    if fused.Ok? && Classifies(st, fused.value) then AllAccepted(DeviceStream(st, Stamped(st, fused.value))) else []
  }

  ghost predicate EndsWith(trace: seq<Event>, tail: seq<Event>) {
    |tail| <= |trace| && trace[|trace| - |tail|..] == tail
  }

  /** Each `Emitted` mark closes the delivery of all records of one of the scans. */
  ghost predicate Backed(st: Stages, fuser: FuserState, order: seq<TargetScan>, trace: seq<Event>) {
    forall p :: 0 <= p < |trace| && trace[p].Emitted? ==>
      exists s :: s in order && s.index == trace[p].index && EndsWith(trace[..p], Records(st, fuser, s))
  }

  lemma BackedGrows(st: Stages, fuser: FuserState, order: seq<TargetScan>, trace: seq<Event>, more: seq<Event>)
    requires Backed(st, fuser, order, trace) && forall i :: 0 <= i < |more| ==> !more[i].Emitted?
    ensures Backed(st, fuser, order, trace + more)
  {
    var all := trace + more;
    assert forall p :: |trace| <= p < |all| ==> all[p] == more[p - |trace|];
    forall p | 0 <= p < |all| && all[p].Emitted?
      ensures exists s :: s in order && s.index == all[p].index && EndsWith(all[..p], Records(st, fuser, s))
    {
      assert all[..p] == trace[..p] && all[p] == trace[p];
    }
  }

  lemma BackedMark(st: Stages, fuser: FuserState, order: seq<TargetScan>, trace: seq<Event>, scan: TargetScan)
    requires Backed(st, fuser, order, trace) && scan in order && EndsWith(trace, Records(st, fuser, scan))
    ensures Backed(st, fuser, order, trace + [Emitted(scan.index)])
  {
    var all := trace + [Emitted(scan.index)];
    forall p | 0 <= p < |all| && all[p].Emitted?
      ensures exists s :: s in order && s.index == all[p].index && EndsWith(all[..p], Records(st, fuser, s))
    {
      if p < |trace| {
        assert all[..p] == trace[..p] && all[p] == trace[p];
      } else {
        assert all[..p] == trace;
      }
    }
  }

  lemma {:induction false} EmitItemsDeliver(st: Stages, e: Emission, records: seq<Record>)
    requires EmitItems(st, e, Devices(records)).error.None?
    ensures e.error.None?
    ensures EmitItems(st, e, Devices(records)).trace == e.trace + AllAccepted(DeviceStream(st, records))
  {
    if records != [] {
      var init := records[..|records| - 1];
      assert Devices(records)[..|records| - 1] == Devices(init);
      EmitItemsDeliver(st, e, init);
    }
  }

  lemma StepBacked(st: Stages, kinds: seq<ProbeKind>, fuser: FuserState, order: seq<TargetScan>, d: Run,
                   scan: TargetScan, inPrefix: bool)
    requires PerTarget(st) && d.fuser == fuser && Backed(st, fuser, order, d.e.trace)
    requires ScanInRange(kinds, scan) && Shaped(d.tally) && scan in order
    ensures var r := StepTarget(st, kinds, d, scan, inPrefix);
            r.fuser == fuser && Backed(st, fuser, order, r.e.trace)
  {
    hide Backed;
    if d.halted.None? {
      var tallied := d.(tally := ObserveAll(kinds, d.tally, Attempts(scan)));
      var emitted := tallied;
      if tallied.e.error.None? {
        emitted := EmitTarget(st, tallied, scan.probes);
        var more := TargetEmissionAppends(st, tallied, scan.probes);
        BackedGrows(st, fuser, order, d.e.trace, more);
        if emitted.halted.None? && emitted.e.error.None? {
          var fused := st.ingest(fuser, Outcomes(scan.probes)).1.value;
          PrepareFinishes(st, fused);
          EmitItemsDeliver(st, tallied.e, Stamped(st, fused));
          BackedMark(st, fuser, order, emitted.e.trace, scan);
        }
      }
      if emitted.halted.None? {
        var counted := Mark(emitted, scan.index).(next := emitted.next + 1);
        var more := CheckpointAppends(st, counted);
        BackedGrows(st, fuser, order, counted.e.trace, more);
      }
    }
  }

  lemma CheckpointAppends(st: Stages, d: Run) returns (more: seq<Event>)
    ensures MaybeCheckpoint(st, d).e.trace == d.e.trace + more && MaybeCheckpoint(st, d).fuser == d.fuser
    ensures forall i :: 0 <= i < |more| ==> !more[i].Emitted?
  {
    more := MaybeCheckpoint(st, d).e.trace[|d.e.trace|..];
  }

  lemma {:induction false} DrainedBacked(st: Stages, kinds: seq<ProbeKind>, d0: Run, order: seq<TargetScan>,
                                         prefix: nat, n: nat)
    requires PerTarget(st) && AllInRange(kinds, order) && n <= |order| && Shaped(d0.tally) && d0.e.trace == []
    ensures var d := Drained(st, kinds, d0, order, prefix, n);
            d.fuser == d0.fuser && Backed(st, d0.fuser, order, d.e.trace)
  {
    if n > 0 {
      DrainedBacked(st, kinds, d0, order, prefix, n - 1);
      StepBacked(st, kinds, d0.fuser, order, Drained(st, kinds, d0, order, prefix, n - 1), order[n - 1],
                 n - 1 < prefix);
    }
  }

  /** In a resumed run, a target marked emitted is one of those left after the checkpoint, counted from there,
      and the mark is preceded by the accepted writes of all its records. */
  lemma EmittedTargetsAreDelivered(l: Launch, total: nat, base: nat, p: nat)
    requires Delivered(l, total, base) && PerTarget(l.st)
    requires p < |Effects(l, base)| && Effects(l, base)[p].Emitted?
    ensures var t := Effects(l, base);
            && base + t[p].index < total
            && exists s :: s in l.order && s.index == t[p].index && EndsWith(t[..p], Records(l.st, l.fuser, s))
  {
    RunBacked(l, base);
    var full, t := Outcome(l, base).0.e.trace, Effects(l, base);
    assert full[p] == t[p] && full[..p] == t[..p];
    var s :| s in l.order && s.index == full[p].index && EndsWith(full[..p], Records(l.st, l.fuser, s));
  }

  lemma RunBacked(l: Launch, base: nat)
    requires AllInRange(l.kinds, l.order) && PerTarget(l.st)
    ensures Backed(l.st, l.fuser, l.order, Outcome(l, base).0.e.trace)
  {
    var d0 := Start(l.fuser, Some(NewWriter(l.interval, base)));
    hide Backed, FinishStreams, Conclude;
    DrainedBacked(l.st, l.kinds, d0, l.order, Lead(l.order, 0), |l.order|);
    var drained := Drained(l.st, l.kinds, d0, l.order, Lead(l.order, 0), |l.order|);
    var more := FinishAppends(l.st, drained);
    BackedGrows(l.st, l.fuser, l.order, drained.e.trace, more);
    var tail := ConcludeAppends(l.st, FinishStreams(l.st, drained), l.cancelled);
    BackedGrows(l.st, l.fuser, l.order, drained.e.trace + more, tail);
  }

  lemma FinishAppends(st: Stages, d: Run) returns (more: seq<Event>)
    ensures FinishStreams(st, d).e.trace == d.e.trace + more && FinishStreams(st, d).tally == d.tally
    ensures forall i :: 0 <= i < |more| ==> !more[i].Emitted?
  {
    more := [];
    if d.halted.None? {
      var finished := st.finish(d.fuser);
      more := [Stopped];
      if finished.Ok? && Prepare(st, finished.value).Ok? {
        var ready := Prepare(st, finished.value).value;
        var records := d.records + ready;
        more := EmitTailAppends(st, d.e, ready, st.links(d.outcomes, records), st.profiles(d.outcomes, records));
      }
    }
  }

  // ----- From durable targets back to their records -----

  /** The run wrote all records of target `g`, had each write accepted, and flushed or closed the sink after. */
  ghost predicate Committed(l: Launch, base: nat, g: nat)
    requires AllInRange(l.kinds, l.order)
  {
    exists p, q :: CommittedAt(l, base, g, p, q)
  }

  ghost predicate CommittedAt(l: Launch, base: nat, g: nat, p: nat, q: nat)
    requires AllInRange(l.kinds, l.order)
  {
    var t := Effects(l, base);
    && g >= base && p < q < |t| && t[p] == Emitted(g - base) && Commits(t[q])
    && exists s :: s in l.order && s.index == g - base && EndsWith(t[..p], Records(l.st, l.fuser, s))
  }

  lemma DurableIsCommitted(l: Launch, total: nat, base: nat, g: nat)
    requires Delivered(l, total, base) && PerTarget(l.st) && g >= base && Durable(Effects(l, base), g - base)
    ensures Committed(l, base, g)
  {
    var t := Effects(l, base);
    var p, q :| 0 <= p < q < |t| && t[p] == Emitted(g - base) && Commits(t[q]);
    EmittedTargetsAreDelivered(l, total, base, p);
    assert CommittedAt(l, base, g, p, q);
  }

  /** Nothing is durable but what these runs made so. */
  ghost predicate NothingElse(worlds: seq<World>, launches: seq<Launch>)
    requires |worlds| == |launches| + 1
  {
    && worlds[0].durable == {}
    && forall i :: 0 <= i < |launches| ==> MadeBy(worlds[i], launches[i], worlds[i + 1])
  }

  ghost predicate MadeBy(w: World, l: Launch, w': World) {
    var base := Base(w.file);
    && AllInRange(l.kinds, l.order)
    && forall g :: g in w'.durable ==> g in w.durable || (g >= base && Durable(Effects(l, base), g - base))
  }

  /** A durable target was committed by one of the runs, and no crash since has torn it. */
  lemma {:induction false} DurableHasOrigin(total: nat, worlds: seq<World>, launches: seq<Launch>, n: nat, g: nat)
    returns (i: nat)
    requires History(total, worlds, launches) && n < |worlds| && g in worlds[n].durable
    requires NothingElse(worlds, launches) && forall k :: 0 <= k < |launches| ==> PerTarget(launches[k].st)
    ensures i < n && AllInRange(launches[i].kinds, launches[i].order) && Committed(launches[i], Base(worlds[i].file), g)
    ensures forall k :: i < k <= n ==> g in worlds[k].durable
    decreases n
  {
    hide PerTarget, Committed, AllInRange, Effects, Delivered;
    assert n > 0;
    var before, l := worlds[n - 1], launches[n - 1];
    assert MadeBy(before, l, worlds[n - 1 + 1]) && Leads(total, before, l, worlds[n - 1 + 1]);
    if g in before.durable {
      i := DurableHasOrigin(total, worlds, launches, n - 1, g);
    } else {
      i := n - 1;
      DurableIsCommitted(l, total, Base(before.file), g);
    }
  }

  /** After any crashes, cancellations and resumes, a run that completes cleanly leaves every target with all
      its records written, accepted and committed by one of the runs, and not torn since. */
  lemma EveryRecordIsCommitted(total: nat, worlds: seq<World>, launches: seq<Launch>, n: nat, g: nat) returns (i: nat)
    requires History(total, worlds, launches) && n < |launches| && g < total
    requires NothingElse(worlds, launches) && forall k :: 0 <= k < |launches| ==> PerTarget(launches[k].st)
    requires Delivered(launches[n], total, Base(worlds[n].file)) && CompletesCleanly(launches[n], Base(worlds[n].file))
    ensures i <= n && AllInRange(launches[i].kinds, launches[i].order)
    ensures Committed(launches[i], Base(worlds[i].file), g)
    ensures forall k :: i < k <= n + 1 ==> g in worlds[k].durable
  {
    NoTargetIsLost(total, worlds, launches, n);
    i := DurableHasOrigin(total, worlds, launches, n + 1, g);
  }
}
