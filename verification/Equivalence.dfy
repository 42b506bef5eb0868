/** Streaming and batch are the same function of the scans: same sink log, counters, error, summary. */
module Equivalence {
  import opened Common
  import opened Scans
  import opened Accumulation
  import opened AccumulationLaws
  import opened Pipeline
  import opened Batch

  /** The fuser and the classifier never fail; the encoder and the sink still may, at any call. */
  ghost predicate Reliable(st: Stages) {
    && (forall f, o {:trigger st.ingest(f, o)} :: st.ingest(f, o).1.Ok?)
    && (forall f {:trigger st.finish(f)} :: st.finish(f).Ok?)
    && (forall r {:trigger st.classify(r)} :: st.classify(r).Ok?)
  }

  /** A target that produced no outcome leaves the fuser as it was. */
  ghost predicate IgnoresEmpty(st: Stages) {
    forall f {:trigger st.ingest(f, [])} :: st.ingest(f, []) == (f, Ok([]))
  }

  ghost predicate OneAddress(outcomes: seq<ProbeOutcome>) {
    forall o, q :: o in outcomes && q in outcomes ==> o.address == q.address
  }

  ghost predicate Apart(a: seq<ProbeOutcome>, b: seq<ProbeOutcome>) {
    forall o, q :: o in a && q in b ==> o.address != q.address
  }

  /** All outcomes of a target carry one address, and no other target's outcomes carry it. */
  ghost predicate OwnAddresses(order: seq<TargetScan>) {
    && (forall i :: 0 <= i < |order| ==> OneAddress(Outcomes(order[i].probes)))
    && (forall i, j :: 0 <= i < j < |order| ==> Apart(Outcomes(order[i].probes), Outcomes(order[j].probes)))
  }

  // ----- Grouping by address recovers the targets -----

  /** The outcomes of each target that has any, target by target. */
  function Targets(order: seq<TargetScan>): seq<seq<ProbeOutcome>> {
    if order == [] then []
    else
      var outcomes := Outcomes(order[|order| - 1].probes);
      Targets(order[..|order| - 1]) + (if outcomes == [] then [] else [outcomes])
  }

  ghost predicate NoneAt(groups: seq<seq<ProbeOutcome>>, a: Address) {
    forall k :: 0 <= k < |groups| && groups[k] != [] ==> groups[k][0].address != a
  }

  lemma {:induction false} GroupsAppend(outcomes: seq<ProbeOutcome>, more: seq<ProbeOutcome>, a: Address)
    requires more != [] && (forall o :: o in more ==> o.address == a) && NoneAt(Groups(outcomes), a)
    ensures Groups(outcomes + more) == Groups(outcomes) + [more]
  {
    hide Groups, GroupOf;
    var init, last := more[..|more| - 1], more[|more| - 1];
    assert more == init + [last] && last in more;
    GroupsNext(outcomes + init, last);
    assert (outcomes + init) + [last] == outcomes + more;
    var groups := Groups(outcomes);
    if init == [] {
      assert outcomes + init == outcomes && more == [last];
    } else {
      GroupsAppend(outcomes, init, a);
      assert init[0] in more;
      GroupOfLast(groups, init, a);
      assert (groups + [init])[|groups| := init + [last]] == groups + [more];
    }
  }

  lemma GroupsNext(outcomes: seq<ProbeOutcome>, last: ProbeOutcome)
    ensures Groups(outcomes + [last]) == AddToGroup(Groups(outcomes), last)
  {
    assert (outcomes + [last])[..|outcomes|] == outcomes;
  }

  lemma GroupOfLast(groups: seq<seq<ProbeOutcome>>, group: seq<ProbeOutcome>, a: Address)
    requires group != [] && group[0].address == a && NoneAt(groups, a)
    ensures GroupOf(groups + [group], a, 0) == |groups|
  {
    var all, i := groups + [group], GroupOf(groups + [group], a, 0);
    assert all[|groups|] == group;
    assert forall k :: 0 <= k < |groups| ==> all[k] == groups[k];
  }

  lemma {:induction false} TargetsHeads(order: seq<TargetScan>, k: nat)
    requires k < |Targets(order)|
    ensures Targets(order)[k] != []
    ensures exists i :: 0 <= i < |order| && Targets(order)[k][0] in Outcomes(order[i].probes)
  {
    var n := |order| - 1;
    if k < |Targets(order[..n])| {
      TargetsHeads(order[..n], k);
      var i :| 0 <= i < n && Targets(order[..n])[k][0] in Outcomes(order[..n][i].probes);
      assert order[..n][i] == order[i];
    } else {
      assert Targets(order)[k][0] in Outcomes(order[n].probes);
    }
  }

  lemma NewAddress(init: seq<TargetScan>, scan: TargetScan, a: Address)
    requires OwnAddresses(init + [scan])
    requires Outcomes(scan.probes) != [] && a == Outcomes(scan.probes)[0].address
    ensures OwnAddresses(init) && NoneAt(Targets(init), a)
  {
    var order := init + [scan];
    assert order[|init|] == scan && forall i :: 0 <= i < |init| ==> order[i] == init[i];
    forall k | 0 <= k < |Targets(init)| && Targets(init)[k] != [] ensures Targets(init)[k][0].address != a {
      TargetsHeads(init, k);
      var i :| 0 <= i < |init| && Targets(init)[k][0] in Outcomes(init[i].probes);
      assert Apart(Outcomes(order[i].probes), Outcomes(order[|init|].probes));
    }
  }

  lemma {:induction false} GroupsAreTargets(order: seq<TargetScan>)
    requires OwnAddresses(order)
    ensures Groups(AllOutcomes(order)) == Targets(order)
  {
    if order != [] {
      var init, scan := order[..|order| - 1], order[|order| - 1];
      assert order == init + [scan];
      assert OwnAddresses(init);
      GroupsAreTargets(init);
      var outcomes := Outcomes(scan.probes);
      if outcomes == [] {
        assert AllOutcomes(init) + outcomes == AllOutcomes(init);
      } else {
        NewAddress(init, scan, outcomes[0].address);
        GroupsAppend(AllOutcomes(init), outcomes, outcomes[0].address);
      }
    }
  }

  // ----- Ingesting target by target -----

  /** The fuser after the targets of `order`, and the records it released on the way. */
  function Ingested(st: Stages, fuser: FuserState, order: seq<TargetScan>): (FuserState, seq<Record>) {
    if order == [] then (fuser, [])
    else
      var (f, records) := Ingested(st, fuser, order[..|order| - 1]);
      var (f', fused) := st.ingest(f, Outcomes(order[|order| - 1].probes));
      (f', if fused.Ok? then records + fused.value else records)
  }

  lemma {:induction false} DriveIngests(st: Stages, fuser: FuserState, order: seq<TargetScan>)
    requires Reliable(st) && IgnoresEmpty(st)
    ensures Drive(st, fuser, Targets(order)) == (Ingested(st, fuser, order).0, Ok(Ingested(st, fuser, order).1))
  {
    if order != [] {
      var init := order[..|order| - 1];
      DriveIngests(st, fuser, init);
      var outcomes := Outcomes(order[|order| - 1].probes);
      if outcomes == [] {
        assert Targets(order) == Targets(init);
        assert Ingested(st, fuser, init).1 + [] == Ingested(st, fuser, init).1;
      } else {
        assert Targets(order)[..|Targets(order)| - 1] == Targets(init);
      }
    }
  }

  function Ready(st: Stages, records: seq<Record>): seq<Record>
    requires Prepare(st, records).Ok?
  {
    Prepare(st, records).value
  }

  lemma {:induction false} ReliablePrepare(st: Stages, records: seq<Record>)
    requires Reliable(st)
    ensures Prepare(st, records).Ok?
  {
    if records != [] { ReliablePrepare(st, records[..|records| - 1]); }
  }

  lemma {:induction false} PrepareSplit(st: Stages, a: seq<Record>, b: seq<Record>)
    requires Prepare(st, a).Ok? && Prepare(st, b).Ok?
    ensures Prepare(st, a + b) == Ok(Ready(st, a) + Ready(st, b))
  {
    if b == [] {
      assert a + b == a && Ready(st, a) + Ready(st, b) == Ready(st, a);
    } else {
      assert (a + b)[..|a + b| - 1] == a + b[..|b| - 1];
      PrepareSplit(st, a, b[..|b| - 1]);
      var x := st.stamp(st.classify(b[|b| - 1]).value);
      assert Ready(st, a) + (Ready(st, b[..|b| - 1]) + [x]) == Ready(st, a) + Ready(st, b[..|b| - 1]) + [x];
    }
  }

  lemma DevicesSplit(a: seq<Record>, b: seq<Record>)
    ensures Devices(a + b) == Devices(a) + Devices(b)
  {
  }

  // ----- Emissions that differ only in their trace -----

  ghost predicate SameDelivery(a: Emission, b: Emission) {
    a.log == b.log && a.devices == b.devices && a.links == b.links && a.profiles == b.profiles && a.error == b.error
  }

  lemma {:induction false} EmitItemsAgree(st: Stages, a: Emission, b: Emission, items: seq<Item>)
    requires SameDelivery(a, b)
    ensures SameDelivery(EmitItems(st, a, items), EmitItems(st, b, items))
  {
    if items != [] {
      EmitItemsAgree(st, a, b, items[..|items| - 1]);
    }
  }

  lemma {:induction false} AllAttemptsInRange(kinds: seq<ProbeKind>, order: seq<TargetScan>)
    requires AllInRange(kinds, order)
    ensures InRange(kinds, AllAttempts(order))
  {
    if order != [] {
      AllAttemptsInRange(kinds, order[..|order| - 1]);
      assert order[|order| - 1] in order;
      assert forall a :: a in Attempts(order[|order| - 1]) ==> a.pass < |kinds|;
    }
  }

  // ----- The streaming run, described by what the batch run computes -----

  /** After the targets of `order`: the fuser and the assemblers lag behind only once emission has
      stopped, and then nothing they hold is ever delivered. */
  ghost predicate Tracks(st: Stages, kinds: seq<ProbeKind>, fuser: FuserState, order: seq<TargetScan>, d: Run)
    requires InRange(kinds, AllAttempts(order)) && Prepare(st, Ingested(st, fuser, order).1).Ok?
  {
    var ready := Ready(st, Ingested(st, fuser, order).1);
    && d.halted.None? && d.writer.None?
    && d.tally == ObserveAll(kinds, Empty(), AllAttempts(order))
    && SameDelivery(d.e, EmitItems(st, Start(fuser, None).e, Devices(ready)))
    && (d.e.error.None? ==>
          d.fuser == Ingested(st, fuser, order).0 && d.outcomes == AllOutcomes(order) && d.records == ready)
  }

  lemma TracksStep(st: Stages, kinds: seq<ProbeKind>, fuser: FuserState, init: seq<TargetScan>, scan: TargetScan,
                   d: Run, inPrefix: bool)
    requires Reliable(st) && AllInRange(kinds, init) && ScanInRange(kinds, scan)
    requires InRange(kinds, AllAttempts(init)) && InRange(kinds, AllAttempts(init + [scan]))
    requires Prepare(st, Ingested(st, fuser, init).1).Ok? && Prepare(st, Ingested(st, fuser, init + [scan]).1).Ok?
    requires Tracks(st, kinds, fuser, init, d) && Shaped(d.tally)
    ensures Tracks(st, kinds, fuser, init + [scan], StepTarget(st, kinds, d, scan, inPrefix))
  {
    var order := init + [scan];
    assert order[..|order| - 1] == init;
    ObserveAllSplit(kinds, Empty(), AllAttempts(init), Attempts(scan));
    var (f, records) := Ingested(st, fuser, init);
    var more := st.ingest(f, Outcomes(scan.probes)).1.value;
    ReliablePrepare(st, more);
    PrepareSplit(st, records, more);
    DevicesSplit(Ready(st, records), Ready(st, more));
    var e := EmitItems(st, Start(fuser, None).e, Devices(Ready(st, records)));
    EmitItemsSplit(st, Start(fuser, None).e, Devices(Ready(st, records)), Devices(Ready(st, more)));
    if d.e.error.Some? {
      EmitItemsStopped(st, e, Devices(Ready(st, more)));
    } else {
      EmitItemsAgree(st, d.e, e, Devices(Ready(st, more)));
    }
  }

  lemma {:induction false} DrainTracks(st: Stages, kinds: seq<ProbeKind>, fuser: FuserState, order: seq<TargetScan>,
                                       prefix: nat, n: nat)
    requires Reliable(st) && AllInRange(kinds, order) && n <= |order|
    ensures InRange(kinds, AllAttempts(order[..n])) && Prepare(st, Ingested(st, fuser, order[..n]).1).Ok?
    ensures Tracks(st, kinds, fuser, order[..n], Drained(st, kinds, Start(fuser, None), order, prefix, n))
  {
    AllAttemptsInRange(kinds, order[..n]);
    ReliablePrepare(st, Ingested(st, fuser, order[..n]).1);
    if n > 0 {
      DrainTracks(st, kinds, fuser, order, prefix, n - 1);
      assert order[..n] == order[..n - 1] + [order[n - 1]];
      TracksStep(st, kinds, fuser, order[..n - 1], order[n - 1],
                 Drained(st, kinds, Start(fuser, None), order, prefix, n - 1), n - 1 < prefix);
    }
  }

  /** The tail of a streaming run delivers what the whole batch run delivers. */
  lemma FinishAgrees(st: Stages, kinds: seq<ProbeKind>, fuser: FuserState, order: seq<TargetScan>, d: Run)
    requires Reliable(st) && IgnoresEmpty(st) && OwnAddresses(order)
    requires InRange(kinds, AllAttempts(order)) && Prepare(st, Ingested(st, fuser, order).1).Ok?
    requires Tracks(st, kinds, fuser, order, d)
    ensures DriveAndPrepare(st, fuser, AllOutcomes(order)).Ok?
    ensures var ready := DriveAndPrepare(st, fuser, AllOutcomes(order)).value;
            var outcomes := AllOutcomes(order);
            && FinishStreams(st, d).halted.None? && FinishStreams(st, d).writer.None?
            && FinishStreams(st, d).tally == d.tally
            && SameDelivery(FinishStreams(st, d).e,
                 EmitTail(st, Start(fuser, None).e, ready, st.links(outcomes, ready), st.profiles(outcomes, ready)))
  {
    GroupsAreTargets(order);
    DriveIngests(st, fuser, order);
    var (f, records) := Ingested(st, fuser, order);
    var tail, outcomes := st.finish(f).value, AllOutcomes(order);
    ReliablePrepare(st, tail);
    ReliablePrepare(st, st.finish(d.fuser).value);
    PrepareSplit(st, records, tail);
    DevicesSplit(Ready(st, records), Ready(st, tail));
    var ready := Ready(st, records) + Ready(st, tail);
    var e0 := Start(fuser, None).e;
    var e := EmitItems(st, e0, Devices(Ready(st, records)));
    EmitItemsSplit(st, e0, Devices(Ready(st, records)), Devices(Ready(st, tail)));
    TailAgrees(st, d, e, Ready(st, st.finish(d.fuser).value), Ready(st, tail), outcomes, ready);
  }

  lemma TailAgrees(st: Stages, d: Run, e: Emission, mine: seq<Record>, tail: seq<Record>, outcomes: seq<ProbeOutcome>,
                   ready: seq<Record>)
    requires SameDelivery(d.e, e)
    requires d.e.error.None? ==> mine == tail && d.outcomes == outcomes && d.records + tail == ready
    ensures SameDelivery(
              EmitTail(st, d.e, mine, st.links(d.outcomes, d.records + mine),
                       st.profiles(d.outcomes, d.records + mine)),
              EmitTail(st, e, tail, st.links(outcomes, ready), st.profiles(outcomes, ready)))
  {
    if d.e.error.Some? {
      EmitItemsStopped(st, d.e, Devices(mine));
      EmitItemsStopped(st, d.e, LinkItems(st.links(d.outcomes, d.records + mine)));
      EmitItemsStopped(st, d.e, ProfileItems(st.profiles(d.outcomes, d.records + mine)));
      EmitItemsStopped(st, e, Devices(tail));
      EmitItemsStopped(st, e, LinkItems(st.links(outcomes, ready)));
      EmitItemsStopped(st, e, ProfileItems(st.profiles(outcomes, ready)));
    } else {
      var links, profiles := LinkItems(st.links(outcomes, ready)), ProfileItems(st.profiles(outcomes, ready));
      EmitItemsAgree(st, d.e, e, Devices(tail));
      var a, b := EmitItems(st, d.e, Devices(tail)), EmitItems(st, e, Devices(tail));
      EmitItemsAgree(st, a, b, links);
      EmitItemsAgree(st, EmitItems(st, a, links), EmitItems(st, b, links), profiles);
    }
  }

  /**
   For every set of delivered targets and every failure of the encoder or the sink, the streaming run
   and the batch run make the same sink calls with the same answers, count the same records and
   return the same summary or the same error.
   */
  lemma StreamingEqualsBatch(st: Stages, kinds: seq<ProbeKind>, fuser: FuserState, order: seq<TargetScan>,
                             cancelled: bool)
    requires Reliable(st) && IgnoresEmpty(st)
    requires AllInRange(kinds, order) && OwnAddresses(order)
    ensures InRange(kinds, AllAttempts(order))
    ensures var (s, streamed) := StreamSpec(st, kinds, Start(fuser, None), order, cancelled);
            var (b, batched) := BatchSpec(st, kinds, fuser, order, cancelled);
            streamed == batched && SameDelivery(s.e, b.e)
  {
    DrainTracks(st, kinds, fuser, order, Lead(order, 0), |order|);
    assert order[..|order|] == order;
    FinishAgrees(st, kinds, fuser, order, Drained(st, kinds, Start(fuser, None), order, Lead(order, 0), |order|));
  }
}
