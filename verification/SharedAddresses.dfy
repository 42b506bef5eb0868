/** Why the comparison with the batch reference needs each target to answer from its own address: for a
    fuser that makes one record per group, the two agree exactly then. */
module SharedAddresses {
  import opened Common
  import opened Scans
  import opened Accumulation
  import opened AccumulationLaws
  import opened Pipeline
  import opened Batch
  import opened Equivalence

  /** The direct fuser with unreachable hosts included: one record for each group with an outcome. */
  ghost predicate OnePerGroup(st: Stages) {
    && (forall f, o {:trigger st.ingest(f, o)} ::
          st.ingest(f, o).1.Ok? && |st.ingest(f, o).1.value| == if o == [] then 0 else 1)
    && (forall f {:trigger st.finish(f)} :: st.finish(f) == Ok([]))
  }

  /** Every record renders to something and the sink accepts every call. */
  ghost predicate Delivers(st: Stages) {
    && (forall r {:trigger st.classify(r)} :: st.classify(r).Ok?)
    && (forall i {:trigger st.encode(i)} :: st.encode(i).Ok? && st.encode(i).value != [])
    && (forall l, c {:trigger st.sinkError(l, c)} :: st.sinkError(l, c).None?)
  }

  lemma {:induction false} DevicesDelivered(st: Stages, e: Emission, items: seq<Item>)
    requires Delivers(st) && e.error.None?
    ensures EmitItems(st, e, items).error.None?
    ensures (forall i :: i in items ==> i.DeviceItem?) ==> EmitItems(st, e, items).devices == e.devices + |items|
    ensures (forall i :: i in items ==> !i.DeviceItem?) ==> EmitItems(st, e, items).devices == e.devices
  {
    if items != [] {
      assert items == items[..|items| - 1] + [items[|items| - 1]];
      DevicesDelivered(st, e, items[..|items| - 1]);
    }
  }

  lemma TailDelivered(st: Stages, e: Emission, tail: seq<Record>, links: seq<Link>, profiles: seq<Profile>)
    requires Delivers(st) && e.error.None?
    ensures EmitTail(st, e, tail, links, profiles).devices == e.devices + |tail|
  {
    DevicesDelivered(st, e, Devices(tail));
    var e1 := EmitItems(st, e, Devices(tail));
    DevicesDelivered(st, e1, LinkItems(links));
    DevicesDelivered(st, EmitItems(st, e1, LinkItems(links)), ProfileItems(profiles));
  }

  lemma {:induction false} PreparedLength(st: Stages, records: seq<Record>)
    requires Prepare(st, records).Ok?
    ensures |Prepare(st, records).value| == |records|
  {
    if records != [] { PreparedLength(st, records[..|records| - 1]); }
  }

  lemma {:induction false} IngestedLength(st: Stages, fuser: FuserState, order: seq<TargetScan>)
    requires OnePerGroup(st)
    ensures |Ingested(st, fuser, order).1| == |Targets(order)|
  {
    if order != [] { IngestedLength(st, fuser, order[..|order| - 1]); }
  }

  lemma {:induction false} DrivenLength(st: Stages, fuser: FuserState, groups: seq<seq<ProbeOutcome>>)
    requires OnePerGroup(st) && forall k :: 0 <= k < |groups| ==> groups[k] != []
    ensures Drive(st, fuser, groups).1.Ok? && |Drive(st, fuser, groups).1.value| == |groups|
  {
    if groups != [] {
      DrivenLength(st, fuser, groups[..|groups| - 1]);
    }
  }

  // ----- Counting groups -----

  ghost predicate HasAddress(outcomes: seq<ProbeOutcome>, a: Address) {
    exists o :: o in outcomes && o.address == a
  }

  lemma {:induction false} NoEmptyGroup(outcomes: seq<ProbeOutcome>)
    ensures forall k :: 0 <= k < |Groups(outcomes)| ==> Groups(outcomes)[k] != []
  {
    if outcomes != [] { NoEmptyGroup(outcomes[..|outcomes| - 1]); }
  }

  /** The groups are headed by exactly the addresses seen. */
  lemma {:induction false} GroupHeads(outcomes: seq<ProbeOutcome>, a: Address)
    ensures NoneAt(Groups(outcomes), a) <==> !HasAddress(outcomes, a)
  {
    if outcomes != [] {
      var init, last := outcomes[..|outcomes| - 1], outcomes[|outcomes| - 1];
      assert outcomes == init + [last];
      GroupHeads(init, a);
      NoEmptyGroup(init);
      var groups := Groups(init);
      var grown, i := AddToGroup(groups, last), GroupOf(groups, last.address, 0);
      assert forall k :: 0 <= k < |groups| ==> grown[k] != [] && grown[k][0] == groups[k][0];
      assert i < |groups| ==> groups[i][0].address == last.address;
      assert i == |groups| ==> grown[|groups|] == [last];
    }
  }

  lemma {:induction false} GroupsMerge(outcomes: seq<ProbeOutcome>, more: seq<ProbeOutcome>, a: Address)
    requires (forall o :: o in more ==> o.address == a) && HasAddress(outcomes, a)
    ensures |Groups(outcomes + more)| == |Groups(outcomes)|
  {
    if more == [] {
      assert outcomes + more == outcomes;
    } else {
      var init, last := more[..|more| - 1], more[|more| - 1];
      assert more == init + [last] && last in more;
      assert (outcomes + more)[..|outcomes + more| - 1] == outcomes + init;
      GroupsMerge(outcomes, init, a);
      var o :| o in outcomes && o.address == a;
      assert o in outcomes + init;
      GroupHeads(outcomes + init, a);
    }
  }

  lemma {:induction false} OutcomesOf(order: seq<TargetScan>, i: nat, o: ProbeOutcome)
    requires i < |order| && o in Outcomes(order[i].probes)
    ensures o in AllOutcomes(order)
  {
    if i < |order| - 1 {
      assert order[..|order| - 1][i] == order[i];
      OutcomesOf(order[..|order| - 1], i, o);
    }
  }

  lemma UnseenIsApart(init: seq<TargetScan>, outcomes: seq<ProbeOutcome>, a: Address)
    requires !HasAddress(AllOutcomes(init), a) && forall o :: o in outcomes ==> o.address == a
    ensures forall i :: 0 <= i < |init| ==> Apart(Outcomes(init[i].probes), outcomes)
  {
    forall i, o | 0 <= i < |init| && o in Outcomes(init[i].probes) ensures o.address != a {
      OutcomesOf(init, i, o);
    }
  }

  lemma OwnAddressesGrows(init: seq<TargetScan>, scan: TargetScan)
    requires OwnAddresses(init) && OneAddress(Outcomes(scan.probes))
    requires forall i :: 0 <= i < |init| ==> Apart(Outcomes(init[i].probes), Outcomes(scan.probes))
    ensures OwnAddresses(init + [scan])
  {
  }

  /** Sharing an address is the only way to have fewer groups than targets. */
  lemma {:induction false} GroupCount(order: seq<TargetScan>)
    requires forall i :: 0 <= i < |order| ==> OneAddress(Outcomes(order[i].probes))
    ensures |Groups(AllOutcomes(order))| <= |Targets(order)|
    ensures |Groups(AllOutcomes(order))| == |Targets(order)| ==> OwnAddresses(order)
  {
    if order != [] {
      var init, scan := order[..|order| - 1], order[|order| - 1];
      assert order == init + [scan];
      GroupCount(init);
      GroupCountStep(init, scan);
    }
  }

  lemma GroupCountStep(init: seq<TargetScan>, scan: TargetScan)
    requires |Groups(AllOutcomes(init))| <= |Targets(init)|
    requires |Groups(AllOutcomes(init))| == |Targets(init)| ==> OwnAddresses(init)
    requires OneAddress(Outcomes(scan.probes))
    ensures |Groups(AllOutcomes(init + [scan]))| <= |Targets(init + [scan])|
    ensures |Groups(AllOutcomes(init + [scan]))| == |Targets(init + [scan])| ==> OwnAddresses(init + [scan])
  {
    var outcomes := Outcomes(scan.probes);
    assert (init + [scan])[..|init|] == init;
    if outcomes == [] {
      assert AllOutcomes(init) + outcomes == AllOutcomes(init);
      if OwnAddresses(init) { OwnAddressesGrows(init, scan); }
    } else {
      var a := outcomes[0].address;
      assert outcomes[0] in outcomes;
      GroupHeads(AllOutcomes(init), a);
      if HasAddress(AllOutcomes(init), a) {
        GroupsMerge(AllOutcomes(init), outcomes, a);
      } else {
        GroupsAppend(AllOutcomes(init), outcomes, a);
        UnseenIsApart(init, outcomes, a);
        if OwnAddresses(init) { OwnAddressesGrows(init, scan); }
      }
    }
  }

  /** With nothing failing and one record per group, streaming and batch deliver the same number of
      device records exactly when no two targets share an address. */
  lemma AgreeExactlyOnOwnAddresses(st: Stages, kinds: seq<ProbeKind>, fuser: FuserState, order: seq<TargetScan>,
                                   cancelled: bool)
    requires OnePerGroup(st) && IgnoresEmpty(st) && Delivers(st) && AllInRange(kinds, order)
    requires forall i :: 0 <= i < |order| ==> OneAddress(Outcomes(order[i].probes))
    ensures InRange(kinds, AllAttempts(order))
    ensures (StreamSpec(st, kinds, Start(fuser, None), order, cancelled).0.e.devices ==
             BatchSpec(st, kinds, fuser, order, cancelled).0.e.devices) <==> OwnAddresses(order)
  {
    StreamedDevices(st, kinds, fuser, order, cancelled);
    BatchedDevices(st, kinds, fuser, order, cancelled);
    GroupCount(order);
    if OwnAddresses(order) { GroupsAreTargets(order); }
  }

  lemma ConcludeKeepsDevices(st: Stages, d: Run, cancelled: bool)
    requires Shaped(d.tally)
    ensures Conclude(st, d, cancelled).0.e.devices == d.e.devices
  {
  }

  lemma StreamedDevices(st: Stages, kinds: seq<ProbeKind>, fuser: FuserState, order: seq<TargetScan>, cancelled: bool)
    requires OnePerGroup(st) && Delivers(st) && AllInRange(kinds, order)
    ensures StreamSpec(st, kinds, Start(fuser, None), order, cancelled).0.e.devices == |Targets(order)|
  {
    DrainTracks(st, kinds, fuser, order, Lead(order, 0), |order|);
    assert order[..|order|] == order;
    var d := Drained(st, kinds, Start(fuser, None), order, Lead(order, 0), |order|);
    var ready := Ready(st, Ingested(st, fuser, order).1);
    IngestedLength(st, fuser, order);
    PreparedLength(st, Ingested(st, fuser, order).1);
    DevicesDelivered(st, Start(fuser, None).e, Devices(ready));
    TailDelivered(st, d.e, [], st.links(d.outcomes, d.records + []), st.profiles(d.outcomes, d.records + []));
    ConcludeKeepsDevices(st, FinishStreams(st, d), cancelled);
  }

  lemma BatchedDevices(st: Stages, kinds: seq<ProbeKind>, fuser: FuserState, order: seq<TargetScan>, cancelled: bool)
    requires OnePerGroup(st) && Delivers(st) && AllInRange(kinds, order)
    ensures InRange(kinds, AllAttempts(order))
    ensures BatchSpec(st, kinds, fuser, order, cancelled).0.e.devices == |Groups(AllOutcomes(order))|
  {
    AllAttemptsInRange(kinds, order);
    var outcomes := AllOutcomes(order);
    NoEmptyGroup(outcomes);
    DrivenLength(st, fuser, Groups(outcomes));
    var records := Drive(st, fuser, Groups(outcomes)).1.value;
    assert records + [] == records;
    ReliablePrepare(st, records);
    PreparedLength(st, records);
    var ready := Prepare(st, records).value;
    TailDelivered(st, Start(fuser, None).e, ready, st.links(outcomes, ready), st.profiles(outcomes, ready));
  }
}
