/**
 What a streaming run delivers, said without the pipeline's own steps: which records, links and profiles the
 sink is given, in what order, and what the summary counts.
 */
module Deliveries {
  import opened Common
  import opened Scans
  import opened Accumulation
  import opened AccumulationLaws
  import opened Pipeline
  import opened Batch

  // ----- the outcomes that are fused -----

  predicate Succeeded(p: Probe) { p.result.Ok? }

  /** The outcomes of a target are exactly the results of its probes that could be attempted, in their order. */
  lemma {:induction false} OutcomesAreTheOkResults(probes: seq<Probe>)
    ensures |Outcomes(probes)| == Count(probes, Succeeded)
    ensures forall i :: 0 <= i < |probes| && probes[i].result.Ok? ==>
              && Count(probes[..i], Succeeded) < |Outcomes(probes)|
              && Outcomes(probes)[Count(probes[..i], Succeeded)] == probes[i].result.value
  {
    if probes != [] {
      var first, rest := probes[..1], probes[1..];
      OutcomesAreTheOkResults(rest);
      assert probes == first + rest;
      CountSplit(first, rest, Succeeded);
      CountLast([], probes[0], Succeeded);
      assert [] + [probes[0]] == first;
      forall i | 0 <= i < |probes| && probes[i].result.Ok?
        ensures Count(probes[..i], Succeeded) < |Outcomes(probes)|
        ensures Outcomes(probes)[Count(probes[..i], Succeeded)] == probes[i].result.value
      {
        if i > 0 {
          assert probes[..i] == first + rest[..i - 1] && rest[i - 1] == probes[i];
          CountSplit(first, rest[..i - 1], Succeeded);
        }
      }
    }
  }

  // ----- the records that are written -----

  ghost predicate Classifies(st: Stages, records: seq<Record>) {
    forall i :: 0 <= i < |records| ==> st.classify(records[i]).Ok?
  }

  /** Each record classified, and then stamped with the scan's metadata. */
  ghost function Stamped(st: Stages, records: seq<Record>): seq<Record>
    requires Classifies(st, records)
  {
    seq(|records|, i requires 0 <= i < |records| => st.stamp(st.classify(records[i]).value))
  }

  /** The fuser after the targets of `order`, the records it has released, and whether every target so far could
      be fused and classified; the first that cannot ends it. */
  ghost function Released(st: Stages, fuser: FuserState, order: seq<TargetScan>)
    : (r: (FuserState, seq<Record>, bool))
    ensures Classifies(st, r.1)
  {
    if order == [] then (fuser, [], true)
    else
      var (f, records, through) := Released(st, fuser, order[..|order| - 1]);
      var (f', fused) := st.ingest(f, Outcomes(order[|order| - 1].probes));
      if through && fused.Ok? && Classifies(st, fused.value) then (f', records + fused.value, true)
      else (f, records, false)
  }

  /** The writes of one stream: its non-empty encodings. */
  ghost function Stream<T>(kind: RecordKind, encode: T -> Result<Bytes, Error>, xs: seq<T>): seq<SinkCall> {
    if xs == [] then []
    else
      var written := encode(xs[|xs| - 1]);
      Stream(kind, encode, xs[..|xs| - 1]) +
      if written.Ok? && written.value != [] then [Write(kind, written.value)] else []
  }

  ghost function DeviceStream(st: Stages, records: seq<Record>): seq<SinkCall> {
    Stream(Device, (r: Record) => st.encode(DeviceItem(r)), records)
  }

  ghost function LinkStream(st: Stages, links: seq<Link>): seq<SinkCall> {
    Stream(TopologyLink, (l: Link) => st.encode(LinkItem(l)), links)
  }

  ghost function ProfileStream(st: Stages, profiles: seq<Profile>): seq<SinkCall> {
    Stream(CollectionProfile, (p: Profile) => st.encode(ProfileItem(p)), profiles)
  }

  /** All records of a run in which everything can be fused and classified. */
  ghost function AllRecords(st: Stages, fuser: FuserState, order: seq<TargetScan>): Option<seq<Record>> {
    var (f, records, through) := Released(st, fuser, order);
    if through && st.finish(f).Ok? && Classifies(st, st.finish(f).value)
    then Some(Stamped(st, records + st.finish(f).value)) else None
  }

  /** The writes of a run: the records target by target, then those the fuser held back, then the links and the
      profiles drawn from all outcomes and all records; without the latter three if something could not be fused
      or classified. */
  ghost function Expected(st: Stages, fuser: FuserState, order: seq<TargetScan>): seq<SinkCall> {
    match AllRecords(st, fuser, order)
    case None => DeviceStream(st, Stamped(st, Released(st, fuser, order).1))
    case Some(all) =>
      DeviceStream(st, all) + LinkStream(st, st.links(AllOutcomes(order), all))
                            + ProfileStream(st, st.profiles(AllOutcomes(order), all))
  }

  /** The writes the sink accepted. */
  function Accepted(log: seq<SinkOp>): seq<SinkCall> {
    if log == [] then []
    else
      var last := log[|log| - 1];
      Accepted(log[..|log| - 1]) + if last.ok && last.call.Write? then [last.call] else []
  }

  // ----- emission -----

  lemma AcceptedLast(log: seq<SinkOp>, op: SinkOp)
    ensures Accepted(log + [op]) == Accepted(log) + if op.ok && op.call.Write? then [op.call] else []
  {
    assert (log + [op])[..|log|] == log;
  }

  function Counter(e: Emission, kind: RecordKind): nat {
    match kind case Device => e.devices case TopologyLink => e.links case CollectionProfile => e.profiles
  }

  /** `r` is `e` with part of `writes` accepted, all of it if no error came up, each counted under `kind`. */
  ghost predicate Delivers(e: Emission, r: Emission, kind: RecordKind, writes: seq<SinkCall>) {
    && Accepted(e.log) <= Accepted(r.log) <= Accepted(e.log) + writes
    && (r.error.None? ==> e.error.None? && Accepted(r.log) == Accepted(e.log) + writes)
    && Counter(r, kind) == Counter(e, kind) + |Accepted(r.log)| - |Accepted(e.log)|
    && forall other :: other != kind ==> Counter(r, other) == Counter(e, other)
  }

  lemma EmitOneDelivers(st: Stages, e: Emission, item: Item)
    ensures var written := st.encode(item);
            Delivers(e, EmitItem(st, e, item), KindOf(item),
                     if written.Ok? && written.value != [] then [Write(KindOf(item), written.value)] else [])
  {
    hide Accepted;
    assert Accepted(e.log) + [] == Accepted(e.log);
    if e.error.None? && st.encode(item).Ok? && st.encode(item).value != [] {
      var call := Write(KindOf(item), st.encode(item).value);
      AcceptedLast(e.log, SinkOp(call, st.sinkError(e.log, call).None?));
    }
  }

  lemma DeliversThen(e: Emission, m: Emission, r: Emission, kind: RecordKind, a: seq<SinkCall>, b: seq<SinkCall>)
    requires Delivers(e, m, kind, a) && Delivers(m, r, kind, b) && (m.error.Some? ==> r == m)
    ensures Delivers(e, r, kind, a + b)
  {
    assert Accepted(e.log) + (a + b) == (Accepted(e.log) + a) + b;
  }

  lemma {:induction false} EmitDelivers<T>(st: Stages, e: Emission, items: seq<Item>, kind: RecordKind,
                                           encode: T -> Result<Bytes, Error>, xs: seq<T>)
    requires |items| == |xs|
    requires forall i :: 0 <= i < |xs| ==> KindOf(items[i]) == kind && st.encode(items[i]) == encode(xs[i])
    ensures Delivers(e, EmitItems(st, e, items), kind, Stream(kind, encode, xs))
  {
    if items == [] {
      assert Accepted(e.log) + [] == Accepted(e.log);
    } else {
      var n := |items| - 1;
      var m := EmitItems(st, e, items[..n]);
      EmitDelivers(st, e, items[..n], kind, encode, xs[..n]);
      EmitOneDelivers(st, m, items[n]);
      var written := encode(xs[n]);
      var last := if written.Ok? && written.value != [] then [Write(kind, written.value)] else [];
      hide Delivers;
      DeliversThen(e, m, EmitItem(st, m, items[n]), kind, Stream(kind, encode, xs[..n]), last);
    }
  }

  lemma DevicesDeliver(st: Stages, e: Emission, records: seq<Record>)
    ensures Delivers(e, EmitItems(st, e, Devices(records)), Device, DeviceStream(st, records))
  {
    EmitDelivers(st, e, Devices(records), Device, (r: Record) => st.encode(DeviceItem(r)), records);
  }

  lemma LinksDeliver(st: Stages, e: Emission, links: seq<Link>)
    ensures Delivers(e, EmitItems(st, e, LinkItems(links)), TopologyLink, LinkStream(st, links))
  {
    EmitDelivers(st, e, LinkItems(links), TopologyLink, (l: Link) => st.encode(LinkItem(l)), links);
  }

  lemma ProfilesDeliver(st: Stages, e: Emission, profiles: seq<Profile>)
    ensures Delivers(e, EmitItems(st, e, ProfileItems(profiles)), CollectionProfile, ProfileStream(st, profiles))
  {
    EmitDelivers(st, e, ProfileItems(profiles), CollectionProfile, (p: Profile) => st.encode(ProfileItem(p)), profiles);
  }

  lemma {:induction false} StreamSplit<T>(kind: RecordKind, encode: T -> Result<Bytes, Error>, a: seq<T>, b: seq<T>)
    ensures Stream(kind, encode, a + b) == Stream(kind, encode, a) + Stream(kind, encode, b)
  {
    if b == [] {
      assert a + b == a;
    } else {
      assert (a + b)[..|a + b| - 1] == a + b[..|b| - 1];
      StreamSplit(kind, encode, a, b[..|b| - 1]);
    }
  }

  lemma FinishedSplit(st: Stages, a: seq<Record>, b: seq<Record>)
    requires Classifies(st, a) && Classifies(st, b)
    ensures Classifies(st, a + b) && Stamped(st, a + b) == Stamped(st, a) + Stamped(st, b)
    ensures DeviceStream(st, Stamped(st, a + b)) ==
            DeviceStream(st, Stamped(st, a)) + DeviceStream(st, Stamped(st, b))
  {
    assert Stamped(st, a + b) == Stamped(st, a) + Stamped(st, b);
    StreamSplit(Device, (r: Record) => st.encode(DeviceItem(r)), Stamped(st, a), Stamped(st, b));
  }

  lemma {:induction false} PrepareFinishes(st: Stages, records: seq<Record>)
    ensures Prepare(st, records).Ok? <==> Classifies(st, records)
    ensures Classifies(st, records) ==> Prepare(st, records).value == Stamped(st, records)
  {
    if records != [] {
      PrepareFinishes(st, records[..|records| - 1]);
    }
  }

  // ----- target by target -----

  /** Where a run stands after the targets of `order`. */
  ghost predicate Stands(st: Stages, fuser: FuserState, order: seq<TargetScan>, d: Run) {
    var (f, records, through) := Released(st, fuser, order);
    && Accepted(d.e.log) <= DeviceStream(st, Stamped(st, records))
    && d.e.devices == |Accepted(d.e.log)| && d.e.links == 0 && d.e.profiles == 0
    && (d.e.error.None? ==>
          && (d.halted.None? <==> through)
          && Accepted(d.e.log) == DeviceStream(st, Stamped(st, records))
          && (through ==> d.fuser == f && d.outcomes == AllOutcomes(order) && d.records == Stamped(st, records)))
  }

  /** A checkpoint writes no record and changes nothing the records depend on. */
  lemma CountTargetQuiet(st: Stages, d: Run, index: nat, inPrefix: bool)
    ensures var r := CountTarget(st, d, index, inPrefix);
            && Accepted(r.e.log) == Accepted(d.e.log) && r.halted == d.halted && r.tally == d.tally
            && r.fuser == d.fuser && r.outcomes == d.outcomes && r.records == d.records
            && r.e.devices == d.e.devices && r.e.links == d.e.links && r.e.profiles == d.e.profiles
            && (d.e.error.Some? ==> r.e.error.Some?)
  {
    var marked := Mark(d, index);
    AcceptedLast(d.e.log, SinkOp(Flush, st.sinkError(d.e.log, Flush).None?));
  }

  lemma TargetDelivers(st: Stages, d: Run, probes: seq<Probe>)
    requires d.halted.None? && d.e.error.None?
    ensures var (f, fused) := st.ingest(d.fuser, Outcomes(probes));
            var r := EmitTarget(st, d, probes);
            && r.fuser == f && r.outcomes == d.outcomes + Outcomes(probes) && r.tally == d.tally
            && if fused.Ok? && Classifies(st, fused.value)
               then && r.halted.None? && r.records == d.records + Stamped(st, fused.value)
                    && Delivers(d.e, r.e, Device, DeviceStream(st, Stamped(st, fused.value)))
               else r.halted.Some? && r.e == d.e.(trace := r.e.trace)
  {
    var fused := st.ingest(d.fuser, Outcomes(probes)).1;
    if fused.Ok? {
      PrepareFinishes(st, fused.value);
      if Classifies(st, fused.value) { DevicesDeliver(st, d.e, Stamped(st, fused.value)); }
    }
  }

  lemma ReleasedNext(st: Stages, fuser: FuserState, order: seq<TargetScan>, scan: TargetScan)
    ensures var (f, records, through) := Released(st, fuser, order);
            var (f', fused) := st.ingest(f, Outcomes(scan.probes));
            Released(st, fuser, order + [scan]) ==
            if through && fused.Ok? && Classifies(st, fused.value) then (f', records + fused.value, true)
            else (f, records, false)
    ensures AllOutcomes(order + [scan]) == AllOutcomes(order) + Outcomes(scan.probes)
  {
    assert (order + [scan])[..|order|] == order;
  }

  lemma StandsNext(st: Stages, kinds: seq<ProbeKind>, fuser: FuserState, order: seq<TargetScan>, scan: TargetScan,
                   d: Run, inPrefix: bool)
    requires Stands(st, fuser, order, d) && ScanInRange(kinds, scan) && Shaped(d.tally)
    ensures Stands(st, fuser, order + [scan], StepTarget(st, kinds, d, scan, inPrefix))
  {
    ReleasedNext(st, fuser, order, scan);
    var (f, records, through) := Released(st, fuser, order);
    var fused := st.ingest(f, Outcomes(scan.probes)).1;
    hide Released, CountTarget, EmitTarget, Accepted, Stream;
    if through && fused.Ok? && Classifies(st, fused.value) { FinishedSplit(st, records, fused.value); }
    if d.halted.None? {
      var tallied := d.(tally := ObserveAll(kinds, d.tally, Attempts(scan)));
      var emitted := if tallied.e.error.None? then EmitTarget(st, tallied, scan.probes) else tallied;
      if tallied.e.error.None? {
        TargetDelivers(st, tallied, scan.probes);
        assert Counter(emitted.e, Device) == emitted.e.devices && Counter(emitted.e, TopologyLink) == emitted.e.links;
        assert Counter(emitted.e, CollectionProfile) == emitted.e.profiles;
      }
      CountTargetQuiet(st, emitted, scan.index, inPrefix);
    }
  }

  lemma StandsAtStart(st: Stages, fuser: FuserState, writer: Option<Writer>, order: seq<TargetScan>)
    ensures Stands(st, fuser, order[..0], Start(fuser, writer))
  {
    assert order[..0] == [] && Stamped(st, []) == [] && Accepted([]) == [];
    assert DeviceStream(st, []) == [] && AllOutcomes([]) == [];
  }

  lemma {:induction false} DrainedStands(st: Stages, kinds: seq<ProbeKind>, fuser: FuserState, writer: Option<Writer>,
                                         order: seq<TargetScan>, prefix: nat, n: nat)
    requires AllInRange(kinds, order) && n <= |order|
    ensures Stands(st, fuser, order[..n], Drained(st, kinds, Start(fuser, writer), order, prefix, n))
  {
    hide Stands, StepTarget;
    if n == 0 {
      StandsAtStart(st, fuser, writer, order);
    } else {
      DrainedStands(st, kinds, fuser, writer, order, prefix, n - 1);
      assert order[..n] == order[..n - 1] + [order[n - 1]];
      StandsNext(st, kinds, fuser, order[..n - 1], order[n - 1],
                 Drained(st, kinds, Start(fuser, writer), order, prefix, n - 1), n - 1 < prefix);
    }
  }

  // ----- the end of a run -----

  lemma ReleasedInExpected(st: Stages, fuser: FuserState, order: seq<TargetScan>)
    ensures var records := Released(st, fuser, order).1;
            DeviceStream(st, Stamped(st, records)) <= Expected(st, fuser, order)
  {
    var (f, records, through) := Released(st, fuser, order);
    if AllRecords(st, fuser, order).Some? { FinishedSplit(st, records, st.finish(f).value); }
  }

  /** The tail, the links and the profiles, one stream after another. */
  lemma TailDelivers(st: Stages, e: Emission, tail: seq<Record>, links: seq<Link>, profiles: seq<Profile>)
    ensures var r := EmitTail(st, e, tail, links, profiles);
            var writes := DeviceStream(st, tail) + LinkStream(st, links) + ProfileStream(st, profiles);
            && Accepted(r.log) <= Accepted(e.log) + writes
            && (r.error.None? ==>
                  && e.error.None? && Accepted(r.log) == Accepted(e.log) + writes
                  && r.devices == e.devices + |DeviceStream(st, tail)|
                  && r.links == e.links + |LinkStream(st, links)|
                  && r.profiles == e.profiles + |ProfileStream(st, profiles)|)
  {
    var a := EmitItems(st, e, Devices(tail));
    var b := EmitItems(st, a, LinkItems(links));
    var c := EmitItems(st, b, ProfileItems(profiles));
    DevicesDeliver(st, e, tail);
    LinksDeliver(st, a, links);
    ProfilesDeliver(st, b, profiles);
    if a.error.Some? { EmitItemsStopped(st, a, LinkItems(links)); }
    if b.error.Some? { EmitItemsStopped(st, b, ProfileItems(profiles)); }
    hide Accepted, Stream, EmitItems;
    assert Counter(a, Device) == a.devices && Counter(b, Device) == b.devices && Counter(c, Device) == c.devices;
    assert Counter(a, TopologyLink) == a.links && Counter(b, TopologyLink) == b.links;
    assert Counter(c, TopologyLink) == c.links && Counter(a, CollectionProfile) == a.profiles;
    assert Counter(b, CollectionProfile) == b.profiles && Counter(c, CollectionProfile) == c.profiles;
    StreamsJoin(Accepted(e.log), DeviceStream(st, tail), LinkStream(st, links), ProfileStream(st, profiles));
  }

  lemma StreamsJoin<T>(e: seq<T>, a: seq<T>, b: seq<T>, c: seq<T>)
    ensures e + a + b + c == e + (a + b + c)
  {
  }

  /** What the body of a run has delivered when it is over. */
  ghost predicate Delivered(st: Stages, fuser: FuserState, order: seq<TargetScan>, d: Run) {
    && Accepted(d.e.log) <= Expected(st, fuser, order)
    && (d.e.error.None? ==>
          && Accepted(d.e.log) == Expected(st, fuser, order)
          && (d.halted.None? <==> AllRecords(st, fuser, order).Some?))
    && (d.e.error.None? && d.halted.None? ==>
          var all := AllRecords(st, fuser, order).value;
          && d.e.devices == |DeviceStream(st, all)|
          && d.e.links == |LinkStream(st, st.links(AllOutcomes(order), all))|
          && d.e.profiles == |ProfileStream(st, st.profiles(AllOutcomes(order), all))|)
  }

  lemma FinishDelivers(st: Stages, fuser: FuserState, order: seq<TargetScan>, d: Run)
    requires Stands(st, fuser, order, d)
    ensures Delivered(st, fuser, order, FinishStreams(st, d))
  {
    ReleasedInExpected(st, fuser, order);
    var (f, records, through) := Released(st, fuser, order);
    var finished := st.finish(d.fuser);
    hide Released, Accepted, Stream, EmitTail;
    if d.halted.None? && finished.Ok? {
      PrepareFinishes(st, finished.value);
      if Classifies(st, finished.value) {
        var tail := Stamped(st, finished.value);
        TailDelivers(st, d.e, tail, st.links(d.outcomes, d.records + tail), st.profiles(d.outcomes, d.records + tail));
        if d.e.error.None? {
          FinishedSplit(st, records, finished.value);
          WholeRun(st, d, DeviceStream(st, d.records), tail);
        } else {
          TailStopped(st, d.e, tail, st.links(d.outcomes, d.records + tail), st.profiles(d.outcomes, d.records + tail));
        }
      }
    }
  }

  lemma WholeRun(st: Stages, d: Run, sofar: seq<SinkCall>, tail: seq<Record>)
    ensures var links := st.links(d.outcomes, d.records + tail);
            var profiles := st.profiles(d.outcomes, d.records + tail);
            sofar + (DeviceStream(st, tail) + LinkStream(st, links) + ProfileStream(st, profiles)) ==
            sofar + DeviceStream(st, tail) + LinkStream(st, links) + ProfileStream(st, profiles)
  {
  }

  lemma TailStopped(st: Stages, e: Emission, tail: seq<Record>, links: seq<Link>, profiles: seq<Profile>)
    requires e.error.Some?
    ensures EmitTail(st, e, tail, links, profiles) == e
  {
    EmitItemsStopped(st, e, Devices(tail));
    EmitItemsStopped(st, e, LinkItems(links));
    EmitItemsStopped(st, e, ProfileItems(profiles));
  }

  /** Closing the sink and settling the checkpoint write no record. */
  lemma ConcludeQuiet(st: Stages, d: Run, cancelled: bool)
    requires Shaped(d.tally)
    ensures var (r, result) := Conclude(st, d, cancelled);
            && Accepted(r.e.log) == Accepted(d.e.log) && r.e.error == d.e.error && r.halted == d.halted
            && (result.Ok? ==> d.halted.None? && d.e.error.None? && result.value == Summarize(d, cancelled))
  {
    AcceptedLast(d.e.log, SinkOp(Close, st.sinkError(d.e.log, Close).None?));
  }

  /**
   Whatever fails, the sink has accepted the writes of a run from the first on, none left out, none twice and none
   out of order: each record the fuser released, classified and stamped, then the links and profiles drawn from
   all of them. Unless a write, an encoding or a checkpoint failed, it has accepted them all.
   */
  lemma WritesAreExpected(st: Stages, kinds: seq<ProbeKind>, fuser: FuserState, writer: Option<Writer>,
                          order: seq<TargetScan>, cancelled: bool)
    requires AllInRange(kinds, order)
    ensures var (d, result) := StreamSpec(st, kinds, Start(fuser, writer), order, cancelled);
            && Accepted(d.e.log) <= Expected(st, fuser, order)
            && (d.e.error.None? ==> Accepted(d.e.log) == Expected(st, fuser, order))
            && (result.Ok? ==> d.e.error.None? && AllRecords(st, fuser, order).Some?)
  {
    var drained := Drained(st, kinds, Start(fuser, writer), order, Lead(order, 0), |order|);
    DrainedStands(st, kinds, fuser, writer, order, Lead(order, 0), |order|);
    assert order[..|order|] == order;
    FinishDelivers(st, fuser, order, drained);
    ConcludeQuiet(st, FinishStreams(st, drained), cancelled);
  }

  /** The reference writes nothing at all if anything could not be fused or classified, and returns that error; it
      writes the same three streams, in one go, if everything could. */
  lemma ReferenceWrites(st: Stages, kinds: seq<ProbeKind>, fuser: FuserState, order: seq<TargetScan>, cancelled: bool)
    requires InRange(kinds, AllAttempts(order))
    ensures var (d, result) := BatchSpec(st, kinds, fuser, order, cancelled);
            match DriveAndPrepare(st, fuser, AllOutcomes(order))
            case Err(error) => result == Err(error) && Accepted(d.e.log) == [] && |d.e.log| == 1
            case Ok(all) =>
              var writes := DeviceStream(st, all) + LinkStream(st, st.links(AllOutcomes(order), all))
                                                  + ProfileStream(st, st.profiles(AllOutcomes(order), all));
              Accepted(d.e.log) <= writes && (d.e.error.None? ==> Accepted(d.e.log) == writes)
  {
    hide DriveAndPrepare, Accepted, DeviceStream, LinkStream, ProfileStream, EmitTail, ObserveAll, Conclude,
         AllAttempts, AllOutcomes, Attempts, Empty;
    var tally := ObserveAll(kinds, Empty(), AllAttempts(order));
    var start := Start(fuser, None).(outcomes := AllOutcomes(order), tally := tally);
    var prepared := DriveAndPrepare(st, fuser, AllOutcomes(order));
    NothingAccepted();
    ConcludeQuiet(st, BatchEmit(st, start, prepared), cancelled);
    match prepared
    case Err(error) => ConcludeHalted(st, BatchEmit(st, start, prepared), cancelled);
    case Ok(all) => TailDelivers(st, start.e, all, st.links(start.outcomes, all), st.profiles(start.outcomes, all));
  }

  lemma NothingAccepted()
    ensures Accepted([]) == []
  {
  }

  /** A run that halted makes one more call, the close, and returns its error. */
  lemma ConcludeHalted(st: Stages, d: Run, cancelled: bool)
    requires Shaped(d.tally) && d.halted.Some?
    ensures var (r, result) := Conclude(st, d, cancelled);
            result == Err(d.halted.value) && |r.e.log| == |d.e.log| + 1
  {
  }

  // ----- the summary -----

  lemma {:induction false} DrainedTallies(st: Stages, kinds: seq<ProbeKind>, d0: Run, order: seq<TargetScan>,
                                          prefix: nat, n: nat)
    requires AllInRange(kinds, order) && n <= |order| && Shaped(d0.tally) && d0.tally == Empty()
    ensures InRange(kinds, AllAttempts(order[..n]))
    ensures var d := Drained(st, kinds, d0, order, prefix, n);
            d.halted.None? ==> d.tally == ObserveAll(kinds, Empty(), AllAttempts(order[..n]))
  {
    if n > 0 {
      DrainedTallies(st, kinds, d0, order, prefix, n - 1);
      var init, scan := order[..n - 1], order[n - 1];
      assert order[..n][..n - 1] == init && order[..n][n - 1] == scan && scan in order;
      assert forall a :: a in Attempts(scan) ==> a.pass < |kinds|;
      ObserveAllSplit(kinds, Empty(), AllAttempts(init), Attempts(scan));
      var d := Drained(st, kinds, d0, order, prefix, n - 1);
      StepTallies(st, kinds, d, scan, n - 1 < prefix);
    }
  }

  lemma StepTallies(st: Stages, kinds: seq<ProbeKind>, d: Run, scan: TargetScan, inPrefix: bool)
    requires ScanInRange(kinds, scan) && Shaped(d.tally)
    ensures var r := StepTarget(st, kinds, d, scan, inPrefix);
            r.halted.None? ==> d.halted.None? && r.tally == ObserveAll(kinds, d.tally, Attempts(scan))
  {
    if d.halted.None? {
      var tallied := d.(tally := ObserveAll(kinds, d.tally, Attempts(scan)));
      if tallied.e.error.None? { TargetDelivers(st, tallied, scan.probes); }
      var emitted := if tallied.e.error.None? then EmitTarget(st, tallied, scan.probes) else tallied;
      CountTargetQuiet(st, emitted, scan.index, inPrefix);
    }
  }

  /** The body of a run changes no tally once its targets are done. */
  lemma FinishKeepsTally(st: Stages, d: Run)
    ensures FinishStreams(st, d).tally == d.tally && (FinishStreams(st, d).halted.None? ==> d.halted.None?)
  {
  }

  /** A row for each kind that was probed, in the order of the kinds, with how often it was and how often that
      went wrong. */
  ghost predicate BrokenDown(rows: seq<ProbeKindSummary>, kinds: seq<ProbeKind>, attempts: seq<Attempt>) {
    && (forall i, j :: 0 <= i < j < |rows| ==> rows[i].kind < rows[j].kind)
    && (forall i :: 0 <= i < |rows| ==>
          && rows[i].attempted == Count(attempts, OfKind(kinds, rows[i].kind))
          && rows[i].errored == Count(attempts, FailedOfKind(kinds, rows[i].kind)))
    && (forall k: ProbeKind :: Count(attempts, OfKind(kinds, k)) > 0 ==>
          exists i :: 0 <= i < |rows| && rows[i].kind == k)
  }

  lemma TallyIsBrokenDown(kinds: seq<ProbeKind>, attempts: seq<Attempt>)
    requires InRange(kinds, attempts)
    ensures var t := ObserveAll(kinds, Empty(), attempts);
            BrokenDown(KindRows(t.attemptsByKind, t.errorsByKind, PROBE_KIND_COUNT), kinds, attempts)
  {
    var t := ObserveAll(kinds, Empty(), attempts);
    ObserveAllExact(kinds, attempts);
    KindRowsListed(t.attemptsByKind, t.errorsByKind, PROBE_KIND_COUNT);
    forall k: ProbeKind | Count(attempts, OfKind(kinds, k)) > 0
      ensures exists i :: 0 <= i < |KindRows(t.attemptsByKind, t.errorsByKind, PROBE_KIND_COUNT)| &&
                          KindRows(t.attemptsByKind, t.errorsByKind, PROBE_KIND_COUNT)[i].kind == k
    {
      assert Ran(t.attemptsByKind, t.errorsByKind, k);
    }
  }

  /** What a summary says of the writes: how many non-empty encodings of each kind there were. */
  ghost predicate CountsWrites(s: Summary, st: Stages, fuser: FuserState, order: seq<TargetScan>) {
    && AllRecords(st, fuser, order).Some?
    && var all := AllRecords(st, fuser, order).value;
       && s.records == |DeviceStream(st, all)|
       && s.links == |LinkStream(st, st.links(AllOutcomes(order), all))|
       && s.profiles == |ProfileStream(st, st.profiles(AllOutcomes(order), all))|
  }

  /** What it says of the probes: how many, of what kind, how many went wrong and how, and which fault was first. */
  ghost predicate CountsProbes(s: Summary, kinds: seq<ProbeKind>, order: seq<TargetScan>) {
    var attempts := AllAttempts(order);
    && s.probeAttempts == |attempts| && BrokenDown(s.probesByKind, kinds, attempts)
    && (forall e :: e in s.errorCounts <==> Count(attempts, OfError(e)) > 0)
    && (forall e :: e in s.errorCounts ==> s.errorCounts[e] == Count(attempts, OfError(e)))
    && (Ascending(order) && DistinctlyNumbered(order) ==> s.firstProbeError == FirstMet(Passes(order, |kinds|)))
  }

  /** The summary of every run that returns one. */
  lemma SummaryIsExact(st: Stages, kinds: seq<ProbeKind>, fuser: FuserState, writer: Option<Writer>,
                       order: seq<TargetScan>, cancelled: bool)
    requires AllInRange(kinds, order)
    ensures var result := StreamSpec(st, kinds, Start(fuser, writer), order, cancelled).1;
            result.Ok? ==>
              && result.value.cancelled == cancelled
              && CountsWrites(result.value, st, fuser, order) && CountsProbes(result.value, kinds, order)
  {
    hide Released, Accepted, Stream, Expected, Drained, ObserveAll, FinishStreams, Conclude, BrokenDown;
    var drained := Drained(st, kinds, Start(fuser, writer), order, Lead(order, 0), |order|);
    DrainedStands(st, kinds, fuser, writer, order, Lead(order, 0), |order|);
    DrainedTallies(st, kinds, Start(fuser, writer), order, Lead(order, 0), |order|);
    assert order[..|order|] == order;
    FinishDelivers(st, fuser, order, drained);
    FinishKeepsTally(st, drained);
    ConcludeQuiet(st, FinishStreams(st, drained), cancelled);
    ObserveAllExact(kinds, AllAttempts(order));
    TallyIsBrokenDown(kinds, AllAttempts(order));
    if Ascending(order) && DistinctlyNumbered(order) { FirstFaultOfNestedLoops(kinds, order); }
  }
}
