/**
 The streaming pipeline as step functions over values: what one target, one flush or the end of a run
 does to the state of a discovery. `Discovery` runs these steps in place.

 The collaborators (fuser, classifier, encoder, assemblers, sink, checkpoint file) are the function
 fields of `Stages`; any of them may fail at any call. The sink's answer may depend on every call it
 has seen, and the disk's on how far the run has got.
 */
module Pipeline {
  import opened Common
  import opened Scans
  import opened Accumulation
  import opened AccumulationLaws

  type Record(==, !new)
  type Link(==, !new)
  type Profile(==, !new)
  type Error(==, !new)
  type FuserState(!new)

  type Byte = b: int | 0 <= b < 256
  type Bytes = seq<Byte>

  datatype RecordKind = Device | TopologyLink | CollectionProfile

  datatype Item = DeviceItem(record: Record) | LinkItem(link: Link) | ProfileItem(profile: Profile)

  function KindOf(item: Item): RecordKind {
    match item
    case DeviceItem(_) => Device
    case LinkItem(_) => TopologyLink
    case ProfileItem(_) => CollectionProfile
  }

  datatype SinkCall = Write(kind: RecordKind, bytes: Bytes) | Flush | Close

  datatype SinkOp = SinkOp(call: SinkCall, ok: bool)

  datatype DiskCall = Save(index: nat) | Remove

  /** What a run does, in order. `Emitted(i)` marks that every record of target `i` was accepted;
      `Stopped` marks the moment an error was raised that ends emission. */
  datatype Event =
    | SinkEvent(op: SinkOp)
    | DiskEvent(call: DiskCall, ok: bool)
    | Emitted(index: nat)
    | Stopped

  datatype Stages = Stages(
    ingest: (FuserState, seq<ProbeOutcome>) -> (FuserState, Result<seq<Record>, Error>),
    finish: FuserState -> Result<seq<Record>, Error>,
    classify: Record -> Result<Record, Error>,
    stamp: Record -> Record,
    encode: Item -> Result<Bytes, Error>,
    links: (seq<ProbeOutcome>, seq<Record>) -> seq<Link>,
    profiles: (seq<ProbeOutcome>, seq<Record>) -> seq<Profile>,
    sinkError: (seq<SinkOp>, SinkCall) -> Option<Error>,
    diskError: (nat, DiskCall) -> Option<Error>)

  // ----- Emission -----

  datatype Emission = Emission(
    log: seq<SinkOp>,
    trace: seq<Event>,
    devices: nat,
    links: nat,
    profiles: nat,
    error: Option<Error>)

  function Called(st: Stages, e: Emission, call: SinkCall): Emission {
    var op := SinkOp(call, st.sinkError(e.log, call).None?);
    e.(log := e.log + [op], trace := e.trace + [SinkEvent(op)])
  }

  function Stop(e: Emission, error: Error): Emission {
    e.(error := Some(error), trace := e.trace + [Stopped])
  }

  function Counted(e: Emission, kind: RecordKind): Emission {
    match kind
    case Device => e.(devices := e.devices + 1)
    case TopologyLink => e.(links := e.links + 1)
    case CollectionProfile => e.(profiles := e.profiles + 1)
  }

  function EmitItem(st: Stages, e: Emission, item: Item): Emission {
    if e.error.Some? then e
    else match st.encode(item)
      case Err(error) => Stop(e, error)
      case Ok(bytes) =>
        if bytes == [] then e
        else
          var call := Write(KindOf(item), bytes);
          match st.sinkError(e.log, call)
          case Some(error) => Stop(Called(st, e, call), error)
          case None => Counted(Called(st, e, call), KindOf(item))
  }

  function EmitItems(st: Stages, e: Emission, items: seq<Item>): Emission {
    if items == [] then e
    else EmitItem(st, EmitItems(st, e, items[..|items| - 1]), items[|items| - 1])
  }

  lemma {:induction false} EmitItemsSplit(st: Stages, e: Emission, a: seq<Item>, b: seq<Item>)
    ensures EmitItems(st, e, a + b) == EmitItems(st, EmitItems(st, e, a), b)
  {
    if b == [] {
      assert a + b == a;
    } else {
      assert (a + b)[..|a + b| - 1] == a + b[..|b| - 1];
      EmitItemsSplit(st, e, a, b[..|b| - 1]);
    }
  }

  lemma {:induction false} EmitItemsStopped(st: Stages, e: Emission, items: seq<Item>)
    requires e.error.Some?
    ensures EmitItems(st, e, items) == e
  {
    if items != [] {
      EmitItemsStopped(st, e, items[..|items| - 1]);
    }
  }

  function Devices(records: seq<Record>): seq<Item> {
    seq(|records|, i requires 0 <= i < |records| => DeviceItem(records[i]))
  }

  function LinkItems(links: seq<Link>): seq<Item> {
    seq(|links|, i requires 0 <= i < |links| => LinkItem(links[i]))
  }

  function ProfileItems(profiles: seq<Profile>): seq<Item> {
    seq(|profiles|, i requires 0 <= i < |profiles| => ProfileItem(profiles[i]))
  }

  // ----- One target -----

  /** Classify and stamp every record, or report the first classifier failure. */
  function Prepare(st: Stages, records: seq<Record>): Result<seq<Record>, Error> {
    if records == [] then Ok([])
    else match Prepare(st, records[..|records| - 1])
      case Err(error) => Err(error)
      case Ok(ready) =>
        match st.classify(records[|records| - 1])
        case Err(error) => Err(error)
        case Ok(record) => Ok(ready + [st.stamp(record)])
  }

  datatype Writer = Writer(interval: nat, base: nat, lastAt: nat) {
    /** Global index of the last of `next` targets completed since the run started at `base`. */
    function RecordIndex(next: nat): nat
      requires next > 0
    {
      base + next - 1
    }

    predicate Due(next: nat) {
      (if next >= lastAt then next - lastAt else 0) >= interval
    }
  }

  function NewWriter(interval: nat, base: nat): Writer {
    Writer(if interval == 0 then 1 else interval, base, 0)
  }

  datatype Run = Run(
    fuser: FuserState,
    outcomes: seq<ProbeOutcome>,
    records: seq<Record>,
    e: Emission,
    halted: Option<Error>,
    writer: Option<Writer>,
    tally: Tally,
    next: nat)

  function Start(fuser: FuserState, writer: Option<Writer>): Run {
    Run(fuser, [], [], Emission([], [], 0, 0, 0, None), None, writer, Empty(), 0)
  }

  function Halt(d: Run, error: Error): Run {
    d.(halted := Some(error), e := d.e.(trace := d.e.trace + [Stopped]))
  }

  function EmitTarget(st: Stages, d: Run, probes: seq<Probe>): Run {
    var outcomes := Outcomes(probes);
    var (fuser, fused) := st.ingest(d.fuser, outcomes);
    var d := d.(fuser := fuser, outcomes := d.outcomes + outcomes);
    match fused
    case Err(error) => Halt(d, error)
    case Ok(records) =>
      match Prepare(st, records)
      case Err(error) => Halt(d, error)
      case Ok(ready) => d.(records := d.records + ready, e := EmitItems(st, d.e, Devices(ready)))
  }

  function SaveAt(st: Stages, e: Emission, index: nat): Emission {
    e.(trace := e.trace + [DiskEvent(Save(index), st.diskError(|e.trace|, Save(index)).None?)])
  }

  /** Flush the sink, and only then record the index it made durable. */
  function MaybeCheckpoint(st: Stages, d: Run): Run {
    if d.e.error.Some? || d.writer.None? || d.next == 0 || !d.writer.value.Due(d.next) then d
    else
      var flushed := Called(st, d.e, Flush);
      match st.sinkError(d.e.log, Flush)
      case Some(error) => d.(e := Stop(flushed, error))
      case None =>
        var index := d.writer.value.RecordIndex(d.next);
        var saved := SaveAt(st, flushed, index);
        match st.diskError(|flushed.trace|, Save(index))
        case Some(error) => d.(e := Stop(saved, error))
        case None => d.(e := saved, writer := Some(d.writer.value.(lastAt := d.next)))
  }

  function Mark(d: Run, index: nat): Run {
    if d.e.error.Some? then d else d.(e := d.e.(trace := d.e.trace + [Emitted(index)]))
  }

  /** Once a target has been dealt with: mark it, and inside the prefix count it and maybe checkpoint. */
  function CountTarget(st: Stages, d: Run, index: nat, inPrefix: bool): Run {
    var d := Mark(d, index);
    if inPrefix then MaybeCheckpoint(st, d.(next := d.next + 1)) else d
  }

  predicate ScanInRange(kinds: seq<ProbeKind>, scan: TargetScan) {
    InRange(kinds, Attempts(scan))
  }

  /** Everything done for one target taken off the reorder buffer; `inPrefix` tells the drain loop,
      which counts the target and may checkpoint, from the straggler loop, which does neither. */
  function StepTarget(st: Stages, kinds: seq<ProbeKind>, d: Run, scan: TargetScan, inPrefix: bool): (r: Run)
    requires ScanInRange(kinds, scan) && Shaped(d.tally)
    ensures Shaped(r.tally)
  {
    if d.halted.Some? then d
    else
      var d := d.(tally := ObserveAll(kinds, d.tally, Attempts(scan)));
      var d := if d.e.error.None? then EmitTarget(st, d, scan.probes) else d;
      if d.halted.Some? then d else CountTarget(st, d, scan.index, inPrefix)
  }

  ghost predicate AllInRange(kinds: seq<ProbeKind>, scans: seq<TargetScan>) {
    forall s :: s in scans ==> ScanInRange(kinds, s)
  }

  /** The first `n` scans processed in the given order, the first `prefix` of them by the drain loop. */
  ghost function Drained(st: Stages, kinds: seq<ProbeKind>, d: Run, scans: seq<TargetScan>, prefix: nat, n: nat)
    : (r: Run)
    requires AllInRange(kinds, scans) && n <= |scans| && Shaped(d.tally)
    ensures Shaped(r.tally)
  {
    if n == 0 then d
    else StepTarget(st, kinds, Drained(st, kinds, d, scans, prefix, n - 1), scans[n - 1], n - 1 < prefix)
  }

  // ----- The end of a run -----

  /** The tail records, then the links, then the profiles. */
  function EmitTail(st: Stages, e: Emission, tail: seq<Record>, links: seq<Link>, profiles: seq<Profile>): Emission {
    EmitItems(st, EmitItems(st, EmitItems(st, e, Devices(tail)), LinkItems(links)), ProfileItems(profiles))
  }

  function FinishStreams(st: Stages, d: Run): Run {
    if d.halted.Some? then d
    else match st.finish(d.fuser)
      case Err(error) => Halt(d, error)
      case Ok(tail) =>
        match Prepare(st, tail)
        case Err(error) => Halt(d, error)
        case Ok(ready) =>
          var records := d.records + ready;
          d.(records := records,
             e := EmitTail(st, d.e, ready, st.links(d.outcomes, records), st.profiles(d.outcomes, records)))
  }

  /** What `finalize_checkpoint` does to the checkpoint file, and the error it reports. */
  function Finalize(st: Stages, d: Run, cancelled: bool): (Run, Option<Error>) {
    if d.writer.None? || (cancelled && d.next == 0) then (d, None)
    else
      var call := if cancelled then Save(d.writer.value.RecordIndex(d.next)) else Remove;
      var error := st.diskError(|d.e.trace|, call);
      (d.(e := d.e.(trace := d.e.trace + [DiskEvent(call, error.None?)])), error)
  }

  datatype Summary = Summary(
    probeAttempts: nat,
    records: nat,
    links: nat,
    profiles: nat,
    errorCounts: map<ProbeErrorKind, nat>,
    probesByKind: seq<ProbeKindSummary>,
    cancelled: bool,
    firstProbeError: Option<ProbeFault>)

  function Summarize(d: Run, cancelled: bool): Summary
    requires Shaped(d.tally)
  {
    Summary(d.tally.attempts, d.e.devices, d.e.links, d.e.profiles, d.tally.errorCounts,
            KindRows(d.tally.attemptsByKind, d.tally.errorsByKind, PROBE_KIND_COUNT),
            cancelled, d.tally.first)
  }

  /** Close the sink whatever happened, finalize the checkpoint on a clean run, rank the errors. */
  function Conclude(st: Stages, d: Run, cancelled: bool): (Run, Result<Summary, Error>)
    requires Shaped(d.tally)
  {
    var closeError := st.sinkError(d.e.log, Close);
    var closed := d.(e := Called(st, d.e, Close));
    if d.halted.Some? then (closed, Err(d.halted.value))
    else if d.e.error.Some? then (closed, Err(d.e.error.value))
    else if closeError.Some? then (closed, Err(closeError.value))
    else
      var (final, diskError) := Finalize(st, closed, cancelled);
      if diskError.Some? then (final, Err(diskError.value)) else (final, Ok(Summarize(final, cancelled)))
  }

  // ----- The order targets are processed in -----

  predicate Ascending(scans: seq<TargetScan>) {
    forall i, j :: 0 <= i < j < |scans| ==> scans[i].index < scans[j].index
  }

  predicate DistinctIndices(scans: seq<TargetScan>) {
    forall i, j :: 0 <= i < j < |scans| ==> scans[i].index != scans[j].index
  }

  /** How many leading scans sit at their own index. */
  function Lead(scans: seq<TargetScan>, from: nat): (n: nat)
    requires from <= |scans|
    ensures from <= n <= |scans|
    ensures forall i :: from <= i < n ==> scans[i].index == i
    ensures n < |scans| ==> scans[n].index != n
    decreases |scans| - from
  {
    if from < |scans| && scans[from].index == from then Lead(scans, from + 1) else from
  }

  /** A whole streaming run over scans already put in order. */
  ghost function StreamSpec(st: Stages, kinds: seq<ProbeKind>, d: Run, order: seq<TargetScan>, cancelled: bool)
    : (Run, Result<Summary, Error>)
    requires AllInRange(kinds, order) && Shaped(d.tally)
  {
    Conclude(st, FinishStreams(st, Drained(st, kinds, d, order, Lead(order, 0), |order|)), cancelled)
  }
}
