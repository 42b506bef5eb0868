/** The server's scan metrics: `record_scan_completion`, `record_scan_error`, `record_scan_cancelled`. */
module Metrics {
  import opened Common
  import opened Scans
  import opened Histogram
  import opened ScenarioBank
  import Laws = AccumulationLaws
  import Pipeline

  const SINK_ERROR_CLASS_COUNT: nat := 6

  /** The class of a sink error, as its index. */
  type SinkErrorClass = c: nat | c < SINK_ERROR_CLASS_COUNT

  /** The sinks with a dead-letter queue, and all others. */
  datatype SinkType = Kafka | Nats | Plain

  /** Records a sink of the run put aside, by the class of error that made it. */
  datatype DeadLetters = DeadLetters(sink: SinkType, fault: SinkErrorClass, count: nat)

  /** A scan that produced a summary, one that failed, one cancelled before it had a summary. */
  datatype Ending =
    | Completed(summary: Pipeline.Summary, letters: seq<DeadLetters>)
    | Failed(fault: Option<SinkErrorClass>)
    | Cancelled

  datatype Scan = Scan(ending: Ending, elapsed: real, scenario: string)

  datatype Totals = Totals(
    success: nat,
    error: nat,
    cancelled: nat,
    records: nat,
    succeeded: seq<nat>,
    errored: seq<nat>,
    sinkErrors: seq<nat>,
    kafka: seq<nat>,
    nats: seq<nat>,
    bank: Bank)

  ghost predicate WellShaped(t: Totals) {
    && |t.succeeded| == |t.errored| == PROBE_KIND_COUNT && |t.sinkErrors| == SINK_ERROR_CLASS_COUNT
    && |t.kafka| == |t.nats| == SINK_ERROR_CLASS_COUNT
    && Sound(t.bank)
  }

  function NewTotals(allowlist: set<string>, maxLength: nat, f: Arithmetic): (t: Totals)
    ensures WellShaped(t)
  {
    Totals(0, 0, 0, 0, seq(PROBE_KIND_COUNT, _ => 0), seq(PROBE_KIND_COUNT, _ => 0),
           seq(SINK_ERROR_CLASS_COUNT, _ => 0), seq(SINK_ERROR_CLASS_COUNT, _ => 0),
           seq(SINK_ERROR_CLASS_COUNT, _ => 0), NewBank(allowlist, maxLength, f))
  }

  function SaturatingSub(a: nat, b: nat): nat { if a >= b then a - b else 0 }

  function CreditRow(t: Totals, row: Laws.ProbeKindSummary): (r: Totals)
    requires WellShaped(t)
    ensures WellShaped(r)
  {
    t.(succeeded := t.succeeded[row.kind := t.succeeded[row.kind] + SaturatingSub(row.attempted, row.errored)],
       errored := t.errored[row.kind := t.errored[row.kind] + row.errored])
  }

  function CreditRows(t: Totals, rows: seq<Laws.ProbeKindSummary>): (r: Totals)
    requires WellShaped(t)
    ensures WellShaped(r)
  {
    if rows == [] then t else CreditRow(CreditRows(t, rows[..|rows| - 1]), rows[|rows| - 1])
  }

  /** `counts` with the letters of one kind of sink added, each to its class. */
  function Queued(counts: seq<nat>, sink: SinkType, letters: seq<DeadLetters>): (r: seq<nat>)
    requires |counts| == SINK_ERROR_CLASS_COUNT
    ensures |r| == SINK_ERROR_CLASS_COUNT
  {
    if letters == [] then counts
    else
      var rest, last := Queued(counts, sink, letters[..|letters| - 1]), letters[|letters| - 1];
      if last.sink == sink then rest[last.fault := rest[last.fault] + last.count] else rest
  }

  function Tallied(t: Totals, ending: Ending): (r: Totals)
    requires WellShaped(t)
    ensures WellShaped(r)
  {
    match ending
    case Completed(summary, letters) =>
      var counted := if summary.cancelled then t.(cancelled := t.cancelled + 1) else t.(success := t.success + 1);
      var credited := CreditRows(counted.(records := t.records + summary.records), summary.probesByKind);
      credited.(kafka := Queued(credited.kafka, Kafka, letters), nats := Queued(credited.nats, Nats, letters))
    case Failed(fault) =>
      var counted := t.(error := t.error + 1);
      if fault.None? then counted
      else counted.(sinkErrors := t.sinkErrors[fault.value := t.sinkErrors[fault.value] + 1])
    case Cancelled => t.(cancelled := t.cancelled + 1)
  }

  function Recorded(t: Totals, scan: Scan, f: Arithmetic): (r: Totals)
    requires WellShaped(t)
    ensures WellShaped(r)
  {
    var tallied := Tallied(t, scan.ending);
    tallied.(bank := BankObserved(tallied.bank, scan.elapsed, scan.scenario, f))
  }

  function RecordAll(t: Totals, scans: seq<Scan>, f: Arithmetic): (r: Totals)
    requires WellShaped(t)
    ensures WellShaped(r)
  {
    if scans == [] then t else Recorded(RecordAll(t, scans[..|scans| - 1], f), scans[|scans| - 1], f)
  }

  class ServerMetrics {
    var success: nat
    var error: nat
    var cancelled: nat
    var records: nat
    const succeeded: array<nat>
    const errored: array<nat>
    const sinkErrors: array<nat>
    const kafka: array<nat>
    const nats: array<nat>
    const scanDuration: ScenarioHistograms

    constructor (allowlist: set<string>, maxLength: nat, f: Arithmetic)
      ensures Valid() && Value() == NewTotals(allowlist, maxLength, f)
      ensures fresh(succeeded) && fresh(errored) && fresh(sinkErrors) && fresh(kafka) && fresh(nats)
      ensures fresh(scanDuration)
    {
      success, error, cancelled, records := 0, 0, 0, 0;
      succeeded := new nat[PROBE_KIND_COUNT](_ => 0);
      errored := new nat[PROBE_KIND_COUNT](_ => 0);
      sinkErrors := new nat[SINK_ERROR_CLASS_COUNT](_ => 0);
      kafka := new nat[SINK_ERROR_CLASS_COUNT](_ => 0);
      nats := new nat[SINK_ERROR_CLASS_COUNT](_ => 0);
      scanDuration := new ScenarioHistograms(allowlist, maxLength, f);
      new;
      var t := NewTotals(allowlist, maxLength, f);
      assert succeeded[..] == t.succeeded && errored[..] == t.errored && sinkErrors[..] == t.sinkErrors;
      assert kafka[..] == t.kafka && nats[..] == t.nats;
    }

    ghost predicate Valid()
      reads this, scanDuration
    {
      && succeeded.Length == errored.Length == PROBE_KIND_COUNT
      && sinkErrors.Length == kafka.Length == nats.Length == SINK_ERROR_CLASS_COUNT
      && succeeded != errored && succeeded != sinkErrors && errored != sinkErrors
      && {kafka, nats} !! {succeeded, errored, sinkErrors} && kafka != nats
      && Sound(scanDuration.Value())
    }

    ghost function Value(): (t: Totals)
      requires Valid()
      reads this, succeeded, errored, sinkErrors, kafka, nats, scanDuration
      ensures WellShaped(t)
    {
      Totals(success, error, cancelled, records, succeeded[..], errored[..], sinkErrors[..],
             kafka[..], nats[..], scanDuration.Value())
    }

    method CreditProbes(rows: seq<Laws.ProbeKindSummary>)
      requires Valid()
      modifies succeeded, errored
      ensures Valid() && Value() == CreditRows(old(Value()), rows)
    {
      for i := 0 to |rows|
        invariant Valid() && Value() == CreditRows(old(Value()), rows[..i])
      {
        assert rows[..i + 1][..i] == rows[..i];
        var row := rows[i];
        succeeded[row.kind] := succeeded[row.kind] + SaturatingSub(row.attempted, row.errored);
        errored[row.kind] := errored[row.kind] + row.errored;
      }
      assert rows[..|rows|] == rows;
    }

    method CreditLetters(letters: seq<DeadLetters>)
      requires Valid()
      modifies kafka, nats
      ensures Valid()
      ensures Value() == old(Value()).(kafka := Queued(old(kafka[..]), Kafka, letters),
                                       nats := Queued(old(nats[..]), Nats, letters))
    {
      for i := 0 to |letters|
        invariant Valid()
        invariant kafka[..] == Queued(old(kafka[..]), Kafka, letters[..i])
        invariant nats[..] == Queued(old(nats[..]), Nats, letters[..i])
      {
        assert letters[..i + 1][..i] == letters[..i];
        var l := letters[i];
        match l.sink
        case Kafka => kafka[l.fault] := kafka[l.fault] + l.count;
        case Nats => nats[l.fault] := nats[l.fault] + l.count;
        case Plain =>
      }
      assert letters[..|letters|] == letters;
    }

    method RecordScanCompletion(summary: Pipeline.Summary, letters: seq<DeadLetters>, elapsed: real, scenario: string,
                                f: Arithmetic)
      requires Valid()
      modifies this, succeeded, errored, kafka, nats, scanDuration
      ensures Valid() && Value() == Recorded(old(Value()), Scan(Completed(summary, letters), elapsed, scenario), f)
    {
      hide CreditRows, Queued, BankObserved;
      if summary.cancelled { cancelled := cancelled + 1; } else { success := success + 1; }
      records := records + summary.records;
      CreditProbes(summary.probesByKind);
      CreditLetters(letters);
      scanDuration.Observe(elapsed, scenario, f);
    }

    method RecordScanError(elapsed: real, fault: Option<SinkErrorClass>, scenario: string, f: Arithmetic)
      requires Valid()
      modifies this, sinkErrors, scanDuration
      ensures Valid() && Value() == Recorded(old(Value()), Scan(Failed(fault), elapsed, scenario), f)
    {
      error := error + 1;
      if fault.Some? { sinkErrors[fault.value] := sinkErrors[fault.value] + 1; }
      scanDuration.Observe(elapsed, scenario, f);
    }

    method RecordScanCancelled(elapsed: real, scenario: string, f: Arithmetic)
      requires Valid()
      modifies this, scanDuration
      ensures Valid() && Value() == Recorded(old(Value()), Scan(Cancelled, elapsed, scenario), f)
    {
      cancelled := cancelled + 1;
      scanDuration.Observe(elapsed, scenario, f);
    }
  }
}
