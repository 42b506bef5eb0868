/** What the server's counters owe to the scans recorded in them, and to the pipeline that ran those scans. */
module MetricsLaws {
  import opened Common
  import opened Scans
  import opened Histogram
  import opened ScenarioBank
  import opened Metrics
  import Accumulation
  import Laws = AccumulationLaws
  import Pipeline

  // ----- scans and durations -----

  function Samples(scans: seq<Scan>): seq<Sample> {
    if scans == [] then []
    else Samples(scans[..|scans| - 1]) + [Sample(scans[|scans| - 1].elapsed, scans[|scans| - 1].scenario)]
  }

  lemma {:induction false} CreditKeepsBank(t: Totals, rows: seq<Laws.ProbeKindSummary>)
    requires WellShaped(t)
    ensures var r := CreditRows(t, rows);
            r.bank == t.bank && r.success == t.success && r.error == t.error && r.cancelled == t.cancelled
  {
    if rows != [] {
      CreditKeepsBank(t, rows[..|rows| - 1]);
    }
  }

  lemma TallyCountsOne(t: Totals, ending: Ending)
    requires WellShaped(t)
    ensures var r := Tallied(t, ending);
            && r.bank == t.bank
            && r.success + r.error + r.cancelled == t.success + t.error + t.cancelled + 1
  {
    if ending.Completed? {
      var counted :=
        if ending.summary.cancelled then t.(cancelled := t.cancelled + 1) else t.(success := t.success + 1);
      CreditKeepsBank(counted.(records := t.records + ending.summary.records), ending.summary.probesByKind);
    }
  }

  lemma {:induction false} BankFollowsScans(scans: seq<Scan>, allowlist: set<string>, maxLength: nat, f: Arithmetic)
    ensures var t := RecordAll(NewTotals(allowlist, maxLength, f), scans, f);
            && t.bank == ObserveSamples(NewBank(allowlist, maxLength, f), Samples(scans), f)
            && t.success + t.error + t.cancelled == t.bank.all.count == |scans|
  {
    if scans != [] {
      var init, last := scans[..|scans| - 1], scans[|scans| - 1];
      BankFollowsScans(init, allowlist, maxLength, f);
      TallyCountsOne(RecordAll(NewTotals(allowlist, maxLength, f), init, f), last.ending);
    }
  }

  /** After any scans under any names: the duration histogram has one observation per scan that ended,
      shared out between `other` and the allow-listed shards, and no other shard exists. */
  lemma ScansBalance(scans: seq<Scan>, names: seq<string>, allowlist: set<string>, maxLength: nat, f: Arithmetic)
    requires Enumerates(names, allowlist)
    ensures var t := RecordAll(NewTotals(allowlist, maxLength, f), scans, f);
            && t.bank.all.count == t.success + t.error + t.cancelled == |scans|
            && t.bank.allowlist == allowlist == t.bank.perScenario.Keys
            && t.bank.all.count == t.bank.other.count + ScenarioTotal(t.bank, names, BUCKETS)
  {
    BankFollowsScans(scans, allowlist, maxLength, f);
    BankConserves(Samples(scans), names, allowlist, maxLength, BUCKETS, f);
  }

  // ----- every counter -----

  predicate Successful(s: Scan) { s.ending.Completed? && !s.ending.summary.cancelled }

  predicate Stopped(s: Scan) { s.ending.Cancelled? || (s.ending.Completed? && s.ending.summary.cancelled) }

  function Emitted(s: Scan): nat { if s.ending.Completed? then s.ending.summary.records else 0 }

  function Blames(fault: SinkErrorClass): Scan -> bool {
    (s: Scan) => s.ending.Failed? && s.ending.fault == Some(fault)
  }

  /** What the rows of kind `k` in a summary say succeeded, and what they say errored. */
  function SucceededOf(k: ProbeKind): Laws.ProbeKindSummary -> nat {
    (row: Laws.ProbeKindSummary) =>
      if row.kind == k && row.errored <= row.attempted then row.attempted - row.errored else 0
  }

  function ErroredOf(k: ProbeKind): Laws.ProbeKindSummary -> nat {
    (row: Laws.ProbeKindSummary) => if row.kind == k then row.errored else 0
  }

  function OverRows(f: Laws.ProbeKindSummary -> nat): Scan -> nat {
    (s: Scan) => if s.ending.Completed? then SumOf(s.ending.summary.probesByKind, f) else 0
  }

  lemma {:induction false} CreditRowsExact(t: Totals, rows: seq<Laws.ProbeKindSummary>, k: ProbeKind)
    requires WellShaped(t)
    ensures var r := CreditRows(t, rows);
            && r.succeeded[k] == t.succeeded[k] + SumOf(rows, SucceededOf(k))
            && r.errored[k] == t.errored[k] + SumOf(rows, ErroredOf(k))
            && r == t.(succeeded := r.succeeded, errored := r.errored)
  {
    if rows != [] { CreditRowsExact(t, rows[..|rows| - 1], k); }
  }

  lemma TallyExact(t: Totals, scan: Scan, k: ProbeKind)
    requires WellShaped(t)
    ensures var r := Tallied(t, scan.ending);
            && r.success == t.success + (if Successful(scan) then 1 else 0)
            && r.error == t.error + (if scan.ending.Failed? then 1 else 0)
            && r.cancelled == t.cancelled + (if Stopped(scan) then 1 else 0)
            && r.records == t.records + Emitted(scan)
            && r.succeeded[k] == t.succeeded[k] + OverRows(SucceededOf(k))(scan)
            && r.errored[k] == t.errored[k] + OverRows(ErroredOf(k))(scan)
  {
    if scan.ending.Completed? {
      var summary := scan.ending.summary;
      var completed := Tallied(t, Completed(summary.(probesByKind := []), []));
      CreditRowsExact(completed, summary.probesByKind, k);
      assert Queued(t.kafka, Kafka, []) == t.kafka && Queued(t.nats, Nats, []) == t.nats;
    }
  }

  lemma TallySinkErrors(t: Totals, scan: Scan, fault: SinkErrorClass)
    requires WellShaped(t)
    ensures Tallied(t, scan.ending).sinkErrors[fault] == t.sinkErrors[fault] + if Blames(fault)(scan) then 1 else 0
  {
    if scan.ending.Completed? {
      var summary := scan.ending.summary;
      var completed := Tallied(t, Completed(summary.(probesByKind := []), []));
      CreditRowsExact(completed, summary.probesByKind, 0);
    }
  }

  /** After any scans, each counter is exactly what the scans say: those that completed, failed or were cancelled,
      the records they emitted, the sink errors of each class, and the probes of each kind. */
  lemma {:induction false} CountersAreExact(scans: seq<Scan>, allowlist: set<string>, maxLength: nat, f: Arithmetic,
                                            k: ProbeKind, fault: SinkErrorClass)
    ensures var t := RecordAll(NewTotals(allowlist, maxLength, f), scans, f);
            && t.success == Count(scans, Successful)
            && t.error == Count(scans, (s: Scan) => s.ending.Failed?)
            && t.cancelled == Count(scans, Stopped)
            && t.records == SumOf(scans, Emitted)
            && t.sinkErrors[fault] == Count(scans, Blames(fault))
            && t.succeeded[k] == SumOf(scans, OverRows(SucceededOf(k)))
            && t.errored[k] == SumOf(scans, OverRows(ErroredOf(k)))
  {
    if scans != [] {
      var init, last := scans[..|scans| - 1], scans[|scans| - 1];
      CountersAreExact(init, allowlist, maxLength, f, k, fault);
      hide Tallied;
      TallyExact(RecordAll(NewTotals(allowlist, maxLength, f), init, f), last, k);
      TallySinkErrors(RecordAll(NewTotals(allowlist, maxLength, f), init, f), last, fault);
    }
  }

  // ----- probes -----

  /** A summary whose breakdown accounts for its probes. */
  predicate Balanced(s: Pipeline.Summary) {
    && Laws.Attempted(s.probesByKind) == s.probeAttempts
    && Laws.Errored(s.probesByKind) == Laws.TotalErrors(s.errorCounts)
    && forall i :: 0 <= i < |s.probesByKind| ==> s.probesByKind[i].errored <= s.probesByKind[i].attempted
  }

  lemma CreditRowBalances(t: Totals, row: Laws.ProbeKindSummary)
    requires WellShaped(t) && row.errored <= row.attempted
    ensures Sum(CreditRow(t, row).succeeded) == Sum(t.succeeded) + row.attempted - row.errored
    ensures Sum(CreditRow(t, row).errored) == Sum(t.errored) + row.errored
  {
    SumBump(t.succeeded, row.kind, row.attempted - row.errored);
    SumBump(t.errored, row.kind, row.errored);
  }

  lemma {:induction false} CreditRowsBalance(t: Totals, rows: seq<Laws.ProbeKindSummary>)
    requires WellShaped(t) && forall i :: 0 <= i < |rows| ==> rows[i].errored <= rows[i].attempted
    ensures var r := CreditRows(t, rows);
            && Sum(r.errored) == Sum(t.errored) + Laws.Errored(rows)
            && Sum(r.succeeded) + Sum(r.errored) == Sum(t.succeeded) + Sum(t.errored) + Laws.Attempted(rows)
  {
    if rows != [] {
      CreditRowsBalance(t, rows[..|rows| - 1]);
      CreditRowBalances(CreditRows(t, rows[..|rows| - 1]), rows[|rows| - 1]);
    }
  }

  function Probed(scans: seq<Scan>): nat {
    if scans == [] then 0
    else
      var last := scans[|scans| - 1].ending;
      Probed(scans[..|scans| - 1]) + if last.Completed? then last.summary.probeAttempts else 0
  }

  function Faulted(scans: seq<Scan>): nat {
    if scans == [] then 0
    else
      var last := scans[|scans| - 1].ending;
      Faulted(scans[..|scans| - 1]) + if last.Completed? then Laws.TotalErrors(last.summary.errorCounts) else 0
  }

  predicate AllBalanced(scans: seq<Scan>) {
    forall i :: 0 <= i < |scans| ==> scans[i].ending.Completed? ==> Balanced(scans[i].ending.summary)
  }

  lemma TallyProbes(t: Totals, ending: Ending)
    requires WellShaped(t) && (ending.Completed? ==> Balanced(ending.summary))
    ensures var r := Tallied(t, ending);
            && Sum(r.errored) == Sum(t.errored)
                 + (if ending.Completed? then Laws.TotalErrors(ending.summary.errorCounts) else 0)
            && Sum(r.succeeded) + Sum(r.errored) == Sum(t.succeeded) + Sum(t.errored)
                 + (if ending.Completed? then ending.summary.probeAttempts else 0)
  {
    hide CreditRows;
    if ending.Completed? {
      var counted :=
        if ending.summary.cancelled then t.(cancelled := t.cancelled + 1) else t.(success := t.success + 1);
      CreditRowsBalance(counted.(records := t.records + ending.summary.records), ending.summary.probesByKind);
    }
  }

  lemma {:induction false} ProbesBalance(scans: seq<Scan>, allowlist: set<string>, maxLength: nat, f: Arithmetic)
    requires AllBalanced(scans)
    ensures var t := RecordAll(NewTotals(allowlist, maxLength, f), scans, f);
            Sum(t.succeeded) + Sum(t.errored) == Probed(scans) && Sum(t.errored) == Faulted(scans)
  {
    if scans == [] {
      Laws.SumZeros(PROBE_KIND_COUNT);
    } else {
      var init, last := scans[..|scans| - 1], scans[|scans| - 1];
      ProbesBalance(init, allowlist, maxLength, f);
      TallyProbes(RecordAll(NewTotals(allowlist, maxLength, f), init, f), last.ending);
    }
  }

  // ----- dead letters -----

  /** How many records of the given kind of sink and class a list accounts for. */
  function Letters(letters: seq<DeadLetters>, sink: SinkType, fault: SinkErrorClass): nat {
    if letters == [] then 0
    else (if letters[0].sink == sink && letters[0].fault == fault then letters[0].count else 0)
         + Letters(letters[1..], sink, fault)
  }

  /** The same over the scans that produced a summary. */
  function Put(scans: seq<Scan>, sink: SinkType, fault: SinkErrorClass): nat {
    if scans == [] then 0
    else (if scans[0].ending.Completed? then Letters(scans[0].ending.letters, sink, fault) else 0)
         + Put(scans[1..], sink, fault)
  }

  lemma {:induction false} LettersAppend(a: seq<DeadLetters>, last: DeadLetters, sink: SinkType, fault: SinkErrorClass)
    ensures Letters(a + [last], sink, fault) == Letters(a, sink, fault) + Letters([last], sink, fault)
  {
    if a == [] {
      assert a + [last] == [last];
    } else {
      LettersAppend(a[1..], last, sink, fault);
      assert (a + [last])[1..] == a[1..] + [last];
    }
  }

  lemma {:induction false} PutAppend(a: seq<Scan>, last: Scan, sink: SinkType, fault: SinkErrorClass)
    ensures Put(a + [last], sink, fault) == Put(a, sink, fault) + Put([last], sink, fault)
  {
    if a == [] {
      assert a + [last] == [last];
    } else {
      PutAppend(a[1..], last, sink, fault);
      assert (a + [last])[1..] == a[1..] + [last];
    }
  }

  lemma {:induction false} QueuedCounts(counts: seq<nat>, letters: seq<DeadLetters>, sink: SinkType,
                                        fault: SinkErrorClass)
    requires |counts| == SINK_ERROR_CLASS_COUNT
    ensures Queued(counts, sink, letters)[fault] == counts[fault] + Letters(letters, sink, fault)
  {
    if letters != [] {
      var init, last := letters[..|letters| - 1], letters[|letters| - 1];
      QueuedCounts(counts, init, sink, fault);
      LettersAppend(init, last, sink, fault);
      assert letters == init + [last] && [last][1..] == [];
    }
  }

  lemma {:induction false} CreditKeepsQueues(t: Totals, rows: seq<Laws.ProbeKindSummary>)
    requires WellShaped(t)
    ensures CreditRows(t, rows).kafka == t.kafka && CreditRows(t, rows).nats == t.nats
  {
    if rows != [] { CreditKeepsQueues(t, rows[..|rows| - 1]); }
  }

  lemma TallyLetters(t: Totals, scan: Scan, fault: SinkErrorClass)
    requires WellShaped(t)
    ensures var r := Tallied(t, scan.ending);
            && r.kafka[fault] == t.kafka[fault] + Put([scan], Kafka, fault)
            && r.nats[fault] == t.nats[fault] + Put([scan], Nats, fault)
  {
    hide CreditRows, Queued, Letters;
    assert [scan][1..] == [];
    if scan.ending.Completed? {
      var summary, letters := scan.ending.summary, scan.ending.letters;
      var counted := if summary.cancelled then t.(cancelled := t.cancelled + 1) else t.(success := t.success + 1);
      CreditKeepsQueues(counted.(records := t.records + summary.records), summary.probesByKind);
      QueuedCounts(t.kafka, letters, Kafka, fault);
      QueuedCounts(t.nats, letters, Nats, fault);
    }
  }

  /** After any scans, each dead-letter counter holds exactly the records its kind of sink put aside for its
      class of error, and sinks without a queue add to none. */
  lemma {:induction false} DeadLettersAreCredited(scans: seq<Scan>, allowlist: set<string>, maxLength: nat,
                                                  f: Arithmetic, fault: SinkErrorClass)
    ensures var t := RecordAll(NewTotals(allowlist, maxLength, f), scans, f);
            t.kafka[fault] == Put(scans, Kafka, fault) && t.nats[fault] == Put(scans, Nats, fault)
  {
    if scans != [] {
      var init, last := scans[..|scans| - 1], scans[|scans| - 1];
      DeadLettersAreCredited(init, allowlist, maxLength, f, fault);
      TallyLetters(RecordAll(NewTotals(allowlist, maxLength, f), init, f), last, fault);
      PutAppend(init, last, Kafka, fault);
      PutAppend(init, last, Nats, fault);
      assert scans == init + [last];
    }
  }

  // ----- from the pipeline -----

  lemma StepConserves(st: Pipeline.Stages, kinds: seq<ProbeKind>, d: Pipeline.Run, scan: TargetScan, inPrefix: bool)
    requires Pipeline.ScanInRange(kinds, scan) && Laws.Conserved(d.tally)
    ensures Laws.Conserved(Pipeline.StepTarget(st, kinds, d, scan, inPrefix).tally)
  {
    Laws.ConserveAll(kinds, d.tally, Accumulation.Attempts(scan));
  }

  lemma {:induction false} DrainConserves(st: Pipeline.Stages, kinds: seq<ProbeKind>, d: Pipeline.Run,
                                          scans: seq<TargetScan>, prefix: nat, n: nat)
    requires Pipeline.AllInRange(kinds, scans) && n <= |scans| && Laws.Conserved(d.tally)
    ensures Laws.Conserved(Pipeline.Drained(st, kinds, d, scans, prefix, n).tally)
  {
    if n > 0 {
      DrainConserves(st, kinds, d, scans, prefix, n - 1);
      StepConserves(st, kinds, Pipeline.Drained(st, kinds, d, scans, prefix, n - 1), scans[n - 1], n - 1 < prefix);
    }
  }

  /** Every summary a streaming run returns is balanced, whatever the stages did. */
  lemma RunsAreBalanced(st: Pipeline.Stages, kinds: seq<ProbeKind>, fuser: Pipeline.FuserState,
                        writer: Option<Pipeline.Writer>, order: seq<TargetScan>, cancelled: bool)
    requires Pipeline.AllInRange(kinds, order)
    ensures var result := Pipeline.StreamSpec(st, kinds, Pipeline.Start(fuser, writer), order, cancelled).1;
            result.Ok? ==> Balanced(result.value)
  {
    hide Pipeline.Drained, Laws.Conserved;
    Laws.EmptyConserved();
    var start, lead := Pipeline.Start(fuser, writer), Pipeline.Lead(order, 0);
    DrainConserves(st, kinds, start, order, lead, |order|);
    Laws.RowsConserve(Pipeline.Drained(st, kinds, start, order, lead, |order|).tally);
  }

  /** The summary of some streaming run. */
  ghost predicate Produced(s: Pipeline.Summary) {
    exists st, kinds, fuser, writer, order, cancelled ::
      ProducedBy(s, st, kinds, fuser, writer, order, cancelled)
  }

  ghost predicate ProducedBy(s: Pipeline.Summary, st: Pipeline.Stages, kinds: seq<ProbeKind>,
                             fuser: Pipeline.FuserState, writer: Option<Pipeline.Writer>, order: seq<TargetScan>,
                             cancelled: bool) {
    && Pipeline.AllInRange(kinds, order)
    && Pipeline.StreamSpec(st, kinds, Pipeline.Start(fuser, writer), order, cancelled).1 == Ok(s)
  }

  /** Recording summaries that runs produced: every probe a run attempted is credited to the server's
      counters exactly once, as succeeded or errored, and the errored ones are the faults runs tallied. */
  lemma ProbesAreConserved(scans: seq<Scan>, allowlist: set<string>, maxLength: nat, f: Arithmetic)
    requires forall i :: 0 <= i < |scans| ==> scans[i].ending.Completed? ==> Produced(scans[i].ending.summary)
    ensures var t := RecordAll(NewTotals(allowlist, maxLength, f), scans, f);
            Sum(t.succeeded) + Sum(t.errored) == Probed(scans) && Sum(t.errored) == Faulted(scans)
  {
    forall i | 0 <= i < |scans| && scans[i].ending.Completed? ensures Balanced(scans[i].ending.summary) {
      var s := scans[i].ending.summary;
      var st, kinds, fuser, writer, order, cancelled :| ProducedBy(s, st, kinds, fuser, writer, order, cancelled);
      RunsAreBalanced(st, kinds, fuser, writer, order, cancelled);
    }
    ProbesBalance(scans, allowlist, maxLength, f);
  }
}
