/**
 The worst case is no larger than it has to be: with rows, a run in which everything takes as long as it may, every
 row fails and is snapshotted in full, and a Ctrl-C arrives at the last line, lasts as long as was charged, but for
 what each gate leaves of its polling interval.
 */
module FullMatrix {
  import opened Common
  import opened RunBudget
  import opened HarnessRun
  import opened WorstCase
  import opened EmptyMatrix

  // ----- gates -----

  /** Every gate becomes ready at the last moment. */
  function ReadyScript(n: nat, late: real, big: real): seq<Reaction> {
    if n == 0 then [] else GateScript(true, late, big) + ([Full(big, Done(true))] + ReadyScript(n - 1, late, big))
  }

  lemma {:induction false} GatesOpen(o: Oracle, w: World, gates: seq<real>, late: real, big: real)
    requires Plays(o, w.steps, ReadyScript(|gates|, late, big)) && Allows(gates, late, big)
    ensures var (r, flow) := Gates(o, w, gates);
            && flow == Continue && r.clock == w.clock + Polled(gates, late)
            && r.steps == w.steps + |ReadyScript(|gates|, late, big)|
    decreases |gates|
  {
    hide Poll, Capture, Pause, GateScript, Plays;
    if gates != [] {
      var rest := [Full(big, Done(true))] + ReadyScript(|gates| - 1, late, big);
      PlaysParts(o, w.steps, GateScript(true, late, big), rest);
      var n := GatePolls(o, w, late, gates[0], true, big);
      PlaysParts(o, n.steps, [Full(big, Done(true))], ReadyScript(|gates| - 1, late, big));
      PlaysFirst(o, n.steps, Full(big, Done(true)));
      PrintPlays(o, n, big);
      assert OneGate(o, w, gates[0]) == Pause(o, n) && Pause(o, n).1 == Continue;
      GatesOpen(o, Pause(o, n).0, gates[1..], late, big);
    }
  }

  // ----- rows -----

  /** A row announced, run and failed, its snapshot, and the line that reports it. */
  function RowScript(big: real, reported: Signal): seq<Reaction> {
    [Full(big, Done(true)), Full(big, Done(false)), Full(big, Done(true)), Full(big, Done(true)), Full(big, reported)]
  }

  lemma RowFails(o: Oracle, w: World, row: Row, big: real, reported: Signal)
    requires 0.0 <= row.budget <= big && row.containers > 0 && big >= DIAGNOSTIC_BUDGET_S
    requires Plays(o, w.steps, RowScript(big, reported)) && (reported == Done(true) || reported == Interrupted)
    ensures var (r, flow) := OneRow(o, w, row);
            && flow == (if reported.Interrupted? then KeyboardInterrupt else Continue)
            && r.clock == w.clock + row.budget + DIAGNOSTIC_BUDGET_S && r.steps == w.steps + 5
  {
    var script := RowScript(big, reported);
    assert o(w.steps + 0) == script[0] && o(w.steps + 1) == script[1] && o(w.steps + 2) == script[2];
    assert o(w.steps + 3) == script[3] && o(w.steps + 4) == script[4];
    var m := Pause(o, w).0;
    FullAct(o, m, row.budget, big);
    var n := Act(o, m, row.budget).0;
    assert n.steps == w.steps + 2 && n.clock == w.clock + row.budget;
    FullCapture(o, n, row.containers, big);
    hide Capture;
  }

  function RowsScript(n: nat, big: real): seq<Reaction> {
    if n == 0 then []
    else if n == 1 then RowScript(big, Interrupted)
    else RowScript(big, Done(true)) + RowsScript(n - 1, big)
  }

  ghost predicate RowsAllow(rows: seq<Row>, big: real) {
    big >= DIAGNOSTIC_BUDGET_S && forall i :: 0 <= i < |rows| ==> 0.0 <= rows[i].budget <= big && rows[i].containers > 0
  }

  /** Every row fails, and the last one is cut off at the line that reports it. */
  lemma {:induction false} RowsFail(o: Oracle, w: World, rows: seq<Row>, big: real)
    requires rows != [] && Plays(o, w.steps, RowsScript(|rows|, big)) && RowsAllow(rows, big)
    ensures var (r, flow) := Rows(o, w, rows);
            && flow == KeyboardInterrupt && r.steps == w.steps + |RowsScript(|rows|, big)|
            && r.clock == w.clock + RowTotal(rows) + |rows| as real * DIAGNOSTIC_BUDGET_S
    decreases |rows|
  {
    hide OneRow, Plays;
    if |rows| == 1 {
      RowFails(o, w, rows[0], big, Interrupted);
      assert RowTotal(rows) == rows[0].budget + RowTotal([]);
    } else {
      PlaysParts(o, w.steps, RowScript(big, Done(true)), RowsScript(|rows| - 1, big));
      RowFails(o, w, rows[0], big, Done(true));
      RowsFail(o, OneRow(o, w, rows[0]).0, rows[1..], big);
      OneMore(|rows| - 1);
    }
  }

  lemma OneMore(n: nat)
    ensures (n + 1) as real * DIAGNOSTIC_BUDGET_S == n as real * DIAGNOSTIC_BUDGET_S + DIAGNOSTIC_BUDGET_S
  {
  }

  // ----- the run -----

  function RowBudgets(rows: seq<Row>): seq<real> {
    seq(|rows|, i requires 0 <= i < |rows| => rows[i].budget)
  }

  function Plenty(p: Plan): real { Ample(p) + Largest(RowBudgets(p.rows)) }

  function Opening(big: real): seq<Reaction> { [Full(big, Done(true)), Full(big, Done(true))] }

  function Whole(p: Plan, late: real): seq<Reaction> {
    var big := Plenty(p);
    Opening(big) + (PhaseScript(|p.phases|, big) + (ReadyScript(|p.gates|, late, big) + RowsScript(|p.rows|, big)))
  }

  function Following(p: Plan, late: real, w: World): Oracle {
    var script, big := Whole(p, late), Plenty(p);
    (n: nat) => if w.steps <= n < w.steps + |script| then script[n - w.steps] else Full(big, Done(true))
  }

  ghost predicate Fits(p: Plan, late: real) {
    && Valid(p) && p.rows != [] && p.services > 0 && 0.0 <= late < 1.0
    && (forall i :: 0 <= i < |p.gates| ==> late <= p.gates[i])
    && (forall i :: 0 <= i < |p.rows| ==> p.rows[i].containers > 0)
  }

  lemma PlentyFits(p: Plan, late: real)
    requires Fits(p, late)
    ensures var big := Plenty(p);
            && big >= COMPOSE_DOWN_TIMEOUT_S && Allows(p.gates, late, big) && RowsAllow(p.rows, big)
            && forall i :: 0 <= i < |p.phases| ==> 0.0 <= p.phases[i] <= big
  {
    LargestBounds(p.phases);
    LargestBounds(p.gates);
    LargestBounds(RowBudgets(p.rows));
    forall i | 0 <= i < |p.rows| ensures p.rows[i].budget <= Largest(RowBudgets(p.rows)) {
      assert RowBudgets(p.rows)[i] == p.rows[i].budget;
    }
  }

  lemma PhaseScriptLength(n: nat, big: real)
    ensures |PhaseScript(n, big)| == n
  {
  }

  lemma FullBody(o: Oracle, p: Plan, late: real, w: World, big: real)
    requires Fits(p, late) && big == Plenty(p) && Plays(o, w.steps, Whole(p, late))
    ensures var (r, flow) := Body(o, w, p);
            && flow == KeyboardInterrupt && r.steps == w.steps + |Whole(p, late)|
            && r.clock == w.clock + COMPOSE_CONFIG_TIMEOUT_S + Total(p.phases) + Polled(p.gates, late)
                          + RowTotal(p.rows) + |p.rows| as real * DIAGNOSTIC_BUDGET_S
  {
    hide Plays, Coverage, Phases, Gates, Rows, ReadyScript, RowsScript, PhaseScript, Plenty, Polled, Total, RowTotal,
         Allows, RowsAllow;
    PlentyFits(p, late);
    var phases, ready := PhaseScript(|p.phases|, big), ReadyScript(|p.gates|, late, big);
    var rows := RowsScript(|p.rows|, big);
    PhaseScriptLength(|p.phases|, big);
    PlaysParts(o, w.steps, Opening(big), phases + (ready + rows));
    CoveragePlays(o, w, big);
    var a := Coverage(o, w).0;
    PlaysParts(o, a.steps, phases, ready + rows);
    PhasesPlay(o, a, p.phases, p.services, big);
    var b := Phases(o, a, p.phases, p.services).0;
    PlaysParts(o, b.steps, ready, rows);
    GatesOpen(o, b, p.gates, late, big);
    var c := Gates(o, b, p.gates).0;
    RowsFail(o, c, p.rows, big);
  }

  lemma FollowingPlays(p: Plan, late: real, w: World)
    ensures Plays(Following(p, late, w), w.steps, Whole(p, late))
    ensures forall n :: n >= w.steps + |Whole(p, late)| ==> Following(p, late, w)(n) == Full(Plenty(p), Done(true))
  {
  }

  /** For any plan with rows there is a run that lasts the whole worst case, less `1 - late` seconds a gate, however
      close to a second `late` is, as long as the attempts behind the gates may take that long. */
  lemma WorstCaseIsAttained(p: Plan, late: real, w: World)
    requires Fits(p, late)
    ensures Run(Following(p, late, w), w, p).0.clock ==
            w.clock + WorstCaseRunBudget(p) - Unspent(|p.gates|, late)
  {
    var o, big := Following(p, late, w), Plenty(p);
    FollowingPlays(p, late, w);
    PlentyFits(p, late);
    hide Body, Handle, Finally, Following, Whole, Plays, Unspent, Plenty;
    FullBody(o, p, late, w, big);
    ScriptedEnd(o, Body(o, w, p).0, p.services, big);
    PolledLess(p.gates, late);
    OneMore(|p.rows|);
  }
}
