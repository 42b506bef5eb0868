/** Scan metrics: `ScanAccumulation`, `accumulate_target` and `build_probes_by_kind`. */
module Accumulation {
  import opened Common
  import opened Scans

  /** One probe of one target, keyed by the order a prober-outer loop would run it in. */
  datatype Attempt = Attempt(pass: nat, target: nat, result: ProbeResult)

  datatype Tally = Tally(
    attempts: nat,
    errorCounts: map<ProbeErrorKind, nat>,
    first: Option<ProbeFault>,
    best: Option<(nat, nat)>,
    attemptsByKind: seq<nat>,
    errorsByKind: seq<nat>)

  ghost predicate Shaped(t: Tally) {
    |t.attemptsByKind| == PROBE_KIND_COUNT && |t.errorsByKind| == PROBE_KIND_COUNT
  }

  function Empty(): (t: Tally)
    ensures Shaped(t)
  {
    Tally(0, map[], None, None, seq(PROBE_KIND_COUNT, _ => 0), seq(PROBE_KIND_COUNT, _ => 0))
  }

  /** The error kind a probe is tallied under, if it is tallied as an error at all. */
  function ErrorKindOf(result: ProbeResult): Option<ProbeErrorKind> {
    match result
    case Ok(outcome) => if outcome.fault.Some? then Some(outcome.fault.value.kind) else None
    case Err(_) => Some(Other)
  }

  /** The fault a probe offers as the scan's sample; an error without a message offers none. */
  function SampleOf(result: ProbeResult): Option<ProbeFault> {
    match result
    case Ok(outcome) => outcome.fault
    case Err(message) => if message == "" then None else Some(ProbeFault(Other, message))
  }

  predicate KeyLess(a: (nat, nat), b: (nat, nat)) {
    a.0 < b.0 || (a.0 == b.0 && a.1 < b.1)
  }

  function Key(a: Attempt): (nat, nat) { (a.pass, a.target) }

  function Bump(m: map<ProbeErrorKind, nat>, kind: ProbeErrorKind): map<ProbeErrorKind, nat> {
    m[kind := (if kind in m then m[kind] else 0) + 1]
  }

  predicate InRange(kinds: seq<ProbeKind>, attempts: seq<Attempt>) {
    forall a :: a in attempts ==> a.pass < |kinds|
  }

  function Observe(kinds: seq<ProbeKind>, t: Tally, a: Attempt): (r: Tally)
    requires a.pass < |kinds| && Shaped(t)
    ensures Shaped(r)
  {
    var k := kinds[a.pass];
    var counted := t.(attempts := t.attempts + 1,
                      attemptsByKind := t.attemptsByKind[k := t.attemptsByKind[k] + 1]);
    var errored := match ErrorKindOf(a.result)
      case None => counted
      case Some(e) => counted.(errorsByKind := t.errorsByKind[k := t.errorsByKind[k] + 1],
                               errorCounts := Bump(t.errorCounts, e));
    if SampleOf(a.result).Some? && (t.best.None? || KeyLess(Key(a), t.best.value))
    then errored.(first := SampleOf(a.result), best := Some(Key(a)))
    else errored
  }

  function ObserveAll(kinds: seq<ProbeKind>, t: Tally, attempts: seq<Attempt>): (r: Tally)
    requires InRange(kinds, attempts) && Shaped(t)
    ensures Shaped(r)
  {
    if attempts == [] then t
    else Observe(kinds, ObserveAll(kinds, t, attempts[..|attempts| - 1]), attempts[|attempts| - 1])
  }

  function Attempts(scan: TargetScan): (r: seq<Attempt>) {
    seq(|scan.probes|, i requires 0 <= i < |scan.probes| =>
      Attempt(scan.probes[i].pass, scan.index, scan.probes[i].result))
  }

  function AllAttempts(scans: seq<TargetScan>): seq<Attempt> {
    if scans == [] then [] else AllAttempts(scans[..|scans| - 1]) + Attempts(scans[|scans| - 1])
  }

  /** The mutable accumulator one scan owns. */
  class ScanAccumulation {
    var probeAttempts: nat
    var errorCounts: map<ProbeErrorKind, nat>
    var firstProbeError: Option<ProbeFault>
    var bestKey: Option<(nat, nat)>
    const attemptsByKind: array<nat>
    const errorsByKind: array<nat>

    ghost predicate Valid() reads this {
      && attemptsByKind.Length == PROBE_KIND_COUNT
      && errorsByKind.Length == PROBE_KIND_COUNT
      && attemptsByKind != errorsByKind
    }

    ghost function View(): (t: Tally)
      requires Valid()
      reads this, attemptsByKind, errorsByKind
      ensures Shaped(t)
    {
      Tally(probeAttempts, errorCounts, firstProbeError, bestKey, attemptsByKind[..], errorsByKind[..])
    }

    constructor ()
      ensures Valid() && View() == Empty()
      ensures fresh(attemptsByKind) && fresh(errorsByKind)
    {
      probeAttempts, errorCounts, firstProbeError, bestKey := 0, map[], None, None;
      attemptsByKind := new nat[PROBE_KIND_COUNT](_ => 0);
      errorsByKind := new nat[PROBE_KIND_COUNT](_ => 0);
      new;
      assert attemptsByKind[..] == Empty().attemptsByKind;
      assert errorsByKind[..] == Empty().errorsByKind;
    }

    /** The body of the loop in `AccumulateTarget`. */
    method AccumulateProbe(kinds: seq<ProbeKind>, a: Attempt)
      requires Valid() && a.pass < |kinds|
      modifies this, attemptsByKind, errorsByKind
      ensures Valid() && View() == Observe(kinds, old(View()), a)
    {
      probeAttempts := probeAttempts + 1;
      var k := kinds[a.pass];
      attemptsByKind[k] := attemptsByKind[k] + 1;
      var tallied := ErrorKindOf(a.result);
      if tallied.Some? {
        errorsByKind[k] := errorsByKind[k] + 1;
        errorCounts := Bump(errorCounts, tallied.value);
      }
      var sample := SampleOf(a.result);
      if sample.Some? && (bestKey.None? || KeyLess(Key(a), bestKey.value)) {
        bestKey, firstProbeError := Some(Key(a)), sample;
      }
    }

    method AccumulateTarget(kinds: seq<ProbeKind>, scan: TargetScan)
      requires Valid() && InRange(kinds, Attempts(scan))
      modifies this, attemptsByKind, errorsByKind
      ensures Valid() && View() == ObserveAll(kinds, old(View()), Attempts(scan))
    {
      ghost var attempts := Attempts(scan);
      for i := 0 to |scan.probes|
        invariant Valid()
        invariant View() == ObserveAll(kinds, old(View()), attempts[..i])
      {
        assert attempts[..i + 1][..i] == attempts[..i] && attempts[i] in attempts;
        AccumulateProbe(kinds, Attempt(scan.probes[i].pass, scan.index, scan.probes[i].result));
      }
      assert attempts[..|scan.probes|] == attempts;
    }
  }
}
