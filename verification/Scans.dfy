/** What a scan hands to the pipeline: probe kinds, faults, outcomes and completed targets. */
module Scans {
  import opened Common

  /** `PROBE_KIND_COUNT`: the variants of `ProbeKind`, from `TcpConnect` to `Lldp`. */
  const PROBE_KIND_COUNT: nat := 13

  /** A probe kind is its `index()` in declaration order; its label is never read here. */
  type ProbeKind = k: nat | k < PROBE_KIND_COUNT

  datatype ProbeErrorKind = AuthFailed | PermissionDenied | DnsFailed | DecodeFailed | Other

  datatype ProbeFault = ProbeFault(kind: ProbeErrorKind, detail: string)

  type Address(==, !new)

  /** Everything a probe learnt that only the fuser, the assemblers and the encoder read. */
  type Evidence(==, !new)

  datatype ProbeOutcome = ProbeOutcome(address: Address, fault: Option<ProbeFault>, evidence: Evidence)

  /** A prober that could not attempt at all is an error, known only by its rendered message. */
  type ProbeResult = Result<ProbeOutcome, string>

  datatype Probe = Probe(pass: nat, result: ProbeResult)

  datatype TargetScan = TargetScan(index: nat, probes: seq<Probe>)

  /** The outcomes that can fuse into a record: errors carry nothing to emit. */
  function Outcomes(probes: seq<Probe>): seq<ProbeOutcome> {
    if probes == [] then []
    else (if probes[0].result.Ok? then [probes[0].result.value] else []) + Outcomes(probes[1..])
  }
}
