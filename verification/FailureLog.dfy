/** How loudly failed sink constructions are logged: `ConstructionFailures` and its doubling back-off. */
module FailureLog {
  import opened Common

  const U32_MAX := 0xFFFF_FFFF

  datatype Volume = Warn | Debug

  datatype Log = Log(attempts: nat, lastError: Option<string>)

  const FRESH := Log(0, None)

  function Saturated(n: nat): nat { if n < U32_MAX then n else U32_MAX }

  predicate IsPowerOfTwo(n: nat) { n == 1 || (n > 0 && n % 2 == 0 && IsPowerOfTwo(n / 2)) }

  function Noted(log: Log, detail: string): Log { Log(Saturated(log.attempts + 1), Some(detail)) }

  function Loudness(log: Log, detail: string): Volume {
    if log.lastError != Some(detail) || IsPowerOfTwo(Saturated(log.attempts + 1)) then Warn else Debug
  }

  class ConstructionFailures {
    var attempts: nat
    var lastError: Option<string>

    constructor ()
      ensures Value() == FRESH
    {
      attempts, lastError := 0, None;
    }

    ghost function Value(): Log
      reads this
    {
      Log(attempts, lastError)
    }

    method Observe(detail: string) returns (volume: Volume)
      modifies this
      ensures Value() == Noted(old(Value()), detail)
      ensures volume == Loudness(old(Value()), detail)
    {
      attempts := if attempts < U32_MAX then attempts + 1 else U32_MAX;
      var changed := lastError != Some(detail);
      lastError := Some(detail);
      volume := if changed || IsPowerOfTwo(attempts) then Warn else Debug;
    }
  }

  // ----- a whole sequence of failures -----

  function Volumes(log: Log, details: seq<string>): seq<Volume>
    decreases |details|
  {
    if details == [] then [] else [Loudness(log, details[0])] + Volumes(Noted(log, details[0]), details[1..])
  }

  /** How often the error text changes after the first failure. */
  function Changes(details: seq<string>): nat {
    if |details| < 2 then 0
    else Changes(details[..|details| - 1]) + if details[|details| - 1] != details[|details| - 2] then 1 else 0
  }

  /** What the n-th failure of a sequence says is decided by its own text, the one before and its number. */
  predicate Loud(log: Log, details: seq<string>, k: nat)
    requires k < |details|
  {
    || (if k == 0 then log.lastError != Some(details[0]) else details[k] != details[k - 1])
    || IsPowerOfTwo(Saturated(log.attempts + k + 1))
  }

  lemma {:induction false} VolumeAt(log: Log, details: seq<string>, k: nat)
    requires k < |details| && log.attempts <= U32_MAX
    ensures |Volumes(log, details)| == |details|
    ensures Volumes(log, details)[k] == Warn <==> Loud(log, details, k)
    decreases |details|
  {
    var next := Noted(log, details[0]);
    if k > 0 {
      VolumeAt(next, details[1..], k - 1);
      assert Loud(next, details[1..], k - 1) <==> Loud(log, details, k);
    } else if |details| > 1 {
      VolumeAt(next, details[1..], 0);
    }
  }

  // ----- powers of two -----

  /** How many binary digits `n` has. */
  function Bits(n: nat): nat { if n == 0 then 0 else 1 + Bits(n / 2) }

  function Power(k: nat): nat { if k == 0 then 1 else 2 * Power(k - 1) }

  lemma {:induction false} BitsStep(n: nat)
    ensures Bits(n + 1) == Bits(n) + if IsPowerOfTwo(n + 1) then 1 else 0
  {
    if n % 2 == 1 {
      assert (n + 1) / 2 == n / 2 + 1;
      BitsStep(n / 2);
    } else if n > 0 {
      assert (n + 1) / 2 == n / 2;
    }
  }

  lemma {:induction false} BitsBracket(n: nat)
    requires n > 0
    ensures n < Power(Bits(n)) <= 2 * n
  {
    if n > 1 {
      BitsBracket(n / 2);
    }
  }

  lemma PowersArePowers(k: nat)
    ensures Power(k) > 0 && IsPowerOfTwo(Power(k))
  {
  }

  lemma {:induction false} PowersGrow(i: nat, j: nat)
    requires i <= j
    ensures Power(i) <= Power(j)
  {
    if i < j {
      PowersGrow(i, j - 1);
    }
  }

  lemma {:induction false} BitsMonotone(m: nat, n: nat)
    requires m <= n
    ensures Bits(m) <= Bits(n)
  {
    if m > 0 {
      BitsMonotone(m / 2, n / 2);
    }
  }

  lemma {:induction false} PowerIsItsBits(n: nat)
    requires IsPowerOfTwo(n)
    ensures n == Power(Bits(n) - 1)
  {
    if n > 1 {
      PowerIsItsBits(n / 2);
    }
  }

  lemma Powers32()
    ensures Power(31) == 0x8000_0000 && Power(32) == 0x1_0000_0000
  {
    assert Power(8) == 256;
    assert Power(16) == 65536;
    assert Power(24) == 0x100_0000;
  }

  lemma BitsBelow(n: nat, k: nat)
    requires n < Power(k)
    ensures Bits(n) <= k
  {
    if n > 0 && Bits(n) > k {
      PowerAtMost(n);
      PowersGrow(k, Bits(n) - 1);
    }
  }

  lemma {:induction false} PowerAtMost(n: nat)
    requires n > 0
    ensures Bits(n) > 0 && Power(Bits(n) - 1) <= n
  {
    if n > 1 {
      PowerAtMost(n / 2);
    }
  }

  // ----- how many warnings, and how far apart -----

  lemma BitsSaturate(n: nat)
    ensures Bits(Saturated(n)) <= 32
    ensures IsPowerOfTwo(Saturated(n + 1)) ==> Bits(Saturated(n + 1)) == Bits(Saturated(n)) + 1
  {
    Powers32();
    BitsBelow(Saturated(n), 32);
    BitsStep(Saturated(n));
    if n >= U32_MAX {
      assert U32_MAX % 2 == 1;
    }
  }

  /** Among the first failures, at most one warning per binary digit of their number and one per change. */
  lemma {:induction false} WarningsBounded(details: seq<string>, n: nat)
    requires n <= |details|
    ensures |Volumes(FRESH, details)| == |details|
    ensures Count(Volumes(FRESH, details)[..n], (v: Volume) => v == Warn) <= Bits(Saturated(n)) + Changes(details[..n])
  {
    hide Volumes, Bits;
    VolumesLength(FRESH, details);
    if n > 0 {
      WarningsBounded(details, n - 1);
      var volumes := Volumes(FRESH, details);
      assert volumes[..n] == volumes[..n - 1] + [volumes[n - 1]];
      CountLast(volumes[..n - 1], volumes[n - 1], (v: Volume) => v == Warn);
      assert details[..n][..n - 1] == details[..n - 1];
      VolumeAt(FRESH, details, n - 1);
      BitsSaturate(n - 1);
      BitsMonotone(Saturated(n - 1), Saturated(n));
    }
  }

  /** A failure sequence of any length warns at most 32 times, and once more per change of error text. */
  lemma WarningsAreRare(details: seq<string>)
    ensures Count(Volumes(FRESH, details), (v: Volume) => v == Warn) <= 32 + Changes(details)
  {
    WarningsBounded(details, |details|);
    assert Volumes(FRESH, details)[..|details|] == Volumes(FRESH, details);
    assert details[..|details|] == details;
    BitsSaturate(|details|);
  }

  ghost predicate WarnsAgain(details: seq<string>, n: nat)
    requires |Volumes(FRESH, details)| == |details| && 2 * n <= |details|
  {
    exists k :: n <= k < 2 * n && Volumes(FRESH, details)[k] == Warn
  }

  lemma VolumesLength(log: Log, details: seq<string>)
    ensures |Volumes(log, details)| == |details|
    decreases |details|
  {
  }

  /** Whatever the texts, the attempts from n + 1 to 2n contain a warning while n is below 2^31. */
  lemma WarnsWhileDoubling(details: seq<string>, n: nat)
    requires 0 < n < 0x8000_0000 && 2 * n <= |details|
    ensures |Volumes(FRESH, details)| == |details| && WarnsAgain(details, n)
  {
    VolumesLength(FRESH, details);
    Powers32();
    BitsBracket(n);
    BitsBelow(n, 31);
    PowersGrow(Bits(n), 31);
    var attempt := Power(Bits(n));
    PowersArePowers(Bits(n));
    VolumeAt(FRESH, details, attempt - 1);
    assert Volumes(FRESH, details)[attempt - 1] == Warn;
  }

  /** Past 2^31 the saturating counter never meets a power of two again. */
  lemma NoPowerAbove(n: nat)
    requires n > 0x8000_0000
    ensures !IsPowerOfTwo(Saturated(n))
  {
    var m := Saturated(n);
    if IsPowerOfTwo(m) {
      Powers32();
      PowerIsItsBits(m);
      BitsBelow(m, 32);
      PowersGrow(Bits(m) - 1, 31);
      assert false;
    }
  }

  /** While one error persists, the doubling promise holds exactly below 2^31 attempts. */
  lemma DoublingExact(details: seq<string>, n: nat)
    requires 0 < n && 2 * n <= |details|
    requires forall k :: 0 <= k < |details| ==> details[k] == details[0]
    ensures |Volumes(FRESH, details)| == |details|
    ensures WarnsAgain(details, n) <==> n < 0x8000_0000
  {
    VolumesLength(FRESH, details);
    if n < 0x8000_0000 {
      WarnsWhileDoubling(details, n);
    } else {
      forall k | n <= k < 2 * n ensures Volumes(FRESH, details)[k] != Warn {
        VolumeAt(FRESH, details, k);
        NoPowerAbove(k + 1);
      }
    }
  }
}
