/** What the scan metrics mean: exact tallies, independence of order, and conservation. */
module AccumulationLaws {
  import opened Common
  import opened Scans
  import opened Accumulation

  function OfKind(kinds: seq<ProbeKind>, k: nat): Attempt -> bool {
    (a: Attempt) => a.pass < |kinds| && kinds[a.pass] == k
  }

  function FailedOfKind(kinds: seq<ProbeKind>, k: nat): Attempt -> bool {
    (a: Attempt) => a.pass < |kinds| && kinds[a.pass] == k && (a.result.Err? || a.result.value.fault.Some?)
  }

  /** Tallied under `e`: a fault of that kind, or under `Other` a probe that could not be attempted. */
  function OfError(e: ProbeErrorKind): Attempt -> bool {
    (a: Attempt) => match a.result
      case Ok(outcome) => outcome.fault.Some? && outcome.fault.value.kind == e
      case Err(_) => e == Other
  }

  /** `first` is the sample carried by an attempt whose key no other sample-bearing attempt undercuts. */
  ghost predicate LeastSample(attempts: seq<Attempt>, best: Option<(nat, nat)>, first: Option<ProbeFault>) {
    match best
    case None => first.None? && forall a :: a in attempts ==> SampleOf(a.result).None?
    case Some(key) =>
      && first.Some?
      && (exists a :: a in attempts && Key(a) == key && SampleOf(a.result) == first)
      && forall a :: a in attempts && SampleOf(a.result).Some? ==> !KeyLess(Key(a), key)
  }

  /** The counters of `t` are exactly those of `attempts`, with no reference to the order. */
  ghost predicate Exact(kinds: seq<ProbeKind>, attempts: seq<Attempt>, t: Tally) {
    && Shaped(t)
    && t.attempts == |attempts|
    && (forall k :: 0 <= k < PROBE_KIND_COUNT ==> t.attemptsByKind[k] == Count(attempts, OfKind(kinds, k)))
    && (forall k :: 0 <= k < PROBE_KIND_COUNT ==> t.errorsByKind[k] == Count(attempts, FailedOfKind(kinds, k)))
    && (forall e :: e in t.errorCounts ==> t.errorCounts[e] == Count(attempts, OfError(e)))
    && (forall e :: e in t.errorCounts <==> Count(attempts, OfError(e)) > 0)
    && LeastSample(attempts, t.best, t.first)
  }

  lemma {:induction false} ObserveAllExact(kinds: seq<ProbeKind>, attempts: seq<Attempt>)
    requires InRange(kinds, attempts)
    ensures Exact(kinds, attempts, ObserveAll(kinds, Empty(), attempts))
  {
    if attempts != [] {
      var init, last := attempts[..|attempts| - 1], attempts[|attempts| - 1];
      assert attempts == init + [last];
      ObserveAllExact(kinds, init);
      ExactStep(kinds, init, last, ObserveAll(kinds, Empty(), init));
    }
  }

  lemma {:induction false} ObserveAllSplit(kinds: seq<ProbeKind>, t: Tally, a: seq<Attempt>, b: seq<Attempt>)
    requires InRange(kinds, a) && InRange(kinds, b) && Shaped(t)
    ensures InRange(kinds, a + b)
    ensures ObserveAll(kinds, t, a + b) == ObserveAll(kinds, ObserveAll(kinds, t, a), b)
  {
    if b == [] {
      assert a + b == a;
    } else {
      assert (a + b)[..|a + b| - 1] == a + b[..|b| - 1];
      ObserveAllSplit(kinds, t, a, b[..|b| - 1]);
    }
  }

  lemma ExactStep(kinds: seq<ProbeKind>, init: seq<Attempt>, last: Attempt, t: Tally)
    requires Exact(kinds, init, t) && last.pass < |kinds|
    ensures Exact(kinds, init + [last], Observe(kinds, t, last))
  {
    var u := Observe(kinds, t, last);
    forall k | 0 <= k < PROBE_KIND_COUNT
      ensures u.attemptsByKind[k] == Count(init + [last], OfKind(kinds, k))
      ensures u.errorsByKind[k] == Count(init + [last], FailedOfKind(kinds, k))
    {
      CountLast(init, last, OfKind(kinds, k));
      CountLast(init, last, FailedOfKind(kinds, k));
    }
    forall e
      ensures e in u.errorCounts ==> u.errorCounts[e] == Count(init + [last], OfError(e))
      ensures e in u.errorCounts <==> Count(init + [last], OfError(e)) > 0
    {
      CountLast(init, last, OfError(e));
    }
    LeastSampleStep(init, last, t.best, t.first);
  }

  lemma LeastSampleStep(init: seq<Attempt>, last: Attempt, best: Option<(nat, nat)>, first: Option<ProbeFault>)
    requires LeastSample(init, best, first)
    ensures if SampleOf(last.result).Some? && (best.None? || KeyLess(Key(last), best.value))
            then LeastSample(init + [last], Some(Key(last)), SampleOf(last.result))
            else LeastSample(init + [last], best, first)
  {
    assert last in init + [last];
    assert forall a :: a in init + [last] <==> a in init || a == last;
  }

  /** Attempts that share a key are the same attempt; the scheduler numbers passes and targets apart. */
  ghost predicate UniqueKeys(attempts: seq<Attempt>) {
    forall a, b :: a in attempts && b in attempts && Key(a) == Key(b) ==> a == b
  }

  lemma ExactIsUnique(kinds: seq<ProbeKind>, a: seq<Attempt>, b: seq<Attempt>, t: Tally, u: Tally)
    requires Exact(kinds, a, t) && Exact(kinds, b, u)
    requires multiset(a) == multiset(b) && UniqueKeys(a)
    ensures t == u
  {
    assert |multiset(a)| == |a| && |multiset(b)| == |b|;
    assert forall x :: x in a <==> x in multiset(a);
    assert forall x :: x in b <==> x in multiset(b);
    forall p: Attempt -> bool
      ensures Count(a, p) == Count(b, p)
    {
      CountPermutation(a, b, p);
    }
    assert t.attemptsByKind == u.attemptsByKind;
    assert t.errorsByKind == u.errorsByKind;
    assert t.errorCounts == u.errorCounts;
  }

  lemma {:induction false} AllAttemptsSplit(a: seq<TargetScan>, b: seq<TargetScan>)
    ensures AllAttempts(a + b) == AllAttempts(a) + AllAttempts(b)
  {
    hide Attempts;
    if b == [] {
      assert a + b == a;
    } else {
      assert (a + b)[..|a + b| - 1] == a + b[..|b| - 1];
      AllAttemptsSplit(a, b[..|b| - 1]);
    }
  }

  lemma AllAttemptsWithout(scans: seq<TargetScan>, i: nat)
    requires i < |scans|
    ensures multiset(AllAttempts(scans)) ==
            multiset(AllAttempts(scans[..i] + scans[i + 1..])) + multiset(Attempts(scans[i]))
  {
    hide AllAttempts, Attempts;
    var left, x, right := scans[..i], scans[i], scans[i + 1..];
    assert scans == left + ([x] + right);
    AllAttemptsSplit(left, right);
    AllAttemptsSplit(left, [x] + right);
    AllAttemptsSplit([x], right);
    OneScan(x);
    Middle(AllAttempts(left), Attempts(x), AllAttempts(right));
  }

  lemma OneScan(x: TargetScan)
    ensures AllAttempts([x]) == Attempts(x)
  {
    assert [x][..0] == [] && AllAttempts([]) == [];
  }

  lemma Middle<T>(a: seq<T>, b: seq<T>, c: seq<T>)
    ensures multiset(a + (b + c)) == multiset(a + c) + multiset(b)
  {
  }

  lemma {:induction false} AllAttemptsPermutation(a: seq<TargetScan>, b: seq<TargetScan>)
    requires multiset(a) == multiset(b)
    ensures multiset(AllAttempts(a)) == multiset(AllAttempts(b))
  {
    hide AllAttempts, Attempts;
    if a == [] {
      assert |multiset(b)| == |b|;
    } else {
      var n := |a| - 1;
      TakeOut(a, n);
      assert a[n] in multiset(a);
      var i := RemoveOne(b, a[n]);
      AllAttemptsPermutation(a[..n] + a[n + 1..], b[..i] + b[i + 1..]);
      AllAttemptsWithout(b, i);
      AllAttemptsWithout(a, n);
    }
  }

  /** No two targets share an index and no two probes of a target share a pass. */
  ghost predicate DistinctlyNumbered(scans: seq<TargetScan>) {
    && (forall s, t :: s in scans && t in scans && s.index == t.index ==> s == t)
    && (forall s, p, q :: s in scans && p in s.probes && q in s.probes && p.pass == q.pass ==> p == q)
  }

  lemma {:induction false} AttemptOrigin(scans: seq<TargetScan>, a: Attempt)
    requires a in AllAttempts(scans)
    ensures exists s :: s in scans && s.index == a.target && Probe(a.pass, a.result) in s.probes
  {
    var init, last := scans[..|scans| - 1], scans[|scans| - 1];
    if a in Attempts(last) {
      var i :| 0 <= i < |last.probes| && Attempts(last)[i] == a;
      assert last.probes[i] == Probe(a.pass, a.result);
      assert last in scans;
    } else {
      AttemptOrigin(init, a);
      assert forall s :: s in init ==> s in scans;
    }
  }

  /** Every probe of every target is one attempt. */
  lemma {:induction false} EveryProbeCounts(scans: seq<TargetScan>)
    ensures |AllAttempts(scans)| == SumOf(scans, (s: TargetScan) => |s.probes|)
    ensures forall s, p :: s in scans && p in s.probes ==> Attempt(p.pass, s.index, p.result) in AllAttempts(scans)
  {
    if scans != [] {
      var init, last := scans[..|scans| - 1], scans[|scans| - 1];
      EveryProbeCounts(init);
      forall s, p | s in scans && p in s.probes ensures Attempt(p.pass, s.index, p.result) in AllAttempts(scans) {
        if s in init {
          assert Attempt(p.pass, s.index, p.result) in AllAttempts(init);
        } else {
          assert s == last;
          var i :| 0 <= i < |last.probes| && last.probes[i] == p;
          assert Attempts(last)[i] == Attempt(p.pass, s.index, p.result);
        }
      }
    }
  }

  lemma DistinctScansUniqueKeys(scans: seq<TargetScan>)
    requires DistinctlyNumbered(scans)
    ensures UniqueKeys(AllAttempts(scans))
  {
    forall a, b | a in AllAttempts(scans) && b in AllAttempts(scans) && Key(a) == Key(b)
      ensures a == b
    {
      AttemptOrigin(scans, a);
      AttemptOrigin(scans, b);
    }
  }

  /** Folding the scans of a run in any order gives the same counts and the same first fault. */
  lemma AccumulationIgnoresOrder(kinds: seq<ProbeKind>, a: seq<TargetScan>, b: seq<TargetScan>)
    requires multiset(a) == multiset(b) && DistinctlyNumbered(a)
    requires InRange(kinds, AllAttempts(a)) && InRange(kinds, AllAttempts(b))
    ensures ObserveAll(kinds, Empty(), AllAttempts(a)) == ObserveAll(kinds, Empty(), AllAttempts(b))
  {
    AllAttemptsPermutation(a, b);
    DistinctScansUniqueKeys(a);
    ObserveAllExact(kinds, AllAttempts(a));
    ObserveAllExact(kinds, AllAttempts(b));
    ExactIsUnique(kinds, AllAttempts(a), AllAttempts(b),
                  ObserveAll(kinds, Empty(), AllAttempts(a)), ObserveAll(kinds, Empty(), AllAttempts(b)));
  }

  /** The order of a prober-outer loop: every target of pass 0, then every target of pass 1, ... */
  ghost predicate ProberOuter(order: seq<Attempt>) {
    forall i, j :: 0 <= i < j < |order| ==>
      order[i].pass < order[j].pass || (order[i].pass == order[j].pass && order[i].target <= order[j].target)
  }

  /** What a loop that latches the first fault it meets would report; a probe that could not be attempted counts
      if it says why. */
  function FirstMet(order: seq<Attempt>): Option<ProbeFault> {
    if order == [] then None
    else match order[0].result
      case Ok(outcome) => if outcome.fault.Some? then outcome.fault else FirstMet(order[1..])
      case Err(message) => if message != "" then Some(ProbeFault(Other, message)) else FirstMet(order[1..])
  }

  lemma {:induction false} FirstMetIsLeast(order: seq<Attempt>, best: Option<(nat, nat)>, first: Option<ProbeFault>)
    requires ProberOuter(order) && UniqueKeys(order) && LeastSample(order, best, first)
    ensures FirstMet(order) == first
  {
    if order != [] {
      var rest := order[1..];
      assert order == [order[0]] + rest;
      if SampleOf(order[0].result).Some? {
        assert order[0] in order;
        HeadIsLeast(order, best.value, first);
      } else {
        FirstMetIsLeast(rest, best, first);
      }
    }
  }

  lemma HeadIsLeast(order: seq<Attempt>, key: (nat, nat), first: Option<ProbeFault>)
    requires order != [] && ProberOuter(order) && UniqueKeys(order) && LeastSample(order, Some(key), first)
    requires SampleOf(order[0].result).Some?
    ensures SampleOf(order[0].result) == first
  {
    var a :| a in order && Key(a) == key && SampleOf(a.result) == first;
    var i :| 0 <= i < |order| && order[i] == a;
    var head := order[0];
    assert head in order && !KeyLess(Key(head), key);
    if i > 0 { assert head.pass < a.pass || (head.pass == a.pass && head.target <= a.target); }
    assert Key(head) == Key(a);
  }

  /** Accumulating target by target reports the fault a prober-outer loop would have latched. */
  lemma FirstFaultMatchesProberOuterLoop(kinds: seq<ProbeKind>, scans: seq<TargetScan>, order: seq<Attempt>)
    requires DistinctlyNumbered(scans) && InRange(kinds, AllAttempts(scans))
    requires multiset(order) == multiset(AllAttempts(scans)) && ProberOuter(order)
    ensures ObserveAll(kinds, Empty(), AllAttempts(scans)).first == FirstMet(order)
  {
    var attempts := AllAttempts(scans);
    DistinctScansUniqueKeys(scans);
    ObserveAllExact(kinds, attempts);
    assert forall x :: x in attempts <==> x in multiset(attempts);
    assert forall x :: x in order <==> x in multiset(order);
    var t := ObserveAll(kinds, Empty(), attempts);
    assert LeastSample(order, t.best, t.first);
    FirstMetIsLeast(order, t.best, t.first);
  }

  // ----- The two nested loops -----

  /** The attempts among `attempts` made in `pass`. */
  function InPass(attempts: seq<Attempt>, pass: nat): seq<Attempt> {
    if attempts == [] then []
    else
      var last := attempts[|attempts| - 1];
      InPass(attempts[..|attempts| - 1], pass) + if last.pass == pass then [last] else []
  }

  /** The inner loop: one pass over the targets. */
  function PassOver(scans: seq<TargetScan>, pass: nat): seq<Attempt> {
    if scans == [] then []
    else PassOver(scans[..|scans| - 1], pass) + InPass(Attempts(scans[|scans| - 1]), pass)
  }

  /** The outer loop: `n` passes. */
  function Passes(scans: seq<TargetScan>, n: nat): seq<Attempt> {
    if n == 0 then [] else Passes(scans, n - 1) + PassOver(scans, n - 1)
  }

  lemma {:induction false} InPassOnly(attempts: seq<Attempt>, pass: nat)
    ensures forall a :: a in InPass(attempts, pass) ==> a in attempts && a.pass == pass
  {
    if attempts != [] {
      InPassOnly(attempts[..|attempts| - 1], pass);
    }
  }

  lemma {:induction false} PassOverAscends(scans: seq<TargetScan>, pass: nat)
    requires forall i, j :: 0 <= i < j < |scans| ==> scans[i].index < scans[j].index
    ensures forall a :: a in PassOver(scans, pass) ==> a.pass == pass && exists s :: s in scans && s.index == a.target
    ensures ProberOuter(PassOver(scans, pass))
  {
    if scans != [] {
      var init, last := scans[..|scans| - 1], scans[|scans| - 1];
      PassOverAscends(init, pass);
      InPassOnly(Attempts(last), pass);
      var a, b := PassOver(init, pass), InPass(Attempts(last), pass);
      assert forall i :: 0 <= i < |b| ==> b[i] in b;
      assert forall x :: x in b ==> x.target == last.index && last in scans;
      forall i | 0 <= i < |a| ensures a[i].target < last.index {
        assert a[i] in a;
        var s :| s in init && s.index == a[i].target;
      }
    }
  }

  lemma {:induction false} PassesAscend(scans: seq<TargetScan>, n: nat)
    requires forall i, j :: 0 <= i < j < |scans| ==> scans[i].index < scans[j].index
    ensures forall a :: a in Passes(scans, n) ==> a.pass < n
    ensures ProberOuter(Passes(scans, n))
  {
    if n > 0 {
      PassesAscend(scans, n - 1);
      PassOverAscends(scans, n - 1);
      var a, b := Passes(scans, n - 1), PassOver(scans, n - 1);
      assert forall i :: 0 <= i < |a| ==> a[i] in a;
      assert forall i :: 0 <= i < |b| ==> b[i] in b;
    }
  }

  /** The attempts of the first `n` passes of one target. */
  function Below(attempts: seq<Attempt>, n: nat): seq<Attempt> {
    if n == 0 then [] else Below(attempts, n - 1) + InPass(attempts, n - 1)
  }

  lemma BelowUnfolds(attempts: seq<Attempt>, n: nat)
    requires n > 0
    ensures multiset(Below(attempts, n)) == multiset(Below(attempts, n - 1)) + multiset(InPass(attempts, n - 1))
  {
  }

  lemma InPassLast(init: seq<Attempt>, last: Attempt, pass: nat)
    ensures multiset(InPass(init + [last], pass)) == multiset(InPass(init, pass)) + At(last, pass)
  {
    assert (init + [last])[..|init|] == init;
  }

  lemma PassOverLast(init: seq<TargetScan>, last: TargetScan, pass: nat)
    ensures multiset(PassOver(init + [last], pass)) ==
            multiset(PassOver(init, pass)) + multiset(InPass(Attempts(last), pass))
  {
    assert (init + [last])[..|init|] == init;
  }

  lemma PassesUnfolds(scans: seq<TargetScan>, n: nat)
    requires n > 0
    ensures multiset(Passes(scans, n)) == multiset(Passes(scans, n - 1)) + multiset(PassOver(scans, n - 1))
  {
  }

  lemma Pairs<T>(a: multiset<T>, b: multiset<T>, c: multiset<T>, d: multiset<T>)
    ensures (a + b) + (c + d) == (a + c) + (b + d)
  {
  }

  function Early(a: Attempt, n: nat): multiset<Attempt> { if a.pass < n then multiset{a} else multiset{} }

  function At(a: Attempt, pass: nat): multiset<Attempt> { if a.pass == pass then multiset{a} else multiset{} }

  lemma EarlyGrows(a: Attempt, n: nat)
    requires n > 0
    ensures Early(a, n) == Early(a, n - 1) + At(a, n - 1)
  {
  }

  lemma BelowZero(init: seq<Attempt>, last: Attempt)
    ensures multiset(Below(init + [last], 0)) == multiset(Below(init, 0)) + Early(last, 0)
  {
  }

  lemma {:induction false} BelowLast(init: seq<Attempt>, last: Attempt, n: nat)
    ensures multiset(Below(init + [last], n)) == multiset(Below(init, n)) + Early(last, n)
  {
    hide Below, InPass, Early, At;
    if n == 0 {
      BelowZero(init, last);
    } else {
      EarlyGrows(last, n);
      InPassLast(init, last, n - 1);
      BelowLast(init, last, n - 1);
      BelowUnfolds(init + [last], n);
      BelowUnfolds(init, n);
      Pairs(multiset(Below(init, n - 1)), Early(last, n - 1), multiset(InPass(init, n - 1)), At(last, n - 1));
    }
  }

  lemma {:induction false} BelowIsAll(attempts: seq<Attempt>, n: nat)
    requires forall i :: 0 <= i < |attempts| ==> attempts[i].pass < n
    ensures multiset(Below(attempts, n)) == multiset(attempts)
  {
    if attempts == [] {
      BelowNothing(n);
    } else {
      var init, last := attempts[..|attempts| - 1], attempts[|attempts| - 1];
      assert attempts == init + [last];
      BelowIsAll(init, n);
      BelowLast(init, last, n);
    }
  }

  lemma {:induction false} BelowNothing(n: nat)
    ensures Below([], n) == []
  {
    if n > 0 { BelowNothing(n - 1); }
  }

  lemma {:induction false} PassesLast(init: seq<TargetScan>, last: TargetScan, n: nat)
    ensures multiset(Passes(init + [last], n)) == multiset(Passes(init, n)) + multiset(Below(Attempts(last), n))
  {
    hide Passes, PassOver, Below, InPass, Attempts;
    if n == 0 {
      PassesZero(init, last);
    } else {
      PassesLast(init, last, n - 1);
      PassOverLast(init, last, n - 1);
      PassesUnfolds(init + [last], n);
      PassesUnfolds(init, n);
      BelowUnfolds(Attempts(last), n);
      Pairs(multiset(Passes(init, n - 1)), multiset(Below(Attempts(last), n - 1)), multiset(PassOver(init, n - 1)),
            multiset(InPass(Attempts(last), n - 1)));
    }
  }

  lemma PassesZero(init: seq<TargetScan>, last: TargetScan)
    ensures multiset(Passes(init + [last], 0)) == multiset(Passes(init, 0)) + multiset(Below(Attempts(last), 0))
  {
  }

  lemma {:induction false} PassesNothing(n: nat)
    ensures Passes([], n) == []
  {
    if n > 0 { PassesNothing(n - 1); }
  }

  lemma {:induction false} PassesAreAll(scans: seq<TargetScan>, n: nat)
    requires forall i :: 0 <= i < |AllAttempts(scans)| ==> AllAttempts(scans)[i].pass < n
    ensures multiset(Passes(scans, n)) == multiset(AllAttempts(scans))
  {
    if scans == [] {
      PassesNothing(n);
    } else {
      var init, last := scans[..|scans| - 1], scans[|scans| - 1];
      assert scans == init + [last] && AllAttempts(scans) == AllAttempts(init) + Attempts(last);
      forall i | 0 <= i < |AllAttempts(init)| ensures AllAttempts(init)[i].pass < n {
        assert AllAttempts(scans)[i] == AllAttempts(init)[i];
      }
      forall i | 0 <= i < |Attempts(last)| ensures Attempts(last)[i].pass < n {
        assert AllAttempts(scans)[|AllAttempts(init)| + i] == Attempts(last)[i];
      }
      PassesAreAll(init, n);
      BelowIsAll(Attempts(last), n);
      PassesLast(init, last, n);
    }
  }

  /** Written out as two loops, one over the passes and inside it one over the targets in index order: the fault
      reported is the first they would have met. */
  lemma FirstFaultOfNestedLoops(kinds: seq<ProbeKind>, scans: seq<TargetScan>)
    requires DistinctlyNumbered(scans) && InRange(kinds, AllAttempts(scans))
    requires forall i, j :: 0 <= i < j < |scans| ==> scans[i].index < scans[j].index
    ensures ObserveAll(kinds, Empty(), AllAttempts(scans)).first == FirstMet(Passes(scans, |kinds|))
  {
    PassesAscend(scans, |kinds|);
    forall i | 0 <= i < |AllAttempts(scans)| ensures AllAttempts(scans)[i].pass < |kinds| {
      assert AllAttempts(scans)[i] in AllAttempts(scans);
    }
    PassesAreAll(scans, |kinds|);
    FirstFaultMatchesProberOuterLoop(kinds, scans, Passes(scans, |kinds|));
  }

  // ----- Conservation -----

  function Tallied(m: map<ProbeErrorKind, nat>, e: ProbeErrorKind): nat { if e in m then m[e] else 0 }

  function TotalErrors(m: map<ProbeErrorKind, nat>): nat {
    Tallied(m, AuthFailed) + Tallied(m, PermissionDenied) + Tallied(m, DnsFailed) +
    Tallied(m, DecodeFailed) + Tallied(m, Other)
  }

  ghost predicate Conserved(t: Tally) {
    && Shaped(t)
    && Sum(t.attemptsByKind) == t.attempts
    && Sum(t.errorsByKind) == TotalErrors(t.errorCounts)
    && forall k :: 0 <= k < PROBE_KIND_COUNT ==> t.errorsByKind[k] <= t.attemptsByKind[k]
  }

  lemma {:induction false} SumZeros(n: nat)
    ensures Sum(seq(n, _ => 0)) == 0
  {
    if n > 0 {
      assert seq<nat>(n, _ => 0)[..n - 1] == seq<nat>(n - 1, _ => 0);
      SumZeros(n - 1);
    }
  }

  lemma BumpTotal(m: map<ProbeErrorKind, nat>, e: ProbeErrorKind)
    ensures TotalErrors(Bump(m, e)) == TotalErrors(m) + 1
  {
    var n := Bump(m, e);
    assert forall x :: Tallied(n, x) == Tallied(m, x) + (if x == e then 1 else 0);
    match e case AuthFailed => case PermissionDenied => case DnsFailed => case DecodeFailed => case Other =>
  }

  lemma {:induction false} ConserveAll(kinds: seq<ProbeKind>, t: Tally, attempts: seq<Attempt>)
    requires InRange(kinds, attempts) && Conserved(t)
    ensures Conserved(ObserveAll(kinds, t, attempts))
  {
    if attempts != [] {
      var init, last := attempts[..|attempts| - 1], attempts[|attempts| - 1];
      ConserveAll(kinds, t, init);
      ConservedStep(kinds, ObserveAll(kinds, t, init), last);
    }
  }

  lemma EmptyConserved()
    ensures Conserved(Empty())
  {
    SumZeros(PROBE_KIND_COUNT);
  }

  /** Every probe attempted is counted once, under its kind and, if it faulted, under its error. */
  lemma TalliesConserve(kinds: seq<ProbeKind>, attempts: seq<Attempt>)
    requires InRange(kinds, attempts)
    ensures Conserved(ObserveAll(kinds, Empty(), attempts))
  {
    EmptyConserved();
    ConserveAll(kinds, Empty(), attempts);
  }

  lemma ConservedStep(kinds: seq<ProbeKind>, t: Tally, a: Attempt)
    requires Conserved(t) && a.pass < |kinds|
    ensures Conserved(Observe(kinds, t, a))
  {
    SumBump(t.attemptsByKind, kinds[a.pass], 1);
    if ErrorKindOf(a.result).Some? {
      SumBump(t.errorsByKind, kinds[a.pass], 1);
      BumpTotal(t.errorCounts, ErrorKindOf(a.result).value);
    }
  }

  datatype ProbeKindSummary = ProbeKindSummary(kind: ProbeKind, attempted: nat, errored: nat)

  function Attempted(rows: seq<ProbeKindSummary>): nat {
    if rows == [] then 0 else Attempted(rows[..|rows| - 1]) + rows[|rows| - 1].attempted
  }

  function Errored(rows: seq<ProbeKindSummary>): nat {
    if rows == [] then 0 else Errored(rows[..|rows| - 1]) + rows[|rows| - 1].errored
  }

  predicate Ran(attempts: seq<nat>, errors: seq<nat>, k: nat)
    requires |attempts| == |errors| && k < |attempts|
  {
    attempts[k] != 0 || errors[k] != 0
  }

  /** `rows` holds exactly the kinds below `n` that ran, in order, each with its own counters. */
  predicate Lists(rows: seq<ProbeKindSummary>, attempts: seq<nat>, errors: seq<nat>, n: nat)
    requires |attempts| == |errors| && n <= |attempts|
  {
    && (forall i :: 0 <= i < |rows| ==>
          && rows[i].kind < n && Ran(attempts, errors, rows[i].kind)
          && rows[i].attempted == attempts[rows[i].kind] && rows[i].errored == errors[rows[i].kind])
    && (forall i, j :: 0 <= i < j < |rows| ==> rows[i].kind < rows[j].kind)
    && (forall k :: 0 <= k < n && Ran(attempts, errors, k) ==>
          exists i :: 0 <= i < |rows| && rows[i].kind == k)
  }

  /** The rows of the kinds below `n` that ran. */
  function KindRows(attempts: seq<nat>, errors: seq<nat>, n: nat): seq<ProbeKindSummary>
    requires |attempts| == |errors| == PROBE_KIND_COUNT && n <= PROBE_KIND_COUNT
  {
    if n == 0 then []
    else
      var rows := KindRows(attempts, errors, n - 1);
      if attempts[n - 1] == 0 && errors[n - 1] == 0 then rows
      else rows + [ProbeKindSummary(n - 1, attempts[n - 1], errors[n - 1])]
  }

  /** Every kind that ran has its row, in vocabulary order, with its own counters. */
  lemma {:induction false} KindRowsListed(attempts: seq<nat>, errors: seq<nat>, n: nat)
    requires |attempts| == |errors| == PROBE_KIND_COUNT && n <= PROBE_KIND_COUNT
    ensures Lists(KindRows(attempts, errors, n), attempts, errors, n)
  {
    if n > 0 {
      var k, rows := n - 1, KindRows(attempts, errors, n - 1);
      KindRowsListed(attempts, errors, k);
      if Ran(attempts, errors, k) {
        ListNext(rows, ProbeKindSummary(k, attempts[k], errors[k]), attempts, errors);
      } else {
        ListIdle(rows, attempts, errors, k);
      }
    }
  }

  /** Dropping the idle kinds drops no probe. */
  lemma {:induction false} KindRowsTotals(attempts: seq<nat>, errors: seq<nat>, n: nat)
    requires |attempts| == |errors| == PROBE_KIND_COUNT && n <= PROBE_KIND_COUNT
    ensures Attempted(KindRows(attempts, errors, n)) == Sum(attempts[..n])
    ensures Errored(KindRows(attempts, errors, n)) == Sum(errors[..n])
  {
    if n > 0 {
      var k, rows := n - 1, KindRows(attempts, errors, n - 1);
      KindRowsTotals(attempts, errors, k);
      SumTake(attempts, k);
      SumTake(errors, k);
      var row := ProbeKindSummary(k, attempts[k], errors[k]);
      assert (rows + [row])[..|rows|] == rows;
      if Ran(attempts, errors, k) {
        assert Attempted(rows + [row]) == Attempted(rows) + row.attempted;
        assert Errored(rows + [row]) == Errored(rows) + row.errored;
      }
    }
  }

  lemma ListIdle(rows: seq<ProbeKindSummary>, attempts: seq<nat>, errors: seq<nat>, k: nat)
    requires |attempts| == |errors| && k < |attempts|
    requires Lists(rows, attempts, errors, k) && !Ran(attempts, errors, k)
    ensures Lists(rows, attempts, errors, k + 1)
  {
  }

  lemma ListNext(rows: seq<ProbeKindSummary>, row: ProbeKindSummary, attempts: seq<nat>, errors: seq<nat>)
    requires |attempts| == |errors| == PROBE_KIND_COUNT
    requires row == ProbeKindSummary(row.kind, attempts[row.kind], errors[row.kind])
    requires Lists(rows, attempts, errors, row.kind) && Ran(attempts, errors, row.kind)
    ensures Lists(rows + [row], attempts, errors, row.kind + 1)
  {
    var r := rows + [row];
    assert r[..|rows|] == rows && r[|rows|].kind == row.kind;
    assert forall j :: 0 <= j < row.kind && Ran(attempts, errors, j) ==>
      exists i :: 0 <= i < |rows| && rows[i].kind == j && r[i].kind == j;
  }

  method BuildProbesByKind(attempts: array<nat>, errors: array<nat>) returns (out: seq<ProbeKindSummary>)
    requires attempts.Length == errors.Length == PROBE_KIND_COUNT
    ensures out == KindRows(attempts[..], errors[..], PROBE_KIND_COUNT)
  {
    out := [];
    for k := 0 to PROBE_KIND_COUNT
      invariant out == KindRows(attempts[..], errors[..], k)
    {
      if attempts[k] == 0 && errors[k] == 0 { continue; }
      out := out + [ProbeKindSummary(k, attempts[k], errors[k])];
    }
  }

  /** The rows of a conserved tally account for its attempts and its faults. */
  lemma RowsConserve(t: Tally)
    requires Conserved(t)
    ensures var rows := KindRows(t.attemptsByKind, t.errorsByKind, PROBE_KIND_COUNT);
            && Attempted(rows) == t.attempts
            && Errored(rows) == TotalErrors(t.errorCounts)
            && forall i :: 0 <= i < |rows| ==> rows[i].errored <= rows[i].attempted
  {
    KindRowsListed(t.attemptsByKind, t.errorsByKind, PROBE_KIND_COUNT);
    KindRowsTotals(t.attemptsByKind, t.errorsByKind, PROBE_KIND_COUNT);
    assert t.attemptsByKind[..PROBE_KIND_COUNT] == t.attemptsByKind;
    assert t.errorsByKind[..PROBE_KIND_COUNT] == t.errorsByKind;
  }

  /** The breakdown a summary reports accounts for every probe attempted and every fault tallied. */
  lemma BreakdownConserves(kinds: seq<ProbeKind>, attempts: seq<Attempt>)
    requires InRange(kinds, attempts)
    ensures var t := ObserveAll(kinds, Empty(), attempts);
            var rows := KindRows(t.attemptsByKind, t.errorsByKind, PROBE_KIND_COUNT);
            && Attempted(rows) == t.attempts == |attempts|
            && Errored(rows) == TotalErrors(t.errorCounts)
            && forall i :: 0 <= i < |rows| ==> rows[i].errored <= rows[i].attempted
  {
    TalliesConserve(kinds, attempts);
    ObserveAllExact(kinds, attempts);
    RowsConserve(ObserveAll(kinds, Empty(), attempts));
  }
}
