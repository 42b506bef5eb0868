/** The per-scenario histogram bank and the guard that keeps its labels to the allow-list. */
module ScenarioBank {
  import opened Common
  import opened Histogram

  // ----- label resolution -----

  /** UTF-8 bytes of a code point. */
  function Width(c: char): (n: nat)
    ensures 1 <= n <= 4
  {
    if c as int < 0x80 then 1 else if c as int < 0x800 then 2 else if c as int < 0x1_0000 then 3 else 4
  }

  function Bytes(s: string): nat {
    if s == "" then 0 else Bytes(s[..|s| - 1]) + Width(s[|s| - 1])
  }

  /** The text cut at the last character boundary within `limit` bytes. */
  function FloorBoundary(s: string, limit: nat): (t: string)
    ensures t <= s && Bytes(t) <= limit
    ensures forall n :: 0 <= n <= |s| && Bytes(s[..n]) <= limit ==> n <= |t|
  {
    if Bytes(s) <= limit then s
    else
      var shorter := s[..|s| - 1];
      assert s[..|s|] == s && forall n :: 0 <= n < |s| ==> s[..n] == shorter[..n];
      FloorBoundary(shorter, limit)
  }

  function ResolveLabel(scenario: string, allowlist: set<string>, maxLength: nat): Option<string> {
    var trimmed := if Bytes(scenario) > maxLength then FloorBoundary(scenario, maxLength) else scenario;
    if trimmed in allowlist then Some(trimmed) else None
  }

  /** `kept` is as much of `scenario` as fits in `maxLength` bytes. */
  predicate Cut(scenario: string, kept: string, maxLength: nat) {
    && kept <= scenario && Bytes(kept) <= maxLength
    && forall n :: |kept| < n <= |scenario| ==> Bytes(scenario[..n]) > maxLength
  }

  lemma CutIsUnique(scenario: string, a: string, b: string, maxLength: nat)
    requires Cut(scenario, a, maxLength) && Cut(scenario, b, maxLength)
    ensures a == b
  {
    assert scenario[..|a|] == a && scenario[..|b|] == b;
  }

  /** The label of a scenario is what fits of its name, if that is on the allow-list. */
  lemma LabelIsTheCut(scenario: string, allowlist: set<string>, maxLength: nat, kept: string)
    ensures ResolveLabel(scenario, allowlist, maxLength) == Some(kept) <==>
            kept in allowlist && Cut(scenario, kept, maxLength)
    ensures ResolveLabel(scenario, allowlist, maxLength).None? <==>
            forall name :: name in allowlist ==> !Cut(scenario, name, maxLength)
  {
    var trimmed := if Bytes(scenario) > maxLength then FloorBoundary(scenario, maxLength) else scenario;
    assert scenario[..|scenario|] == scenario && Cut(scenario, trimmed, maxLength);
    forall name | Cut(scenario, name, maxLength) ensures name == trimmed {
      CutIsUnique(scenario, name, trimmed, maxLength);
    }
  }

  /** An allow-list entry is the label of some scenario exactly when it fits the length limit: a longer
      entry keeps a series no scan can ever reach. */
  lemma EntryReachable(entry: string, allowlist: set<string>, maxLength: nat)
    requires entry in allowlist
    ensures (exists scenario: string :: ResolveLabel(scenario, allowlist, maxLength) == Some(entry))
            <==> Bytes(entry) <= maxLength
  {
    if Bytes(entry) <= maxLength {
      assert ResolveLabel(entry, allowlist, maxLength) == Some(entry);
    }
  }

  // ----- the bank -----

  datatype Bank = Bank(
    all: Shard,
    perScenario: map<string, Shard>,
    other: Shard,
    allowlist: set<string>,
    maxLength: nat)

  ghost predicate Sound(b: Bank) {
    && Shaped(b.all) && Shaped(b.other)
    && b.perScenario.Keys == b.allowlist
    && forall name :: name in b.perScenario ==> Shaped(b.perScenario[name])
  }

  function NewBank(allowlist: set<string>, maxLength: nat, f: Arithmetic): (b: Bank)
    ensures Sound(b)
  {
    Bank(Empty(f), map name | name in allowlist :: Empty(f), Empty(f), allowlist, maxLength)
  }

  function BankObserved(b: Bank, seconds: real, scenario: string, f: Arithmetic): (r: Bank)
    requires Sound(b)
    ensures Sound(r) && r.allowlist == b.allowlist && r.maxLength == b.maxLength
  {
    var b := b.(all := Observed(b.all, seconds, f));
    match ResolveLabel(scenario, b.allowlist, b.maxLength)
    case None => b.(other := Observed(b.other, seconds, f))
    case Some(name) => b.(perScenario := b.perScenario[name := Observed(b.perScenario[name], seconds, f)])
  }

  class ScenarioHistograms {
    var all: Shard
    var perScenario: map<string, Shard>
    const allowlist: set<string>
    var other: Shard
    const maxLength: nat

    constructor (allowlist: set<string>, maxLength: nat, f: Arithmetic)
      ensures Value() == NewBank(allowlist, maxLength, f)
    {
      this.allowlist, this.maxLength := allowlist, maxLength;
      all, other := Empty(f), Empty(f);
      perScenario := map name | name in allowlist :: Empty(f);
    }

    ghost function Value(): Bank
      reads this
    {
      Bank(all, perScenario, other, allowlist, maxLength)
    }

    /** A label without a shard would get a fresh one; with the shards seeded from the allow-list that
        never adds a key. */
    method Observe(seconds: real, scenario: string, f: Arithmetic)
      requires Sound(Value())
      modifies this
      ensures Value() == BankObserved(old(Value()), seconds, scenario, f)
    {
      all := Observed(all, seconds, f);
      match ResolveLabel(scenario, allowlist, maxLength) {
        case Some(name) =>
          var shard := if name in perScenario then perScenario[name] else Empty(f);
          perScenario := perScenario[name := Observed(shard, seconds, f)];
        case None => other := Observed(other, seconds, f);
      }
    }
  }

  // ----- conservation -----

  /** One observation of the bank. */
  datatype Sample = Sample(seconds: real, scenario: string)

  function ObserveSamples(b: Bank, samples: seq<Sample>, f: Arithmetic): (r: Bank)
    requires Sound(b)
    ensures Sound(r) && r.allowlist == b.allowlist && r.maxLength == b.maxLength
  {
    if samples == [] then b
    else
      var last := samples[|samples| - 1];
      BankObserved(ObserveSamples(b, samples[..|samples| - 1], f), last.seconds, last.scenario, f)
  }

  /** The durations of the samples that `keep` selects, in order. */
  function Selected(samples: seq<Sample>, keep: Sample -> bool): seq<real> {
    if samples == [] then []
    else
      var last := samples[|samples| - 1];
      Selected(samples[..|samples| - 1], keep) + if keep(last) then [last.seconds] else []
  }

  function Named(name: string, maxLength: nat): Sample -> bool {
    (s: Sample) => Cut(s.scenario, name, maxLength)
  }

  function Unlisted(allowlist: set<string>, maxLength: nat): Sample -> bool {
    (s: Sample) => forall name :: name in allowlist ==> !Cut(s.scenario, name, maxLength)
  }

  lemma ObserveLast(values: seq<real>, v: real, f: Arithmetic)
    ensures ObserveAll(Empty(f), values + [v], f) == Observed(ObserveAll(Empty(f), values, f), v, f)
  {
    assert (values + [v])[..|values|] == values;
  }

  function Every(): Sample -> bool { (s: Sample) => true }

  function SelectedShard(samples: seq<Sample>, keep: Sample -> bool, f: Arithmetic): Shard {
    ObserveAll(Empty(f), Selected(samples, keep), f)
  }

  lemma SelectLast(samples: seq<Sample>, keep: Sample -> bool, f: Arithmetic)
    requires samples != []
    ensures var init, last := samples[..|samples| - 1], samples[|samples| - 1];
            SelectedShard(samples, keep, f) ==
            if keep(last) then Observed(SelectedShard(init, keep, f), last.seconds, f) else SelectedShard(init, keep, f)
  {
    var init, last := samples[..|samples| - 1], samples[|samples| - 1];
    ObserveLast(Selected(init, keep), last.seconds, f);
    assert Selected(init, keep) + [] == Selected(init, keep);
  }

  lemma {:induction false} SharedShards(samples: seq<Sample>, allowlist: set<string>, maxLength: nat, f: Arithmetic)
    ensures var b := ObserveSamples(NewBank(allowlist, maxLength, f), samples, f);
            && b.all == SelectedShard(samples, Every(), f)
            && b.other == SelectedShard(samples, Unlisted(allowlist, maxLength), f)
  {
    if samples != [] {
      SharedShards(samples[..|samples| - 1], allowlist, maxLength, f);
      SelectLast(samples, Every(), f);
      SelectLast(samples, Unlisted(allowlist, maxLength), f);
      LabelIsTheCut(samples[|samples| - 1].scenario, allowlist, maxLength, "");
    }
  }

  lemma {:induction false} NamedShard(samples: seq<Sample>, name: string, allowlist: set<string>, maxLength: nat,
                                      f: Arithmetic)
    requires name in allowlist
    ensures ObserveSamples(NewBank(allowlist, maxLength, f), samples, f).perScenario[name] ==
            SelectedShard(samples, Named(name, maxLength), f)
  {
    if samples != [] {
      NamedShard(samples[..|samples| - 1], name, allowlist, maxLength, f);
      SelectLast(samples, Named(name, maxLength), f);
      LabelIsTheCut(samples[|samples| - 1].scenario, allowlist, maxLength, name);
    }
  }

  /** Whatever scenarios are recorded, the shards are exactly these: `all` observed every sample, each
      allow-listed shard the samples whose name, cut to the limit, is its own, `other` the rest, and no other shard
      exists. */
  lemma ShardsHoldTheirSamples(samples: seq<Sample>, allowlist: set<string>, maxLength: nat, f: Arithmetic)
    ensures var b := ObserveSamples(NewBank(allowlist, maxLength, f), samples, f);
            && b.perScenario.Keys == allowlist
            && b.all == SelectedShard(samples, Every(), f)
            && b.other == SelectedShard(samples, Unlisted(allowlist, maxLength), f)
            && forall name :: name in allowlist ==>
                 b.perScenario[name] == SelectedShard(samples, Named(name, maxLength), f)
  {
    hide SelectedShard, ObserveSamples;
    SharedShards(samples, allowlist, maxLength, f);
    forall name | name in allowlist
      ensures ObserveSamples(NewBank(allowlist, maxLength, f), samples, f).perScenario[name] ==
              SelectedShard(samples, Named(name, maxLength), f)
    {
      NamedShard(samples, name, allowlist, maxLength, f);
    }
  }

  /** What a reading of a shard counts: a bucket, or the whole. */
  function Reading(s: Shard, i: nat): nat
    requires Shaped(s) && i <= BUCKETS
  {
    if i < BUCKETS then s.buckets[i] else s.count
  }

  function ScenarioTotal(b: Bank, names: seq<string>, i: nat): nat
    requires Sound(b) && (forall k :: 0 <= k < |names| ==> names[k] in b.allowlist) && i <= BUCKETS
  {
    if names == [] then 0
    else ScenarioTotal(b, names[..|names| - 1], i) + Reading(b.perScenario[names[|names| - 1]], i)
  }

  /** The allow-list written out, in any order. */
  ghost predicate Enumerates(names: seq<string>, allowlist: set<string>) {
    && (forall k :: 0 <= k < |names| ==> names[k] in allowlist)
    && (forall name :: name in allowlist ==> name in names)
    && (forall j, k :: 0 <= j < k < |names| ==> names[j] != names[k])
  }

  function Adds(seconds: real, i: nat): nat
    requires i <= BUCKETS
  {
    if i < BUCKETS && seconds > Bound(i) then 0 else 1
  }

  lemma {:induction false} ScenarioBump(b: Bank, names: seq<string>, i: nat, s: Sample, f: Arithmetic)
    requires Sound(b) && (forall k :: 0 <= k < |names| ==> names[k] in b.allowlist) && i <= BUCKETS
    requires forall j, k :: 0 <= j < k < |names| ==> names[j] != names[k]
    ensures var resolved := ResolveLabel(s.scenario, b.allowlist, b.maxLength);
            ScenarioTotal(BankObserved(b, s.seconds, s.scenario, f), names, i) ==
            ScenarioTotal(b, names, i) + if resolved.Some? && resolved.value in names then Adds(s.seconds, i) else 0
  {
    if names != [] {
      var init, last := names[..|names| - 1], names[|names| - 1];
      ScenarioBump(b, init, i, s, f);
      assert names == init + [last] && last !in init;
    }
  }

  /** However the scans are named, what the `all` shard counts is what `other` and the allow-listed shards
      count together, bucket by bucket and in total. */
  lemma {:induction false} BankConserves(samples: seq<Sample>, names: seq<string>, allowlist: set<string>,
                                         maxLength: nat, i: nat, f: Arithmetic)
    requires Enumerates(names, allowlist) && i <= BUCKETS
    ensures var b := ObserveSamples(NewBank(allowlist, maxLength, f), samples, f);
            Reading(b.all, i) == Reading(b.other, i) + ScenarioTotal(b, names, i)
  {
    if samples == [] {
      EmptyTotal(names, allowlist, maxLength, i, f);
    } else {
      var init, last := samples[..|samples| - 1], samples[|samples| - 1];
      BankConserves(init, names, allowlist, maxLength, i, f);
      ScenarioBump(ObserveSamples(NewBank(allowlist, maxLength, f), init, f), names, i, last, f);
    }
  }

  lemma {:induction false} EmptyTotal(names: seq<string>, allowlist: set<string>, maxLength: nat, i: nat, f: Arithmetic)
    requires (forall k :: 0 <= k < |names| ==> names[k] in allowlist) && i <= BUCKETS
    ensures ScenarioTotal(NewBank(allowlist, maxLength, f), names, i) == 0
  {
    if names != [] {
      EmptyTotal(names[..|names| - 1], allowlist, maxLength, i, f);
    }
  }
}
