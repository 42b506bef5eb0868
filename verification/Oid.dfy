/** Object identifiers: the dotted-decimal check and the subtree test. */
module Oid {

  predicate Digit(c: char) { '0' <= c <= '9' }

  predicate Arc(part: string) { part != "" && forall i :: 0 <= i < |part| ==> Digit(part[i]) }

  /** The pieces between the dots; a text without a dot is one piece, however short. */
  function Split(s: string): (parts: seq<string>)
    ensures |parts| > 0
  {
    if s == "" then [""]
    else
      var rest := Split(s[1..]);
      if s[0] == '.' then [""] + rest else [[s[0]] + rest[0]] + rest[1..]
  }

  function Join(parts: seq<string>): string
    requires |parts| > 0
  {
    if |parts| == 1 then parts[0] else parts[0] + "." + Join(parts[1..])
  }

  method IsDottedDecimal(s: string) returns (ok: bool)
    ensures ok <==> exists arcs: seq<string> :: |arcs| >= 2 && Arcs(arcs) && s == Join(arcs)
  {
    var parts := Split(s);
    JoinSplit(s);
    var arcs := 0;
    for i := 0 to |parts|
      invariant arcs == i && forall k :: 0 <= k < i ==> Arc(parts[k])
    {
      if !Arc(parts[i]) {
        forall other: seq<string> | |other| >= 2 && Arcs(other) && s == Join(other) ensures false {
          SplitJoin(other);
        }
        return false;
      }
      arcs := arcs + 1;
    }
    ok := arcs >= 2;
    if !ok {
      forall other: seq<string> | |other| >= 2 && Arcs(other) && s == Join(other) ensures false {
        SplitJoin(other);
      }
    } else {
      assert Arcs(parts);
    }
  }

  predicate Arcs(parts: seq<string>) { forall i :: 0 <= i < |parts| ==> Arc(parts[i]) }

  predicate Dotless(part: string) { '.' !in part }

  predicate HasArcPrefix(oid: string, prefix: string) {
    prefix <= oid && (|oid| == |prefix| || oid[|prefix|] == '.')
  }

  // ----- splitting and joining -----

  lemma {:induction false} JoinSplit(s: string)
    ensures Join(Split(s)) == s
  {
    if s != "" {
      JoinSplit(s[1..]);
      var rest := Split(s[1..]);
      if s[0] == '.' {
        assert Split(s)[1..] == rest;
      } else if |rest| > 1 {
        assert Split(s)[1..] == rest[1..];
      }
      assert s == [s[0]] + s[1..];
    }
  }

  lemma {:induction false} SplitConcat(a: string, b: string)
    ensures Split(a + "." + b) == Split(a) + Split(b)
  {
    var s := a + "." + b;
    if a == "" {
      assert s[1..] == b;
    } else {
      assert s[1..] == a[1..] + "." + b;
      SplitConcat(a[1..], b);
    }
  }

  lemma {:induction false} SplitDotless(part: string)
    requires Dotless(part)
    ensures Split(part) == [part]
  {
    if part != "" {
      assert part[0] in part;
      assert Dotless(part[1..]);
      SplitDotless(part[1..]);
      assert part == [part[0]] + part[1..];
    }
  }

  lemma ArcIsDotless(part: string)
    requires Arc(part)
    ensures Dotless(part)
  {
  }

  /** Joining arcs and splitting again gives the arcs back. */
  lemma {:induction false} SplitJoin(parts: seq<string>)
    requires |parts| > 0 && Arcs(parts)
    ensures Split(Join(parts)) == parts
  {
    ArcIsDotless(parts[0]);
    SplitDotless(parts[0]);
    if |parts| > 1 {
      SplitJoin(parts[1..]);
      SplitConcat(parts[0], Join(parts[1..]));
    }
  }

  lemma {:induction false} JoinConcat(a: seq<string>, b: seq<string>)
    requires |a| > 0 && |b| > 0
    ensures Join(a + b) == Join(a) + "." + Join(b)
  {
    if |a| > 1 {
      assert (a + b)[1..] == a[1..] + b;
      JoinConcat(a[1..], b);
    } else {
      assert (a + b)[1..] == b;
    }
  }

  // ----- the subtree test -----

  /** Comparing characters decides the arc lists: for any two texts, dotted decimal or not, the test holds
      exactly when the pieces of `prefix` are the leading pieces of `oid`. */
  lemma ArcPrefixExact(oid: string, prefix: string)
    ensures HasArcPrefix(oid, prefix) <==> Split(prefix) <= Split(oid)
  {
    if HasArcPrefix(oid, prefix) && |oid| > |prefix| {
      var rest := oid[|prefix| + 1..];
      assert oid == prefix + "." + rest;
      SplitConcat(prefix, rest);
    }
    if Split(prefix) <= Split(oid) {
      JoinSplit(prefix);
      JoinSplit(oid);
      var rest := Split(oid)[|Split(prefix)|..];
      assert Split(oid) == Split(prefix) + rest;
      if rest != [] {
        JoinConcat(Split(prefix), rest);
      } else {
        assert Split(oid) == Split(prefix);
      }
    }
  }

  /** The subtree relation is a partial order. */
  lemma ArcPrefixOrders(a: string, b: string, c: string)
    ensures HasArcPrefix(a, a)
    ensures HasArcPrefix(a, b) && HasArcPrefix(b, a) ==> a == b
    ensures HasArcPrefix(a, b) && HasArcPrefix(b, c) ==> HasArcPrefix(a, c)
  {
    ArcPrefixExact(a, b);
    ArcPrefixExact(b, c);
    ArcPrefixExact(a, c);
  }
}
