/**
 Why the fragment is what it is, first half: code outside it, the number the analysis returns for it, and an
 execution that spends more. Here are loops, comprehensions, headers, recursion and the names read as
 numbers; `Miscalled` has the calls.
 */
module Undercharged {
  import opened Common
  import opened Analyser
  import opened Execution

  /** Code whose analysed charge an execution exceeds, or never finishes under. */
  ghost predicate Exceeds(e: Exec, charge: Option<real>) {
    charge.Some? && (Spent(e).None? || Spent(e).value > charge.value)
  }

  function Timed(w: Literal): Node {
    Call(Attribute(Name("subprocess"), "run"), [Text], [Keyword("timeout", Number(w))])
  }

  /** A text, such as a command line or a URL. */
  const Text: Node := Other([])

  const Untimed: Node := Call(Attribute(Name("subprocess"), "run"), [Text], [])

  /** A `pass`, or a plain name that is assigned to. */
  const Pass: Node := Other([])

  function Spends(w: real): Exec { Invoke(Idle, [Idle], [Idle], Spend(w)) }

  const Hangs: Exec := Invoke(Idle, [Idle], [], Hang)

  lemma Nothing(m: Module, fn: Function, env: Env, seen: set<string>)
    ensures ListWork(m, fn, [], seen) == Some(0.0) && KeywordsWork(m, fn, [], seen) == Some(0.0)
    ensures ItersWork(m, fn, [], seen) == Some(0.0) && FiltersWork(m, fn, [], seen) == Some(0.0)
    ensures ListWork(m, fn, [Text], seen) == Some(0.0)
    ensures CanRunAll(m, env, [], []) && CanRunKeywords(m, env, [], []) && CanRunAll(m, env, [Text], [Idle])
    ensures forall body {:trigger CanRunTrips(m, env, body, [])} :: CanRunTrips(m, env, body, [])
    ensures forall k: nat {:trigger CanRunStages(m, env, [], k, [])} :: CanRunStages(m, env, [], k, [])
    ensures SpentAll([]) == Some(0.0) && SpentTrips([]) == Some(0.0) && SpentStages([]) == Some(0.0)
    ensures SpentRuns([]) == Some(0.0) && SpentRounds([]) == Some(0.0) && SpentAll([Idle]) == Some(0.0)
  {
    assert [Text][1..] == [] && [Idle][1..] == [];
  }

  lemma TimedIsCharged(m: Module, fn: Function, env: Env, seen: set<string>, w: real)
    requires w >= 0.0
    ensures NodeWork(m, fn, Timed(w), seen) == Some(w)
    ensures CanRun(m, env, Timed(w), Spends(w)) && Spent(Spends(w)) == Some(w)
    ensures LengthOf(Timed(w), env) == Unresolved && Turns(Timed(w), env) == Unresolved
  {
    Nothing(m, fn, env, seen);
    var keywords := [Keyword("timeout", Number(w))];
    assert keywords[1..] == [] && TimeoutOf(keywords) == Some(Number(w));
    assert KeywordsWork(m, fn, keywords, seen) == Some(0.0);
    assert CanRunKeywords(m, env, keywords, [Idle]);
    assert CanAct(m, env, Timed(w).func, [Text], keywords, Spend(w));
    assert CanRun(m, env, Timed(w).func, Idle) && LengthOf(Timed(w), env) == Unresolved;
    assert Spends(w).Invoke? && Spends(w).args == [Idle] && Spends(w).values == [Idle];
  }

  lemma OneCharged(m: Module, fn: Function, env: Env, seen: set<string>, node: Node, e: Exec)
    requires NodeWork(m, fn, node, seen).Some? && CanRun(m, env, node, e)
    ensures ListWork(m, fn, [node], seen) == NodeWork(m, fn, node, seen)
    ensures CanRunAll(m, env, [node], [e]) && SpentAll([e]) == Plus(Spent(e), Some(0.0))
  {
    Nothing(m, fn, env, seen);
    assert [node][1..] == [] && [e][1..] == [];
  }

  /** A call with one argument, whose evaluation takes no time. */
  lemma CallRuns(m: Module, env: Env, func: Node, arg: Node, action: Action) returns (e: Exec)
    requires CanAct(m, env, func, [arg], [], action)
    ensures e == Invoke(Idle, [Idle], [], action) && CanRun(m, env, Call(func, [arg], []), e)
    ensures Spent(e) == SpentIn(action)
  {
    hide CanAct;
    e := Invoke(Idle, [Idle], [], action);
    assert [arg][1..] == [] && [Idle][1..] == [] && CanRun(m, env, Receiver(func), Idle) && CanRun(m, env, arg, Idle);
    assert CanRunAll(m, env, [], []) && CanRunAll(m, env, [arg], [Idle]) && CanRunKeywords(m, env, [], []);
    assert SpentAll([]) == Some(0.0) && SpentAll([Idle]) == Some(0.0);
    assert SpentIn(action).Some? ==> SpentIn(action).value + 0.0 == SpentIn(action).value;
  }

  lemma CallCharged(m: Module, fn: Function, seen: set<string>, func: Node, arg: Node)
    requires CallWork(m, fn, func, [], seen).Some? && NodeWork(m, fn, arg, seen) == Some(0.0)
    ensures NodeWork(m, fn, Call(func, [arg], []), seen) == CallWork(m, fn, func, [], seen)
  {
    hide CallWork;
    assert [arg][1..] == [] && ListWork(m, fn, [], seen) == Some(0.0) && ListWork(m, fn, [arg], seen) == Some(0.0);
    assert KeywordsWork(m, fn, [], seen) == Some(0.0);
  }

  /** A trip that assigns its element to a plain name and then runs the body. */
  lemma TripRuns(m: Module, env: Env, body: seq<Node>, es: seq<Exec>)
    requires CanRunAll(m, env, body, es)
    ensures CanRunAll(m, env, [Pass] + body, [Idle] + es) && SpentAll([Idle] + es) == Plus(Some(0.0), SpentAll(es))
  {
    assert ([Pass] + body)[1..] == body && ([Idle] + es)[1..] == es;
  }

  /** The receiver of a method call is not looked at: not even an untimed blocking call is refused. */
  lemma ReceiverIsMissed(m: Module, fn: Function, env: Env, seen: set<string>) returns (node: Node, e: Exec)
    ensures CanRun(m, env, node, e) && Exceeds(e, NodeWork(m, fn, node, seen))
    ensures NodeWork(m, fn, node, seen) == Some(0.0) && Spent(e).None?
  {
    Nothing(m, fn, env, seen);
    node := Call(Attribute(Untimed, "check_returncode"), [], []);
    e := Invoke(Hangs, [], [], Free);
    assert CanRun(m, env, Untimed, Hangs);
    assert TimeoutOf([]).None? && Dotted(Attribute(Untimed, "check_returncode")).None?;
    assert CallWork(m, fn, Attribute(Untimed, "check_returncode"), [], seen) == Some(0.0);
    assert Receiver(Attribute(Untimed, "check_returncode")) == Untimed && Spent(Hangs).None?;
  }

  /** Nor are the defaults and decorators of a nested callable, evaluated when it is defined. */
  lemma HeaderIsMissed(m: Module, fn: Function, env: Env, seen: set<string>, w: real) returns (node: Node, e: Exec)
    requires w > 0.0
    ensures CanRun(m, env, node, e) && Exceeds(e, NodeWork(m, fn, node, seen))
  {
    Nothing(m, fn, env, seen);
    node, e := Callable({}, [Timed(w)], [Pass]), Held([Spends(w)], []);
    TimedIsCharged(m, fn, env, seen, w);
    OneCharged(m, fn, env, seen, Timed(w), Spends(w));
    OneCharged(m, fn, env, seen, Pass, Idle);
  }

  /** The test of a `while` is charged once and evaluated every round. */
  lemma WhileTestRepeats(m: Module, fn: Function, env: Env, seen: set<string>, w: real) returns (node: Node, e: Exec)
    requires w > 0.0
    ensures CanRun(m, env, node, e) && Exceeds(e, NodeWork(m, fn, node, seen))
  {
    Nothing(m, fn, env, seen);
    var round := Round(Spends(w), [Idle]);
    node, e := While(Timed(w), [Pass], []), Spin([round, round], []);
    TimedIsCharged(m, fn, env, seen, w);
    OneCharged(m, fn, env, seen, Pass, Idle);
    assert [round, round][1..] == [round] && [round][1..] == [];
    assert CanRunRounds(m, env, Timed(w), [Pass], [round]);
    assert SpentRounds([round]) == Some(w + 0.0 + 0.0);
  }

  lemma ElseCharge(m: Module, fn: Function, seen: set<string>, w: real)
    requires w > 0.0
    ensures NodeWork(m, fn, For(Pass, Display([], true), [Pass], [Timed(w)]), seen) == Some(0.0)
  {
    var scope := Scope(m, fn);
    Nothing(m, fn, scope, seen);
    TimedIsCharged(m, fn, scope, seen, w);
    OneCharged(m, fn, scope, seen, Timed(w), Spends(w));
    OneCharged(m, fn, scope, seen, Pass, Idle);
    hide CallWork, CanRun;
    assert NodeWork(m, fn, Display([], true), seen) == Some(0.0) && LengthOf(Display([], true), scope) == Known(0);
  }

  /** The `else` of a loop over nothing runs once and is charged no time at all. */
  lemma ElseOfEmptyLoop(m: Module, fn: Function, env: Env, seen: set<string>, w: real) returns (node: Node, e: Exec)
    requires w > 0.0
    ensures CanRun(m, env, node, e) && Exceeds(e, NodeWork(m, fn, node, seen))
  {
    ElseCharge(m, fn, seen, w);
    Nothing(m, fn, env, seen);
    TimedIsCharged(m, fn, env, seen, w);
    OneCharged(m, fn, env, seen, Timed(w), Spends(w));
    node, e := For(Pass, Display([], true), [Pass], [Timed(w)]), Loop(Idle, [], [Spends(w)]);
    hide NodeWork;
    assert LengthOf(Display([], true), env) == Known(0) && Turns(Display([], true), env) == Known(0);
    assert CanRun(m, env, Display([], true), Idle) && Yields(Known(0), 1, 0);
    assert e.header == Idle && e.trips == [] && e.orelse == [Spends(w)];
  }

  /** What a loop assigns its elements to is not looked at either: `for a[subprocess.run(c)] in (0,): pass`. */
  lemma LoopTargetIsMissed(m: Module, fn: Function, env: Env, seen: set<string>) returns (node: Node, e: Exec)
    ensures CanRun(m, env, node, e) && Exceeds(e, NodeWork(m, fn, node, seen))
    ensures NodeWork(m, fn, node, seen) == Some(0.0) && Spent(e).None?
  {
    var target, iter := Other([Untimed]), Display([Number(0.0)], true);
    node := For(target, iter, [Pass], []);
    var trip := TargetHangs(m, env, target, [Pass]);
    e := Loop(Idle, [trip], []);
    Nothing(m, fn, env, seen);
    OneCharged(m, fn, env, seen, Number(0.0), Idle);
    assert Turns(iter, env) == Known(1) && CanRun(m, env, iter, Idle) && Yields(Known(1), 1, 1);
    hide CanRunAll, ListWork;
    assert CanRunTrips(m, env, [target] + [Pass], [trip]) && Spent(e).None?;
  }

  lemma TargetHangs(m: Module, env: Env, target: Node, body: seq<Node>) returns (trip: Trip)
    requires target == Other([Untimed]) && |body| <= 1
    ensures CanRunAll(m, env, [target] + body, trip.body) && SpentAll(trip.body).None?
    ensures CanRunTrips(m, env, [target] + body, [trip]) && SpentTrips([trip]).None?
  {
    var rest := if body == [] then [] else [Idle];
    trip := Trip([Parts([Hangs])] + rest);
    Nothing(m, Function("f", [], {}, []), env, {});
    assert CanRun(m, env, Untimed, Hangs) && Spent(Hangs).None?;
    assert [Untimed][1..] == [] && [Hangs][1..] == [] && CanRun(m, env, target, Parts([Hangs]));
    assert body != [] ==> body[1..] == [] && [Idle][1..] == [] && CanRun(m, env, body[0], Idle);
    assert CanRunAll(m, env, body, rest);
    assert ([target] + body)[1..] == body && trip.body[1..] == rest && [trip][1..] == [];
    assert SpentAll([Hangs]).None? && Spent(Parts([Hangs])).None?;
  }

  /** Nor is what a comprehension does: `[0 for a[subprocess.run(c)] in (0,)]`. */
  lemma GeneratorTargetIsMissed(m: Module, fn: Function, env: Env, seen: set<string>) returns (node: Node, e: Exec)
    ensures CanRun(m, env, node, e) && Exceeds(e, NodeWork(m, fn, node, seen))
    ensures NodeWork(m, fn, node, seen) == Some(0.0) && Spent(e).None?
  {
    hide CanRun, NodeWork, Spent;
    var generator := Generator(Other([Untimed]), Display([Number(0.0)], true), []);
    node := Comprehension([generator], [Number(0.0)]);
    TargetCharge(m, fn, seen, generator);
    e := GeneratorHangs(m, env, generator);
  }

  lemma TargetCharge(m: Module, fn: Function, seen: set<string>, generator: Generator)
    requires generator == Generator(Other([Untimed]), Display([Number(0.0)], true), [])
    ensures NodeWork(m, fn, Comprehension([generator], [Number(0.0)]), seen) == Some(0.0)
  {
    var scope := Scope(m, fn);
    Nothing(m, fn, scope, seen);
    assert [generator][1..] == [] && [Number(0.0)][1..] == [];
    assert ListWork(m, fn, [Number(0.0)], seen) == Some(0.0) && NodeWork(m, fn, generator.iter, seen) == Some(0.0);
    assert ItersWork(m, fn, [generator], seen) == Some(0.0) && FiltersWork(m, fn, [generator], seen) == Some(0.0);
    assert LengthOf(generator.iter, scope) == Known(1) && GeneratorTrips([], scope) == Known(1);
  }

  lemma GeneratorHangs(m: Module, env: Env, generator: Generator) returns (e: Exec)
    requires generator == Generator(Other([Untimed]), Display([Number(0.0)], true), [])
    ensures CanRun(m, env, Comprehension([generator], [Number(0.0)]), e) && Spent(e).None?
  {
    var trip := TargetHangs(m, env, generator.target, []);
    var stage := Stage([Idle], [trip]);
    e := Comprehend([stage], []);
    hide CanRunAll, CanRunTrips;
    assert [generator][1..] == [] && [stage][1..] == [] && [Idle][1..] == [] && stage.rounds == [trip];
    assert Turns(generator.iter, env) == Known(1) && CanRunEach(m, env, generator.iter, [Idle]);
    assert CanRunStages(m, env, [], 1, []) && CanRunStages(m, env, [generator], 1, [stage]);
    Nothing(m, Function("f", [], {}, []), env, {});
    assert SpentStages([stage]).None?;
  }

  lemma RepeatedCharge(m: Module, fn: Function, seen: set<string>, w: real, outer: Generator, inner: Generator)
    requires w > 0.0 && outer == Generator(Pass, Display([Number(0.0), Number(0.0)], true), [])
    requires inner == Generator(Pass, Timed(w), [])
    ensures NodeWork(m, fn, Comprehension([outer, inner], [Number(0.0)]), seen) == Some(w)
  {
    var scope := Scope(m, fn);
    Nothing(m, fn, scope, seen);
    TimedIsCharged(m, fn, scope, seen, w);
    assert [outer, inner][1..] == [inner] && [inner][1..] == [];
    assert ItersWork(m, fn, [inner], seen) == Some(w + 0.0) && FiltersWork(m, fn, [inner], seen) == Some(0.0);
    assert ListWork(m, fn, [Number(0.0)], seen) == Some(0.0);
    assert NodeWork(m, fn, outer.iter, seen) == Some(0.0);
    assert GeneratorTrips([inner], scope) == Unresolved;
    assert FiltersWork(m, fn, [outer, inner], seen) == Some(0.0) && ItersWork(m, fn, [outer, inner], seen) == Some(w);
  }

  lemma RepeatedRuns(m: Module, fn: Function, env: Env, w: real, outer: Generator, inner: Generator, first: Stage,
                     second: Stage)
    requires w > 0.0 && outer == Generator(Pass, Display([Number(0.0), Number(0.0)], true), [])
    requires inner == Generator(Pass, Timed(w), [])
    requires first == Stage([Idle], [Trip([Idle]), Trip([Idle])]) && second == Stage([Spends(w), Spends(w)], [])
    ensures CanRun(m, env, Comprehension([outer, inner], [Number(0.0)]), Comprehend([first, second], []))
  {
    hide NodeWork, ListWork, CallWork, Spent, SpentAll, CanAct, CanRunAll, CanRunKeywords;
    Nothing(m, fn, env, {});
    TimedIsCharged(m, fn, env, {}, w);
    assert [outer, inner][1..] == [inner] && [inner][1..] == [] && [first, second][1..] == [second];
    assert [second][1..] == [];
    assert first.rounds[1..] == [Trip([Idle])] && [Trip([Idle])][1..] == [] && [Pass] + [] == [Text];
    assert CanRunTrips(m, env, [Text], [Trip([Idle])]) && CanRunTrips(m, env, [Pass] + [], first.rounds);
    assert [Spends(w), Spends(w)][1..] == [Spends(w)] && [Spends(w)][1..] == [] && [Idle][1..] == [];
    assert CanRunEach(m, env, Timed(w), [Spends(w)]);
    assert CanRunStages(m, env, [inner], 2, [second]);
    assert CanRunEach(m, env, outer.iter, [Idle]) && Turns(outer.iter, env) == Known(2);
    assert CanRunStages(m, env, [outer, inner], 1, [first, second]);
  }

  lemma RepeatedSpends(w: real, first: Stage, second: Stage)
    requires w > 0.0 && first == Stage([Idle], [Trip([Idle]), Trip([Idle])])
    requires second == Stage([Spends(w), Spends(w)], [])
    ensures Spent(Comprehend([first, second], [])) == Some(w + w)
  {
    assert [first, second][1..] == [second] && [second][1..] == [] && [Idle][1..] == [];
    assert first.rounds[1..] == [Trip([Idle])] && [Trip([Idle])][1..] == [];
    assert [Spends(w), Spends(w)][1..] == [Spends(w)] && [Spends(w)][1..] == [];
    assert Spent(Spends(w)) == Some(w + 0.0);
    assert SpentAll([Spends(w)]) == Some(w + 0.0) && SpentAll([Idle]) == Some(0.0);
    assert SpentTrips([Trip([Idle])]) == Some(0.0);
    assert SpentAll(second.iters) == Some(w + (w + 0.0)) && SpentStages([second]) == Some(w + w);
    assert SpentStages([first, second]) == Some(w + w);
  }

  /** An inner iterable is charged once and evaluated for every outer element. */
  lemma InnerIterableRepeats(m: Module, fn: Function, env: Env, seen: set<string>, w: real)
    returns (node: Node, e: Exec)
    requires w > 0.0
    ensures CanRun(m, env, node, e) && Exceeds(e, NodeWork(m, fn, node, seen))
  {
    hide CanRun, NodeWork, Spent;
    var outer, inner := Generator(Pass, Display([Number(0.0), Number(0.0)], true), []), Generator(Pass, Timed(w), []);
    var first, second := Stage([Idle], [Trip([Idle]), Trip([Idle])]), Stage([Spends(w), Spends(w)], []);
    node, e := Comprehension([outer, inner], [Number(0.0)]), Comprehend([first, second], []);
    RepeatedCharge(m, fn, seen, w, outer, inner);
    RepeatedRuns(m, fn, env, w, outer, inner, first, second);
    RepeatedSpends(w, first, second);
  }

  lemma FilteredCharge(m: Module, fn: Function, seen: set<string>, w: real, outer: Generator, inner: Generator)
    requires w > 0.0 && outer == Generator(Pass, Display([Number(0.0)], true), [Timed(w)])
    requires inner == Generator(Pass, Display([], true), [])
    ensures NodeWork(m, fn, Comprehension([outer, inner], [Number(0.0)]), seen) == Some(0.0)
  {
    var scope := Scope(m, fn);
    Nothing(m, fn, scope, seen);
    TimedIsCharged(m, fn, scope, seen, w);
    OneCharged(m, fn, scope, seen, Timed(w), Spends(w));
    assert [outer, inner][1..] == [inner] && [inner][1..] == [];
    assert ItersWork(m, fn, [inner], seen) == Some(0.0) && FiltersWork(m, fn, [inner], seen) == Some(0.0);
    assert ListWork(m, fn, [Number(0.0)], seen) == Some(0.0);
    assert NodeWork(m, fn, outer.iter, seen) == Some(0.0);
    assert GeneratorTrips([inner], scope) == Known(0);
  }

  lemma FilteredRuns(m: Module, fn: Function, env: Env, w: real, outer: Generator, inner: Generator, first: Stage,
                     second: Stage)
    requires w > 0.0 && outer == Generator(Pass, Display([Number(0.0)], true), [Timed(w)])
    requires inner == Generator(Pass, Display([], true), [])
    requires first == Stage([Idle], [Trip([Idle, Spends(w)])]) && second == Stage([], [])
    ensures CanRun(m, env, Comprehension([outer, inner], [Number(0.0)]), Comprehend([first, second], []))
  {
    hide NodeWork, ListWork, CallWork, Spent, SpentAll, CanAct, CanRunAll, CanRunKeywords;
    Nothing(m, fn, env, {});
    TimedIsCharged(m, fn, env, {}, w);
    OneCharged(m, fn, env, {}, Timed(w), Spends(w));
    assert [outer, inner][1..] == [inner] && [inner][1..] == [] && [first, second][1..] == [second];
    assert [second][1..] == [];
    assert [Trip([Idle, Spends(w)])][1..] == [] && [Idle][1..] == [];
    TripRuns(m, env, outer.ifs, [Spends(w)]);
    assert [Idle] + [Spends(w)] == first.rounds[0].body && first.rounds[1..] == [];
    assert CanRunTrips(m, env, [Pass] + outer.ifs, first.rounds);
    assert CanRunStages(m, env, [inner], 1, [second]);
    assert CanRunEach(m, env, outer.iter, [Idle]) && Turns(outer.iter, env) == Known(1);
    assert CanRunStages(m, env, [outer, inner], 1, [first, second]);
  }

  lemma FilteredSpends(w: real, first: Stage, second: Stage)
    requires w > 0.0 && first == Stage([Idle], [Trip([Idle, Spends(w)])]) && second == Stage([], [])
    ensures Spent(Comprehend([first, second], [])) == Some(w)
  {
    assert [first, second][1..] == [second] && [second][1..] == [] && [Idle][1..] == [];
    assert first.rounds[1..] == [] && [Idle, Spends(w)][1..] == [Spends(w)] && [Spends(w)][1..] == [];
    assert Spent(Spends(w)) == Some(w + 0.0);
    assert SpentAll([Spends(w)]) == Some(w + 0.0) && SpentAll([Idle]) == Some(0.0);
    assert SpentAll([Idle, Spends(w)]) == Some(0.0 + w);
    assert SpentTrips(first.rounds) == Some(w) && SpentStages([second]) == Some(0.0);
  }

  /** Filters of an outer generator run even when an inner one is empty and the product is zero. */
  lemma FilterBeforeEmptyGenerator(m: Module, fn: Function, env: Env, seen: set<string>, w: real)
    returns (node: Node, e: Exec)
    requires w > 0.0
    ensures CanRun(m, env, node, e) && Exceeds(e, NodeWork(m, fn, node, seen))
  {
    hide CanRun, NodeWork, Spent;
    var outer := Generator(Pass, Display([Number(0.0)], true), [Timed(w)]);
    var inner := Generator(Pass, Display([], true), []);
    var first, second := Stage([Idle], [Trip([Idle, Spends(w)])]), Stage([], []);
    node, e := Comprehension([outer, inner], [Number(0.0)]), Comprehend([first, second], []);
    FilteredCharge(m, fn, seen, w, outer, inner);
    FilteredRuns(m, fn, env, w, outer, inner, first, second);
    FilteredSpends(w, first, second);
  }

  // ----- Conditions on names and on the call graph -----

  /** A function that does `w` seconds of work and then calls itself. */
  function Repeating(w: Literal): Function {
    Function("f", [], {}, [Timed(w), Call(Name("f"), [], [])])
  }

  function RepeatingModule(w: Literal): Module { Module'(map["f" := Repeating(w)], map[], {}) }

  function Nested(w: Literal, depth: nat): seq<Exec> {
    var scope := Scope(RepeatingModule(w), Repeating(w));
    [Spends(w), if depth == 0 then Idle else Invoke(Idle, [], [], Enter(Activation(scope, Nested(w, depth - 1))))]
  }

  lemma {:induction false} NestedRuns(w: Literal, depth: nat)
    ensures var m, f := RepeatingModule(w), Repeating(w); CanRunAll(m, Scope(m, f), f.body, Nested(w, depth))
    decreases depth, 1
  {
    var m, f := RepeatingModule(w), Repeating(w);
    var env, again, es := Scope(m, f), Call(Name("f"), [], []), Nested(w, depth);
    TimedIsCharged(m, f, env, {}, w);
    AgainRuns(w, depth);
    Nothing(m, f, env, {});
    OneCharged(m, f, env, {"f"}, again, es[1]);
    hide CanRun, NodeWork;
    assert f.body[0] == Timed(w) && f.body[1..] == [again] && es[0] == Spends(w) && es[1..] == [es[1]];
  }

  lemma {:induction false} AgainRuns(w: Literal, depth: nat)
    ensures var m, f := RepeatingModule(w), Repeating(w);
            && NodeWork(m, f, Call(Name("f"), [], []), {"f"}).Some?
            && CanRun(m, Scope(m, f), Call(Name("f"), [], []), Nested(w, depth)[1])
    decreases depth, 0
  {
    var m, f := RepeatingModule(w), Repeating(w);
    var env := Scope(m, f);
    Nothing(m, f, env, {"f"});
    assert Dotted(Name("f")) == Some("f") && "f" !in BLOCKING_CALLS && TimeoutOf([]).None?;
    assert DefaultOf(f.params, "f").None?;
    if depth > 0 {
      NestedRuns(w, depth - 1);
      assert Admissible(m, f, BoundBy([], [], f), env);
      assert CanAct(m, env, Name("f"), [], [], Nested(w, depth)[1].action);
    }
  }

  lemma {:induction false} NestedSpends(w: real, depth: nat)
    requires w >= 0.0
    ensures SpentAll(Nested(w, depth)) == Some(Times(depth + 1, w))
  {
    var m, f := RepeatingModule(w), Repeating(w);
    Nothing(m, f, Scope(m, f), {});
    TimedIsCharged(m, f, Scope(m, f), {}, w);
    var es := Nested(w, depth);
    assert es[1..] == [es[1]] && [es[1]][1..] == [];
    if depth > 0 {
      NestedSpends(w, depth - 1);
      assert Spent(es[1]) == Some(Times(depth, w));
    } else {
      assert Spent(es[1]) == Some(0.0);
    }
    assert SpentAll([es[1]]) == Plus(Spent(es[1]), Some(0.0));
    assert Spent(es[0]) == Some(w) && SpentAll(es) == Plus(Some(w), SpentAll([es[1]]));
  }

  /** A function already being analysed is charged nothing when it is met again: the ceiling of a
      recursive function is that of one activation, and deeper ones exceed it without bound. */
  lemma RecursionIsCharged(w: real, depth: nat)
    requires w >= 0.0
    ensures var m, f := RepeatingModule(w), Repeating(w);
            && FunctionWork(m, f, {}) == Some(w)
            && CanRunAll(m, Scope(m, f), f.body, Nested(w, depth))
            && SpentAll(Nested(w, depth)) == Some(Times(depth + 1, w))
  {
    NestedRuns(w, depth);
    NestedSpends(w, depth);
    var m, f := RepeatingModule(w), Repeating(w);
    Nothing(m, f, Scope(m, f), {} + {"f"});
    TimedIsCharged(m, f, Scope(m, f), {} + {"f"}, w);
    var again := Call(Name("f"), [], []);
    assert f.body[1..] == [again] && [again][1..] == [] && Dotted(Name("f")) == Some("f") && "f" in {} + {"f"};
    assert "f" !in BLOCKING_CALLS && TimeoutOf([]).None?;
    assert CallWork(m, f, Name("f"), [], {} + {"f"}) == Some(0.0);
    assert NodeWork(m, f, again, {} + {"f"}) == Some(0.0);
    assert ListWork(m, f, [again], {} + {"f"}) == Some(0.0);
  }

  function TimedBy(name: string): Node {
    Call(Attribute(Name("subprocess"), "run"), [Text], [Keyword("timeout", Name(name))])
  }

  lemma TimedByCharged(m: Module, fn: Function, env: Env, seen: set<string>, name: string, w: real)
    requires name !in m.functions && Scope(m, fn)(name).number.Some? && env(name).number == Some(w) && w >= 0.0
    ensures NodeWork(m, fn, TimedBy(name), seen) == Scope(m, fn)(name).number
    ensures ListWork(m, fn, [TimedBy(name)], seen) == Scope(m, fn)(name).number
    ensures CanRunAll(m, env, [TimedBy(name)], [Spends(w)]) && SpentAll([Spends(w)]) == Some(w)
  {
    Nothing(m, fn, env, seen);
    var keywords := [Keyword("timeout", Name(name))];
    assert keywords[1..] == [] && TimeoutOf(keywords) == Some(Name(name));
    assert NodeWork(m, fn, Name(name), seen) == Some(0.0) && KeywordsWork(m, fn, keywords, seen) == Some(0.0);
    assert CanRunKeywords(m, env, keywords, [Idle]);
    assert CanAct(m, env, TimedBy(name).func, [Text], keywords, Spend(w));
    assert CanRun(m, env, TimedBy(name).func, Idle);
    assert Spends(w).Invoke? && Spends(w).args == [Idle] && Spends(w).values == [Idle];
    assert CanRun(m, env, TimedBy(name), Spends(w));
    assert [TimedBy(name)][1..] == [] && [Spends(w)][1..] == [];
    assert Spent(Spends(w)) == Some(w) && w + 0.0 == w;
  }

  lemma NegativeCharge(m: Module, f: Function, w: real, v: Literal, test: Node)
    requires w < 0.0 && m == Module'(map[], map["T" := Value(Some(w), Unresolved, Harmless, true)], {})
    requires test == Other([TimedBy("T"), Timed(v)]) && f == Function("f", [], {}, [test])
    ensures FunctionWork(m, f, {}) == Some(v + w)
  {
    var scope, seen := Scope(m, f), {} + {"f"};
    assert DefaultOf(f.params, "T").None?;
    Nothing(m, f, scope, seen);
    TimedIsCharged(m, f, scope, seen, v);
    var keywords := [Keyword("timeout", Name("T"))];
    assert keywords[1..] == [] && TimeoutKeyword(keywords) == Some(keywords[0]);
    assert KeywordsWork(m, f, keywords, seen) == Some(0.0) && NodeWork(m, f, TimedBy("T"), seen) == Some(w);
    assert test.children[1..] == [Timed(v)] && [Timed(v)][1..] == [] && [test][1..] == [];
    assert ListWork(m, f, [Timed(v)], seen) == Some(v) && NodeWork(m, f, test, seen) == Some(w + v);
  }

  lemma NegativeRuns(m: Module, env: Env, v: Literal, test: Node) returns (body: seq<Exec>)
    requires test == Other([TimedBy("T"), Timed(v)])
    ensures CanRunAll(m, env, [test], body) && SpentAll(body) == Some(v)
  {
    var fn := Function("f", [], {}, [test]);
    Nothing(m, fn, env, {});
    TimedIsCharged(m, fn, env, {}, v);
    OneCharged(m, fn, env, {}, Timed(v), Spends(v));
    var es := [Idle, Spends(v)];
    body := [Parts(es)];
    assert test.children[1..] == [Timed(v)] && es[1..] == [Spends(v)] && body[1..] == [] && [test][1..] == [];
    assert CanRunAll(m, env, test.children, es);
    assert SpentAll(es) == Plus(Some(0.0), Some(v));
    assert Spent(Parts(es)) == Some(v) && SpentAll(body) == Plus(Some(v), Some(0.0));
  }

  /** A negative module constant given as a timeout is charged as negative time, and the two branches of a
      test are summed: the other branch alone spends more than the whole is charged. */
  lemma NegativeTimeout(w: real, v: Literal) returns (m: Module, f: Function, body: seq<Exec>)
    requires w < 0.0
    ensures FunctionWork(m, f, {}) == Some(v + w)
    ensures CanRunAll(m, Scope(m, f), f.body, body) && SpentAll(body) == Some(v)
  {
    hide FunctionWork, CanRunAll, SpentAll;
    m := Module'(map[], map["T" := Value(Some(w), Unresolved, Harmless, true)], {});
    var test := Other([TimedBy("T"), Timed(v)]);
    f := Function("f", [], {}, [test]);
    NegativeCharge(m, f, w, v, test);
    body := NegativeRuns(m, Scope(m, f), v, test);
  }

  /** A local that shares its name with a module constant is read as the constant. */
  lemma ShadowedConstant(low: real, high: real) returns (m: Module, f: Function, env: Env, body: seq<Exec>)
    requires 0.0 <= low < high
    ensures FunctionWork(m, f, {}) == Some(low) && Admissible(m, f, {}, env)
    ensures CanRunAll(m, env, f.body, body) && SpentAll(body) == Some(high)
  {
    m := Module'(map[], map["t" := Value(Some(low), Unresolved, Harmless, true)], {});
    f := Function("f", [], {"t"}, [TimedBy("t")]);
    var scope := Scope(m, f);
    env := x => if x == "t" then Value(Some(high), Unresolved, Harmless, true) else scope(x);
    body := [Spends(high)];
    assert DefaultOf(f.params, "t").None?;
    TimedByCharged(m, f, env, {} + {"f"}, "t", high);
  }

  /** A call that gives a defaulted timeout another value is charged the default. */
  lemma OverriddenDefault(low: real, high: real) returns (m: Module, f: Function, body: seq<Exec>)
    requires 0.0 <= low < high
    ensures FunctionWork(m, f, {}) == Some(low)
    ensures CanRunAll(m, Scope(m, f), f.body, body) && SpentAll(body) == Some(high)
  {
    hide FunctionWork, CanRunAll, SpentAll;
    var g := Function("g", [Param("t", Some(Number(low)))], {}, [TimedBy("t")]);
    m := Module'(map["g" := g], map[], {});
    f := Function("f", [], {}, [Call(Name("g"), [Number(high)], [])]);
    DefaultIsCharged(low, high, m, f, g);
    body := OverrideRuns(low, high, m, f, g);
  }

  lemma DefaultIsCharged(low: real, high: real, m: Module, f: Function, g: Function)
    requires 0.0 <= low < high && m == Module'(map["g" := g], map[], {})
    requires g == Function("g", [Param("t", Some(Number(low)))], {}, [TimedBy("t")])
    requires f == Function("f", [], {}, [Call(Name("g"), [Number(high)], [])])
    ensures FunctionWork(m, f, {}) == Some(low)
  {
    var call, seen := f.body[0], {} + {"f"};
    assert DefaultOf(g.params, "t") == Some(Number(low)) && Scope(m, g)("t").number == Some(low);
    TimedByCharged(m, g, Scope(m, g), seen + {"g"}, "t", low);
    hide NodeWork;
    assert "g" !in BLOCKING_CALLS && TimeoutOf([]).None? && Dotted(Name("g")) == Some("g");
    assert FunctionWork(m, g, seen) == Some(low) && CallWork(m, f, Name("g"), [], seen) == Some(low);
    NumberIsFree(m, f, seen, high);
    CallCharged(m, f, seen, Name("g"), Number(high));
    assert [call][1..] == [] && ListWork(m, f, [], seen) == Some(0.0) && low + 0.0 == low;
  }

  lemma NumberIsFree(m: Module, f: Function, seen: set<string>, v: Literal)
    ensures NodeWork(m, f, Number(v), seen) == Some(0.0)
  {
  }

  lemma OverrideRuns(low: real, high: real, m: Module, f: Function, g: Function) returns (body: seq<Exec>)
    requires 0.0 <= low < high && m == Module'(map["g" := g], map[], {})
    requires g == Function("g", [Param("t", Some(Number(low)))], {}, [TimedBy("t")])
    requires f == Function("f", [], {}, [Call(Name("g"), [Number(high)], [])])
    ensures CanRunAll(m, Scope(m, f), f.body, body) && SpentAll(body) == Some(high)
  {
    hide CanRun, Spent, Admissible, BoundBy;
    var callee := OverrideEnters(low, high, m, g);
    assert DefaultOf(f.params, "g").None? && Scope(m, f)("g").target == Runs("g");
    var e := CallEnters(m, Scope(m, f), "g", Number(high), callee, high);
    body := [e];
    assert f.body[1..] == [] && body[1..] == [] && CanRunAll(m, Scope(m, f), [], []);
    assert SpentAll([]) == Some(0.0) && high + 0.0 == high;
  }

  /** A call with one argument that runs the function it names. */
  lemma CallEnters(m: Module, env: Env, name: string, arg: Node, callee: Activation, t: real) returns (e: Exec)
    requires env(name).target == Runs(name) && name in m.functions
    requires Admissible(m, m.functions[name], BoundBy([arg], [], m.functions[name]), callee.env)
    requires CanRunAll(m, callee.env, m.functions[name].body, callee.body) && SpentAll(callee.body) == Some(t)
    ensures CanRun(m, env, Call(Name(name), [arg], []), e) && Spent(e) == Some(t)
  {
    hide Admissible, BoundBy;
    assert TimeoutKeyword([]).None? && CanAct(m, env, Name(name), [arg], [], Enter(callee));
    e := CallRuns(m, env, Name(name), arg, Enter(callee));
  }

  lemma OverrideEnters(low: real, high: real, m: Module, g: Function) returns (callee: Activation)
    requires 0.0 <= low < high && m == Module'(map["g" := g], map[], {})
    requires g == Function("g", [Param("t", Some(Number(low)))], {}, [TimedBy("t")])
    ensures Admissible(m, g, BoundBy([Number(high)], [], g), callee.env)
    ensures CanRunAll(m, callee.env, g.body, callee.body) && SpentAll(callee.body) == Some(high)
  {
    var scope := Scope(m, g);
    var env := (x: string) => if x == "t" then Value(Some(high), Unresolved, Harmless, true) else scope(x);
    assert DefaultOf(g.params, "t") == Some(Number(low)) && scope("t").number == Some(low) && g.params[0].name == "t";
    assert "t" in BoundBy([Number(high)], [], g) && Admissible(m, g, BoundBy([Number(high)], [], g), env);
    TimedByCharged(m, g, env, {}, "t", high);
    callee := Activation(env, [Spends(high)]);
  }
}
