/**
 Why the fragment is what it is, second half: calls that are not what they are spelt. The analysis finds a
 callee by its name, never asks what the name stands for, and takes a timeout given to a function of the
 module at its word.
 */
module Miscalled {
  import opened Common
  import opened Analyser
  import opened Execution
  import opened Undercharged

  /** What importing `urlopen` at the top of a module makes of the name. */
  const URLOPEN := Value(None, Unresolved, Blocks, true)

  /** `fn` is charged nothing, and one of its executions never ends. */
  ghost predicate HangsUncharged(m: Module, fn: Function, body: seq<Exec>) {
    FunctionWork(m, fn, {}) == Some(0.0) && CanRunAll(m, Scope(m, fn), fn.body, body) && SpentAll(body).None?
  }

  /** A one-node body, charged nothing, of which one execution hangs. */
  lemma OneHangs(m: Module, fn: Function, node: Node, e: Exec)
    requires fn.body == [node] && NodeWork(m, fn, node, {fn.name}) == Some(0.0)
    requires CanRun(m, Scope(m, fn), node, e) && Spent(e).None?
    ensures HangsUncharged(m, fn, [e])
  {
    assert {} + {fn.name} == {fn.name};
    OneCharged(m, fn, Scope(m, fn), {fn.name}, node, e);
  }

  /** A two-node body, charged nothing, of which the first node can hang. */
  lemma FirstHangs(m: Module, fn: Function, first: Node, second: Node, e: Exec)
    requires fn.body == [first, second] && CanRun(m, Scope(m, fn), first, e) && Spent(e).None?
    requires NodeWork(m, fn, first, {fn.name}) == Some(0.0) && NodeWork(m, fn, second, {fn.name}) == Some(0.0)
    ensures HangsUncharged(m, fn, [e, Idle])
  {
    assert {} + {fn.name} == {fn.name};
    OneCharged(m, fn, Scope(m, fn), {fn.name}, second, Idle);
    assert fn.body[1..] == [second] && [e, Idle][1..] == [Idle];
  }

  lemma OneRuns(m: Module, fn: Function, env: Env, node: Node, e: Exec) returns (body: seq<Exec>)
    requires fn.body == [node] && NodeWork(m, fn, node, {fn.name}).Some? && CanRun(m, env, node, e) && Spent(e).Some?
    ensures FunctionWork(m, fn, {}) == NodeWork(m, fn, node, {fn.name})
    ensures CanRunAll(m, env, fn.body, body) && SpentAll(body) == Spent(e)
  {
    assert {} + {fn.name} == {fn.name};
    OneCharged(m, fn, env, {fn.name}, node, e);
    body := [e];
    assert Spent(e).value + 0.0 == Spent(e).value;
  }

  /** A call of a name that stands for something that blocks. */
  lemma CallHangs(m: Module, fn: Function, name: string)
    requires fn.body == [Call(Name(name), [Text], [])] && Scope(m, fn)(name).target == Blocks
    requires CallWork(m, fn, Name(name), [], {fn.name}) == Some(0.0)
    ensures HangsUncharged(m, fn, [Hangs])
  {
    var call, env := Call(Name(name), [Text], []), Scope(m, fn);
    hide CallWork, NodeWork, CanRun, Spent;
    assert TimeoutOf([]).None? && CanAct(m, env, Name(name), [Text], [], Hang);
    var e := CallRuns(m, env, Name(name), Text, Hang);
    TextIsFree(m, fn, {fn.name});
    CallCharged(m, fn, {fn.name}, Name(name), Text);
    OneHangs(m, fn, call, e);
  }

  lemma TextIsFree(m: Module, fn: Function, seen: set<string>)
    ensures NodeWork(m, fn, Text, seen) == Some(0.0)
  {
    assert ListWork(m, fn, [], seen) == Some(0.0);
  }

  /** A method call without a timeout costs nothing unless its spelling is on the list. */
  lemma MethodIsFree(m: Module, fn: Function, seen: set<string>, base: string, attr: string, arg: Node)
    requires base + "." + attr !in BLOCKING_CALLS && NodeWork(m, fn, arg, seen) == Some(0.0)
    ensures NodeWork(m, fn, Call(Attribute(Name(base), attr), [arg], []), seen) == Some(0.0)
  {
    var func := Attribute(Name(base), attr);
    assert Dotted(Name(base)) == Some(base) && Dotted(func) == Some(base + "." + attr) && TimeoutOf([]).None?;
    CallCharged(m, fn, seen, func, arg);
  }

  /** `def g(u): pass` and `def f(g=urlopen): g(u)`: the analysis follows the function, Python the default. */
  lemma ShadowedCallee() returns (m: Module, f: Function)
    ensures HangsUncharged(m, f, [Hangs])
  {
    var g := Function("g", [Param("u", None)], {}, [Pass]);
    m := Module'(map["g" := g], map["urlopen" := URLOPEN], {});
    f := Function("f", [Param("g", Some(Name("urlopen")))], {}, [Call(Name("g"), [Text], [])]);
    assert DefaultOf(f.params, "g") == Some(Name("urlopen")) && Scope(m, f)("g").target == Blocks;
    hide NodeWork, Scope, DefaultOf, CanRunAll, SpentAll;
    Nothing(m, g, Scope(m, g), {"f"} + {"g"});
    assert g.body == [Text] && FunctionWork(m, g, {"f"}) == Some(0.0);
    assert Dotted(Name("g")) == Some("g") && "g" !in BLOCKING_CALLS && TimeoutOf([]).None?;
    CallHangs(m, f, "g");
  }

  /** `def f(opener=urlopen): opener(u)`: a parameter is taken to be free, its default is not looked at. */
  lemma BlockingDefault() returns (m: Module, f: Function)
    ensures HangsUncharged(m, f, [Hangs])
  {
    m := Module'(map[], map["urlopen" := URLOPEN], {});
    f := Function("f", [Param("opener", Some(Name("urlopen")))], {}, [Call(Name("opener"), [Text], [])]);
    assert DefaultOf(f.params, "opener") == Some(Name("urlopen")) && f.params[0].name == "opener";
    assert Dotted(Name("opener")) == Some("opener") && "opener" !in BLOCKING_CALLS && TimeoutOf([]).None?;
    CallHangs(m, f, "opener");
  }

  /** `fetch = urlopen` at the top of the module and `def f(): fetch(u)`: any global is taken to be free. */
  lemma BlockingAlias() returns (m: Module, f: Function)
    ensures HangsUncharged(m, f, [Hangs])
  {
    m := Module'(map[], map["urlopen" := URLOPEN, "fetch" := URLOPEN], {});
    f := Function("f", [], {}, [Call(Name("fetch"), [Text], [])]);
    assert DefaultOf(f.params, "fetch").None?;
    assert Dotted(Name("fetch")) == Some("fetch") && "fetch" !in BLOCKING_CALLS && TimeoutOf([]).None?;
    CallHangs(m, f, "fetch");
  }

  /** `retry(urlopen)`: a blocking call that is handed out by name instead of being called. */
  lemma BlockingHandedOut() returns (m: Module, f: Function, body: seq<Exec>)
    ensures HangsUncharged(m, f, body)
  {
    var call := Call(Name("retry"), [Name("urlopen")], []);
    m := Module'(map[], map["urlopen" := URLOPEN, "retry" := Value(None, Unresolved, Harmless, true)], {});
    f := Function("f", [], {}, [call]);
    var env, e := Scope(m, f), Invoke(Idle, [Stuck], [], Free);
    Nothing(m, f, env, {"f"});
    assert DefaultOf(f.params, "urlopen").None? && TimeoutOf([]).None?;
    OneCharged(m, f, env, {"f"}, Name("urlopen"), Stuck);
    assert Dotted(Name("retry")) == Some("retry") && "retry" !in BLOCKING_CALLS;
    assert CanRun(m, env, call, e) && Spent(e).None?;
    OneHangs(m, f, call, e);
    body := [e];
  }

  /** `import subprocess as sp` and `def f(): sp.run(c)`: a method is known by the spelling of its object. */
  lemma AliasedMethod() returns (m: Module, f: Function)
    ensures HangsUncharged(m, f, [Hangs])
  {
    var run := Attribute(Name("sp"), "run");
    m := Module'(map[], map["sp" := Value(None, Unresolved, Harmless, true)], {});
    f := Function("f", [], {}, [Call(run, [Text], [])]);
    var env := Scope(m, f);
    assert "sp" + "." + "run" == "sp.run" && TimeoutOf([]).None? && CanAct(m, env, run, [Text], [], Hang);
    hide NodeWork, CanRun, Spent;
    TextIsFree(m, f, {"f"});
    MethodIsFree(m, f, {"f"}, "sp", "run", Text);
    var e := CallRuns(m, env, run, Text, Hang);
    OneHangs(m, f, Call(run, [Text], []), e);
  }

  /** `def f(fetch): from urllib.request import urlopen as fetch; fetch(u)`, or any other path to something
      slow: the parameter the import rebinds is still taken to be free. */
  lemma BlockingImport(path: string) returns (m: Module, f: Function)
    requires LastPiece(path) in SLOW_METHODS
    ensures |f.body| == 2 && f.body[0] == Import(path) && HangsUncharged(m, f, [Stuck, Idle])
  {
    m := Module'(map[], map[], {});
    f := Function("f", [Param("fetch", None)], {"fetch"}, [Import(path), Call(Name("fetch"), [Text], [])]);
    ParamIsFree(m, f, "fetch");
    FirstHangs(m, f, f.body[0], f.body[1], Stuck);
  }

  /** A call of a parameter is charged nothing. */
  lemma ParamIsFree(m: Module, f: Function, name: string)
    requires f.params == [Param(name, None)] && name !in BLOCKING_CALLS && m.functions == map[]
    ensures NodeWork(m, f, Call(Name(name), [Text], []), {f.name}) == Some(0.0)
  {
    Nothing(m, f, Scope(m, f), {f.name});
    assert Dotted(Name(name)) == Some(name) && TimeoutOf([]).None? && f.params[0].name == name;
  }

  /** `TABLE = {"open": urlopen}` and `def f(opener): opener = TABLE["open"]; opener(u)`: so is the parameter
      an assignment rebinds, whatever the container it is taken from holds. */
  lemma BlockingInTable() returns (m: Module, f: Function, body: seq<Exec>)
    ensures HangsUncharged(m, f, body)
  {
    var lookup := Other([Name("TABLE"), Text]);
    m := Module'(map[], map["TABLE" := Value(None, Unresolved, Blocks, false)], {});
    f := Function("f", [Param("opener", None)], {"opener"}, [lookup, Call(Name("opener"), [Text], [])]);
    var e := Parts([Stuck, Idle]);
    assert DefaultOf(f.params[1..], "TABLE").None? && DefaultOf(f.params, "TABLE").None?;
    assert Scope(m, f)("TABLE").target == Blocks;
    hide NodeWork, CanRun, Spent, Scope;
    ParamIsFree(m, f, "opener");
    LookupHangs(m, f, lookup, e);
    FirstHangs(m, f, lookup, f.body[1], e);
    body := [e, Idle];
  }

  lemma LookupHangs(m: Module, f: Function, lookup: Node, e: Exec)
    requires m.functions == map[] && Scope(m, f)("TABLE").target == Blocks
    requires lookup == Other([Name("TABLE"), Text]) && e == Parts([Stuck, Idle])
    ensures NodeWork(m, f, lookup, {f.name}) == Some(0.0)
    ensures CanRun(m, Scope(m, f), lookup, e) && Spent(e).None?
  {
    Nothing(m, f, Scope(m, f), {f.name});
    assert lookup.children[1..] == [Text] && e.parts[1..] == [Idle];
    assert CanRun(m, Scope(m, f), Name("TABLE"), Stuck) && NodeWork(m, f, Name("TABLE"), {f.name}) == Some(0.0);
  }

  /** `time.sleep(w)`: no timeout, not on the list of blocking calls, charged nothing. */
  lemma SleepIsFree(w: Literal) returns (m: Module, f: Function, body: seq<Exec>)
    ensures FunctionWork(m, f, {}) == Some(0.0)
    ensures CanRunAll(m, Scope(m, f), f.body, body) && SpentAll(body) == Some(w)
  {
    var sleep := Attribute(Name("time"), "sleep");
    var call := Call(sleep, [Number(w)], []);
    m := Module'(map[], map["time" := Value(None, Unresolved, Harmless, true)], {});
    f := Function("f", [], {}, [call]);
    var env := Scope(m, f);
    assert "time" + "." + "sleep" == "time.sleep" && TimeoutOf([]).None?;
    assert CanAct(m, env, sleep, [Number(w)], [], Spend(w));
    hide NodeWork, CanRun, Spent, FunctionWork, CanRunAll, SpentAll;
    NumberIsFree(m, f, {"f"}, w);
    MethodIsFree(m, f, {"f"}, "time", "sleep", Number(w));
    var e := CallRuns(m, env, sleep, Number(w), Spend(w));
    body := OneRuns(m, f, env, call, e);
  }

  // ----- a timeout taken at its word -----

  /** A function of the module that gives its timeout to each of two calls. */
  const TWICE := Function("g", [Param("timeout_s", Some(Number(0.0)))], {},
                          [TimedBy("timeout_s"), TimedBy("timeout_s")])

  lemma TwiceRuns(m: Module, env: Env, w: Literal)
    requires m == Module'(map["g" := TWICE], map[], {}) && env("timeout_s").number == Some(w)
    ensures CanRunAll(m, env, TWICE.body, [Spends(w), Spends(w)]) && SpentAll([Spends(w), Spends(w)]) == Some(w + w)
  {
    assert DefaultOf(TWICE.params, "timeout_s") == Some(Number(0.0));
    assert Scope(m, TWICE)("timeout_s").number == Some(0.0);
    TimedByCharged(m, TWICE, env, {}, "timeout_s", w);
    assert TWICE.body[1..] == [TimedBy("timeout_s")] && [TimedBy("timeout_s")][1..] == [];
    assert [Spends(w), Spends(w)][1..] == [Spends(w)] && [Spends(w)][1..] == [];
    assert SpentAll([Spends(w)]) == Plus(Spent(Spends(w)), Some(0.0));
  }

  lemma TimedCallRuns(m: Module, env: Env, w: Literal, call: Node, e: Exec)
    requires m == Module'(map["g" := TWICE], map[], {}) && env("g").target == Runs("g")
    requires call == Call(Name("g"), [], [Keyword("timeout_s", Number(w))])
    requires e.Invoke? && e.func == Idle && e.args == [] && e.values == [Idle] && e.action.Enter?
    requires e.action.callee.body == [Spends(w), Spends(w)]
    requires Admissible(m, TWICE, BoundBy([], call.keywords, TWICE), e.action.callee.env)
    requires e.action.callee.env("timeout_s") == Value(Some(w), Unresolved, Harmless, true)
    ensures CanRun(m, env, call, e) && Spent(e) == Some(w + w)
  {
    var fn := Function("f", [], {}, [call]);
    Nothing(m, fn, env, {});
    TwiceRuns(m, e.action.callee.env, w);
    assert call.keywords[1..] == [] && [Idle][1..] == [] && SpentAll([Idle]) == Some(0.0);
    assert CanRunKeywords(m, env, call.keywords, [Idle]);
    assert Passes(call.keywords, env, TWICE, e.action.callee.env);
    assert CanAct(m, env, Name("g"), [], call.keywords, e.action);
  }

  /** A timed call of a function of the module costs its timeout, and the body is never read: one that spends
      the timeout twice spends twice the charge. */
  lemma TimedCallOverruns(w: Literal) returns (m: Module, f: Function, body: seq<Exec>)
    ensures FunctionWork(m, f, {}) == Some(w)
    ensures CanRunAll(m, Scope(m, f), f.body, body) && SpentAll(body) == Some(w + w)
  {
    var keywords := [Keyword("timeout_s", Number(w))];
    var call := Call(Name("g"), [], keywords);
    m := Module'(map["g" := TWICE], map[], {});
    f := Function("f", [], {}, [call]);
    var env, scope := Scope(m, f), Scope(m, TWICE);
    var inner: Env := x => if x == "timeout_s" then Value(Some(w), Unresolved, Harmless, true) else scope(x);
    var e := Invoke(Idle, [], [Idle], Enter(Activation(inner, [Spends(w), Spends(w)])));
    assert {} + {"f"} == {"f"};
    TwiceEntered(m, keywords, w, inner);
    TimedCallCharge(m, f, w, keywords, call);
    assert DefaultOf(f.params, "g").None? && env("g").target == Runs("g");
    hide NodeWork, CanRun, Spent, BoundBy, Admissible, Scope;
    TimedCallRuns(m, env, w, call, e);
    OneCharged(m, f, env, {"f"}, call, e);
    body := [e];
  }

  lemma TwiceEntered(m: Module, keywords: seq<Keyword>, w: Literal, inner: Env)
    requires keywords == [Keyword("timeout_s", Number(w))]
    requires forall x :: inner(x) ==
               if x == "timeout_s" then Value(Some(w), Unresolved, Harmless, true) else Scope(m, TWICE)(x)
    ensures Admissible(m, TWICE, BoundBy([], keywords, TWICE), inner)
  {
    assert TWICE.params[0].name == "timeout_s" && BoundBy([], keywords, TWICE) == {keywords[0].name};
    assert Loose(TWICE) == {} by { assert DefaultOf(TWICE.params, "timeout_s").Some?; }
  }

  lemma TimedCallCharge(m: Module, f: Function, w: Literal, keywords: seq<Keyword>, call: Node)
    requires keywords == [Keyword("timeout_s", Number(w))] && call == Call(Name("g"), [], keywords)
    ensures NodeWork(m, f, call, {"f"}) == Some(w)
  {
    Nothing(m, f, Scope(m, f), {"f"});
    assert keywords[1..] == [] && TimeoutKeyword(keywords) == Some(keywords[0]);
    assert KeywordsWork(m, f, keywords, {"f"}) == Some(0.0);
  }

  // ----- trip counts that do not hold -----

  /** Any number of equal trips. */
  function Many(n: nat, es: seq<Exec>): seq<Trip> {
    if n == 0 then [] else [Trip(es)] + Many(n - 1, es)
  }

  lemma {:induction false} ManyRun(m: Module, env: Env, body: seq<Node>, es: seq<Exec>, n: nat)
    requires CanRunAll(m, env, body, es)
    ensures CanRunTrips(m, env, body, Many(n, es))
  {
    if n > 0 {
      ManyRun(m, env, body, es, n - 1);
      assert Many(n, es)[0] == Trip(es) && Many(n, es)[1..] == Many(n - 1, es);
    }
  }

  lemma {:induction false} ManySpend(es: seq<Exec>, n: nat, w: real)
    requires SpentAll(es) == Some(w)
    ensures SpentTrips(Many(n, es)) == Some(Times(n, w))
  {
    if n > 0 {
      ManySpend(es, n - 1, w);
      assert Many(n, es)[0] == Trip(es) && Many(n, es)[1..] == Many(n - 1, es);
    }
  }

  /** `n` trips through a loop whose iterable says nothing about their number. */
  lemma LoopRuns(m: Module, env: Env, loop: Node, es: seq<Exec>, n: nat, w: real) returns (e: Exec)
    requires loop.For? && loop.target == Pass && loop.orelse == [] && Turns(loop.iter, env) == Unresolved
    requires CanRunAll(m, env, loop.body, es) && SpentAll(es) == Some(w)
    ensures CanRun(m, env, loop, e) && Spent(e) == Some(Times(n, w))
  {
    var trip := [Idle] + es;
    e := Loop(Idle, Many(n, trip), []);
    TripRuns(m, env, loop.body, es);
    ManyRun(m, env, [Pass] + loop.body, trip, n);
    ManySpend(trip, n, w);
    RunsNothing(m, env);
    hide CanRunAll, CanRunTrips, SpentTrips;
    assert CanRun(m, env, loop.iter, Idle) && SpentAll([]) == Some(0.0);
  }

  lemma RunsNothing(m: Module, env: Env)
    ensures CanRunAll(m, env, [], [])
  {
  }

  /** A loop known to make one trip is charged one. */
  lemma OneTripCharge(m: Module, f: Function, seen: set<string>, loop: Node, w: real)
    requires loop.For? && loop.orelse == [] && LengthOf(loop.iter, Scope(m, f)) == Known(1)
    requires NodeWork(m, f, loop.iter, seen) == Some(0.0) && ListWork(m, f, loop.body, seen) == Some(w)
    ensures NodeWork(m, f, loop, seen) == Some(w)
  {
    Nothing(m, f, Scope(m, f), seen);
    hide CallWork, LengthOf, Scope;
    assert Times(1, w) == Times(0, w) + w && w + 0.0 == w;
  }

  /** `def f(range): for _ in range(1): ...`: a trip count is read off anything spelt `range`. */
  lemma ShadowedRange(w: Literal, n: nat) returns (m: Module, f: Function, env: Env, body: seq<Exec>)
    ensures FunctionWork(m, f, {}) == Some(w) && Admissible(m, f, {}, env)
    ensures CanRunAll(m, env, f.body, body) && SpentAll(body) == Some(Times(n, w))
  {
    var iter := Call(Name("range"), [Number(1.0)], []);
    var loop := For(Pass, iter, [Timed(w)], []);
    m := Module'(map[], map[], {"range"});
    f := Function("f", [Param("range", None)], {}, [loop]);
    var scope := Scope(m, f);
    env := x => if x == "range" then Value(None, Unresolved, Harmless, true) else scope(x);
    assert f.params[0].name == "range" && DefaultOf(f.params, "range").None? && "range" in Loose(f);
    assert Admissible(m, f, {}, env) && Turns(iter, env) == Unresolved;
    RangeCharge(m, f, w, iter, loop);
    TimedIsCharged(m, f, env, {}, w);
    OneCharged(m, f, env, {}, Timed(w), Spends(w));
    hide NodeWork, FunctionWork, CanRun, CanRunAll, Spent, SpentAll, Scope, Admissible, Turns;
    var e := LoopRuns(m, env, loop, [Spends(w)], n, w);
    body := OneRuns(m, f, env, loop, e);
  }

  lemma RangeCharge(m: Module, f: Function, w: Literal, iter: Node, loop: Node)
    requires iter == Call(Name("range"), [Number(1.0)], []) && loop == For(Pass, iter, [Timed(w)], [])
    requires m == Module'(map[], map[], {"range"})
    ensures NodeWork(m, f, loop, {"f"}) == Some(w)
  {
    var env := Scope(m, f);
    Nothing(m, f, env, {"f"});
    OneCharged(m, f, env, {"f"}, Number(1.0), Idle);
    assert Dotted(Name("range")) == Some("range") && "range" !in BLOCKING_CALLS && TimeoutOf([]).None?;
    assert NodeWork(m, f, iter, {"f"}) == Some(0.0);
    assert NumberOf(iter.args[0], env) == Some(1.0) && LengthOf(iter, env) == Known(1);
    TimedIsCharged(m, f, env, {"f"}, w);
    OneCharged(m, f, env, {"f"}, Timed(w), Spends(w));
    hide NodeWork;
    OneTripCharge(m, f, {"f"}, loop, w);
  }

  /** `ITEMS = [0]` and `def f(): for x in ITEMS: ITEMS.append(x); ...`: the length is read once, before the
      loop, of a list that grows while it is iterated. */
  lemma GrowingList(w: Literal, n: nat) returns (m: Module, f: Function, body: seq<Exec>)
    ensures FunctionWork(m, f, {}) == Some(w)
    ensures CanRunAll(m, Scope(m, f), f.body, body) && SpentAll(body) == Some(Times(n, w))
  {
    var loop := For(Pass, Name("ITEMS"), [APPEND, Timed(w)], []);
    m := Module'(map[], map["ITEMS" := Value(None, Known(1), Harmless, false)], {});
    f := Function("f", [], {"x"}, [loop]);
    var env := Scope(m, f);
    assert DefaultOf(f.params, "ITEMS").None? && Turns(Name("ITEMS"), env) == Unresolved;
    assert LengthOf(Name("ITEMS"), env) == Known(1) && NodeWork(m, f, Name("ITEMS"), {"f"}) == Some(0.0);
    GrowthRuns(m, f, env, w);
    hide NodeWork, FunctionWork, CanRun, CanRunAll, Spent, SpentAll, Scope, Turns, LengthOf;
    OneTripCharge(m, f, {"f"}, loop, w);
    var e := LoopRuns(m, env, loop, [Idle, Spends(w)], n, w);
    body := OneRuns(m, f, env, loop, e);
  }

  const APPEND := Call(Attribute(Name("ITEMS"), "append"), [Name("x")], [])

  lemma GrowthRuns(m: Module, f: Function, env: Env, w: Literal)
    requires m.functions == map[]
    ensures ListWork(m, f, [APPEND, Timed(w)], {"f"}) == Some(w)
    ensures CanRunAll(m, env, [APPEND, Timed(w)], [Idle, Spends(w)]) && SpentAll([Idle, Spends(w)]) == Some(w)
  {
    Nothing(m, f, env, {"f"});
    OneCharged(m, f, env, {"f"}, Name("x"), Idle);
    assert TimeoutOf([]).None? && Dotted(Name("ITEMS")) == Some("ITEMS");
    assert Dotted(APPEND.func) == Some("ITEMS" + "." + "append") && "ITEMS" + "." + "append" == "ITEMS.append";
    assert "ITEMS.append" !in BLOCKING_CALLS && NodeWork(m, f, APPEND, {"f"}) == Some(0.0);
    TimedIsCharged(m, f, env, {"f"}, w);
    OneCharged(m, f, env, {"f"}, Timed(w), Spends(w));
    assert [APPEND, Timed(w)][1..] == [Timed(w)] && [Idle, Spends(w)][1..] == [Spends(w)];
  }

  // ----- and a timed call that keeps its word -----

  /** `def get(u, timeout_s=5): urlopen(u, timeout=timeout_s)`. */
  const GET := Function("get", [Param("u", None), Param("timeout_s", Some(Number(5.0)))], {},
                        [Call(Name("urlopen"), [Name("u")], [Keyword("timeout", Name("timeout_s"))])])

  lemma FixedGet(m: Module, w: Literal, seen: set<string>)
    requires m == Module'(map["get" := GET], map["urlopen" := URLOPEN], {})
    ensures var fixed := Fixed(GET, "timeout_s", w);
            FunctionWork(m, fixed, seen) == Some(w) && FunctionOk(m, fixed, seen) && UsesAll(GET.body) == {"timeout_s"}
  {
    hide Scope, Loose, NodeWork, NodeOk, UsesAll;
    var fixed, now := Fixed(GET, "timeout_s", w), seen + {"get"};
    var keywords := [Keyword("timeout", Name("timeout_s"))];
    var call := Call(Name("urlopen"), [Name("u")], keywords);
    GetScope(m, w, fixed);
    GetUses(keywords, call);
    GetCharge(m, w, fixed, keywords, call, now);
    GetOk(m, w, fixed, keywords, call, now);
    assert GET.body == [call] && [call][1..] == [] && ListWork(m, fixed, [], now) == Some(0.0);
    assert ListOk(m, fixed, [], now) && w + 0.0 == w;
  }

  lemma GetUses(keywords: seq<Keyword>, call: Node)
    requires keywords == [Keyword("timeout", Name("timeout_s"))] && call == Call(Name("urlopen"), [Name("u")], keywords)
    ensures UsesAll([call]) == {"timeout_s"}
  {
    assert [Name("u")][1..] == [] && keywords[1..] == [] && [call][1..] == [];
    assert UsesAll([]) == {} && UsesAll([Name("u")]) == {};
    assert UsesKeywords([]) == {} && UsesKeywords(keywords) == {};
    assert TimeoutKeyword(keywords) == Some(keywords[0]) && TimeoutUses(keywords) == {"timeout_s"};
    assert Uses(call) == {"timeout_s"};
  }

  lemma GetCharge(m: Module, w: Literal, fixed: Function, keywords: seq<Keyword>, call: Node, now: set<string>)
    requires m.functions.Keys == {"get"} && "get" in now && Scope(m, fixed)("timeout_s").number == Some(w)
    requires keywords == [Keyword("timeout", Name("timeout_s"))] && call == Call(Name("urlopen"), [Name("u")], keywords)
    ensures NodeWork(m, fixed, call, now) == Some(w)
  {
    hide Scope;
    assert [Name("u")][1..] == [] && keywords[1..] == [];
    assert NodeWork(m, fixed, Name("u"), now) == Some(0.0) && NodeWork(m, fixed, Name("timeout_s"), now) == Some(0.0);
    assert ListWork(m, fixed, [], now) == Some(0.0) && ListWork(m, fixed, [Name("u")], now) == Some(0.0);
    assert KeywordsWork(m, fixed, [], now) == Some(0.0) && KeywordsWork(m, fixed, keywords, now) == Some(0.0);
    assert TimeoutKeyword(keywords) == Some(keywords[0]);
    assert CallWork(m, fixed, Name("urlopen"), keywords, now) == Some(w);
  }

  lemma GetOk(m: Module, w: Literal, fixed: Function, keywords: seq<Keyword>, call: Node, now: set<string>)
    requires Scope(m, fixed)("timeout_s") == Value(Some(w), Unresolved, Harmless, true)
    requires Scope(m, fixed)("urlopen") == URLOPEN && Scope(m, fixed)("u").target == Harmless
    requires keywords == [Keyword("timeout", Name("timeout_s"))] && call == Call(Name("urlopen"), [Name("u")], keywords)
    ensures NodeOk(m, fixed, call, now)
  {
    hide Scope;
    assert [Name("u")][1..] == [] && keywords[1..] == [] && TimeoutKeyword(keywords) == Some(keywords[0]);
    assert NodeOk(m, fixed, Name("timeout_s"), now) && NodeOk(m, fixed, Name("u"), now);
    assert ListOk(m, fixed, [], now) && ListOk(m, fixed, [Name("u")], now);
    assert KeywordsOk(m, fixed, [], now) && KeywordsOk(m, fixed, keywords, now);
    assert CalleeOk(m, fixed, Name("urlopen"), [Name("u")], keywords, now);
  }

  lemma GetScope(m: Module, w: Literal, fixed: Function)
    requires m == Module'(map["get" := GET], map["urlopen" := URLOPEN], {}) && fixed == Fixed(GET, "timeout_s", w)
    ensures Scope(m, fixed)("timeout_s") == Value(Some(w), Unresolved, Harmless, true)
    ensures Scope(m, fixed)("urlopen") == URLOPEN && Scope(m, fixed)("u").target == Harmless && Loose(fixed) == {"u"}
  {
    var rest := [Param("timeout_s", Some(Number(w)))];
    assert fixed.params == [Param("u", None)] + rest && fixed.params[1..] == rest && rest[1..] == [];
    assert DefaultOf(rest, "timeout_s") == Some(Number(w)) && DefaultOf(rest, "urlopen").None?;
    assert DefaultOf(rest, "u").None?;
    assert DefaultOf(fixed.params, "timeout_s") == Some(Number(w)) && DefaultOf(fixed.params, "u").None?;
    assert fixed.params[0].name == "u" && fixed.params[1].name == "timeout_s";
    assert Loose(fixed) == {"u"};
  }

  lemma HelperCharge(m: Module, f: Function, w: Literal, keywords: seq<Keyword>)
    requires m == Module'(map["get" := GET], map["urlopen" := URLOPEN], {})
    requires keywords == [Keyword("timeout_s", Number(w))]
    requires f == Function("f", [], {}, [Call(Name("get"), [Text], keywords)])
    ensures FunctionWork(m, f, {}) == Some(w)
  {
    var call, seen := f.body[0], {} + {"f"};
    Nothing(m, f, Scope(m, f), seen);
    assert keywords[1..] == [] && [call][1..] == [] && TimeoutKeyword(keywords) == Some(keywords[0]);
    assert KeywordsWork(m, f, keywords, seen) == Some(0.0) && NodeWork(m, f, call, seen) == Some(w);
  }

  lemma HelperTimed(m: Module, f: Function, w: Literal, keywords: seq<Keyword>, seen: set<string>)
    requires m == Module'(map["get" := GET], map["urlopen" := URLOPEN], {})
    requires keywords == [Keyword("timeout_s", Number(w))]
    ensures TimeoutOf(keywords).Some? && TimeoutOk(m, f, keywords) && TimedOk(m, f, GET, [Text], keywords, seen)
  {
    FixedGet(m, w, seen);
    hide FunctionOk, FunctionWork, UsesAll, Fixed;
    assert TimeoutKeyword(keywords) == Some(keywords[0]);
    assert GET.params[0].name == "u" && GET.params[1].name == "timeout_s";
    assert AllParams(GET) == {"u", "timeout_s"} && BoundBy([Text], keywords, GET) == {"u", keywords[0].name};
    assert BoundBy([Text], keywords, GET) - (AllParams(GET) * {"timeout_s"}) == {"u"};
  }

  lemma HelperCallee(m: Module, f: Function, w: Literal, keywords: seq<Keyword>, seen: set<string>)
    requires m == Module'(map["get" := GET], map["urlopen" := URLOPEN], {})
    requires keywords == [Keyword("timeout_s", Number(w))]
    requires f == Function("f", [], {}, [Call(Name("get"), [Text], keywords)]) && "get" !in seen
    ensures TimeoutOk(m, f, keywords) && CalleeOk(m, f, Name("get"), [Text], keywords, seen)
  {
    HelperTimed(m, f, w, keywords, seen);
    hide TimedOk, FunctionOk, UsesAll, TimeoutKeyword;
    assert DefaultOf(f.params, "get").None? && Scope(m, f)("get").target == Runs("get");
    EnteringShrinks(m, seen, "get");
  }

  lemma HelperNode(m: Module, f: Function, w: Literal, keywords: seq<Keyword>, call: Node, seen: set<string>)
    requires keywords == [Keyword("timeout_s", Number(w))] && call == Call(Name("get"), [Text], keywords)
    requires TimeoutOk(m, f, keywords) && CalleeOk(m, f, Name("get"), [Text], keywords, seen)
    ensures NodeOk(m, f, call, seen)
  {
    hide CalleeOk, TimeoutOk;
    assert [Text][1..] == [] && keywords[1..] == [];
    assert ListOk(m, f, [], seen) && ListOk(m, f, [Text], seen);
    assert KeywordsOk(m, f, [], seen) && KeywordsOk(m, f, keywords, seen);
  }

  lemma HelperUses(w: Literal, keywords: seq<Keyword>, call: Node)
    requires keywords == [Keyword("timeout_s", Number(w))] && call == Call(Name("get"), [Text], keywords)
    ensures UsesAll([call]) == {}
  {
    assert [Text][1..] == [] && keywords[1..] == [] && [call][1..] == [];
    assert Uses(Text) == {} && UsesAll([]) == {} && UsesAll([Text]) == {};
    assert UsesKeywords([]) == {} && Uses(Number(w)) == {} && UsesKeywords(keywords) == {};
    assert TimeoutKeyword(keywords) == Some(keywords[0]) && TimeoutUses(keywords) == {};
    assert Uses(call) == {};
  }

  /** The harness's own idiom is in the fragment: a helper that passes its timeout on, called with another. */
  lemma HelperIsCovered(m: Module, f: Function, w: Literal, keywords: seq<Keyword>)
    requires m == Module'(map["get" := GET], map["urlopen" := URLOPEN], {})
    requires keywords == [Keyword("timeout_s", Number(w))]
    requires f == Function("f", [], {}, [Call(Name("get"), [Text], keywords)])
    ensures FunctionOk(m, f, {}) && FunctionWork(m, f, {}) == Some(w)
  {
    HelperCharge(m, f, w, keywords);
    var call, seen := f.body[0], {} + {"f"};
    HelperCallee(m, f, w, keywords, seen);
    HelperNode(m, f, w, keywords, call, seen);
    HelperUses(w, keywords, call);
    hide CalleeOk, FunctionWork, NodeOk, UsesAll;
    assert f.body[1..] == [] && ListOk(m, f, [], seen) && ListOk(m, f, f.body, seen);
  }
}
