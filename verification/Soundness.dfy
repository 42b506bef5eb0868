/** On the sound fragment, the number the analysis returns is a ceiling on every execution. */
module Soundness {
  import opened Common
  import opened Analyser
  import opened Execution

  predicate Within(t: Option<real>, limit: real) {
    t.Some? && 0.0 <= t.value <= limit
  }

  /** Calling a name does what `fn` alone would have it do, or nothing. */
  ghost predicate Traced(m: Module, fn: Function, env: Env) {
    forall x {:trigger env(x)} :: env(x).target == Harmless || env(x).target == Scope(m, fn)(x).target
  }

  ghost predicate Agrees(m: Module, fn: Function, env: Env, names: set<string>) {
    && Traced(m, fn, env)
    && forall x {:trigger x in names} :: x in names ==> env(x) == Scope(m, fn)(x)
  }

  // ----- Charges are never negative -----

  ghost predicate Charge(work: Option<real>) { work.Some? ==> work.value >= 0.0 }

  lemma TripCharge(once: Option<real>, perTrip: Option<real>, trips: Trips)
    requires Charge(once) && Charge(perTrip)
    ensures Charge(TripWork(once, perTrip, trips))
  {
    if perTrip.Some? && trips.Known? { TimesGrows(0, trips.n, perTrip.value, perTrip.value); }
  }

  lemma {:induction false} NodeCharge(m: Module, fn: Function, node: Node, seen: set<string>)
    requires NodeOk(m, fn, node, seen)
    ensures Charge(NodeWork(m, fn, node, seen))
    decreases |Unentered(m, seen)|, node, 1
  {
    match node
    case Number(_) =>
    case Name(_) =>
    case Display(elts, _) => ListCharge(m, fn, elts, seen);
    case Starred(inner) => NodeCharge(m, fn, inner, seen);
    case Attribute(base, _) => NodeCharge(m, fn, base, seen);
    case Call(func, args, keywords) =>
      ListCharge(m, fn, args, seen);
      KeywordsCharge(m, fn, keywords, seen);
      CallCharge(m, fn, func, args, keywords, seen);
    case Callable(_, _, _) =>
    case Import(_) =>
    case For(_, iter, body, orelse) =>
      NodeCharge(m, fn, iter, seen);
      ListCharge(m, fn, body, seen);
      ListCharge(m, fn, orelse, seen);
      TripCharge(NodeWork(m, fn, iter, seen), Plus(ListWork(m, fn, body, seen), ListWork(m, fn, orelse, seen)),
                 LengthOf(iter, Scope(m, fn)));
    case While(test, body, orelse) =>
      NodeCharge(m, fn, test, seen);
    case Comprehension(generators, results) =>
      GeneratorsCharge(m, fn, generators, seen);
      ListCharge(m, fn, results, seen);
      TripCharge(ItersWork(m, fn, generators, seen),
                 Plus(FiltersWork(m, fn, generators, seen), ListWork(m, fn, results, seen)),
                 GeneratorTrips(generators, Scope(m, fn)));
    case Other(children) => ListCharge(m, fn, children, seen);
  }

  lemma CallCharge(m: Module, fn: Function, func: Node, args: seq<Node>, keywords: seq<Keyword>, seen: set<string>)
    requires NodeOk(m, fn, Call(func, args, keywords), seen)
    ensures Charge(CallWork(m, fn, func, keywords, seen))
    decreases |Unentered(m, seen)|, func, 0
  {
    if TimeoutOf(keywords).None? && func.Name? && func.id in m.functions {
      var g := m.functions[func.id];
      EnteredOk(m, fn, func.id, args, keywords, seen);
      EnteringShrinks(m, seen, func.id);
      ListCharge(m, g, g.body, seen + {g.name});
    }
  }

  /** A function entered without a timeout is one the analysis enters too, and in the fragment. */
  lemma EnteredOk(m: Module, fn: Function, id: string, args: seq<Node>, keywords: seq<Keyword>, seen: set<string>)
    requires TimeoutOk(m, fn, keywords) && CalleeOk(m, fn, Name(id), args, keywords, seen)
    requires TimeoutOf(keywords).None? && id in m.functions
    ensures id !in seen && m.functions[id].name == id && Scope(m, fn)(id).target == Runs(id)
    ensures UsesAll(m.functions[id].body) !! BoundBy(args, keywords, m.functions[id])
    ensures UsesAll(m.functions[id].body) !! Loose(m.functions[id])
    ensures ListOk(m, m.functions[id], m.functions[id].body, seen + {id})
  {
    assert FunctionOk(m, m.functions[id], seen);
  }

  lemma {:induction false} ListCharge(m: Module, fn: Function, nodes: seq<Node>, seen: set<string>)
    requires ListOk(m, fn, nodes, seen)
    ensures Charge(ListWork(m, fn, nodes, seen))
    decreases |Unentered(m, seen)|, nodes, 0
  {
    if nodes != [] {
      NodeCharge(m, fn, nodes[0], seen);
      ListCharge(m, fn, nodes[1..], seen);
    }
  }

  lemma {:induction false} KeywordsCharge(m: Module, fn: Function, keywords: seq<Keyword>, seen: set<string>)
    requires KeywordsOk(m, fn, keywords, seen)
    ensures Charge(KeywordsWork(m, fn, keywords, seen))
    decreases |Unentered(m, seen)|, keywords, 0
  {
    if keywords != [] {
      NodeCharge(m, fn, keywords[0].value, seen);
      KeywordsCharge(m, fn, keywords[1..], seen);
    }
  }

  lemma {:induction false} GeneratorsCharge(m: Module, fn: Function, generators: seq<Generator>, seen: set<string>)
    requires GeneratorsOk(m, fn, generators, seen)
    ensures Charge(ItersWork(m, fn, generators, seen)) && Charge(FiltersWork(m, fn, generators, seen))
    decreases |Unentered(m, seen)|, generators, 0
  {
    if generators != [] {
      NodeCharge(m, fn, generators[0].iter, seen);
      ListCharge(m, fn, generators[0].ifs, seen);
      GeneratorsCharge(m, fn, generators[1..], seen);
    }
  }

  // ----- Names read the same way -----

  lemma NumberAgrees(m: Module, fn: Function, env: Env, node: Node)
    requires Agrees(m, fn, env, NameOf(node))
    ensures NumberOf(node, env) == NumberOf(node, Scope(m, fn))
  {
  }

  lemma {:induction false} NamesContain(nodes: seq<Node>, i: nat)
    requires i < |nodes|
    ensures NameOf(nodes[i]) <= NamesOf(nodes)
  {
    if i > 0 { NamesContain(nodes[1..], i - 1); }
  }

  /** What the analysis takes for the number of trips, no run exceeds. */
  predicate Yielded(trips: Trips, charged: Trips) {
    charged.Known? ==> trips.Known? && trips.n <= charged.n
  }

  /** The trips the analysis computes for a `range` are the terms of its sequence. */
  lemma {:induction false} RangeCountsTerms(start: int, stop: int, step: int)
    requires step != 0
    ensures RangeLength(start, stop, step) == Known(Terms(start, stop, step))
    decreases if step > 0 then stop - start else start - stop
  {
    if step > 0 && start < stop {
      RangeCountsTerms(start + step, stop, step);
      if start + step < stop { StepUp(stop - start - step + step - 1, step); } else { OneStep(stop - start, step); }
    } else if step < 0 && start > stop {
      RangeCountsTerms(start + step, stop, step);
      if start + step > stop { StepUp(start + step - stop - step - 1, -step); } else { OneStep(start - stop, -step); }
    }
  }

  lemma StepUp(x: nat, n: nat)
    requires n > 0
    ensures (x + n) / n == x / n + 1
  {
    var q, r := x / n, x % n;
    Distributes(q, 1, n);
    assert x == q * n + r;
    Quotient(q + 1, r, n);
  }

  lemma OneStep(x: nat, n: nat)
    requires 1 <= x <= n
    ensures (x + n - 1) / n == 1
  {
    Quotient(1, x - 1, n);
  }

  lemma LengthAgrees(m: Module, fn: Function, env: Env, iter: Node)
    requires Agrees(m, fn, env, IterUses(iter)) && IterOk(m, fn, iter)
    ensures Yielded(Turns(iter, env), LengthOf(iter, Scope(m, fn)))
  {
    if iter.Call? && iter.func == Name("range") {
      forall i | 0 <= i < |iter.args| ensures NumberOf(iter.args[i], env) == NumberOf(iter.args[i], Scope(m, fn)) {
        NamesContain(iter.args, i);
        NumberAgrees(m, fn, env, iter.args[i]);
      }
      RangeAgrees(iter.args, env, Scope(m, fn));
    }
  }

  lemma RangeAgrees(args: seq<Node>, env: Env, scope: Env)
    requires forall i :: 0 <= i < |args| ==> NumberOf(args[i], env) == NumberOf(args[i], scope)
    ensures Yielded(RangeTurns(args, env), RangeTrips(args, scope))
  {
    if (forall i :: 0 <= i < |args| ==> NumberOf(args[i], env).Some?)
       && forall i :: 0 <= i < |args| ==> NumberOf(args[i], env).value.Floor as real == NumberOf(args[i], env).value {
      forall i | 0 <= i < |args|
        ensures Truncate(NumberOf(args[i], scope).value) == NumberOf(args[i], env).value.Floor
      {
        WholeNumber(NumberOf(args[i], env).value);
      }
      if |args| == 1 { RangeCountsTerms(0, NumberOf(args[0], env).value.Floor, 1); }
      if |args| == 2 { RangeCountsTerms(NumberOf(args[0], env).value.Floor, NumberOf(args[1], env).value.Floor, 1); }
      if |args| == 3 && NumberOf(args[2], env).value.Floor != 0 {
        RangeCountsTerms(NumberOf(args[0], env).value.Floor, NumberOf(args[1], env).value.Floor,
                         NumberOf(args[2], env).value.Floor);
      }
    }
  }

  lemma WholeNumber(x: real)
    requires x.Floor as real == x
    ensures Truncate(x) == x.Floor
  {
    assert x < 0.0 ==> (-x).Floor == -(x.Floor);
  }

  lemma EnteredAgrees(m: Module, g: Function, bound: set<string>, env: Env)
    requires Admissible(m, g, bound, env) && UsesAll(g.body) !! Loose(g) && UsesAll(g.body) !! bound
    ensures Agrees(m, g, env, UsesAll(g.body))
  {
    forall x | x in UsesAll(g.body) ensures env(x) == Scope(m, g)(x) {
    }
  }

  // ----- Every execution stays within the charge -----

  lemma {:induction false} NodeSound(m: Module, fn: Function, env: Env, node: Node, seen: set<string>, e: Exec)
    requires NodeOk(m, fn, node, seen) && Agrees(m, fn, env, Uses(node)) && CanRun(m, env, node, e)
    requires NodeWork(m, fn, node, seen).Some?
    ensures Within(Spent(e), NodeWork(m, fn, node, seen).value)
    decreases e, 1
  {
    NodeCharge(m, fn, node, seen);
    hide CalleeOk, Scope, Traced;
    if !e.Idle? {
      match node
      case Number(_) =>
      case Name(id) => NameSound(m, fn, env, id, seen, e);
      case Display(elts, _) => ListSound(m, fn, env, elts, seen, e.parts);
      case Starred(inner) =>
        NodeSound(m, fn, env, inner, seen, e.parts[0]);
        SpentOne(e.parts);
      case Attribute(base, _) =>
        NodeSound(m, fn, env, base, seen, e.parts[0]);
        SpentOne(e.parts);
      case Call(func, args, keywords) => InvokeSound(m, fn, env, func, args, keywords, seen, e);
      case Callable(params, header, body) =>
        ListSound(m, fn, env, header, seen, e.once);
        HeldSound(m, fn, env, params, body, seen, e.runs);
      case For(target, iter, body, orelse) => ForSound(m, fn, env, target, iter, body, orelse, seen, e);
      case While(test, body, orelse) => WhileSound(m, fn, env, test, body, orelse, seen, e);
      case Comprehension(generators, results) => ComprehensionSound(m, fn, env, generators, results, seen, e);
      case Import(_) =>
      case Other(children) => ListSound(m, fn, env, children, seen, e.parts);
    }
  }

  /** A name handed out costs nothing: it does not block, and if it runs a function that one is free. */
  lemma {:induction false} NameSound(m: Module, fn: Function, env: Env, id: string, seen: set<string>, e: Exec)
    requires NodeOk(m, fn, Name(id), seen) && Agrees(m, fn, env, {}) && !e.Idle? && CanRun(m, env, Name(id), e)
    requires NodeWork(m, fn, Name(id), seen).Some?
    ensures Within(Spent(e), NodeWork(m, fn, Name(id), seen).value)
    decreases e, 0
  {
    assert env(id).target == Scope(m, fn)(id).target;
    CallsSound(m, m.functions[id], seen, e.runs);
  }

  lemma {:induction false} ListSound(m: Module, fn: Function, env: Env, nodes: seq<Node>, seen: set<string>,
                                     es: seq<Exec>)
    requires ListOk(m, fn, nodes, seen) && Agrees(m, fn, env, UsesAll(nodes)) && CanRunAll(m, env, nodes, es)
    requires ListWork(m, fn, nodes, seen).Some?
    ensures Within(SpentAll(es), ListWork(m, fn, nodes, seen).value)
    decreases es, 0
  {
    if nodes != [] {
      NodeSound(m, fn, env, nodes[0], seen, es[0]);
      ListSound(m, fn, env, nodes[1..], seen, es[1..]);
    }
  }

  lemma {:induction false} KeywordsSound(m: Module, fn: Function, env: Env, keywords: seq<Keyword>, seen: set<string>,
                                         es: seq<Exec>)
    requires KeywordsOk(m, fn, keywords, seen) && Agrees(m, fn, env, UsesKeywords(keywords))
    requires CanRunKeywords(m, env, keywords, es) && KeywordsWork(m, fn, keywords, seen).Some?
    ensures Within(SpentAll(es), KeywordsWork(m, fn, keywords, seen).value)
    decreases es, 0
  {
    if keywords != [] {
      NodeSound(m, fn, env, keywords[0].value, seen, es[0]);
      KeywordsSound(m, fn, env, keywords[1..], seen, es[1..]);
    }
  }

  lemma SpentOne(parts: seq<Exec>)
    requires |parts| == 1
    ensures SpentAll(parts) == Spent(parts[0])
  {
    assert parts[1..] == [] && SpentAll(parts[1..]) == Some(0.0);
    assert Spent(parts[0]).Some? ==> Spent(parts[0]).value + 0.0 == Spent(parts[0]).value;
  }

  /** A blocking function called by its own name without a timeout is refused. */
  lemma SpeltIsRefused(m: Module, fn: Function, func: Node, keywords: seq<Keyword>, seen: set<string>)
    ensures TimeoutOf(keywords).None? && (SpeltOut(func) || func == Name("urlopen")) ==>
              CallWork(m, fn, func, keywords, seen).None?
  {
    if SpeltOut(func) { SpeltIsListed(func); }
  }

  lemma SpeltIsListed(func: Node)
    requires SpeltOut(func)
    ensures Dotted(func).Some? && Dotted(func).value in BLOCKING_CALLS
  {
    hide Dotted, BLOCKING_CALLS;
    if func.base == Name("subprocess") {
      Spelling("subprocess", func.attr);
      SubprocessCalls(func.attr);
    } else if func.base == Name("socket") {
      Spelling("socket", func.attr);
      OtherCalls();
    } else {
      Spelling("urllib", "request");
      DottedStep(func.base, func.attr);
      OtherCalls();
    }
  }

  lemma Spelling(base: string, attr: string)
    ensures Dotted(Attribute(Name(base), attr)) == Some(base + "." + attr)
  {
    assert Dotted(Name(base)) == Some(base);
  }

  lemma DottedStep(base: Node, attr: string)
    requires Dotted(base).Some?
    ensures Dotted(Attribute(base, attr)) == Some(Dotted(base).value + "." + attr)
  {
  }

  lemma OtherCalls()
    ensures "socket" + "." + "create_connection" in BLOCKING_CALLS
    ensures "urllib" + "." + "request" + "." + "urlopen" in BLOCKING_CALLS
  {
    assert "socket" + "." + "create_connection" == "socket.create_connection";
    assert "urllib" + "." + "request" + "." + "urlopen" == "urllib.request.urlopen";
  }

  lemma SubprocessCalls(attr: string)
    requires attr in {"run", "call", "check_call", "check_output"}
    ensures "subprocess" + "." + attr in BLOCKING_CALLS
  {
    assert "subprocess" + "." + "run" == "subprocess.run";
    assert "subprocess" + "." + "call" == "subprocess.call";
    assert "subprocess" + "." + "check_call" == "subprocess.check_call";
    assert "subprocess" + "." + "check_output" == "subprocess.check_output";
  }

  lemma {:induction false} ActionSound(m: Module, fn: Function, env: Env, func: Node, args: seq<Node>,
                                       keywords: seq<Keyword>, seen: set<string>, action: Action)
    requires NodeOk(m, fn, Call(func, args, keywords), seen) && Agrees(m, fn, env, TimeoutUses(keywords))
    requires CanAct(m, env, func, args, keywords, action) && CallWork(m, fn, func, keywords, seen).Some?
    ensures Within(SpentIn(action), CallWork(m, fn, func, keywords, seen).value)
    decreases action, 0
  {
    CallCharge(m, fn, func, args, keywords, seen);
    SpeltIsRefused(m, fn, func, keywords, seen);
    match action
    case Free =>
    case Spend(time) => NumberAgrees(m, fn, env, TimeoutOf(keywords).value);
    case Hang =>
    case Enter(callee) =>
      assert env(func.id).target == Scope(m, fn)(func.id).target;
      var g := m.functions[func.id];
      if TimeoutOf(keywords).None? {
        EnteredOk(m, fn, func.id, args, keywords, seen);
        EnteredAgrees(m, g, BoundBy(args, keywords, g), callee.env);
        ListSound(m, g, callee.env, g.body, seen + {g.name}, callee.body);
      } else {
        NumberAgrees(m, fn, env, TimeoutOf(keywords).value);
        var kw := TimeoutKeyword(keywords).value;
        var fixed := Fixed(g, kw.name, NumberOf(kw.value, env).value);
        assert TimedOk(m, fn, g, args, keywords, seen) && FunctionOk(m, fixed, seen) && fixed.body == g.body;
        TimedAgrees(m, g, kw.name, NumberOf(kw.value, env).value, BoundBy(args, keywords, g), callee.env);
        ListSound(m, fixed, callee.env, g.body, seen + {g.name}, callee.body);
      }
  }

  /** Fixing a parameter changes how that name is read and no other. */
  lemma {:induction false} FixedDefault(params: seq<Param>, fixed: seq<Param>, name: string, v: Literal, x: string)
    requires |fixed| == |params|
    requires forall i :: 0 <= i < |params| ==>
               fixed[i] == if params[i].name == name then Param(name, Some(Number(v))) else params[i]
    ensures x != name ==> DefaultOf(fixed, x) == DefaultOf(params, x)
    ensures (exists i :: 0 <= i < |params| && params[i].name == name) ==> DefaultOf(fixed, name) == Some(Number(v))
    ensures (forall i :: 0 <= i < |params| ==> params[i].name != name) ==> fixed == params
  {
    if params != [] {
      FixedDefault(params[1..], fixed[1..], name, v, x);
      assert forall i :: 1 <= i < |params| ==> params[i] == params[1..][i - 1];
    }
  }

  /** A timed callee, run with the timeout it was given, reads its names as its fixed form does. */
  lemma TimedAgrees(m: Module, g: Function, name: string, v: Literal, bound: set<string>, env: Env)
    requires Admissible(m, g, bound, env)
    requires (name in AllParams(g) ==> env(name) == Value(Some(v), Unresolved, Harmless, true))
    requires UsesAll(g.body) !! Loose(Fixed(g, name, v)) && UsesAll(g.body) !! (bound - (AllParams(g) * {name}))
    ensures Agrees(m, Fixed(g, name, v), env, UsesAll(g.body))
  {
    var fixed := Fixed(g, name, v);
    forall x ensures env(x).target == Harmless || env(x).target == Scope(m, fixed)(x).target {
      FixedDefault(g.params, fixed.params, name, v, x);
    }
    forall x | x in UsesAll(g.body) ensures env(x) == Scope(m, fixed)(x) {
      FixedDefault(g.params, fixed.params, name, v, x);
    }
  }

  lemma CallUnfolds(m: Module, fn: Function, func: Node, args: seq<Node>, keywords: seq<Keyword>, seen: set<string>)
    ensures NodeWork(m, fn, Call(func, args, keywords), seen) ==
            Plus(CallWork(m, fn, func, keywords, seen),
                 Plus(ListWork(m, fn, args, seen), KeywordsWork(m, fn, keywords, seen)))
    ensures NodeOk(m, fn, Call(func, args, keywords), seen) ==>
            && (!func.Name? ==> NodeOk(m, fn, Receiver(func), seen) && IsFree(m, fn, Receiver(func), seen))
            && ListOk(m, fn, args, seen) && KeywordsOk(m, fn, keywords, seen)
  {
  }

  lemma {:induction false} InvokeSound(m: Module, fn: Function, env: Env, func: Node, args: seq<Node>,
                                       keywords: seq<Keyword>, seen: set<string>, e: Exec)
    requires e.Invoke? && NodeOk(m, fn, Call(func, args, keywords), seen)
    requires Agrees(m, fn, env, Uses(Call(func, args, keywords))) && CanRun(m, env, Call(func, args, keywords), e)
    requires NodeWork(m, fn, Call(func, args, keywords), seen).Some?
    ensures Within(Spent(e), NodeWork(m, fn, Call(func, args, keywords), seen).value)
    decreases e, 0
  {
    hide ListWork, ListOk, CanRunAll, KeywordsWork, KeywordsOk, CanRunKeywords, UsesAll, UsesKeywords,
         SpentAll, Scope, CalleeOk, CallWork, CanAct, Traced, NodeWork, NodeOk;
    var call := Call(func, args, keywords);
    CallUnfolds(m, fn, func, args, keywords, seen);
    assert Uses(Receiver(func)) <= Uses(func);
    AgreesWithin(m, fn, env, Uses(Receiver(func)), Uses(call));
    AgreesWithin(m, fn, env, UsesAll(args), Uses(call));
    AgreesWithin(m, fn, env, UsesKeywords(keywords), Uses(call));
    AgreesWithin(m, fn, env, TimeoutUses(keywords), Uses(call));
    hide Agrees;
    if !func.Name? { NodeSound(m, fn, env, Receiver(func), seen, e.func); }
    assert Spent(e.func) == Some(0.0);
    ListSound(m, fn, env, args, seen, e.args);
    KeywordsSound(m, fn, env, keywords, seen, e.values);
    ActionSound(m, fn, env, func, args, keywords, seen, e.action);
  }

  /** A function handed out costs nothing however often its holder runs it. */
  lemma {:induction false} CallsSound(m: Module, g: Function, seen: set<string>, runs: seq<Activation>)
    requires FunctionOk(m, g, seen) && UsesAll(g.body) !! AllParams(g) && CanBeRun(m, g, runs)
    requires FunctionWork(m, g, seen) == Some(0.0)
    ensures SpentRuns(runs) == Some(0.0)
    decreases runs, 0
  {
    if runs != [] {
      EnteredAgrees(m, g, AllParams(g), runs[0].env);
      ListSound(m, g, runs[0].env, g.body, seen + {g.name}, runs[0].body);
      CallsSound(m, g, seen, runs[1..]);
    }
  }

  lemma {:induction false} HeldSound(m: Module, fn: Function, env: Env, params: set<string>, body: seq<Node>,
                                     seen: set<string>, runs: seq<Activation>)
    requires ListOk(m, fn, body, seen) && UsesAll(body) !! params && Agrees(m, fn, env, UsesAll(body))
    requires CanBeHeld(m, env, params, body, runs) && ListWork(m, fn, body, seen) == Some(0.0)
    ensures SpentRuns(runs) == Some(0.0)
    decreases runs, 0
  {
    if runs != [] {
      var inner := runs[0].env;
      forall x ensures inner(x).target == Harmless || inner(x).target == Scope(m, fn)(x).target {
        assert x !in params ==> inner(x) == env(x);
      }
      forall x | x in UsesAll(body) ensures inner(x) == Scope(m, fn)(x) {
        assert x !in params && inner(x) == env(x);
      }
      ListSound(m, fn, inner, body, seen, runs[0].body);
      HeldSound(m, fn, env, params, body, seen, runs[1..]);
    }
  }

  /** The test is free and, the trip count being unknown, so is the body. */
  lemma {:induction false} RoundsSound(m: Module, fn: Function, env: Env, test: Node, body: seq<Node>,
                                       seen: set<string>, rounds: seq<Round>)
    requires NodeOk(m, fn, test, seen) && IsFree(m, fn, test, seen) && ListOk(m, fn, body, seen)
    requires Agrees(m, fn, env, Uses(test) + UsesAll(body)) && CanRunRounds(m, env, test, body, rounds)
    requires ListWork(m, fn, body, seen).Some?
    ensures ListWork(m, fn, body, seen) == Some(0.0) ==> SpentRounds(rounds) == Some(0.0)
    decreases rounds, 0
  {
    hide NodeWork, NodeOk, ListWork, ListOk, CanRun, CanRunAll, Uses, UsesAll, Spent, SpentAll, Scope;
    if rounds != [] {
      NodeSound(m, fn, env, test, seen, rounds[0].test);
      ListSound(m, fn, env, body, seen, rounds[0].body);
      RoundsSound(m, fn, env, test, body, seen, rounds[1..]);
    }
  }

  lemma {:induction false} TripsSound(m: Module, fn: Function, env: Env, body: seq<Node>, seen: set<string>,
                                      trips: seq<Trip>)
    requires ListOk(m, fn, body, seen) && Agrees(m, fn, env, UsesAll(body)) && CanRunTrips(m, env, body, trips)
    requires ListWork(m, fn, body, seen).Some?
    ensures Within(SpentTrips(trips), Times(|trips|, ListWork(m, fn, body, seen).value))
    decreases trips, 0
  {
    if trips != [] {
      ListSound(m, fn, env, body, seen, trips[0].body);
      TripsSound(m, fn, env, body, seen, trips[1..]);
    }
  }

  /** Assigning each element to something free changes neither what a trip costs nor what it reads. */
  lemma {:induction false} TargetIsFree(m: Module, fn: Function, target: Node, body: seq<Node>, seen: set<string>)
    requires NodeOk(m, fn, target, seen) && IsFree(m, fn, target, seen) && ListOk(m, fn, body, seen)
    ensures ListOk(m, fn, [target] + body, seen) && UsesAll([target] + body) == Uses(target) + UsesAll(body)
    ensures ListWork(m, fn, [target] + body, seen) == ListWork(m, fn, body, seen)
  {
    var trip := [target] + body;
    assert trip[0] == target && trip[1..] == body;
  }

  lemma {:induction false} TimesGrows(a: nat, b: nat, v: real, w: real)
    requires a <= b && 0.0 <= v <= w
    ensures 0.0 <= Times(a, v) <= Times(b, w) && (b > 0 ==> w <= Times(b, w))
  {
    if b > 0 { TimesGrows(if a == 0 then 0 else a - 1, b - 1, v, w); }
  }

  lemma {:induction false} TimesSum(n: nat, v: real, w: real)
    ensures Times(n, v + w) == Times(n, v) + Times(n, w)
  {
    if n > 0 { TimesSum(n - 1, v, w); }
  }

  lemma {:induction false} TimesZero(n: nat)
    ensures Times(n, 0.0) == 0.0
  {
    if n > 0 { TimesZero(n - 1); }
  }

  /** A header, `n` trips and one `else` fit in the charge, if there is a trip or no `else` to pay. */
  lemma LoopFits(h: real, t: real, o: real, n: nat, once: real, body: real, orelse: real, trips: Trips)
    requires 0.0 <= h <= once && 0.0 <= t <= Times(n, body) && 0.0 <= o <= orelse && body >= 0.0
    requires (trips.Known? ==> n <= trips.n) && (orelse == 0.0 || NonEmpty(trips))
    requires TripWork(Some(once), Some(body + orelse), trips).Some?
    ensures Within(Some(h + (t + o)), TripWork(Some(once), Some(body + orelse), trips).value)
  {
    if body + orelse == 0.0 {
      TimesZero(n);
    } else {
      TimesGrows(n, trips.n, body, body);
      TimesGrows(0, trips.n, orelse, orelse);
      TimesSum(trips.n, body, orelse);
    }
  }

  lemma WhileUnfolds(m: Module, fn: Function, test: Node, body: seq<Node>, orelse: seq<Node>, seen: set<string>)
    ensures NodeWork(m, fn, While(test, body, orelse), seen) ==
            TripWork(NodeWork(m, fn, test, seen), Plus(ListWork(m, fn, body, seen), ListWork(m, fn, orelse, seen)),
                     Unresolved)
    ensures NodeOk(m, fn, While(test, body, orelse), seen) ==>
            && NodeOk(m, fn, test, seen) && IsFree(m, fn, test, seen)
            && ListOk(m, fn, body, seen) && ListOk(m, fn, orelse, seen)
  {
  }

  lemma WhileRuns(m: Module, env: Env, test: Node, body: seq<Node>, orelse: seq<Node>, e: Exec)
    requires e.Spin? && CanRun(m, env, While(test, body, orelse), e)
    ensures CanRunRounds(m, env, test, body, e.rounds) && CanRunAll(m, env, orelse, e.orelse)
    ensures Spent(e) == Plus(SpentRounds(e.rounds), SpentAll(e.orelse))
    ensures Uses(While(test, body, orelse)) == Uses(test) + UsesAll(body) + UsesAll(orelse)
  {
  }

  lemma {:induction false} WhileSound(m: Module, fn: Function, env: Env, test: Node, body: seq<Node>,
                                      orelse: seq<Node>, seen: set<string>, e: Exec)
    requires e.Spin? && NodeOk(m, fn, While(test, body, orelse), seen)
    requires Agrees(m, fn, env, Uses(While(test, body, orelse)))
    requires CanRun(m, env, While(test, body, orelse), e) && NodeWork(m, fn, While(test, body, orelse), seen).Some?
    ensures Within(Spent(e), NodeWork(m, fn, While(test, body, orelse), seen).value)
    decreases e, 0
  {
    hide NodeWork, NodeOk, ListWork, ListOk, CanRun, CanRunAll, CanRunRounds, Uses, UsesAll, Spent, SpentAll,
         SpentRounds, Scope, Traced;
    WhileUnfolds(m, fn, test, body, orelse, seen);
    WhileRuns(m, env, test, body, orelse, e);
    RoundsSound(m, fn, env, test, body, seen, e.rounds);
    ListCharge(m, fn, body, seen);
    ListCharge(m, fn, orelse, seen);
    ListSound(m, fn, env, orelse, seen, e.orelse);
  }

  lemma {:induction false} ForParts(m: Module, fn: Function, env: Env, target: Node, iter: Node, body: seq<Node>,
                                    orelse: seq<Node>, seen: set<string>, e: Exec)
    requires e.Loop? && NodeOk(m, fn, iter, seen) && ListOk(m, fn, body, seen) && ListOk(m, fn, orelse, seen)
    requires IterOk(m, fn, iter)
    requires NodeOk(m, fn, target, seen) && IsFree(m, fn, target, seen)
    requires Agrees(m, fn, env, Uses(target) + Uses(iter) + IterUses(iter) + UsesAll(body) + UsesAll(orelse))
    requires CanRun(m, env, iter, e.header) && CanRunTrips(m, env, [target] + body, e.trips)
    requires CanRunAll(m, env, orelse, e.orelse)
    requires NodeWork(m, fn, iter, seen).Some? && ListWork(m, fn, body, seen).Some?
    requires ListWork(m, fn, orelse, seen).Some?
    ensures Within(Spent(e.header), NodeWork(m, fn, iter, seen).value)
    ensures Within(SpentTrips(e.trips), Times(|e.trips|, ListWork(m, fn, body, seen).value))
    ensures Within(SpentAll(e.orelse), ListWork(m, fn, orelse, seen).value)
    ensures Yielded(Turns(iter, env), LengthOf(iter, Scope(m, fn))) && ListWork(m, fn, body, seen).value >= 0.0
    decreases e, 0, 0
  {
    hide NodeWork, NodeOk, ListWork, ListOk, CanRun, CanRunAll, CanRunTrips, Uses, UsesAll, Spent, SpentAll,
         SpentTrips, Turns, LengthOf;
    NodeSound(m, fn, env, iter, seen, e.header);
    LengthAgrees(m, fn, env, iter);
    TargetIsFree(m, fn, target, body, seen);
    TripsSound(m, fn, env, [target] + body, seen, e.trips);
    ListSound(m, fn, env, orelse, seen, e.orelse);
    ListCharge(m, fn, body, seen);
  }

  lemma ForUnfolds(m: Module, fn: Function, target: Node, iter: Node, body: seq<Node>, orelse: seq<Node>,
                   seen: set<string>)
    ensures NodeWork(m, fn, For(target, iter, body, orelse), seen) ==
            TripWork(NodeWork(m, fn, iter, seen), Plus(ListWork(m, fn, body, seen), ListWork(m, fn, orelse, seen)),
                     LengthOf(iter, Scope(m, fn)))
    ensures NodeOk(m, fn, For(target, iter, body, orelse), seen) ==>
            && NodeOk(m, fn, target, seen) && IsFree(m, fn, target, seen)
            && NodeOk(m, fn, iter, seen) && IterOk(m, fn, iter)
            && ListOk(m, fn, body, seen) && ListOk(m, fn, orelse, seen)
            && (ListWork(m, fn, orelse, seen) == Some(0.0) || NonEmpty(LengthOf(iter, Scope(m, fn))))
  {
  }

  lemma ForRuns(m: Module, env: Env, target: Node, iter: Node, body: seq<Node>, orelse: seq<Node>, e: Exec)
    requires e.Loop? && CanRun(m, env, For(target, iter, body, orelse), e)
    ensures CanRun(m, env, iter, e.header) && CanRunTrips(m, env, [target] + body, e.trips)
    ensures CanRunAll(m, env, orelse, e.orelse) && Yields(Turns(iter, env), 1, |e.trips|)
    ensures Spent(e) == Plus(Spent(e.header), Plus(SpentTrips(e.trips), SpentAll(e.orelse)))
    ensures Uses(For(target, iter, body, orelse)) ==
            Uses(target) + Uses(iter) + IterUses(iter) + UsesAll(body) + UsesAll(orelse)
  {
  }

  lemma {:induction false} ForSound(m: Module, fn: Function, env: Env, target: Node, iter: Node, body: seq<Node>,
                                    orelse: seq<Node>, seen: set<string>, e: Exec)
    requires e.Loop? && NodeOk(m, fn, For(target, iter, body, orelse), seen)
    requires Agrees(m, fn, env, Uses(For(target, iter, body, orelse)))
    requires CanRun(m, env, For(target, iter, body, orelse), e)
    requires NodeWork(m, fn, For(target, iter, body, orelse), seen).Some?
    ensures Within(Spent(e), NodeWork(m, fn, For(target, iter, body, orelse), seen).value)
    decreases e, 0, 1
  {
    hide ListWork, ListOk, CanRun, CanRunAll, CanRunTrips, Uses, UsesAll, Spent, SpentAll, SpentTrips, Scope, Turns,
         LengthOf, Agrees, NodeWork, NodeOk, IterUses, IterOk, IsFree, Times;
    ForUnfolds(m, fn, target, iter, body, orelse, seen);
    ForRuns(m, env, target, iter, body, orelse, e);
    var trips := LengthOf(iter, Scope(m, fn));
    ForParts(m, fn, env, target, iter, body, orelse, seen, e);
    assert trips.Known? ==> |e.trips| <= trips.n;
    LoopFits(Spent(e.header).value, SpentTrips(e.trips).value, SpentAll(e.orelse).value, |e.trips|,
             NodeWork(m, fn, iter, seen).value, ListWork(m, fn, body, seen).value, ListWork(m, fn, orelse, seen).value,
             trips);
  }

  lemma {:induction false} EachSound(m: Module, fn: Function, env: Env, node: Node, seen: set<string>, es: seq<Exec>)
    requires NodeOk(m, fn, node, seen) && Agrees(m, fn, env, Uses(node)) && CanRunEach(m, env, node, es)
    requires NodeWork(m, fn, node, seen).Some?
    ensures Within(SpentAll(es), Times(|es|, NodeWork(m, fn, node, seen).value))
    decreases es, 0
  {
    if es != [] {
      NodeSound(m, fn, env, node, seen, es[0]);
      EachSound(m, fn, env, node, seen, es[1..]);
    }
  }

  predicate AllKnown(generators: seq<Generator>, env: Env) {
    generators != [] ==> LengthOf(generators[0].iter, env).Known? && AllKnown(generators[1..], env)
  }

  predicate AllNonEmpty(generators: seq<Generator>, env: Env) {
    generators != [] ==> NonEmpty(LengthOf(generators[0].iter, env)) && AllNonEmpty(generators[1..], env)
  }

  /** How many combinations of elements `generators` yields when entered `k` times. */
  function Capacity(k: nat, generators: seq<Generator>, env: Env): nat
    requires AllKnown(generators, env)
    decreases |generators|
  {
    if generators == [] then k else Capacity(k * LengthOf(generators[0].iter, env).n, generators[1..], env)
  }

  lemma MulAssoc(a: nat, b: nat, c: nat)
    ensures a * b * c == a * (b * c)
  {
  }

  lemma MulGrows(k: nat, l: nat, n: nat)
    requires k <= l
    ensures k * n <= l * n && (n >= 1 ==> k <= k * n)
  {
  }

  lemma {:induction false} KnownTrips(generators: seq<Generator>, env: Env)
    ensures GeneratorTrips(generators, env).Known? <==> AllKnown(generators, env)
  {
    if generators != [] { KnownTrips(generators[1..], env); }
  }

  lemma {:induction false} CapacityIsProduct(k: nat, generators: seq<Generator>, env: Env)
    requires AllKnown(generators, env)
    ensures GeneratorTrips(generators, env).Known?
    ensures Capacity(k, generators, env) == k * GeneratorTrips(generators, env).n
    decreases |generators|
  {
    if generators != [] {
      var n, rest := LengthOf(generators[0].iter, env).n, generators[1..];
      CapacityIsProduct(k * n, rest, env);
      MulAssoc(k, n, GeneratorTrips(rest, env).n);
    }
  }

  lemma {:induction false} CapacityGrows(k: nat, l: nat, generators: seq<Generator>, env: Env)
    requires AllKnown(generators, env) && AllNonEmpty(generators, env) && k <= l
    ensures k <= Capacity(k, generators, env) <= Capacity(l, generators, env)
    decreases |generators|
  {
    if generators != [] {
      var n := LengthOf(generators[0].iter, env).n;
      MulGrows(k, l, n);
      CapacityGrows(k * n, l * n, generators[1..], env);
    }
  }

  lemma {:induction false} InnerNonEmpty(m: Module, fn: Function, generators: seq<Generator>, seen: set<string>)
    requires InnerOk(m, fn, generators, seen)
    ensures AllNonEmpty(generators, Scope(m, fn))
  {
    if generators != [] { InnerNonEmpty(m, fn, generators[1..], seen); }
  }

  /** One inner generator and those inside it: `r` rounds of its own filters, `c` combinations inside. */
  lemma StageFits(t: real, rest: real, r: nat, c: nat, limit: nat, v: real, w: real)
    requires r <= limit && c <= limit && v >= 0.0 && w >= 0.0
    requires 0.0 <= t <= Times(r, v) && 0.0 <= rest <= Times(c, w)
    ensures 0.0 <= t + rest <= Times(limit, v + w)
  {
    TimesGrows(r, limit, v, v);
    TimesGrows(c, limit, w, w);
    TimesSum(limit, v, w);
  }

  /** What the stages of inner generators come to: their iterables are free, and their filters run at
      most once for each combination of elements. */
  ghost predicate StagesFit(m: Module, fn: Function, generators: seq<Generator>, k: nat, seen: set<string>,
                            stages: seq<Stage>)
    requires FiltersWork(m, fn, generators, seen).Some?
  {
    && (FiltersWork(m, fn, generators, seen) == Some(0.0) ==> SpentStages(stages) == Some(0.0))
    && (AllKnown(generators, Scope(m, fn)) ==>
          && LastRounds(k, stages) <= Capacity(k, generators, Scope(m, fn))
          && Within(SpentStages(stages),
                    Times(Capacity(k, generators, Scope(m, fn)), FiltersWork(m, fn, generators, seen).value)))
  }

  /** One generator: its iterable stays within its charge, and its filters within theirs for every element. */
  lemma {:induction false} StageParts(m: Module, fn: Function, env: Env, g: Generator, seen: set<string>, stage: Stage)
    requires NodeOk(m, fn, g.iter, seen) && ListOk(m, fn, g.ifs, seen) && IterOk(m, fn, g.iter)
    requires NodeOk(m, fn, g.target, seen) && IsFree(m, fn, g.target, seen)
    requires Agrees(m, fn, env, Uses(g.target) + Uses(g.iter) + IterUses(g.iter) + UsesAll(g.ifs))
    requires CanRunEach(m, env, g.iter, stage.iters) && CanRunTrips(m, env, [g.target] + g.ifs, stage.rounds)
    requires NodeWork(m, fn, g.iter, seen).Some? && ListWork(m, fn, g.ifs, seen).Some?
    ensures Within(SpentAll(stage.iters), Times(|stage.iters|, NodeWork(m, fn, g.iter, seen).value))
    ensures Within(SpentTrips(stage.rounds), Times(|stage.rounds|, ListWork(m, fn, g.ifs, seen).value))
    ensures Yielded(Turns(g.iter, env), LengthOf(g.iter, Scope(m, fn)))
    ensures NodeWork(m, fn, g.iter, seen).value >= 0.0 && ListWork(m, fn, g.ifs, seen).value >= 0.0
    decreases stage, 0
  {
    hide NodeWork, NodeOk, ListWork, ListOk, CanRunEach, CanRunTrips, Uses, UsesAll, SpentAll, SpentTrips, Turns,
         LengthOf, Scope, Traced;
    TargetIsFree(m, fn, g.target, g.ifs, seen);
    EachSound(m, fn, env, g.iter, seen, stage.iters);
    TripsSound(m, fn, env, [g.target] + g.ifs, seen, stage.rounds);
    LengthAgrees(m, fn, env, g.iter);
    NodeCharge(m, fn, g.iter, seen);
    ListCharge(m, fn, g.ifs, seen);
  }

  lemma GeneratorsUnfold(m: Module, fn: Function, env: Env, generators: seq<Generator>, k: nat, seen: set<string>,
                         stages: seq<Stage>)
    requires generators != [] && GeneratorsOk(m, fn, generators, seen)
    requires Agrees(m, fn, env, UsesGenerators(generators)) && CanRunStages(m, env, generators, k, stages)
    ensures stages != [] && |stages[0].iters| <= k
    ensures var g, stage := generators[0], stages[0];
            && NodeOk(m, fn, g.iter, seen) && ListOk(m, fn, g.ifs, seen) && IterOk(m, fn, g.iter)
            && NodeOk(m, fn, g.target, seen) && IsFree(m, fn, g.target, seen)
            && GeneratorsOk(m, fn, generators[1..], seen)
            && Agrees(m, fn, env, Uses(g.target) + Uses(g.iter) + IterUses(g.iter) + UsesAll(g.ifs))
            && Agrees(m, fn, env, UsesGenerators(generators[1..]))
            && CanRunEach(m, env, g.iter, stage.iters) && CanRunTrips(m, env, [g.target] + g.ifs, stage.rounds)
            && Yields(Turns(g.iter, env), |stage.iters|, |stage.rounds|)
            && CanRunStages(m, env, generators[1..], |stage.rounds|, stages[1..])
  {
    hide NodeOk, ListOk, CanRunEach, CanRunTrips, Uses, UsesAll, Scope, Traced, Turns;
  }

  lemma {:induction false} StagesSound(m: Module, fn: Function, env: Env, generators: seq<Generator>, k: nat,
                                       seen: set<string>, stages: seq<Stage>)
    requires GeneratorsOk(m, fn, generators, seen) && InnerOk(m, fn, generators, seen)
    requires Agrees(m, fn, env, UsesGenerators(generators)) && CanRunStages(m, env, generators, k, stages)
    requires FiltersWork(m, fn, generators, seen).Some?
    ensures ItersWork(m, fn, generators, seen) == Some(0.0)
    ensures StagesFit(m, fn, generators, k, seen, stages)
    decreases stages, 0
  {
    hide NodeWork, NodeOk, ListWork, ListOk, CanRunEach, CanRunTrips, Uses, UsesAll, SpentAll, SpentTrips, Turns,
         LengthOf, Scope, Agrees, GeneratorsOk, UsesGenerators;
    if generators == [] {
      TimesZero(k);
    } else {
      GeneratorsUnfold(m, fn, env, generators, k, seen, stages);
      var g, rest, stage := generators[0], generators[1..], stages[0];
      StagesSound(m, fn, env, rest, |stage.rounds|, seen, stages[1..]);
      StageParts(m, fn, env, g, seen, stage);
      TimesZero(|stage.iters|);
      GeneratorsCharge(m, fn, rest, seen);
      InnerNonEmpty(m, fn, rest, seen);
      StageStep(m, fn, generators, k, seen, stages);
    }
  }

  lemma {:induction false} StageStep(m: Module, fn: Function, generators: seq<Generator>, k: nat, seen: set<string>,
                                     stages: seq<Stage>)
    requires generators != [] && stages != []
    requires ListWork(m, fn, generators[0].ifs, seen).Some? && FiltersWork(m, fn, generators[1..], seen).Some?
    requires ListWork(m, fn, generators[0].ifs, seen).value >= 0.0
    requires FiltersWork(m, fn, generators[1..], seen).value >= 0.0
    requires AllNonEmpty(generators[1..], Scope(m, fn))
    requires StagesFit(m, fn, generators[1..], |stages[0].rounds|, seen, stages[1..])
    requires |stages[0].iters| <= k
    requires Yields(LengthOf(generators[0].iter, Scope(m, fn)), |stages[0].iters|, |stages[0].rounds|)
    requires SpentAll(stages[0].iters) == Some(0.0)
    requires Within(SpentTrips(stages[0].rounds),
                    Times(|stages[0].rounds|, ListWork(m, fn, generators[0].ifs, seen).value))
    ensures FiltersWork(m, fn, generators, seen).Some?
    ensures StagesFit(m, fn, generators, k, seen, stages)
  {
    hide ListWork, SpentAll, SpentTrips, LengthOf, Scope, Times;
    var env, rest, more := Scope(m, fn), generators[1..], stages[1..];
    var v, w := ListWork(m, fn, generators[0].ifs, seen).value, FiltersWork(m, fn, rest, seen).value;
    var r := |stages[0].rounds|;
    TimesZero(r);
    if AllKnown(generators, env) {
      var n := LengthOf(generators[0].iter, env).n;
      MulGrows(|stages[0].iters|, k, n);
      CapacityGrows(r, k * n, rest, env);
      StageFits(SpentTrips(stages[0].rounds).value, SpentStages(more).value, r, Capacity(r, rest, env),
                Capacity(k * n, rest, env), v, w);
    }
  }

  /** The first generator runs once; `n` of its elements enter the inner ones, which combine them with
      theirs in `c` ways; `r` results come out. */
  lemma {:induction false} ComprehensionFits(h: real, t: real, i: real, o: real, n: nat, c: nat, r: nat,
                                             once: real, first: real, inner: real, results: real, trips: Trips)
    requires 0.0 <= h <= once && first >= 0.0 && inner >= 0.0 && results >= 0.0
    requires 0.0 <= t <= Times(n, first) && 0.0 <= o <= Times(r, results)
    requires inner == 0.0 ==> i == 0.0
    requires trips.Known? ==> n <= trips.n && c <= trips.n && r <= trips.n && 0.0 <= i <= Times(c, inner)
    requires TripWork(Some(once), Some(first + inner + results), trips).Some?
    ensures Within(Some(h + t + i + o), TripWork(Some(once), Some(first + inner + results), trips).value)
  {
    if first + inner + results == 0.0 {
      TimesZero(n);
      TimesZero(r);
    } else {
      var T := trips.n;
      TimesGrows(n, T, first, first);
      TimesGrows(c, T, inner, inner);
      TimesGrows(r, T, results, results);
      TimesSum(T, first, inner);
      TimesSum(T, first + inner, results);
      assert Times(T, first + inner + results) == Times(T, first) + Times(T, inner) + Times(T, results);
    }
  }

  lemma {:induction false} CapacityInTrips(generators: seq<Generator>, env: Env, n: nat)
    requires generators != [] && AllKnown(generators, env) && AllNonEmpty(generators[1..], env)
    requires n <= LengthOf(generators[0].iter, env).n
    ensures GeneratorTrips(generators, env).Known?
    ensures n <= Capacity(n, generators[1..], env) <= GeneratorTrips(generators, env).n
  {
    CapacityGrows(n, LengthOf(generators[0].iter, env).n, generators[1..], env);
    CapacityIsProduct(1, generators, env);
  }

  lemma {:induction false} AgreesWithin(m: Module, fn: Function, env: Env, part: set<string>, names: set<string>)
    requires Agrees(m, fn, env, names) && part <= names
    ensures Agrees(m, fn, env, part)
  {
  }

  lemma ComprehensionUnfolds(m: Module, fn: Function, generators: seq<Generator>, results: seq<Node>, seen: set<string>)
    ensures NodeWork(m, fn, Comprehension(generators, results), seen) ==
            TripWork(ItersWork(m, fn, generators, seen),
                     Plus(FiltersWork(m, fn, generators, seen), ListWork(m, fn, results, seen)),
                     GeneratorTrips(generators, Scope(m, fn)))
    ensures NodeOk(m, fn, Comprehension(generators, results), seen) ==>
            && GeneratorsOk(m, fn, generators, seen) && ListOk(m, fn, results, seen)
            && (generators != [] ==> InnerOk(m, fn, generators[1..], seen))
  {
  }

  lemma ComprehensionRuns(m: Module, env: Env, generators: seq<Generator>, results: seq<Node>, e: Exec)
    requires e.Comprehend? && CanRun(m, env, Comprehension(generators, results), e)
    ensures CanRunStages(m, env, generators, 1, e.stages) && CanRunTrips(m, env, results, e.results)
    ensures |e.results| <= LastRounds(1, e.stages)
    ensures Spent(e) == Plus(SpentStages(e.stages), SpentTrips(e.results))
    ensures Uses(Comprehension(generators, results)) == UsesGenerators(generators) + UsesAll(results)
  {
  }

  lemma {:induction false} ComprehensionSound(m: Module, fn: Function, env: Env, generators: seq<Generator>,
                                              results: seq<Node>, seen: set<string>, e: Exec)
    requires e.Comprehend? && NodeOk(m, fn, Comprehension(generators, results), seen)
    requires Agrees(m, fn, env, Uses(Comprehension(generators, results)))
    requires CanRun(m, env, Comprehension(generators, results), e)
    requires NodeWork(m, fn, Comprehension(generators, results), seen).Some?
    ensures Within(Spent(e), NodeWork(m, fn, Comprehension(generators, results), seen).value)
    decreases e, 0
  {
    hide NodeWork, NodeOk, ListWork, ListOk, CanRun, CanRunAll, CanRunTrips, Uses, UsesAll, UsesGenerators, Spent,
         SpentAll, SpentTrips, Scope, GeneratorsOk, InnerOk, Traced, LengthOf;
    ComprehensionUnfolds(m, fn, generators, results, seen);
    ComprehensionRuns(m, env, generators, results, e);
    AgreesWithin(m, fn, env, UsesGenerators(generators), Uses(Comprehension(generators, results)));
    TripsSound(m, fn, env, results, seen, e.results);
    ListCharge(m, fn, results, seen);
    var w := ListWork(m, fn, results, seen).value;
    if generators == [] {
      TimesGrows(|e.results|, 1, w, w);
      TimesZero(|e.results|);
    } else {
      GeneratorsCharged(m, fn, generators, seen);
      var once := NodeWork(m, fn, generators[0].iter, seen).value;
      var first := ListWork(m, fn, generators[0].ifs, seen).value;
      var inner := FiltersWork(m, fn, generators[1..], seen).value;
      InnerIsFree(m, fn, generators[1..], seen);
      GeneratorsSound(m, fn, env, generators, seen, e.stages, |e.results|, SpentTrips(e.results).value,
                      once, first, inner, w);
    }
  }

  /** All stages of a non-empty comprehension, with `o` spent on `r` results charged `w` each. */
  lemma {:induction false} GeneratorsSound(m: Module, fn: Function, env: Env, generators: seq<Generator>,
                                           seen: set<string>, stages: seq<Stage>,
                                           r: nat, o: real, once: real, first: real, inner: real, w: real)
    requires generators != [] && GeneratorsOk(m, fn, generators, seen) && InnerOk(m, fn, generators[1..], seen)
    requires Agrees(m, fn, env, UsesGenerators(generators)) && CanRunStages(m, env, generators, 1, stages)
    requires NodeWork(m, fn, generators[0].iter, seen) == Some(once)
    requires ListWork(m, fn, generators[0].ifs, seen) == Some(first)
    requires FiltersWork(m, fn, generators[1..], seen) == Some(inner)
    requires r <= LastRounds(1, stages) && w >= 0.0 && 0.0 <= o <= Times(r, w)
    requires TripWork(Some(once), Some(first + inner + w), GeneratorTrips(generators, Scope(m, fn))).Some?
    ensures Within(Plus(SpentStages(stages), Some(o)),
                   TripWork(Some(once), Some(first + inner + w), GeneratorTrips(generators, Scope(m, fn))).value)
    decreases stages, 1
  {
    hide NodeWork, NodeOk, ListWork, ListOk, CanRunEach, CanRunTrips, Uses, UsesAll, SpentAll, SpentTrips, Turns,
         LengthOf, Scope, Agrees, GeneratorsOk, UsesGenerators;
    GeneratorsUnfold(m, fn, env, generators, 1, seen, stages);
    var g, rest, stage := generators[0], generators[1..], stages[0];
    StageParts(m, fn, env, g, seen, stage);
    StagesSound(m, fn, env, rest, |stage.rounds|, seen, stages[1..]);
    GeneratorsCharge(m, fn, rest, seen);
    InnerNonEmpty(m, fn, rest, seen);
    FirstStageFits(generators, Scope(m, fn), stages, r, o, once, first, inner, w);
  }

  lemma {:induction false} InnerIsFree(m: Module, fn: Function, generators: seq<Generator>, seen: set<string>)
    requires InnerOk(m, fn, generators, seen)
    ensures ItersWork(m, fn, generators, seen) == Some(0.0)
  {
    if generators != [] { InnerIsFree(m, fn, generators[1..], seen); }
  }

  lemma {:induction false} GeneratorsCharged(m: Module, fn: Function, generators: seq<Generator>, seen: set<string>)
    requires generators != []
    ensures ItersWork(m, fn, generators, seen) ==
            Plus(NodeWork(m, fn, generators[0].iter, seen), ItersWork(m, fn, generators[1..], seen))
    ensures FiltersWork(m, fn, generators, seen) ==
            Plus(ListWork(m, fn, generators[0].ifs, seen), FiltersWork(m, fn, generators[1..], seen))
  {
  }

  lemma {:induction false} FirstStageFits(generators: seq<Generator>, scope: Env, stages: seq<Stage>, r: nat, o: real,
                                          once: real, first: real, inner: real, w: real)
    requires generators != [] && stages != [] && AllNonEmpty(generators[1..], scope)
    requires |stages[0].iters| <= 1
    requires Yields(LengthOf(generators[0].iter, scope), |stages[0].iters|, |stages[0].rounds|)
    requires once >= 0.0 && first >= 0.0 && inner >= 0.0 && w >= 0.0
    requires Within(SpentAll(stages[0].iters), Times(|stages[0].iters|, once))
    requires Within(SpentTrips(stages[0].rounds), Times(|stages[0].rounds|, first))
    requires inner == 0.0 ==> SpentStages(stages[1..]) == Some(0.0)
    requires AllKnown(generators[1..], scope) ==>
               && LastRounds(|stages[0].rounds|, stages[1..]) <= Capacity(|stages[0].rounds|, generators[1..], scope)
               && Within(SpentStages(stages[1..]), Times(Capacity(|stages[0].rounds|, generators[1..], scope), inner))
    requires r <= LastRounds(1, stages) && 0.0 <= o <= Times(r, w)
    requires TripWork(Some(once), Some(first + inner + w), GeneratorTrips(generators, scope)).Some?
    ensures Within(Plus(SpentStages(stages), Some(o)),
                   TripWork(Some(once), Some(first + inner + w), GeneratorTrips(generators, scope)).value)
  {
    var trips, n, rest := GeneratorTrips(generators, scope), |stages[0].rounds|, generators[1..];
    KnownTrips(generators, scope);
    TimesGrows(|stages[0].iters|, 1, once, once);
    assert Times(1, once) == Times(0, once) + once;
    var c: nat := if AllKnown(rest, scope) then Capacity(n, rest, scope) else 0;
    if trips.Known? {
      var len := LengthOf(generators[0].iter, scope).n;
      MulGrows(|stages[0].iters|, 1, len);
      CapacityInTrips(generators, scope, n);
    }
    assert SpentStages(stages[1..]).Some?;
    ComprehensionFits(SpentAll(stages[0].iters).value, SpentTrips(stages[0].rounds).value,
                      SpentStages(stages[1..]).value, o, n, c, r, once, first, inner, w, trips);
  }

  /**
   Soundness: if the analysis returns a number for a function in the fragment, no execution of it enters
   an untimed blocking call and none spends more than that number, whatever values its caller gave to
   the parameters it does not read as a timeout or a trip count, as long as callables among them cost nothing.
   */
  lemma AnalysisIsSound(m: Module, fn: Function, seen: set<string>, bound: set<string>, env: Env, body: seq<Exec>)
    requires FunctionWork(m, fn, seen).Some? && FunctionOk(m, fn, seen)
    requires UsesAll(fn.body) !! bound && Admissible(m, fn, bound, env) && CanRunAll(m, env, fn.body, body)
    ensures Within(SpentAll(body), FunctionWork(m, fn, seen).value)
  {
    EnteredAgrees(m, fn, bound, env);
    ListSound(m, fn, env, fn.body, seen + {fn.name}, body);
  }
}
