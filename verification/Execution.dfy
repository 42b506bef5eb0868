/**
 What running the analysed code can do: every execution, as a tree, with the time it spends.

 Any part of any node may be left out (a branch not taken, an exception, an interrupt). What a call of a name
 does is decided by what the name stands for when the call is made, not by how it is spelt. A call that
 runs a function of the module runs its body, timeout or not. Any other call with a timeout spends at most
 that timeout. Without one, what blocks may never return; so may any method that bears the name of a blocking
 call, whatever object it is called on, and `sleep` takes as long as it likes.

 A callable is paid for where it is named, or where a container it sits in is named, or where it is imported:
 whoever it ends up with may run it any number of times, and those runs belong to the node that evaluated the
 name. That is why a name a caller or an assignment has bound costs nothing when it is called: its value came
 out of such a node, here or in a caller. What comes out of an attribute or of an unknown call is not followed.
 */
module Execution {
  import opened Common
  import opened Analyser

  datatype Exec =
    | Idle
    | Stuck
    | Parts(parts: seq<Exec>)
    | Invoke(func: Exec, args: seq<Exec>, values: seq<Exec>, action: Action)
    | Held(once: seq<Exec>, runs: seq<Activation>)
    | Loop(header: Exec, trips: seq<Trip>, orelse: seq<Exec>)
    | Spin(rounds: seq<Round>, orelse: seq<Exec>)
    | Comprehend(stages: seq<Stage>, results: seq<Trip>)

  datatype Action = Free | Spend(time: real) | Hang | Enter(callee: Activation)

  /** One run of a body, with what its names stand for. */
  datatype Activation = Activation(env: Env, body: seq<Exec>)

  datatype Trip = Trip(body: seq<Exec>)

  datatype Round = Round(test: Exec, body: seq<Exec>)

  /** One generator of a comprehension: the evaluations of its iterable, and a round of its filters for
      each element it yields. */
  datatype Stage = Stage(iters: seq<Exec>, rounds: seq<Trip>)

  // ----- The time spent; `None` if it never ends -----

  function Spent(e: Exec): Option<real>
    decreases e
  {
    match e
    case Idle => Some(0.0)
    case Stuck => None
    case Parts(parts) => SpentAll(parts)
    case Invoke(func, args, values, action) =>
      Plus(SpentIn(action), Plus(Spent(func), Plus(SpentAll(args), SpentAll(values))))
    case Held(once, runs) => Plus(SpentAll(once), SpentRuns(runs))
    case Loop(header, trips, orelse) => Plus(Spent(header), Plus(SpentTrips(trips), SpentAll(orelse)))
    case Spin(rounds, orelse) => Plus(SpentRounds(rounds), SpentAll(orelse))
    case Comprehend(stages, results) => Plus(SpentStages(stages), SpentTrips(results))
  }

  function SpentIn(action: Action): Option<real>
    decreases action
  {
    match action
    case Free => Some(0.0)
    case Spend(time) => Some(time)
    case Hang => None
    case Enter(callee) => SpentAll(callee.body)
  }

  function SpentAll(es: seq<Exec>): Option<real>
    decreases es
  {
    if es == [] then Some(0.0) else Plus(Spent(es[0]), SpentAll(es[1..]))
  }

  function SpentTrips(trips: seq<Trip>): Option<real>
    decreases trips
  {
    if trips == [] then Some(0.0) else Plus(SpentAll(trips[0].body), SpentTrips(trips[1..]))
  }

  function SpentRuns(runs: seq<Activation>): Option<real>
    decreases runs
  {
    if runs == [] then Some(0.0) else Plus(SpentAll(runs[0].body), SpentRuns(runs[1..]))
  }

  function SpentRounds(rounds: seq<Round>): Option<real>
    decreases rounds
  {
    if rounds == [] then Some(0.0)
    else Plus(Plus(Spent(rounds[0].test), SpentAll(rounds[0].body)), SpentRounds(rounds[1..]))
  }

  function SpentStages(stages: seq<Stage>): Option<real>
    decreases stages
  {
    if stages == [] then Some(0.0)
    else Plus(Plus(SpentAll(stages[0].iters), SpentTrips(stages[0].rounds)), SpentStages(stages[1..]))
  }

  // ----- Which executions a node has -----

  ghost predicate Yields(trips: Trips, evaluations: nat, n: nat) {
    trips.Known? ==> n <= evaluations * trips.n
  }

  /** The parameters of `callee` a call gives a value to. */
  function BoundBy(args: seq<Node>, keywords: seq<Keyword>, callee: Function): set<string> {
    if (exists i :: 0 <= i < |args| && args[i].Starred?) || (exists i :: 0 <= i < |keywords| && keywords[i].name == "")
    then AllParams(callee)
    else (set i | 0 <= i < |callee.params| && i < |args| :: callee.params[i].name) +
         (set i | 0 <= i < |keywords| :: keywords[i].name)
  }

  function AllParams(fn: Function): set<string> {
    set i | 0 <= i < |fn.params| :: fn.params[i].name
  }

  /** Names that need not stand for what the analysis reads them as. */
  function Loose(fn: Function): set<string> {
    fn.locals + set i | 0 <= i < |fn.params| && DefaultOf(fn.params, fn.params[i].name).None? :: fn.params[i].name
  }

  /** What names may stand for in a run of `fn`: a rebound one for anything, its callable paid for elsewhere. */
  ghost predicate Admissible(m: Module, fn: Function, bound: set<string>, env: Env) {
    forall x {:trigger env(x)} ::
      if x in Loose(fn) || x in bound then env(x).target == Harmless else env(x) == Scope(m, fn)(x)
  }

  /** The methods that can take time, by name. */
  const SLOW_METHODS: set<string> := {
    "run", "call", "check_call", "check_output", "urlopen", "create_connection", "sleep"}

  /** The last piece of a dotted path. */
  function LastPiece(path: string): string {
    if '.' !in path then path else LastPiece(path[1..])
  }

  /** Does what lies at `path` take time when it is called? */
  predicate TakesTime(m: Module, path: string) {
    LastPiece(path) in SLOW_METHODS || LastPiece(path) in m.functions
  }

  /** What is evaluated before a call is made: the object of a method call, any other callee itself. */
  function Receiver(func: Node): Node { if func.Attribute? then func.base else func }

  /** The terms of the arithmetic sequence from `start` before `stop`, counted one by one. */
  function Terms(start: int, stop: int, step: int): nat
    requires step != 0
    decreases if step > 0 then stop - start else start - stop
  {
    if (step > 0 && start < stop) || (step < 0 && start > stop) then 1 + Terms(start + step, stop, step) else 0
  }

  /** The trips of the built-in `range`; given no integers, too many arguments or no step, it raises. */
  function RangeTurns(args: seq<Node>, env: Env): Trips {
    if exists i :: 0 <= i < |args| && NumberOf(args[i], env).None? then Unresolved
    else if exists i :: 0 <= i < |args| && NumberOf(args[i], env).value.Floor as real != NumberOf(args[i], env).value
    then Known(0)
    else
      var ints := seq(|args|, i requires 0 <= i < |args| => NumberOf(args[i], env).value.Floor);
      match |args|
      case 1 => Known(Terms(0, ints[0], 1))
      case 2 => Known(Terms(ints[0], ints[1], 1))
      case 3 => if ints[2] == 0 then Known(0) else Known(Terms(ints[0], ints[1], ints[2]))
      case _ => Known(0)
  }

  /** How often iterating `iter` can run a loop body: a `range` that is not the built-in one can yield any
      number, and so can a list that grows while it is iterated. */
  function Turns(iter: Node, env: Env): Trips {
    match iter
    case Display(elts, _) => if exists i :: 0 <= i < |elts| && elts[i].Starred? then Unresolved else Known(|elts|)
    case Call(func, args, _) =>
      if func == Name("range") && env("range").target == Counts then RangeTurns(args, env) else Unresolved
    case Name(id) => if env(id).frozen then env(id).length else Unresolved
    case _ => Unresolved
  }

  /** A call that gives `callee` its timeout gives it the number the keyword stands for. */
  ghost predicate Passes(keywords: seq<Keyword>, env: Env, callee: Function, inner: Env) {
    var kw := TimeoutKeyword(keywords);
    kw.Some? && kw.value.name in AllParams(callee) && NumberOf(kw.value.value, env).Some? ==>
      inner(kw.value.name) == Value(NumberOf(kw.value.value, env), Unresolved, Harmless, true)
  }

  ghost predicate CanRun(m: Module, env: Env, node: Node, e: Exec)
    decreases e, 1
  {
    e.Idle? ||
    match node
    case Number(_) => false
    case Name(id) =>
      || (e.Stuck? && env(id).target.Blocks?)
      || (e.Held? && e.once == [] && env(id).target.Runs? && env(id).target.name in m.functions
          && CanBeRun(m, m.functions[env(id).target.name], e.runs))
    case Display(elts, _) => e.Parts? && CanRunAll(m, env, elts, e.parts)
    case Starred(inner) => e.Parts? && |e.parts| == 1 && CanRun(m, env, inner, e.parts[0])
    case Attribute(base, attr) =>
      || (e.Stuck? && attr in SLOW_METHODS)
      || (e.Parts? && |e.parts| == 1 && CanRun(m, env, base, e.parts[0]))
    case Call(func, args, keywords) =>
      && e.Invoke?
      && (func.Name? ==> e.func.Idle?) && CanRun(m, env, Receiver(func), e.func)
      && CanRunAll(m, env, args, e.args) && CanRunKeywords(m, env, keywords, e.values)
      && CanAct(m, env, func, args, keywords, e.action)
    case Callable(params, header, body) =>
      e.Held? && CanRunAll(m, env, header, e.once) && CanBeHeld(m, env, params, body, e.runs)
    case For(target, iter, body, orelse) =>
      && e.Loop? && CanRun(m, env, iter, e.header)
      && Yields(Turns(iter, env), 1, |e.trips|) && CanRunTrips(m, env, [target] + body, e.trips)
      && CanRunAll(m, env, orelse, e.orelse)
    case While(test, body, orelse) =>
      e.Spin? && CanRunRounds(m, env, test, body, e.rounds) && CanRunAll(m, env, orelse, e.orelse)
    case Comprehension(generators, results) =>
      && e.Comprehend? && CanRunStages(m, env, generators, 1, e.stages)
      && |e.results| <= LastRounds(1, e.stages) && CanRunTrips(m, env, results, e.results)
    case Import(path) => e.Stuck? && TakesTime(m, path)
    case Other(children) => e.Parts? && CanRunAll(m, env, children, e.parts)
  }

  ghost predicate CanAct(m: Module, env: Env, func: Node, args: seq<Node>, keywords: seq<Keyword>, action: Action)
    decreases action
  {
    match action
    case Free => true
    case Spend(time) => time >= 0.0 && CanSpend(env, func, keywords, time)
    case Hang => TimeoutOf(keywords).None? && CanHang(env, func)
    case Enter(callee) =>
      && func.Name? && env(func.id).target.Runs? && env(func.id).target.name in m.functions
      && var g := m.functions[env(func.id).target.name];
         && Admissible(m, g, BoundBy(args, keywords, g), callee.env) && Passes(keywords, env, g, callee.env)
         && CanRunAll(m, callee.env, g.body, callee.body)
  }

  ghost predicate CanSpend(env: Env, func: Node, keywords: seq<Keyword>, time: real) {
    match TimeoutOf(keywords)
    case None => func.Attribute? && func.attr in SLOW_METHODS
    case Some(bound) =>
      && !(func.Name? && env(func.id).target.Runs?)
      && (NumberOf(bound, env).Some? ==> time <= NumberOf(bound, env).value)
  }

  predicate CanHang(env: Env, func: Node) {
    match func
    case Name(id) => env(id).target.Blocks?
    case Attribute(_, attr) => attr in SLOW_METHODS
    case _ => true
  }

  ghost predicate CanRunAll(m: Module, env: Env, nodes: seq<Node>, es: seq<Exec>)
    decreases es
  {
    if nodes == [] || es == [] then nodes == [] && es == []
    else CanRun(m, env, nodes[0], es[0]) && CanRunAll(m, env, nodes[1..], es[1..])
  }

  ghost predicate CanRunKeywords(m: Module, env: Env, keywords: seq<Keyword>, es: seq<Exec>)
    decreases es
  {
    if keywords == [] || es == [] then keywords == [] && es == []
    else CanRun(m, env, keywords[0].value, es[0]) && CanRunKeywords(m, env, keywords[1..], es[1..])
  }

  ghost predicate CanRunTrips(m: Module, env: Env, body: seq<Node>, trips: seq<Trip>)
    decreases trips
  {
    trips != [] ==> CanRunAll(m, env, body, trips[0].body) && CanRunTrips(m, env, body, trips[1..])
  }

  ghost predicate CanRunRounds(m: Module, env: Env, test: Node, body: seq<Node>, rounds: seq<Round>)
    decreases rounds
  {
    rounds != [] ==>
      && CanRun(m, env, test, rounds[0].test) && CanRunAll(m, env, body, rounds[0].body)
      && CanRunRounds(m, env, test, body, rounds[1..])
  }

  /** Runs of a module function by whoever was handed it, with any arguments. */
  ghost predicate CanBeRun(m: Module, fn: Function, runs: seq<Activation>)
    decreases runs
  {
    runs != [] ==>
      && Admissible(m, fn, AllParams(fn), runs[0].env) && CanRunAll(m, runs[0].env, fn.body, runs[0].body)
      && CanBeRun(m, fn, runs[1..])
  }

  /** Runs of a nested callable: its own parameters may stand for anything. */
  ghost predicate CanBeHeld(m: Module, env: Env, params: set<string>, body: seq<Node>, runs: seq<Activation>)
    decreases runs
  {
    runs != [] ==>
      && (forall x {:trigger runs[0].env(x)} ::
            if x in params then runs[0].env(x).target == Harmless else runs[0].env(x) == env(x))
      && CanRunAll(m, runs[0].env, body, runs[0].body)
      && CanBeHeld(m, env, params, body, runs[1..])
  }

  /** The stages of a comprehension: an inner iterable is evaluated once for each outer element that
      passed the filters. */
  ghost predicate CanRunStages(m: Module, env: Env, generators: seq<Generator>, evaluations: nat, stages: seq<Stage>)
    decreases stages
  {
    if generators == [] || stages == [] then generators == [] && stages == []
    else
      && |stages[0].iters| <= evaluations && CanRunEach(m, env, generators[0].iter, stages[0].iters)
      && Yields(Turns(generators[0].iter, env), |stages[0].iters|, |stages[0].rounds|)
      && CanRunTrips(m, env, [generators[0].target] + generators[0].ifs, stages[0].rounds)
      && CanRunStages(m, env, generators[1..], |stages[0].rounds|, stages[1..])
  }

  ghost predicate CanRunEach(m: Module, env: Env, node: Node, es: seq<Exec>)
    decreases es
  {
    es != [] ==> CanRun(m, env, node, es[0]) && CanRunEach(m, env, node, es[1..])
  }

  function LastRounds(evaluations: nat, stages: seq<Stage>): nat
    decreases stages
  {
    if stages == [] then evaluations else LastRounds(|stages[0].rounds|, stages[1..])
  }

  // ----- The sound fragment -----

  function NameOf(node: Node): set<string> { if node.Name? then {node.id} else {} }

  function NamesOf(nodes: seq<Node>): set<string> {
    if nodes == [] then {} else NameOf(nodes[0]) + NamesOf(nodes[1..])
  }

  /** Names whose value decides how often `iter` repeats a loop. */
  function IterUses(iter: Node): set<string> {
    if iter.Name? then {iter.id}
    else if iter.Call? && iter.func == Name("range") then {"range"} + NamesOf(iter.args)
    else {}
  }

  function TimeoutUses(keywords: seq<Keyword>): set<string> {
    if TimeoutOf(keywords).Some? then NameOf(TimeoutOf(keywords).value) else {}
  }

  /** Names a node reads as a timeout or a trip count. */
  function Uses(node: Node): set<string>
    decreases node, 1
  {
    match node
    case Number(_) => {}
    case Name(_) => {}
    case Display(elts, _) => UsesAll(elts)
    case Starred(inner) => Uses(inner)
    case Attribute(base, _) => Uses(base)
    case Call(func, args, keywords) => Uses(func) + UsesAll(args) + UsesKeywords(keywords) + TimeoutUses(keywords)
    case Callable(_, header, body) => UsesAll(header) + UsesAll(body)
    case For(target, iter, body, orelse) =>
      Uses(target) + Uses(iter) + IterUses(iter) + UsesAll(body) + UsesAll(orelse)
    case While(test, body, orelse) => Uses(test) + UsesAll(body) + UsesAll(orelse)
    case Comprehension(generators, results) => UsesGenerators(generators) + UsesAll(results)
    case Import(_) => {}
    case Other(children) => UsesAll(children)
  }

  function UsesAll(nodes: seq<Node>): set<string>
    decreases nodes, 0
  {
    if nodes == [] then {} else Uses(nodes[0]) + UsesAll(nodes[1..])
  }

  function UsesKeywords(keywords: seq<Keyword>): set<string>
    decreases keywords, 0
  {
    if keywords == [] then {} else Uses(keywords[0].value) + UsesKeywords(keywords[1..])
  }

  function UsesGenerators(generators: seq<Generator>): set<string>
    decreases generators, 0
  {
    if generators == [] then {}
    else Uses(generators[0].target) + Uses(generators[0].iter) + IterUses(generators[0].iter) +
         UsesAll(generators[0].ifs) + UsesGenerators(generators[1..])
  }

  predicate IsFree(m: Module, fn: Function, node: Node, seen: set<string>) {
    NodeWork(m, fn, node, seen) == Some(0.0)
  }

  /** A timeout that resolves to a number is not negative. */
  predicate TimeoutOk(m: Module, fn: Function, keywords: seq<Keyword>) {
    TimeoutOf(keywords).Some? && NumberOf(TimeoutOf(keywords).value, Scope(m, fn)).Some? ==>
      NumberOf(TimeoutOf(keywords).value, Scope(m, fn)).value >= 0.0
  }

  /**
   The code on which the analysis can be trusted, checked along the path the analysis itself takes:
   no function is met again while it is being analysed; the receiver of a method call, the header of a
   nested callable, the test of a `while` and every iterable but the first of a comprehension are free;
   and so is what a loop assigns its elements to; a loop `else` is free unless the loop is known to run; inner
   generators are known not to be empty; what is iterated by name keeps its length;
   timeouts are not negative; a timed call into the module has a body that keeps to the timeout; every name
   called or handed out stands for what it is read as, and no name, method or import that blocks is; and no
   name read as a timeout or a trip count is rebound, left without a default, or given another value by a
   caller.
   */
  predicate NodeOk(m: Module, fn: Function, node: Node, seen: set<string>)
    decreases |Unentered(m, seen)|, node, 1
  {
    match node
    case Number(_) => true
    case Name(id) =>
      var target := Scope(m, fn)(id).target;
      && !target.Blocks?
      && (target.Runs? ==>
            && target.name == id && id in m.functions && id !in seen
            && UsesAll(m.functions[id].body) !! AllParams(m.functions[id])
            && (EnteringShrinks(m, seen, id); FunctionOk(m, m.functions[id], seen)))
    case Display(elts, _) => ListOk(m, fn, elts, seen)
    case Starred(inner) => NodeOk(m, fn, inner, seen)
    case Attribute(base, attr) => attr !in SLOW_METHODS && NodeOk(m, fn, base, seen)
    case Call(func, args, keywords) =>
      && TimeoutOk(m, fn, keywords)
      && (!func.Name? ==> NodeOk(m, fn, Receiver(func), seen) && IsFree(m, fn, Receiver(func), seen))
      && ListOk(m, fn, args, seen) && KeywordsOk(m, fn, keywords, seen)
      && CalleeOk(m, fn, func, args, keywords, seen)
    case Callable(params, header, body) =>
      && ListOk(m, fn, header, seen) && ListWork(m, fn, header, seen) == Some(0.0)
      && ListOk(m, fn, body, seen) && UsesAll(body) !! params
    case For(target, iter, body, orelse) =>
      && NodeOk(m, fn, target, seen) && IsFree(m, fn, target, seen)
      && NodeOk(m, fn, iter, seen) && ListOk(m, fn, body, seen) && ListOk(m, fn, orelse, seen)
      && (ListWork(m, fn, orelse, seen) == Some(0.0) || NonEmpty(LengthOf(iter, Scope(m, fn))))
      && IterOk(m, fn, iter)
    case While(test, body, orelse) =>
      && NodeOk(m, fn, test, seen) && IsFree(m, fn, test, seen)
      && ListOk(m, fn, body, seen) && ListOk(m, fn, orelse, seen)
    case Comprehension(generators, results) =>
      && GeneratorsOk(m, fn, generators, seen) && ListOk(m, fn, results, seen)
      && (generators != [] ==> InnerOk(m, fn, generators[1..], seen))
    case Import(path) => !TakesTime(m, path)
    case Other(children) => ListOk(m, fn, children, seen)
  }

  /** A blocking function under the name its library gives it. */
  predicate SpeltOut(func: Node) {
    || (&& func.Attribute? && func.base == Name("subprocess")
        && func.attr in {"run", "call", "check_call", "check_output"})
    || func == Attribute(Attribute(Name("urllib"), "request"), "urlopen")
    || func == Attribute(Name("socket"), "create_connection")
  }

  /** The callee is what its spelling says: a function of the module that was not met yet, entered with its
      timeout if it was given one, or something harmless; what blocks has a timeout, or is called by its own name,
      which the analysis is then to refuse. */
  predicate CalleeOk(m: Module, fn: Function, func: Node, args: seq<Node>, keywords: seq<Keyword>, seen: set<string>)
    requires TimeoutOk(m, fn, keywords)
    decreases |Unentered(m, seen)|, func, 0
  {
    match func
    case Name(id) =>
      (match Scope(m, fn)(id).target
       case Harmless => TimeoutOf(keywords).Some? || id !in m.functions
       case Counts => TimeoutOf(keywords).Some? || id !in m.functions
       case Blocks => TimeoutOf(keywords).Some? || (id == "urlopen" && id !in m.functions)
       case Runs(name) =>
         && name == id && id in m.functions && id !in seen
         && (EnteringShrinks(m, seen, id);
             if TimeoutOf(keywords).None? then
               && UsesAll(m.functions[id].body) !! BoundBy(args, keywords, m.functions[id])
               && FunctionOk(m, m.functions[id], seen)
             else TimedOk(m, fn, m.functions[id], args, keywords, seen)))
    case Attribute(_, attr) => TimeoutOf(keywords).Some? || attr !in SLOW_METHODS || SpeltOut(func)
    case _ => true
  }

  /** `g` with the parameter `name`, if it has one, defaulting to `v`. */
  function Fixed(g: Function, name: string, v: Literal): Function {
    g.(params := seq(|g.params|, i requires 0 <= i < |g.params| =>
      if g.params[i].name == name then Param(name, Some(Number(v))) else g.params[i]))
  }

  /** With the timeout the call gives it, `g` is charged no more than that timeout. */
  predicate TimedOk(m: Module, fn: Function, g: Function, args: seq<Node>, keywords: seq<Keyword>, seen: set<string>)
    requires TimeoutOf(keywords).Some? && TimeoutOk(m, fn, keywords)
    decreases |Unentered(m, seen + {g.name})|, g.body, 2
  {
    var kw := TimeoutKeyword(keywords).value;
    match NumberOf(kw.value, Scope(m, fn))
    case None => true
    case Some(limit) =>
      var fixed := Fixed(g, kw.name, limit);
      && FunctionOk(m, fixed, seen) && UsesAll(g.body) !! (BoundBy(args, keywords, g) - (AllParams(g) * {kw.name}))
      && FunctionWork(m, fixed, seen).Some? && FunctionWork(m, fixed, seen).value <= limit
  }

  /** What is called `range` is the built-in one, and what is iterated by name keeps its length. */
  predicate IterOk(m: Module, fn: Function, iter: Node) {
    && (iter.Call? && iter.func == Name("range") ==> Scope(m, fn)("range").target == Counts)
    && (iter.Name? ==> Scope(m, fn)(iter.id).frozen)
  }

  predicate NonEmpty(trips: Trips) { trips.Known? ==> trips.n > 0 }

  predicate ListOk(m: Module, fn: Function, nodes: seq<Node>, seen: set<string>)
    decreases |Unentered(m, seen)|, nodes, 0
  {
    nodes != [] ==> NodeOk(m, fn, nodes[0], seen) && ListOk(m, fn, nodes[1..], seen)
  }

  predicate KeywordsOk(m: Module, fn: Function, keywords: seq<Keyword>, seen: set<string>)
    decreases |Unentered(m, seen)|, keywords, 0
  {
    keywords != [] ==> NodeOk(m, fn, keywords[0].value, seen) && KeywordsOk(m, fn, keywords[1..], seen)
  }

  predicate GeneratorsOk(m: Module, fn: Function, generators: seq<Generator>, seen: set<string>)
    decreases |Unentered(m, seen)|, generators, 0
  {
    generators != [] ==>
      && NodeOk(m, fn, generators[0].iter, seen) && ListOk(m, fn, generators[0].ifs, seen)
      && NodeOk(m, fn, generators[0].target, seen) && IsFree(m, fn, generators[0].target, seen)
      && IterOk(m, fn, generators[0].iter) && GeneratorsOk(m, fn, generators[1..], seen)
  }

  /** Second and later generators: their iterables are evaluated many times but charged once. */
  predicate InnerOk(m: Module, fn: Function, generators: seq<Generator>, seen: set<string>) {
    generators != [] ==>
      && IsFree(m, fn, generators[0].iter, seen) && NonEmpty(LengthOf(generators[0].iter, Scope(m, fn)))
      && InnerOk(m, fn, generators[1..], seen)
  }

  predicate FunctionOk(m: Module, fn: Function, seen: set<string>)
    decreases |Unentered(m, seen + {fn.name})|, fn.body, 1
  {
    UsesAll(fn.body) !! Loose(fn) && ListOk(m, fn, fn.body, seen + {fn.name})
  }
}
