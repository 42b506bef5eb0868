/**
 The static time analysis of the live-infrastructure harness: `_bounded_work_s` and its helpers, over a
 Python syntax tree cut down to the node kinds the analysis tells apart.
 */
module Analyser {
  import opened Common

  /** A numeric literal; a minus sign is an operator around one. */
  type Literal = r: real | r >= 0.0

  /** `Display` is a list, a set or, frozen, a tuple. The target of a loop is what each element is assigned to,
      `Other([])` if that is a plain name. `Import` binds a local name to what lies at `path`. `Other` is every
      node whose children are simply visited: branches, assignments, operators, subscripts, `pass`, texts. */
  datatype Node =
    | Number(value: Literal)
    | Name(id: string)
    | Display(elts: seq<Node>, frozen: bool)
    | Starred(inner: Node)
    | Attribute(base: Node, attr: string)
    | Call(func: Node, args: seq<Node>, keywords: seq<Keyword>)
    | Callable(params: set<string>, header: seq<Node>, body: seq<Node>)
    | For(target: Node, iter: Node, body: seq<Node>, orelse: seq<Node>)
    | While(test: Node, body: seq<Node>, orelse: seq<Node>)
    | Comprehension(generators: seq<Generator>, results: seq<Node>)
    | Import(path: string)
    | Other(children: seq<Node>)

  /** A `**mapping` argument has the empty name. */
  datatype Keyword = Keyword(name: string, value: Node)

  datatype Generator = Generator(target: Node, iter: Node, ifs: seq<Node>)

  datatype Param = Param(name: string, default: Option<Node>)

  /** `locals` are the names the body binds anywhere, loop and comprehension variables included; `body` is every
      child of the definition but its arguments. */
  datatype Function = Function(name: string, params: seq<Param>, locals: set<string>, body: seq<Node>)

  /** How often iterating something runs a loop body; `Raises` is a malformed `range`. */
  datatype Trips = Known(n: nat) | Unresolved | Raises

  /** What calling something does: nothing that takes time, run a function of the module, block without a bound
      of its own, or make the numbers the built-in `range` makes. A container is `Blocks` if anything in it
      takes time when called. */
  datatype Target = Harmless | Runs(name: string) | Blocks | Counts

  /** What a name stands for: as a number, as something to iterate, as something to call or to take callables
      from, and whether it keeps its length. */
  datatype Value = Value(number: Option<real>, length: Trips, target: Target, frozen: bool)

  datatype Module' = Module'(functions: map<string, Function>, globals: map<string, Value>, builtins: set<string>)

  type Module = m: Module' | forall k :: k in m.functions ==> m.functions[k].name == k
    witness Module'(map[], map[], {})

  type Env = string -> Value

  const BLOCKING_CALLS: set<string> := {
    "subprocess.run", "subprocess.call", "subprocess.check_call", "subprocess.check_output",
    "urlopen", "urllib.request.urlopen", "socket.create_connection"}

  const TIMEOUT_KEYWORDS: set<string> := {"timeout", "timeout_s"}

  // ----- Resolving numbers and lengths -----

  function NumberOf(node: Node, env: Env): Option<real> {
    match node
    case Number(v) => Some(v)
    case Name(id) => env(id).number
    case _ => None
  }

  /** `int(x)`: truncation toward zero. */
  function Truncate(x: real): (n: int)
    ensures if x >= 0.0 then 0.0 <= n as real <= x < n as real + 1.0 else n as real - 1.0 < x <= n as real <= 0.0
  {
    if x >= 0.0 then x.Floor else -((-x).Floor)
  }

  function RangeLength(start: int, stop: int, step: int): Trips {
    if step > 0 then Known(if stop > start then (stop - start + step - 1) / step else 0)
    else if step < 0 then Known(if start > stop then (start - stop - step - 1) / -step else 0)
    else Raises
  }

  function RangeTrips(args: seq<Node>, env: Env): Trips {
    if args == [] || exists i :: 0 <= i < |args| && NumberOf(args[i], env).None? then Unresolved
    else
      var a := Truncate(NumberOf(args[0], env).value);
      if |args| == 1 then RangeLength(0, a, 1)
      else
        var b := Truncate(NumberOf(args[1], env).value);
        if |args| == 2 then RangeLength(a, b, 1)
        else if |args| == 3 then RangeLength(a, b, Truncate(NumberOf(args[2], env).value))
        else Raises
  }

  function LengthOf(node: Node, env: Env): Trips {
    match node
    case Display(elts, _) => if exists i :: 0 <= i < |elts| && elts[i].Starred? then Unresolved else Known(|elts|)
    case Call(func, args, _) => if func == Name("range") then RangeTrips(args, env) else Unresolved
    case Name(id) => env(id).length
    case _ => Unresolved
  }

  function DefaultOf(params: seq<Param>, name: string): Option<Node> {
    if params == [] then None
    else if params[0].name == name && params[0].default.Some? then params[0].default
    else DefaultOf(params[1..], name)
  }

  /** What the module itself makes of a name; an assignment may have rebound a function. */
  function Global(m: Module, name: string): Value {
    if name in m.globals then m.globals[name]
    else if name in m.functions then Value(None, Unresolved, Runs(name), true)
    else Value(None, Unresolved, if name == "range" then Counts else Harmless, true)
  }

  /** What calling the value of a parameter default would do: nothing if all it is made of is harmless. */
  function TargetOf(default: Node, env: Env): Target {
    match default
    case Number(_) => Harmless
    case Name(id) => env(id).target
    case Display(elts, _) =>
      if forall i :: 0 <= i < |elts| ==> TargetOf(elts[i], env) == Harmless then Harmless else Blocks
    case Other(parts) =>
      if forall i :: 0 <= i < |parts| ==> TargetOf(parts[i], env) == Harmless then Harmless else Blocks
    case _ => Blocks
  }

  /** Does the value of a parameter default keep its length? */
  function FrozenOf(default: Node, env: Env): bool {
    match default
    case Display(_, frozen) => frozen
    case Name(id) => env(id).frozen
    case _ => true
  }

  /** What a name stands for inside `fn` when nothing rebinds it: its parameter default, else the module
      global. The analysis reads numbers and lengths this way, and never looks at the target. */
  function Scope(m: Module, fn: Function): Env {
    (name: string) =>
      match DefaultOf(fn.params, name)
      case Some(default) =>
        Value(NumberOf(default, x => Global(m, x)), LengthOf(default, x => Global(m, x)),
              TargetOf(default, x => Global(m, x)), FrozenOf(default, x => Global(m, x)))
      case None => Global(m, name)
  }

  function Dotted(node: Node): Option<string> {
    match node
    case Name(id) => Some(id)
    case Attribute(base, attr) =>
      (match Dotted(base) case Some(b) => Some(b + "." + attr) case None => None)
    case _ => None
  }

  /** The first keyword that names a timeout. */
  function TimeoutKeyword(keywords: seq<Keyword>): Option<Keyword> {
    if keywords == [] then None
    else if keywords[0].name in TIMEOUT_KEYWORDS then Some(keywords[0])
    else TimeoutKeyword(keywords[1..])
  }

  function TimeoutOf(keywords: seq<Keyword>): Option<Node> {
    if TimeoutKeyword(keywords).Some? then Some(TimeoutKeyword(keywords).value.value) else None
  }

  predicate IsParam(fn: Function, name: string) {
    exists i :: 0 <= i < |fn.params| && fn.params[i].name == name
  }

  predicate IsResolvableGlobal(m: Module, name: string) {
    name in m.globals || name in m.functions || name in m.builtins
  }

  // ----- The analysis; `None` is a refusal -----

  function Plus(a: Option<real>, b: Option<real>): Option<real> {
    if a.Some? && b.Some? then Some(a.value + b.value) else None
  }

  /** What may be run any number of times may only be run for nothing. */
  function MustBeFree(work: Option<real>): Option<real> {
    if work == Some(0.0) then Some(0.0) else None
  }

  /** `n * w`, as repeated addition. */
  function Times(n: nat, w: real): real {
    if n == 0 then 0.0 else Times(n - 1, w) + w
  }

  function TripWork(once: Option<real>, perTrip: Option<real>, trips: Trips): Option<real> {
    if once.None? || perTrip.None? || trips.Raises? then None
    else if perTrip.value == 0.0 then once
    else if trips.Unresolved? then None
    else Some(once.value + Times(trips.n, perTrip.value))
  }

  function TimesTrips(a: Trips, b: Trips): Trips {
    if a.Raises? || b.Raises? then Raises
    else if a.Known? && b.Known? then Known(a.n * b.n)
    else Unresolved
  }

  function GeneratorTrips(generators: seq<Generator>, env: Env): Trips {
    if generators == [] then Known(1)
    else TimesTrips(LengthOf(generators[0].iter, env), GeneratorTrips(generators[1..], env))
  }

  /** Functions the analysis could still enter; with the node it visits, what makes it terminate. */
  function Unentered(m: Module, seen: set<string>): set<string> { m.functions.Keys - seen }

  lemma EnteringShrinks(m: Module, seen: set<string>, id: string)
    requires id in m.functions && id !in seen
    ensures |Unentered(m, seen + {id})| < |Unentered(m, seen)|
  {
    assert Unentered(m, seen + {id}) + {id} == Unentered(m, seen);
  }

  function NodeWork(m: Module, fn: Function, node: Node, seen: set<string>): Option<real>
    decreases |Unentered(m, seen)|, node, 1
  {
    match node
    case Number(_) => Some(0.0)
    case Name(id) =>
      if id in m.functions && id !in seen then
        EnteringShrinks(m, seen, id);
        MustBeFree(FunctionWork(m, m.functions[id], seen))
      else Some(0.0)
    case Display(elts, _) => ListWork(m, fn, elts, seen)
    case Starred(inner) => NodeWork(m, fn, inner, seen)
    case Attribute(base, _) => NodeWork(m, fn, base, seen)
    case Call(func, args, keywords) =>
      Plus(CallWork(m, fn, func, keywords, seen),
           Plus(ListWork(m, fn, args, seen), KeywordsWork(m, fn, keywords, seen)))
    case Callable(_, _, body) => MustBeFree(ListWork(m, fn, body, seen))
    case For(_, iter, body, orelse) =>
      TripWork(NodeWork(m, fn, iter, seen),
               Plus(ListWork(m, fn, body, seen), ListWork(m, fn, orelse, seen)), LengthOf(iter, Scope(m, fn)))
    case While(test, body, orelse) =>
      TripWork(NodeWork(m, fn, test, seen),
               Plus(ListWork(m, fn, body, seen), ListWork(m, fn, orelse, seen)), Unresolved)
    case Comprehension(generators, results) =>
      TripWork(ItersWork(m, fn, generators, seen),
               Plus(FiltersWork(m, fn, generators, seen), ListWork(m, fn, results, seen)),
               GeneratorTrips(generators, Scope(m, fn)))
    case Import(_) => Some(0.0)
    case Other(children) => ListWork(m, fn, children, seen)
  }

  function ListWork(m: Module, fn: Function, nodes: seq<Node>, seen: set<string>): Option<real>
    decreases |Unentered(m, seen)|, nodes, 0
  {
    if nodes == [] then Some(0.0)
    else Plus(NodeWork(m, fn, nodes[0], seen), ListWork(m, fn, nodes[1..], seen))
  }

  function KeywordsWork(m: Module, fn: Function, keywords: seq<Keyword>, seen: set<string>): Option<real>
    decreases |Unentered(m, seen)|, keywords, 0
  {
    if keywords == [] then Some(0.0)
    else Plus(NodeWork(m, fn, keywords[0].value, seen), KeywordsWork(m, fn, keywords[1..], seen))
  }

  function ItersWork(m: Module, fn: Function, generators: seq<Generator>, seen: set<string>): Option<real>
    decreases |Unentered(m, seen)|, generators, 0
  {
    if generators == [] then Some(0.0)
    else Plus(NodeWork(m, fn, generators[0].iter, seen), ItersWork(m, fn, generators[1..], seen))
  }

  function FiltersWork(m: Module, fn: Function, generators: seq<Generator>, seen: set<string>): Option<real>
    decreases |Unentered(m, seen)|, generators, 0
  {
    if generators == [] then Some(0.0)
    else Plus(ListWork(m, fn, generators[0].ifs, seen), FiltersWork(m, fn, generators[1..], seen))
  }

  /** What a single call is charged: the timeout it gives, else the function it runs. */
  function CallWork(m: Module, fn: Function, func: Node, keywords: seq<Keyword>, seen: set<string>): Option<real>
    decreases |Unentered(m, seen)|, func, 0
  {
    match TimeoutOf(keywords)
    case Some(bound) => NumberOf(bound, Scope(m, fn))
    case None =>
      if Dotted(func).Some? && Dotted(func).value in BLOCKING_CALLS then None
      else match func
        case Name(id) =>
          if id in m.functions then
            if id in seen then Some(0.0)
            else
              EnteringShrinks(m, seen, id);
              FunctionWork(m, m.functions[id], seen)
          else if IsResolvableGlobal(m, id) || IsParam(fn, id) then Some(0.0)
          else None
        case Attribute(_, _) => Some(0.0)
        case _ => None
  }

  /** `_bounded_work_s`: what running `fn` once is charged, or a refusal. */
  function FunctionWork(m: Module, fn: Function, seen: set<string>): Option<real>
    decreases |Unentered(m, seen + {fn.name})|, fn.body, 1
  {
    ListWork(m, fn, fn.body, seen + {fn.name})
  }
}
