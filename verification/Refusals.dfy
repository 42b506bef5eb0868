/** What the analysis refuses: a function it returns a number for holds no call it could not read. */
module Refusals {
  import opened Common
  import opened Analyser
  import opened Execution
  import opened Soundness

  /** A name that can be called without a timeout: a function, a global, a built-in or a parameter. */
  predicate Callee(m: Module, fn: Function, id: string) {
    && id != "urlopen"
    && (|| id in m.functions || id in m.globals || id in m.builtins
        || exists i :: 0 <= i < |fn.params| && fn.params[i].name == id)
  }

  /** One call: its timeout is a number, or it needs none; no blocking function goes without, and what is called is
      named. */
  predicate CallReadable(m: Module, fn: Function, func: Node, keywords: seq<Keyword>) {
    if exists i :: 0 <= i < |keywords| && keywords[i].name in {"timeout", "timeout_s"}
    then TimeoutOf(keywords).Some? && NumberOf(TimeoutOf(keywords).value, Scope(m, fn)).Some?
    else match func
      case Name(id) => Callee(m, fn, id)
      case Attribute(_, _) => !SpeltOut(func)
      case _ => false
  }

  /** Every call among the parts of a node that are charged, and in the functions those run or hand out. */
  predicate Readable(m: Module, fn: Function, node: Node, seen: set<string>)
    decreases |Unentered(m, seen)|, node, 1
  {
    match node
    case Number(_) => true
    case Name(id) => Followed(m, id, seen)
    case Display(elts, _) => AllReadable(m, fn, elts, seen)
    case Starred(inner) => Readable(m, fn, inner, seen)
    case Attribute(base, _) => Readable(m, fn, base, seen)
    case Call(func, args, keywords) =>
      && CallReadable(m, fn, func, keywords)
      && (func.Name? && TimeoutOf(keywords).None? ==> Followed(m, func.id, seen))
      && AllReadable(m, fn, args, seen) && KeywordsReadable(m, fn, keywords, seen)
    case Callable(_, _, body) => AllReadable(m, fn, body, seen)
    case For(_, iter, body, orelse) =>
      Readable(m, fn, iter, seen) && AllReadable(m, fn, body, seen) && AllReadable(m, fn, orelse, seen)
    case While(test, body, orelse) =>
      Readable(m, fn, test, seen) && AllReadable(m, fn, body, seen) && AllReadable(m, fn, orelse, seen)
    case Comprehension(generators, results) =>
      GeneratorsReadable(m, fn, generators, seen) && AllReadable(m, fn, results, seen)
    case Import(_) => true
    case Other(children) => AllReadable(m, fn, children, seen)
  }

  predicate Followed(m: Module, id: string, seen: set<string>)
    decreases |Unentered(m, seen)|, Name(id), 0
  {
    id in m.functions && id !in seen ==>
      (EnteringShrinks(m, seen, id); AllReadable(m, m.functions[id], m.functions[id].body, seen + {id}))
  }

  predicate AllReadable(m: Module, fn: Function, nodes: seq<Node>, seen: set<string>)
    decreases |Unentered(m, seen)|, nodes, 0
  {
    nodes != [] ==> Readable(m, fn, nodes[0], seen) && AllReadable(m, fn, nodes[1..], seen)
  }

  predicate KeywordsReadable(m: Module, fn: Function, keywords: seq<Keyword>, seen: set<string>)
    decreases |Unentered(m, seen)|, keywords, 0
  {
    keywords != [] ==> Readable(m, fn, keywords[0].value, seen) && KeywordsReadable(m, fn, keywords[1..], seen)
  }

  predicate GeneratorsReadable(m: Module, fn: Function, generators: seq<Generator>, seen: set<string>)
    decreases |Unentered(m, seen)|, generators, 0
  {
    generators != [] ==>
      && Readable(m, fn, generators[0].iter, seen) && AllReadable(m, fn, generators[0].ifs, seen)
      && GeneratorsReadable(m, fn, generators[1..], seen)
  }

  lemma {:induction false} TimeoutIsFound(keywords: seq<Keyword>)
    ensures TimeoutOf(keywords).Some? <==>
            exists i :: 0 <= i < |keywords| && keywords[i].name in {"timeout", "timeout_s"}
  {
    if keywords != [] {
      TimeoutIsFound(keywords[1..]);
      assert forall i :: 1 <= i < |keywords| ==> keywords[i] == keywords[1..][i - 1];
      assert forall i :: 0 <= i < |keywords| - 1 ==> keywords[1..][i] == keywords[i + 1];
    }
  }

  lemma CallIsReadable(m: Module, fn: Function, func: Node, keywords: seq<Keyword>, seen: set<string>)
    requires CallWork(m, fn, func, keywords, seen).Some?
    ensures CallReadable(m, fn, func, keywords)
  {
    TimeoutIsFound(keywords);
    SpeltIsRefused(m, fn, func, keywords, seen);
  }

  lemma {:induction false} NodeIsReadable(m: Module, fn: Function, node: Node, seen: set<string>)
    requires NodeWork(m, fn, node, seen).Some?
    ensures Readable(m, fn, node, seen)
    decreases |Unentered(m, seen)|, node, 1
  {
    match node
    case Number(_) =>
    case Name(id) => if id in m.functions && id !in seen { EntryIsReadable(m, id, seen); }
    case Display(elts, _) => ListIsReadable(m, fn, elts, seen);
    case Starred(inner) => NodeIsReadable(m, fn, inner, seen);
    case Attribute(base, _) => NodeIsReadable(m, fn, base, seen);
    case Call(func, args, keywords) =>
      CallIsReadable(m, fn, func, keywords, seen);
      if func.Name? && TimeoutOf(keywords).None? && func.id in m.functions && func.id !in seen {
        EntryIsReadable(m, func.id, seen);
      }
      ListIsReadable(m, fn, args, seen);
      KeywordsAreReadable(m, fn, keywords, seen);
    case Callable(_, _, body) => ListIsReadable(m, fn, body, seen);
    case For(_, iter, body, orelse) =>
      NodeIsReadable(m, fn, iter, seen);
      ListIsReadable(m, fn, body, seen);
      ListIsReadable(m, fn, orelse, seen);
    case While(test, body, orelse) =>
      NodeIsReadable(m, fn, test, seen);
      ListIsReadable(m, fn, body, seen);
      ListIsReadable(m, fn, orelse, seen);
    case Comprehension(generators, results) =>
      GeneratorsAreReadable(m, fn, generators, seen);
      ListIsReadable(m, fn, results, seen);
    case Import(_) =>
    case Other(children) => ListIsReadable(m, fn, children, seen);
  }

  lemma EntryIsReadable(m: Module, id: string, seen: set<string>)
    requires id in m.functions && id !in seen && FunctionWork(m, m.functions[id], seen).Some?
    ensures Followed(m, id, seen)
    decreases |Unentered(m, seen)|, Name(id), 0
  {
    EnteringShrinks(m, seen, id);
    ListIsReadable(m, m.functions[id], m.functions[id].body, seen + {id});
  }

  lemma {:induction false} ListIsReadable(m: Module, fn: Function, nodes: seq<Node>, seen: set<string>)
    requires ListWork(m, fn, nodes, seen).Some?
    ensures AllReadable(m, fn, nodes, seen)
    decreases |Unentered(m, seen)|, nodes, 0
  {
    if nodes != [] {
      NodeIsReadable(m, fn, nodes[0], seen);
      ListIsReadable(m, fn, nodes[1..], seen);
    }
  }

  lemma {:induction false} KeywordsAreReadable(m: Module, fn: Function, keywords: seq<Keyword>, seen: set<string>)
    requires KeywordsWork(m, fn, keywords, seen).Some?
    ensures KeywordsReadable(m, fn, keywords, seen)
    decreases |Unentered(m, seen)|, keywords, 0
  {
    if keywords != [] {
      NodeIsReadable(m, fn, keywords[0].value, seen);
      KeywordsAreReadable(m, fn, keywords[1..], seen);
    }
  }

  lemma {:induction false} GeneratorsAreReadable(m: Module, fn: Function, generators: seq<Generator>, seen: set<string>)
    requires ItersWork(m, fn, generators, seen).Some? && FiltersWork(m, fn, generators, seen).Some?
    ensures GeneratorsReadable(m, fn, generators, seen)
    decreases |Unentered(m, seen)|, generators, 0
  {
    if generators != [] {
      NodeIsReadable(m, fn, generators[0].iter, seen);
      ListIsReadable(m, fn, generators[0].ifs, seen);
      GeneratorsAreReadable(m, fn, generators[1..], seen);
    }
  }

  /** For any code, in the fragment or not: where the analysis returns a number, every call it has met, in the
      function and in those it runs, has a timeout that is a number or is a named call that needs none. */
  lemma RefusesWhatItCannotRead(m: Module, fn: Function, seen: set<string>)
    requires FunctionWork(m, fn, seen).Some?
    ensures AllReadable(m, fn, fn.body, seen + {fn.name})
  {
    ListIsReadable(m, fn, fn.body, seen + {fn.name});
  }
}
