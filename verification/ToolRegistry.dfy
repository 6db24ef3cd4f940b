// The tool registry (internal/tools/registry.go): what registration accepts, and
// the dependency closure a selection is built from.

module ToolRegistry {
  import opened ToolOrder

  datatype Option<T> = None | Some(value: T)

  type Index = map<string, Tool>

  datatype RegistryError =
    | EmptyName
    | Duplicate(name: string)
    | UnknownDependency(name: string)
    | Cycle(names: set<string>)

  datatype Registration = Accepted(tools: Index) | Rejected(error: RegistryError)

  datatype Toolset = Toolset(primary: Option<Tool>, ordered: seq<Tool>)

  datatype Selection = Selected(toolset: Toolset) | UnknownTool(name: string) | SelectionCycle(names: set<string>)

  // ---- Registration ----------------------------------------------------------------------

  predicate KnownDeps(tools: seq<Tool>)
  {
    forall tool <- tools :: forall d <- tool.deps :: d in Names(tools)
  }

  // The index holds exactly the listed tools under their own names.
  predicate Indexes(index: Index, tools: seq<Tool>)
  {
    && (forall n <- index :: index[n] in tools && index[n].name == n)
    && (forall tool <- tools :: tool.name in index && index[tool.name] == tool)
  }

  predicate Registrable(tools: seq<Tool>)
  {
    DistinctNames(tools) && "" !in Names(tools)
  }

  lemma RegistrableAppend(front: seq<Tool>, last: Tool)
    ensures Registrable(front + [last]) <==> Registrable(front) && last.name != "" && last.name !in Names(front)
  {
    NamesAppend(front, last);
    DistinctAppend(front, last);
  }

  lemma {:induction false} RegistrablePrefix(tools: seq<Tool>, n: nat)
    requires n <= |tools|
    ensures Registrable(tools) ==> Registrable(tools[..n])
    decreases |tools|
  {
    if n < |tools| {
      var front := tools[..|tools| - 1];
      assert tools == front + [tools[|tools| - 1]] && front[..n] == tools[..n];
      RegistrableAppend(front, tools[|tools| - 1]);
      RegistrablePrefix(front, n);
    } else {
      assert tools[..n] == tools;
    }
  }

  lemma IndexAppend(index: Index, front: seq<Tool>, last: Tool)
    requires Indexes(index, front) && index.Keys == Names(front) && last.name !in index
    ensures Indexes(index[last.name := last], front + [last])
    ensures index.Keys + {last.name} == Names(front + [last])
  {
    NamesAppend(front, last);
  }

  method IndexTools(tools: seq<Tool>) returns (r: Registration)
    ensures r.Accepted? <==> Registrable(tools)
    ensures r.Accepted? ==> Indexes(r.tools, tools) && r.tools.Keys == Names(tools)
  {
    var index: Index := map[];
    for i := 0 to |tools|
      invariant Registrable(tools[..i])
      invariant Indexes(index, tools[..i]) && index.Keys == Names(tools[..i])
    {
      var item := tools[i];
      assert tools[..i + 1] == tools[..i] + [item];
      RegistrableAppend(tools[..i], item);
      if item.name == "" || item.name in index {
        RegistrablePrefix(tools, i + 1);
        return Rejected(if item.name == "" then EmptyName else Duplicate(item.name));
      }
      IndexAppend(index, tools[..i], item);
      index := index[item.name := item];
    }
    assert tools[..|tools|] == tools;
    return Accepted(index);
  }

  method CheckDeps(tools: seq<Tool>, index: Index) returns (unknown: Option<string>)
    requires index.Keys == Names(tools)
    ensures unknown.None? <==> KnownDeps(tools)
  {
    for i := 0 to |tools|
      invariant forall k | 0 <= k < i :: forall d <- tools[k].deps :: d in index
    {
      for j := 0 to |tools[i].deps|
        invariant forall k | 0 <= k < j :: tools[i].deps[k] in index
      {
        if tools[i].deps[j] !in index {
          assert tools[i] in tools && tools[i].deps[j] in tools[i].deps;
          return Some(tools[i].deps[j]);
        }
      }
    }
    return None;
  }

  // Accepts exactly distinct nonempty names, known dependencies and no cycle.
  method NewRegistry(tools: seq<Tool>) returns (r: Registration)
    ensures r.Accepted? <==> Sortable(tools) && KnownDeps(tools)
    ensures r.Accepted? ==> Indexes(r.tools, tools)
  {
    r := IndexTools(tools);
    if r.Accepted? {
      var unknown := CheckDeps(tools, r.tools);
      if unknown.Some? {
        return Rejected(UnknownDependency(unknown.value));
      }
      var order := TopologicalOrder(tools);
      if order.Blocked? {
        return Rejected(Cycle(order.names));
      }
    }
  }

  // ---- The closure -----------------------------------------------------------------------

  // The dependencies of every known member are members.
  predicate Closed(index: Index, s: set<string>)
  {
    forall n <- s :: n in index ==> DepsOf(index, n) <= s
  }

  function DepsOf(index: Index, n: string): set<string>
    requires n in index
  {
    set d | d in index[n].deps
  }

  // The sub-index of the selected names.
  predicate Within(closure: Index, index: Index)
  {
    forall n <- closure :: n in index && closure[n] == index[n]
  }

  // Every closed set with these members holds an unknown name.
  ghost predicate Doomed(index: Index, s: set<string>)
  {
    forall c :: s <= c && Closed(index, c) ==> !(c <= index.Keys)
  }

  // c is contained in every closed set that contains s.
  ghost predicate Forced(index: Index, s: set<string>, c: set<string>)
  {
    forall u :: s <= u && Closed(index, u) ==> c <= u
  }

  // The recursive gather: on success adds the closure of name, with the
  // dependencies of everything it added.
  method Gather(index: Index, before: Index, name: string) returns (closure: Index, ok: bool)
    requires Within(before, index)
    ensures Within(closure, index) && before.Keys <= closure.Keys
    ensures ok ==> name in closure && Forced(index, before.Keys + {name}, closure.Keys)
    ensures ok ==> forall n <- closure :: n !in before ==> DepsOf(index, n) <= closure.Keys
    ensures !ok ==> Doomed(index, before.Keys + {name})
    decreases index.Keys - before.Keys
  {
    closure := before;
    if name in closure {
      return closure, true;
    }
    if name !in index {
      return closure, false;
    }
    closure := closure[name := index[name]];
    var deps := index[name].deps;
    ghost var start := before.Keys + {name};
    for i := 0 to |deps|
      invariant Within(closure, index) && start <= closure.Keys
      invariant Forced(index, start, closure.Keys)
      invariant forall j | 0 <= j < i :: deps[j] in closure
      invariant forall n <- closure :: n !in start ==> DepsOf(index, n) <= closure.Keys
    {
      ghost var was := closure.Keys;
      assert deps[i] in DepsOf(index, name);
      ForcedDep(index, start, was, name, deps[i]);
      assert name in was && name in index.Keys;
      closure, ok := Gather(index, closure, deps[i]);
      if !ok {
        ForcedDoom(index, start, was + {deps[i]});
        return closure, false;
      }
      ForcedChain(index, start, was + {deps[i]}, closure.Keys);
    }
    ok := true;
  }

  lemma ForcedDep(index: Index, s: set<string>, c: set<string>, name: string, d: string)
    requires Forced(index, s, c) && name in s && name in index && d in DepsOf(index, name)
    ensures Forced(index, s, c + {d})
  {
    forall u | s <= u && Closed(index, u)
      ensures c + {d} <= u
    {
      assert DepsOf(index, name) <= u;
    }
  }

  lemma ForcedChain(index: Index, s: set<string>, c: set<string>, e: set<string>)
    requires Forced(index, s, c) && Forced(index, c, e)
    ensures Forced(index, s, e)
  {
  }

  lemma ForcedDoom(index: Index, s: set<string>, c: set<string>)
    requires Forced(index, s, c) && Doomed(index, c)
    ensures Doomed(index, s)
  {
  }

  function Members(names: seq<string>): set<string>
  {
    set n | n in names
  }

  // The wanted names: everything requested and the primary tool, if any.
  function Wanted(requested: seq<string>, primary: string): set<string>
  {
    Members(requested) + if primary == "" then {} else {primary}
  }

  // closure is the least closed set of known tools that holds the wanted names.
  ghost predicate IsClosure(index: Index, wanted: set<string>, closure: set<string>)
  {
    && wanted <= closure && closure <= index.Keys && Closed(index, closure)
    && Forced(index, wanted, closure)
  }

  // Adds one more wanted name to a closure.
  method GatherWanted(index: Index, before: Index, ghost wanted: set<string>, name: string)
    returns (closure: Index, ok: bool)
    requires Within(before, index) && IsClosure(index, wanted, before.Keys)
    ensures Within(closure, index)
    ensures ok ==> IsClosure(index, wanted + {name}, closure.Keys)
    ensures !ok ==> Doomed(index, wanted + {name})
  {
    closure, ok := Gather(index, before, name);
    ghost var all := wanted + {name};
    assert Forced(index, all, before.Keys + {name}) by {
      forall u | all <= u && Closed(index, u)
        ensures before.Keys + {name} <= u
      {
        assert wanted <= u;
      }
    }
    if ok {
      ForcedChain(index, all, before.Keys + {name}, closure.Keys);
    } else {
      ForcedDoom(index, all, before.Keys + {name});
    }
  }

  // Gathers every requested name in turn.
  method GatherAll(index: Index, requested: seq<string>) returns (closure: Index, unknown: Option<string>)
    ensures Within(closure, index)
    ensures unknown.None? ==> IsClosure(index, Members(requested), closure.Keys)
    ensures unknown.Some? ==> Doomed(index, Members(requested))
  {
    closure := map[];
    for i := 0 to |requested|
      invariant Within(closure, index) && IsClosure(index, Members(requested[..i]), closure.Keys)
    {
      assert Members(requested[..i + 1]) == Members(requested[..i]) + {requested[i]};
      var ok;
      closure, ok := GatherWanted(index, closure, Members(requested[..i]), requested[i]);
      if !ok {
        DoomedMore(index, Members(requested[..i + 1]), Members(requested));
        return closure, Some(requested[i]);
      }
    }
    assert requested[..|requested|] == requested;
    return closure, None;
  }

  lemma DoomedMore(index: Index, s: set<string>, t: set<string>)
    requires Doomed(index, s) && s <= t
    ensures Doomed(index, t)
  {
  }

  // ---- Build -----------------------------------------------------------------------------------

  // The index of a registry that NewRegistry accepted.
  ghost predicate Registered(index: Index)
  {
    exists tools :: Indexes(index, tools) && Sortable(tools) && KnownDeps(tools)
  }

  lemma RegisteredIsClosed(index: Index)
    requires Registered(index)
    ensures Closed(index, index.Keys)
  {
    var tools: seq<Tool> :| Indexes(index, tools) && Sortable(tools) && KnownDeps(tools);
    forall n | n in index
      ensures DepsOf(index, n) <= index.Keys
    {
      forall d | d in index[n].deps
        ensures d in index
      {
        assert index[n] in tools && d in Names(tools);
        var i :| 0 <= i < |tools| && tools[i].name == d;
        assert tools[i] in tools;
      }
    }
  }

  // Nothing is doomed in a registry but a set with an unknown name.
  lemma DoomedIffUnknown(index: Index, s: set<string>)
    requires Registered(index)
    ensures Doomed(index, s) <==> !(s <= index.Keys)
  {
    RegisteredIsClosed(index);
  }

  // The tools of the closure in any order.
  method Values(closure: Index) returns (items: seq<Tool>)
    requires forall n <- closure :: closure[n].name == n
    ensures DistinctNames(items) && Names(items) == closure.Keys
    ensures forall tool <- items :: tool.name in closure && closure[tool.name] == tool
  {
    items := [];
    var left := closure.Keys;
    while left != {}
      invariant left <= closure.Keys && Names(items) == closure.Keys - left
      invariant DistinctNames(items)
      invariant forall tool <- items :: tool.name in closure && closure[tool.name] == tool
      decreases left
    {
      var n :| n in left;
      NamesAppend(items, closure[n]);
      DistinctAppend(items, closure[n]);
      items := items + [closure[n]];
      left := left - {n};
    }
  }

  // A selection from an acyclic registry is acyclic.
  lemma SelectionSorts(index: Index, closure: Index, items: seq<Tool>)
    requires Registered(index) && Within(closure, index)
    requires DistinctNames(items) && Names(items) == closure.Keys
    requires forall tool <- items :: tool.name in closure && closure[tool.name] == tool
    ensures Sortable(items)
  {
    var tools: seq<Tool> :| Indexes(index, tools) && Sortable(tools) && KnownDeps(tools);
    forall tool | tool in items
      ensures tool in tools
    {
      assert tool == index[tool.name];
    }
    ResultNames(tools, items);
    forall p
      ensures !IsCycle(items, p)
    {
      if IsCycle(items, p) {
        forall i | 0 <= i < |p| - 1
          ensures Edge(tools, p, i)
        {
          assert Edge(items, p, i);
        }
        assert IsCycle(tools, p);
      }
    }
  }

  // Orders the selected tools.
  method Arrange(items: seq<Tool>, primary: Option<Tool>) returns (r: Selection)
    requires DistinctNames(items)
    ensures r.Selected? <==> Sortable(items)
    ensures !r.UnknownTool?
    ensures r.Selected? ==>
              var ordered := r.toolset.ordered;
              && r.toolset.primary == primary && multiset(ordered) == multiset(items)
              && DistinctNames(ordered) && Names(ordered) == Names(items)
              && DependencyOrder(items, ordered) && Greedy(items, ordered)
  {
    var order := TopologicalOrder(items);
    if order.Blocked? {
      return SelectionCycle(order.names);
    }
    SameToolsSameNames(items, order.tools);
    NamesCount(items);
    NamesCount(order.tools);
    assert |items| == |multiset(items)| == |multiset(order.tools)| == |order.tools|;
    return Selected(Toolset(primary, order.tools));
  }

  // On an accepted registry a selection fails only for unknown names; otherwise
  // it is the least dependency-closed set with the wanted tools, each after its
  // dependencies.
  method Build(index: Index, requested: seq<string>, primary: string) returns (r: Selection)
    requires Registered(index)
    ensures r.Selected? <==> Wanted(requested, primary) <= index.Keys
    ensures !r.SelectionCycle?
    ensures r.Selected? ==>
              && Proper(index, Wanted(requested, primary), r.toolset.ordered)
              && DependencyOrder(r.toolset.ordered, r.toolset.ordered)
    ensures r.Selected? ==>
              r.toolset.primary == if primary == "" then None else Some(index[primary])
  {
    var closure, unknown := GatherAll(index, requested);
    DoomedIffUnknown(index, Members(requested));
    if unknown.Some? {
      return UnknownTool(unknown.value);
    }
    var primaryTool: Option<Tool> := None;
    if primary != "" {
      if primary !in index {
        return UnknownTool(primary);
      }
      primaryTool := Some(index[primary]);
      var ok;
      DoomedIffUnknown(index, Wanted(requested, primary));
      closure, ok := GatherWanted(index, closure, Members(requested), primary);
      if !ok {
        return UnknownTool(primary);
      }
    }
    NamesInIndex(index);
    var items := Values(closure);
    SelectionSorts(index, closure, items);
    r := Arrange(items, primaryTool);
    SameToolsSameNames(items, r.toolset.ordered);
    GreedyAmongThemselves(items, r.toolset.ordered);
  }

  lemma GreedyAmongThemselves(items: seq<Tool>, order: seq<Tool>)
    requires Greedy(items, order) && Names(items) == Names(order)
    requires forall tool :: tool in items <==> tool in order
    ensures Greedy(order, order)
  {
    forall k | 0 <= k < |order|
      ensures ChosenAt(order, order, k)
    {
      assert ChosenAt(items, order, k);
    }
  }

  // What Build promises of a selection.
  ghost predicate Proper(index: Index, wanted: set<string>, ordered: seq<Tool>)
  {
    && IsClosure(index, wanted, Names(ordered))
    && (forall tool <- ordered :: tool.name in index && index[tool.name] == tool)
    && DistinctNames(ordered) && Greedy(ordered, ordered)
  }

  lemma ProperMembers(index: Index, wanted: set<string>, a: seq<Tool>, b: seq<Tool>, tool: Tool)
    requires Proper(index, wanted, a) && Proper(index, wanted, b) && tool in a
    ensures tool in b
  {
    var i :| 0 <= i < |a| && a[i] == tool;
    assert tool.name in Names(a);
    assert Names(a) <= Names(b);
    var j :| 0 <= j < |b| && b[j].name == tool.name;
    assert b[j] in b;
  }

  // The wanted names determine the selection and its order.
  lemma SelectionIsUnique(index: Index, wanted: set<string>, a: seq<Tool>, b: seq<Tool>)
    requires Proper(index, wanted, a) && Proper(index, wanted, b)
    ensures a == b
  {
    assert Names(a) == Names(b);
    forall tool: Tool
      ensures tool in a <==> tool in b
    {
      if tool in a {
        ProperMembers(index, wanted, a, b, tool);
      } else if tool in b {
        ProperMembers(index, wanted, b, a, tool);
      }
    }
    NamesCount(a);
    NamesCount(b);
    GreedyIsUnique(a, b, a, b, |a|);
    assert a[..|a|] == a && b[..|b|] == b;
  }

  lemma NamesInIndex(index: Index)
    requires Registered(index)
    ensures forall n <- index :: index[n].name == n
  {
    var tools: seq<Tool> :| Indexes(index, tools) && Sortable(tools) && KnownDeps(tools);
  }
}
