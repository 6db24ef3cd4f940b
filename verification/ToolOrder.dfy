// The deterministic topological sort of tools (internal/tools/order.go).

module ToolOrder {
  datatype Tool = Tool(name: string, deps: seq<string>)

  datatype Ordering = Ordered(tools: seq<Tool>) | Blocked(names: set<string>)

  // ---- The order of Go strings ---------------------------------------------------------

  predicate Less(a: string, b: string)
    decreases |a|
  {
    b != [] && (a == [] || a[0] < b[0] || (a[0] == b[0] && Less(a[1..], b[1..])))
  }

  lemma {:induction false} LessTransitive(a: string, b: string, c: string)
    requires Less(a, b) && Less(b, c)
    ensures Less(a, c)
    decreases |a|
  {
    if a != [] && a[0] == b[0] && b[0] == c[0] {
      LessTransitive(a[1..], b[1..], c[1..]);
    }
  }

  lemma {:induction false} LessAsymmetric(a: string, b: string)
    requires Less(a, b)
    ensures !Less(b, a)
    decreases |a|
  {
    if a != [] && a[0] == b[0] {
      LessAsymmetric(a[1..], b[1..]);
    }
  }

  lemma {:induction false} LessTotal(a: string, b: string)
    ensures a == b || Less(a, b) || Less(b, a)
    decreases |a|
  {
    if a != [] && b != [] && a[0] == b[0] {
      LessTotal(a[1..], b[1..]);
      assert a == [a[0]] + a[1..] && b == [b[0]] + b[1..];
    }
  }

  // The strings agree up to k, where the second one goes on and the first one ends or
  // has the smaller character.
  predicate SmallerAt(a: string, b: string, k: nat)
  {
    && k < |b| && k <= |a| && a[..k] == b[..k]
    && (k == |a| || a[k] < b[k])
  }

  // The order is that of a dictionary: the first difference decides, and a proper
  // prefix comes first.
  lemma {:induction false} LessIffSmallerAt(a: string, b: string)
    ensures Less(a, b) <==> exists k: nat :: SmallerAt(a, b, k)
    decreases |a|
  {
    if a == [] {
      assert b != [] ==> SmallerAt(a, b, 0);
    } else if b != [] && a[0] == b[0] {
      LessIffSmallerAt(a[1..], b[1..]);
      if k: nat :| SmallerAt(a[1..], b[1..], k) {
        assert a[..k + 1] == [a[0]] + a[1..][..k] && b[..k + 1] == [b[0]] + b[1..][..k];
        assert SmallerAt(a, b, k + 1);
      }
      if k: nat :| SmallerAt(a, b, k) {
        assert k > 0;
        assert a[1..][..k - 1] == a[..k][1..] && b[1..][..k - 1] == b[..k][1..];
        assert SmallerAt(a[1..], b[1..], k - 1);
      }
    } else if b != [] {
      assert a[0] < b[0] ==> SmallerAt(a, b, 0);
      if k: nat :| SmallerAt(a, b, k) {
        assert k > 0 ==> a[..k][0] == b[..k][0];
      }
    }
  }

  // ---- Dependencies ------------------------------------------------------------------------

  function Names(tools: seq<Tool>): set<string>
  {
    set i | 0 <= i < |tools| :: tools[i].name
  }

  predicate DistinctNames(tools: seq<Tool>)
  {
    forall i, j | 0 <= i < j < |tools| :: tools[i].name != tools[j].name
  }

  // Every dependency of the tool inside the set has been emitted.
  predicate DepsIn(tool: Tool, names: set<string>, emitted: set<string>)
  {
    forall d <- tool.deps :: d in names ==> d in emitted
  }

  predicate Ready(tool: Tool, names: set<string>, emitted: set<string>)
  {
    tool.name !in emitted && DepsIn(tool, names, emitted)
  }

  predicate Depends(tools: seq<Tool>, a: string, b: string)
  {
    b in Names(tools) && exists tool <- tools :: tool.name == a && b in tool.deps
  }

  predicate IsPath(tools: seq<Tool>, p: seq<string>)
  {
    forall i | 0 <= i < |p| - 1 :: Edge(tools, p, i)
  }

  predicate Edge(tools: seq<Tool>, p: seq<string>, i: nat)
    requires i + 1 < |p|
  {
    Depends(tools, p[i], p[i + 1])
  }

  predicate IsCycle(tools: seq<Tool>, p: seq<string>)
  {
    |p| >= 2 && p[0] == p[|p| - 1] && IsPath(tools, p)
  }

  ghost predicate Cyclic(tools: seq<Tool>)
  {
    exists p :: IsCycle(tools, p)
  }

  // ---- The order --------------------------------------------------------------------------------

  // Each tool is, in its turn, the alphabetically smallest one that is ready.
  predicate Greedy(tools: seq<Tool>, order: seq<Tool>)
  {
    forall k | 0 <= k < |order| :: ChosenAt(tools, order, k)
  }

  predicate ChosenAt(tools: seq<Tool>, order: seq<Tool>, k: nat)
    requires k < |order|
  {
    && order[k] in tools
    && Ready(order[k], Names(tools), Names(order[..k]))
    && forall tool <- tools :: Ready(tool, Names(tools), Names(order[..k])) ==>
         tool.name == order[k].name || Less(order[k].name, tool.name)
  }

  predicate DependencyOrder(tools: seq<Tool>, order: seq<Tool>)
  {
    forall k | 0 <= k < |order| :: DepsIn(order[k], Names(tools), Names(order[..k]))
  }

  // The tools not yet emitted, each waiting for another of them.
  ghost predicate Stuck(tools: seq<Tool>, blocked: set<string>)
  {
    && blocked != {} && blocked <= Names(tools)
    && forall tool {:trigger Waits(tool, blocked)} ::
         tool in tools && tool.name in blocked ==> Waits(tool, blocked)
  }

  predicate Waits(tool: Tool, blocked: set<string>)
  {
    exists d <- tool.deps :: d in blocked
  }

  // ---- Names and their number --------------------------------------------------------------------

  lemma NamesAppend(order: seq<Tool>, tool: Tool)
    ensures Names(order + [tool]) == Names(order) + {tool.name}
  {
    var more := order + [tool];
    assert forall i | 0 <= i < |order| :: more[i] == order[i];
    assert more[|order|] == tool;
    forall n | n in Names(order)
      ensures n in Names(more)
    {
      var i :| 0 <= i < |order| && order[i].name == n;
      assert more[i].name == n;
    }
  }

  lemma DistinctAppend(front: seq<Tool>, last: Tool)
    ensures DistinctNames(front + [last]) <==> DistinctNames(front) && last.name !in Names(front)
  {
    var tools := front + [last];
    assert forall i | 0 <= i < |front| :: tools[i] == front[i];
    if DistinctNames(tools) {
      assert forall i | 0 <= i < |front| :: tools[i].name != tools[|front|].name;
    }
  }

  lemma {:induction false} NamesCount(tools: seq<Tool>)
    ensures |Names(tools)| <= |tools|
    ensures |Names(tools)| == |tools| <==> DistinctNames(tools)
  {
    if tools != [] {
      var front, last := tools[..|tools| - 1], tools[|tools| - 1];
      assert tools == front + [last];
      NamesAppend(front, last);
      NamesCount(front);
      DistinctAppend(front, last);
      assert last.name in Names(front) ==> Names(tools) == Names(front);
    }
  }

  lemma SameSize(a: set<string>, b: set<string>)
    requires a <= b && |a| == |b|
    ensures a == b
  {
    if b - a != {} {
      var x :| x in b - a;
      assert a <= b - {x};
      SubsetSize(a, b - {x});
    }
  }

  lemma {:induction false} SubsetSize(a: set<string>, b: set<string>)
    requires a <= b
    ensures |a| <= |b|
  {
    if a != {} {
      var x :| x in a;
      SubsetSize(a - {x}, b - {x});
    }
  }

  // ---- topologicalOrder ------------------------------------------------------------------------------

  // A dependency in items that has not been emitted keeps the tool waiting.
  method DependenciesEmitted(item: Tool, names: set<string>, emitted: set<string>) returns (r: bool)
    ensures r == DepsIn(item, names, emitted)
  {
    for i := 0 to |item.deps|
      invariant forall j | 0 <= j < i :: item.deps[j] in names ==> item.deps[j] in emitted
    {
      if item.deps[i] in names && item.deps[i] !in emitted {
        return false;
      }
    }
    return true;
  }

  // One scan for the smallest ready name; the empty string stands for none.
  method SmallestReady(items: seq<Tool>, names: set<string>, emitted: set<string>) returns (next: string)
    ensures next != "" ==> exists tool <- items :: tool.name == next && Ready(tool, names, emitted)
    ensures "" !in Names(items) ==>
              && (next == "" <==> forall tool <- items :: !Ready(tool, names, emitted))
              && (next != "" ==> forall tool <- items :: Ready(tool, names, emitted) ==>
                                   tool.name == next || Less(next, tool.name))
  {
    next := "";
    for i := 0 to |items|
      invariant next != "" ==> exists j :: 0 <= j < i && items[j].name == next && Ready(items[j], names, emitted)
      invariant "" !in Names(items) ==>
                  && (next == "" <==> forall j | 0 <= j < i :: !Ready(items[j], names, emitted))
                  && (next != "" ==> forall j | 0 <= j < i :: Ready(items[j], names, emitted) ==>
                                       items[j].name == next || Less(next, items[j].name))
    {
      var name := items[i].name;
      assert name in Names(items);
      var ready := DependenciesEmitted(items[i], names, emitted);
      if name !in emitted && ready && (next == "" || Less(name, next)) {
        forall j | 0 <= j < i && next != "" && Less(next, items[j].name)
          ensures Less(name, items[j].name)
        {
          LessTransitive(name, next, items[j].name);
        }
        next := name;
      } else {
        LessTotal(next, name);
      }
    }
  }

  ghost predicate Sortable(items: seq<Tool>)
  {
    DistinctNames(items) && "" !in Names(items) && !Cyclic(items)
  }

  // ---- Cycles ----------------------------------------------------------------------------------

  // A tool that comes after all its dependencies is on no cycle.
  lemma {:induction false} PathGoesBack(items: seq<Tool>, order: seq<Tool>, p: seq<string>, k: nat)
    requires IsPath(items, p) && |p| >= 2 && DistinctNames(items) && DependencyOrder(items, order)
    requires (forall tool <- order :: tool in items) && Names(order) == Names(items)
    requires k < |order| && order[k].name == p[0]
    ensures p[|p| - 1] in Names(order[..k])
    decreases |p|
  {
    assert Edge(items, p, 0);
    var tool :| tool in items && tool.name == p[0] && p[1] in tool.deps;
    SameTool(items, tool, order[k]);
    assert DepsIn(order[k], Names(items), Names(order[..k]));
    if |p| > 2 {
      var j :| 0 <= j < |order[..k]| && order[..k][j].name == p[1];
      assert IsPath(items, p[1..]) by {
        forall i | 0 <= i < |p[1..]| - 1
          ensures Edge(items, p[1..], i)
        {
          assert Edge(items, p, i + 1);
        }
      }
      PathGoesBack(items, order, p[1..], j);
      var i :| 0 <= i < |order[..j]| && order[..j][i].name == p[|p| - 1];
      assert order[..k][i].name == p[|p| - 1];
    }
  }

  lemma SameTool(items: seq<Tool>, a: Tool, b: Tool)
    requires DistinctNames(items) && a in items && b in items && a.name == b.name
    ensures a == b
  {
    var i :| 0 <= i < |items| && items[i] == a;
    var j :| 0 <= j < |items| && items[j] == b;
  }

  lemma OrderedIsAcyclic(items: seq<Tool>, order: seq<Tool>)
    requires DistinctNames(items) && DistinctNames(order) && DependencyOrder(items, order)
    requires (forall tool <- order :: tool in items) && Names(order) == Names(items)
    ensures !Cyclic(items)
  {
    forall p
      ensures !IsCycle(items, p)
    {
      if IsCycle(items, p) {
        assert Edge(items, p, 0);
        assert p[0] in Names(items);
        var k :| 0 <= k < |order| && order[k].name == p[0];
        PathGoesBack(items, order, p, k);
      }
    }
  }

  lemma StuckStep(items: seq<Tool>, blocked: set<string>, x: string) returns (d: string)
    requires Stuck(items, blocked) && x in blocked
    ensures d in blocked && Depends(items, x, d)
  {
    var k :| 0 <= k < |items| && items[k].name == x;
    assert Waits(items[k], blocked);
    d :| d in items[k].deps && d in blocked;
  }

  predicate AllIn(p: seq<string>, values: set<string>)
  {
    forall i | 0 <= i < |p| :: p[i] in values
  }

  lemma ExtendPath(items: seq<Tool>, q: seq<string>, d: string)
    requires IsPath(items, q) && q != [] && Depends(items, q[|q| - 1], d)
    ensures IsPath(items, q + [d])
  {
    forall i | 0 <= i < |q|
      ensures Edge(items, q + [d], i)
    {
      assert i < |q| - 1 ==> Edge(items, q, i);
    }
  }

  // A walk of n steps inside a stuck set.
  lemma {:induction false} WalkStuck(items: seq<Tool>, blocked: set<string>, n: nat) returns (p: seq<string>)
    requires Stuck(items, blocked)
    ensures |p| == n + 1 && IsPath(items, p) && AllIn(p, blocked)
  {
    if n == 0 {
      var x :| x in blocked;
      p := [x];
    } else {
      var q := WalkStuck(items, blocked, n - 1);
      var d := StuckStep(items, blocked, q[|q| - 1]);
      ExtendPath(items, q, d);
      p := q + [d];
    }
  }

  // More places than values: two places hold the same value.
  lemma {:induction false} Pigeonhole(p: seq<string>, values: set<string>) returns (i: nat, j: nat)
    requires |p| > |values| && AllIn(p, values)
    ensures i < j < |p| && p[i] == p[j]
    decreases |p|
  {
    var front, last := p[..|p| - 1], p[|p| - 1];
    if last in front {
      i :| 0 <= i < |front| && front[i] == last;
      j := |p| - 1;
    } else {
      i, j := Pigeonhole(front, values - {last});
    }
  }

  lemma LoopIsCycle(items: seq<Tool>, p: seq<string>, i: nat, j: nat)
    requires IsPath(items, p) && i < j < |p| && p[i] == p[j]
    ensures IsCycle(items, p[i..j + 1])
  {
    var c := p[i..j + 1];
    forall k | 0 <= k < |c| - 1
      ensures Edge(items, c, k)
    {
      assert Edge(items, p, i + k);
    }
  }

  lemma StuckIsCyclic(items: seq<Tool>, blocked: set<string>)
    requires Stuck(items, blocked)
    ensures Cyclic(items)
  {
    var p := WalkStuck(items, blocked, |blocked|);
    var i, j := Pigeonhole(p, blocked);
    LoopIsCycle(items, p, i, j);
  }

  // When nothing is ready the tools left over are stuck.
  lemma NothingReadyIsStuck(items: seq<Tool>, emitted: set<string>)
    requires forall tool <- items :: !Ready(tool, Names(items), emitted)
    requires Names(items) - emitted != {}
    ensures Stuck(items, Names(items) - emitted)
  {
    var blocked := Names(items) - emitted;
    forall tool | tool in items && tool.name in blocked
      ensures Waits(tool, blocked)
    {
      assert !DepsIn(tool, Names(items), emitted);
    }
  }

  // ---- The sort ------------------------------------------------------------------------------------

  method IndexByName(items: seq<Tool>) returns (byName: map<string, Tool>)
    ensures byName.Keys == Names(items)
    ensures forall n <- byName :: byName[n] in items && byName[n].name == n
  {
    byName := map[];
    for i := 0 to |items|
      invariant byName.Keys == Names(items[..i])
      invariant forall n <- byName :: byName[n] in items && byName[n].name == n
    {
      NamesAppend(items[..i], items[i]);
      assert items[..i + 1] == items[..i] + [items[i]];
      byName := byName[items[i].name := items[i]];
    }
    assert items[..|items|] == items;
  }

  predicate Progress(items: seq<Tool>, result: seq<Tool>)
  {
    && (forall tool <- result :: tool in items)
    && DistinctNames(result) && "" !in Names(result)
    && (DistinctNames(items) ==> DependencyOrder(items, result))
    && (DistinctNames(items) && "" !in Names(items) ==> Greedy(items, result))
  }

  lemma Emit(items: seq<Tool>, result: seq<Tool>, tool: Tool, ready: Tool)
    requires Progress(items, result) && tool in items && ready in items && tool.name == ready.name && tool.name != ""
    requires Ready(ready, Names(items), Names(result))
    requires "" !in Names(items) ==> forall other <- items :: Ready(other, Names(items), Names(result)) ==>
               other.name == tool.name || Less(tool.name, other.name)
    ensures Progress(items, result + [tool])
  {
    var more := result + [tool];
    NamesAppend(result, tool);
    assert more[..|result|] == result;
    assert forall k | 0 <= k < |result| :: more[..k] == result[..k] && more[k] == result[k];
    forall k | 0 <= k < |result|
      ensures more[k].name != tool.name
    {
      assert result[k].name in Names(result);
    }
    if DistinctNames(items) {
      SameTool(items, tool, ready);
      if "" !in Names(items) {
        forall k | 0 <= k < |more|
          ensures ChosenAt(items, more, k)
        {
          assert k < |result| ==> ChosenAt(items, result, k);
        }
      }
    }
  }

  // Succeeds exactly on distinct, nonempty names without a dependency cycle; the
  // result is then the one greedy order of the tools.
  method TopologicalOrder(items: seq<Tool>) returns (r: Ordering)
    ensures r.Ordered? <==> Sortable(items)
    ensures r.Ordered? ==>
              && multiset(r.tools) == multiset(items)
              && DependencyOrder(items, r.tools) && Greedy(items, r.tools)
    ensures r.Blocked? && DistinctNames(items) && "" !in Names(items) ==> Stuck(items, r.names)
  {
    var byName := IndexByName(items);
    var emitted: set<string> := {};
    var result: seq<Tool> := [];
    while |result| < |items|
      invariant |result| <= |items| && emitted == Names(result) && Progress(items, result)
      decreases |items| - |result|
    {
      var next := SmallestReady(items, byName.Keys, emitted);
      if next == "" {
        StopIsBlocked(items, result);
        return Blocked(byName.Keys - emitted);
      }
      assert next in Names(items);
      ghost var ready :| ready in items && ready.name == next && Ready(ready, Names(items), emitted);
      Emit(items, result, byName[next], ready);
      NamesAppend(result, byName[next]);
      emitted := emitted + {next};
      result := result + [byName[next]];
    }
    FinishIsOrdered(items, result);
    return Ordered(result);
  }

  lemma StopIsBlocked(items: seq<Tool>, result: seq<Tool>)
    requires Progress(items, result) && |result| < |items|
    requires "" !in Names(items) ==> forall tool <- items :: !Ready(tool, Names(items), Names(result))
    ensures !Sortable(items)
    ensures DistinctNames(items) && "" !in Names(items) ==> Stuck(items, Names(items) - Names(result))
  {
    if DistinctNames(items) && "" !in Names(items) {
      NamesCount(items);
      NamesCount(result);
      assert Names(items) - Names(result) != {} by {
        if Names(items) - Names(result) == {} {
          assert forall n <- Names(items) :: n !in Names(items) - Names(result);
          SubsetSize(Names(items), Names(result));
        }
      }
      NothingReadyIsStuck(items, Names(result));
      StuckIsCyclic(items, Names(items) - Names(result));
    }
  }

  lemma ResultNames(items: seq<Tool>, result: seq<Tool>)
    requires forall tool <- result :: tool in items
    ensures Names(result) <= Names(items)
  {
    forall n | n in Names(result)
      ensures n in Names(items)
    {
      var i :| 0 <= i < |result| && result[i].name == n;
      assert result[i] in items;
    }
  }

  lemma FinishIsOrdered(items: seq<Tool>, result: seq<Tool>)
    requires Progress(items, result) && |result| == |items|
    ensures Sortable(items) && Greedy(items, result) && DependencyOrder(items, result)
    ensures multiset(result) == multiset(items)
  {
    ResultNames(items, result);
    NamesCount(items);
    NamesCount(result);
    SubsetSize(Names(result), Names(items));
    SameSize(Names(result), Names(items));
    OrderedIsAcyclic(items, result);
    SameElements(items, result);
  }

  lemma {:induction false} OnceEach(tools: seq<Tool>, tool: Tool)
    requires DistinctNames(tools)
    ensures multiset(tools)[tool] == if tool in tools then 1 else 0
  {
    if tools != [] {
      var front, last := tools[..|tools| - 1], tools[|tools| - 1];
      assert tools == front + [last];
      OnceEach(front, tool);
      if tool in front {
        var i :| 0 <= i < |front| && front[i] == tool;
        assert tools[i].name != last.name;
      }
    }
  }

  lemma SameElements(items: seq<Tool>, result: seq<Tool>)
    requires DistinctNames(items) && DistinctNames(result) && Names(items) == Names(result)
    requires forall tool <- result :: tool in items
    ensures multiset(result) == multiset(items)
  {
    forall tool: Tool
      ensures multiset(result)[tool] == multiset(items)[tool]
    {
      OnceEach(items, tool);
      OnceEach(result, tool);
      if tool in items {
        assert tool.name in Names(items);
        var i :| 0 <= i < |result| && result[i].name == tool.name;
        SameTool(items, tool, result[i]);
      }
    }
  }

  // ---- One result for every input order ----------------------------------------------------------

  // Two greedy orders of the same tools are the same.
  lemma {:induction false} GreedyIsUnique(a: seq<Tool>, b: seq<Tool>, order: seq<Tool>, other: seq<Tool>, k: nat)
    requires DistinctNames(a) && (forall tool :: tool in a <==> tool in b) && Names(a) == Names(b)
    requires Greedy(a, order) && Greedy(b, other) && k <= |order| && k <= |other|
    ensures order[..k] == other[..k]
  {
    if k > 0 {
      GreedyIsUnique(a, b, order, other, k - 1);
      var x, y := order[k - 1], other[k - 1];
      assert ChosenAt(a, order, k - 1) && ChosenAt(b, other, k - 1);
      if x.name != y.name {
        LessAsymmetric(x.name, y.name);
      }
      SameTool(a, x, y);
      assert order[..k] == order[..k - 1] + [x] && other[..k] == other[..k - 1] + [y];
    }
  }

  lemma SameToolsSameNames(a: seq<Tool>, b: seq<Tool>)
    requires multiset(a) == multiset(b)
    ensures (forall tool :: tool in a <==> tool in b) && Names(a) == Names(b)
  {
    forall tool: Tool
      ensures tool in a <==> tool in b
    {
      assert tool in a <==> tool in multiset(a);
      assert tool in b <==> tool in multiset(b);
    }
    ResultNames(a, b);
    ResultNames(b, a);
  }

  // The result does not depend on the order of the input.
  lemma OrderIndependent(a: seq<Tool>, b: seq<Tool>, order: seq<Tool>, other: seq<Tool>)
    requires multiset(a) == multiset(b) && DistinctNames(a)
    requires Greedy(a, order) && multiset(order) == multiset(a)
    requires Greedy(b, other) && multiset(other) == multiset(b)
    ensures order == other
  {
    SameToolsSameNames(a, b);
    assert |order| == |multiset(order)| == |multiset(other)| == |other|;
    GreedyIsUnique(a, b, order, other, |order|);
    assert order[..|order|] == order && other[..|other|] == other;
  }

  // Whether the sort succeeds does not depend on it either.
  lemma SortableIndependent(a: seq<Tool>, b: seq<Tool>)
    requires multiset(a) == multiset(b)
    ensures Sortable(a) <==> Sortable(b)
  {
    SameToolsSameNames(a, b);
    assert |a| == |multiset(a)| == |multiset(b)| == |b|;
    NamesCount(a);
    NamesCount(b);
    forall p
      ensures IsCycle(a, p) <==> IsCycle(b, p)
    {
      assert forall i | 0 <= i < |p| - 1 :: Edge(a, p, i) <==> Edge(b, p, i);
    }
  }
}
