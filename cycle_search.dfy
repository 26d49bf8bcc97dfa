/**
 * The three-colour depth-first search behind
 * `DependencyGraph.has_circular_dependency`.
 *
 * In the source the search is a nested function that updates two
 * dictionaries of the enclosing call, `colour` and `parent`; here they are
 * the mutable fields of a `Search` object, and `Visit` is the nested `dfs`.
 * The ghost fields record the proof's bookkeeping: the current DFS path
 * (`stack`, exactly the grey nodes) and a finishing time for every black
 * node, which strictly decreases along every edge out of a black node.
 */
module CycleSearch {
  import opened Wrappers
  import opened Digraph

  datatype Colour = White | Gray | Black

  /** `reversed(s)` */
  function Reverse(s: seq<string>): (r: seq<string>)
    ensures |r| == |s|
  {
    if s == [] then [] else Reverse(s[1..]) + [s[0]]
  }

  lemma {:induction false} ReverseAppend(a: seq<string>, b: seq<string>)
    ensures Reverse(a + b) == Reverse(b) + Reverse(a)
    decreases |a|
  {
    if a == [] {
      assert a + b == b;
    } else {
      assert (a + b)[1..] == a[1..] + b;
      ReverseAppend(a[1..], b);
    }
  }

  lemma {:induction false} ReverseReverse(s: seq<string>)
    ensures Reverse(Reverse(s)) == s
    decreases |s|
  {
    if s != [] {
      ReverseAppend(Reverse(s[1..]), [s[0]]);
      ReverseReverse(s[1..]);
      assert s == [s[0]] + s[1..];
    }
  }

  /** Python's truth value of `parent.get(current)`: a parent that is a non-empty name. */
  predicate Truthy(p: Option<string>) {
    p.Some? && p.value != ""
  }

  type Colours = map<string, Colour>
  type Parents = map<string, Option<string>>

  ghost predicate Distinct(s: seq<string>) {
    forall i, j :: 0 <= i < j < |s| ==> s[i] != s[j]
  }

  /** Each node of the DFS path has the previous one as parent; the first has none. */
  ghost predicate ParentChain(parent: Parents, stack: seq<string>) {
    && (forall i :: 0 < i < |stack| ==> stack[i] in parent && parent[stack[i]] == Some(stack[i - 1]))
    && (|stack| > 0 ==> stack[0] in parent && parent[stack[0]] == None)
  }

  /** The grey nodes are exactly the DFS path, a simple path of the graph linked by parent pointers. */
  ghost predicate PathOk(edges: Edges, nodes: set<string>, colour: Colours, parent: Parents, stack: seq<string>) {
    && colour.Keys == nodes
    && parent.Keys == nodes
    && (forall i :: 0 <= i < |stack| ==> stack[i] in nodes)
    && Distinct(stack)
    && (forall x :: x in nodes ==> (colour[x] == Gray <==> x in stack))
    && ParentChain(parent, stack)
    && IsPath(edges, stack)
  }

  /** Black nodes are finished: their known dependencies are black and finished earlier. */
  ghost predicate FinishedOk(edges: Edges, nodes: set<string>, colour: Colours, finish: map<string, nat>, clock: nat) {
    && colour.Keys == nodes
    && (forall x :: x in finish ==> x in nodes && colour[x] == Black)
    && (forall x :: x in nodes && colour[x] == Black ==> x in finish && finish[x] < clock)
    && (forall x, y :: x in nodes && colour[x] == Black && y in nodes && y in Deps(edges, x) ==>
          colour[y] == Black && finish[y] < finish[x])
  }

  /** White nodes (other than `except`) have no DFS parent yet. */
  ghost predicate WhiteUnparented(nodes: set<string>, colour: Colours, parent: Parents, except: set<string>)
    requires colour.Keys == nodes && parent.Keys == nodes
  {
    forall x :: x in nodes && colour[x] == White && x !in except ==> parent[x] == None
  }

  /** Every node of `nodes` that is black in `before` is still black in `after`. */
  ghost predicate BlackKept(nodes: set<string>, before: Colours, after: Colours) {
    forall x :: x in nodes && x in before && before[x] == Black ==> x in after && after[x] == Black
  }

  /** Every node of `s` that is a known node is black. */
  ghost predicate AllBlack(nodes: set<string>, s: set<string>, colour: Colours) {
    forall d :: d in s && d in nodes ==> d in colour && colour[d] == Black
  }

  lemma BlackKeptTrans(nodes: set<string>, a: Colours, b: Colours, c: Colours)
    requires BlackKept(nodes, a, b) && BlackKept(nodes, b, c)
    ensures BlackKept(nodes, a, c)
  {
  }

  lemma AllHandled(nodes: set<string>, deps: set<string>, todo: set<string>, colour: Colours)
    requires AllBlack(nodes, deps - todo, colour) && todo == {}
    ensures AllBlack(nodes, deps, colour)
  {
    assert deps - todo == deps;
  }

  /** Greying a white node keeps every black node black. */
  lemma GreyKeepsBlack(nodes: set<string>, colour: Colours, x: string)
    requires x in colour && colour[x] == White
    ensures BlackKept(nodes, colour, colour[x := Gray])
  {
  }

  lemma AllBlackGrows(nodes: set<string>, s: set<string>, a: Colours, b: Colours, dep: string)
    requires AllBlack(nodes, s, a) && BlackKept(nodes, a, b)
    requires dep in nodes ==> dep in b && b[dep] == Black
    ensures AllBlack(nodes, s + {dep}, b)
  {
  }

  /** Moving `dep` from the pending set to the handled set. */
  lemma TakeOne(all: set<string>, todo: set<string>, dep: string)
    requires dep in todo && todo <= all
    ensures all - (todo - {dep}) == (all - todo) + {dep}
  {
  }

  function Whites(colour: Colours): set<string> {
    set x | x in colour && colour[x] == White
  }

  lemma Recolour(colour: Colours, x: string, c: Colour)
    requires x in colour && c != White
    ensures Whites(colour[x := c]) == Whites(colour) - {x}
  {
  }

  lemma RecolourNonWhite(colour: Colours, x: string, c: Colour)
    requires x in colour && colour[x] != White && c != White
    ensures Whites(colour[x := c]) == Whites(colour)
  {
  }

  /** Greying a white node and pushing it keeps the path invariant. */
  lemma Enter(edges: Edges, nodes: set<string>, colour: Colours, parent: Parents, stack: seq<string>,
              finish: map<string, nat>, clock: nat, node: string)
    requires PathOk(edges, nodes, colour, parent, stack) && FinishedOk(edges, nodes, colour, finish, clock)
    requires node in nodes && colour[node] == White
    requires |stack| == 0 ==> parent[node] == None
    requires |stack| > 0 ==> parent[node] == Some(stack[|stack| - 1]) && node in Deps(edges, stack[|stack| - 1])
    ensures PathOk(edges, nodes, colour[node := Gray], parent, stack + [node])
    ensures FinishedOk(edges, nodes, colour[node := Gray], finish, clock)
  {
    EnterPath(edges, stack, node);
    EnterChain(parent, stack, node);
    EnterFinished(edges, nodes, colour, finish, clock, node);
  }

  lemma EnterPath(edges: Edges, stack: seq<string>, node: string)
    requires IsPath(edges, stack)
    requires |stack| > 0 ==> node in Deps(edges, stack[|stack| - 1])
    ensures IsPath(edges, stack + [node])
  {
    var s := stack + [node];
    forall i | 0 <= i < |s| - 1
      ensures s[i] in edges && s[i + 1] in edges[s[i]]
    {
      if i < |stack| - 1 {
        assert s[i] == stack[i] && s[i + 1] == stack[i + 1];
      }
    }
  }

  lemma EnterChain(parent: Parents, stack: seq<string>, node: string)
    requires ParentChain(parent, stack) && node in parent
    requires |stack| == 0 ==> parent[node] == None
    requires |stack| > 0 ==> parent[node] == Some(stack[|stack| - 1])
    ensures ParentChain(parent, stack + [node])
  {
    var s := stack + [node];
    forall i | 0 < i < |s| ensures s[i] in parent && parent[s[i]] == Some(s[i - 1]) {
      if i < |stack| {
        assert s[i] == stack[i] && s[i - 1] == stack[i - 1];
      }
    }
  }

  lemma EnterFinished(edges: Edges, nodes: set<string>, colour: Colours, finish: map<string, nat>, clock: nat, node: string)
    requires FinishedOk(edges, nodes, colour, finish, clock)
    requires node in nodes && colour[node] == White
    ensures FinishedOk(edges, nodes, colour[node := Gray], finish, clock)
  {
  }

  /** Recording a parent for a white node leaves the path untouched. */
  lemma Adopt(edges: Edges, nodes: set<string>, colour: Colours, parent: Parents, stack: seq<string>,
              dep: string, node: string)
    requires PathOk(edges, nodes, colour, parent, stack)
    requires dep in nodes && colour[dep] == White
    ensures PathOk(edges, nodes, colour, parent[dep := Some(node)], stack)
  {
    assert dep !in stack;
  }

  lemma AdoptUnparented(nodes: set<string>, colour: Colours, parent: Parents, dep: string, node: string)
    requires colour.Keys == nodes && parent.Keys == nodes && dep in nodes
    requires WhiteUnparented(nodes, colour, parent, {})
    ensures WhiteUnparented(nodes, colour, parent[dep := Some(node)], {dep})
  {
  }

  /** Blackening the top of the path once all its dependencies are finished. */
  lemma Leave(edges: Edges, nodes: set<string>, colour: Colours, parent: Parents, stack: seq<string>,
              finish: map<string, nat>, clock: nat, node: string)
    requires PathOk(edges, nodes, colour, parent, stack + [node]) && FinishedOk(edges, nodes, colour, finish, clock)
    requires forall y :: y in nodes && y in Deps(edges, node) ==> colour[y] == Black && finish[y] < clock
    ensures PathOk(edges, nodes, colour[node := Black], parent, stack)
    ensures FinishedOk(edges, nodes, colour[node := Black], finish[node := clock], clock + 1)
  {
    var s := stack + [node];
    assert s[|s| - 1] == node;
    LeavePrefix(edges, parent, stack, node);
    LeaveGrey(nodes, colour, stack, node);
    LeaveFinished(edges, nodes, colour, finish, clock, node);
  }

  /** Dropping the top of the DFS path leaves a linked path. */
  lemma LeavePrefix(edges: Edges, parent: Parents, stack: seq<string>, node: string)
    requires ParentChain(parent, stack + [node]) && IsPath(edges, stack + [node]) && Distinct(stack + [node])
    ensures ParentChain(parent, stack) && IsPath(edges, stack) && Distinct(stack)
  {
    var s := stack + [node];
    assert forall i :: 0 <= i < |stack| ==> stack[i] == s[i];
  }

  /** After popping `node` and blackening it, the grey nodes are the remaining path. */
  lemma LeaveGrey(nodes: set<string>, colour: Colours, stack: seq<string>, node: string)
    requires colour.Keys == nodes && node in nodes
    requires forall x :: x in nodes ==> (colour[x] == Gray <==> x in stack + [node])
    requires Distinct(stack + [node])
    ensures forall x :: x in nodes ==> (colour[node := Black][x] == Gray <==> x in stack)
  {
    var s := stack + [node];
    forall x | x in nodes
      ensures (colour[node := Black][x] == Gray <==> x in stack)
    {
      if x in stack {
        var i :| 0 <= i < |stack| && stack[i] == x;
        assert s[i] == x && s[|s| - 1] == node;
      }
      if x in s && x != node {
        var i :| 0 <= i < |s| && s[i] == x;
        assert i < |stack| && stack[i] == x;
      }
    }
  }

  lemma LeaveFinished(edges: Edges, nodes: set<string>, colour: Colours, finish: map<string, nat>, clock: nat, node: string)
    requires FinishedOk(edges, nodes, colour, finish, clock) && node in nodes && colour[node] == Gray
    requires forall y :: y in nodes && y in Deps(edges, node) ==> colour[y] == Black && finish[y] < clock
    ensures FinishedOk(edges, nodes, colour[node := Black], finish[node := clock], clock + 1)
  {
  }

  lemma {:induction false} SubsetSize(a: set<string>, b: set<string>)
    requires a <= b
    ensures |a| <= |b|
    decreases |a|
  {
    if a != {} {
      var x :| x in a;
      SubsetSize(a - {x}, b - {x});
    }
  }

  /** Once `x` has left the white set, fewer nodes are white than before. */
  lemma FewerWhites(before: Colours, after: Colours, x: string)
    requires x in before && before[x] == White
    requires Whites(after) <= Whites(before) - {x}
    ensures |Whites(after)| < |Whites(before)|
  {
    assert x in Whites(before);
    SubsetSize(Whites(after), Whites(before) - {x});
  }

  /** The DFS path from `dep` to its top, closed by the edge back to `dep`, is a cycle. */
  lemma PathCycle(edges: Edges, nodes: set<string>, stack: seq<string>, j: nat)
    requires IsPath(edges, stack) && j < |stack|
    requires forall i :: 0 <= i < |stack| ==> stack[i] in nodes
    requires stack[j] in Deps(edges, stack[|stack| - 1])
    ensures IsCycleIn(edges, nodes, stack[j..] + [stack[j]])
    ensures HasCycleIn(edges, nodes)
  {
    var loop := stack[j..] + [stack[j]];
    forall k | 0 <= k < |loop| - 1
      ensures loop[k] in edges && loop[k + 1] in edges[loop[k]]
    {
      if k < |stack| - 1 - j {
        assert loop[k] == stack[j + k] && loop[k + 1] == stack[j + k + 1];
      }
    }
  }

  /** Reversing `[dep] + reversed(path) + [dep]` gives `[dep] + path + [dep]`. */
  lemma ReverseTrail(dep: string, path: seq<string>)
    ensures Reverse([dep] + Reverse(path) + [dep]) == [dep] + path + [dep]
  {
    ReverseAppend([dep] + Reverse(path), [dep]);
    ReverseAppend([dep], Reverse(path));
    ReverseReverse(path);
  }

  /** Climbing one parent link from a path node whose parent is set and is not `dep`. */
  lemma ClimbStep(parent: Parents, stack: seq<string>, i: nat, j: nat, dep: string)
    requires ParentChain(parent, stack) && Distinct(stack)
    requires j < |stack| && stack[j] == dep && i < |stack|
    requires stack[i] in parent && Truthy(parent[stack[i]]) && parent[stack[i]].value != dep
    ensures 0 < i && parent[stack[i]].value == stack[i - 1]
    ensures j < i ==> j < i - 1
  {
  }

  /** Adding the next node down the path to the trail. */
  lemma TrailGrows(dep: string, stack: seq<string>, i: nat)
    requires 0 < i < |stack|
    ensures [dep] + Reverse(stack[i..]) + [stack[i - 1]] == [dep] + Reverse(stack[i - 1..])
  {
    assert stack[i - 1..][1..] == stack[i..];
  }

  /**
   * When the climb stops at `stack[i]` with `dep` at `stack[j]` below it, and
   * no name on the path is empty, the climb stopped right above `dep`; the
   * reversed trail is then the cycle from `dep` round to itself.
   */
  lemma ClimbEnd(edges: Edges, nodes: set<string>, parent: Parents, stack: seq<string>, i: nat, j: nat, dep: string)
    requires ParentChain(parent, stack) && IsPath(edges, stack) && Distinct(stack)
    requires forall k :: 0 <= k < |stack| ==> stack[k] in nodes
    requires "" !in nodes
    requires j < i < |stack| && stack[j] == dep && dep in Deps(edges, stack[|stack| - 1])
    requires !(stack[i] in parent && Truthy(parent[stack[i]]) && parent[stack[i]].value != dep)
    ensures IsCycleIn(edges, nodes, Reverse([dep] + Reverse(stack[i..]) + [dep]))
  {
    assert parent[stack[i]] == Some(stack[i - 1]) && stack[i - 1] in nodes;
    assert stack[i - 1] == dep;
    assert i - 1 == j;
    PathCycle(edges, nodes, stack, j);
    ReverseTrail(dep, stack[i..]);
    assert stack[j..] == [dep] + stack[i..];
  }

  /**
   * The cycle-reconstruction step of `dfs`, run when the search meets an
   * edge from `node` (the top of the DFS path) to the grey node `dep`: climb
   * the parent links from `node` until the parent is missing, empty or
   * `dep`, then close the list with `dep` and reverse it.
   */
  method TraceCycle(ghost edges: Edges, ghost nodes: set<string>, parent: Parents, ghost stack: seq<string>,
                    dep: string, node: string) returns (cycle: seq<string>)
    requires ParentChain(parent, stack) && IsPath(edges, stack) && Distinct(stack)
    requires forall i :: 0 <= i < |stack| ==> stack[i] in nodes
    requires |stack| > 0 && stack[|stack| - 1] == node
    requires dep in stack && dep in Deps(edges, node)
    ensures HasCycleIn(edges, nodes)
    ensures NoSelfLoop(edges) && "" !in nodes ==> IsCycleIn(edges, nodes, cycle)
  {
    ghost var j :| 0 <= j < |stack| && stack[j] == dep;
    PathCycle(edges, nodes, stack, j);
    ghost var simple := NoSelfLoop(edges) && "" !in nodes;
    var trail := [dep, node];
    var current := node;
    ghost var i := |stack| - 1;
    assert trail == [dep] + Reverse(stack[i..]);
    while current in parent && Truthy(parent[current]) && parent[current].value != dep
      invariant 0 <= i < |stack| && current == stack[i]
      invariant trail == [dep] + Reverse(stack[i..])
      invariant simple ==> j < i
      decreases i
    {
      ClimbStep(parent, stack, i, j, dep);
      current := parent[current].value;
      TrailGrows(dep, stack, i);
      i := i - 1;
      trail := trail + [current];
    }
    trail := trail + [dep];
    cycle := Reverse(trail);
    if simple {
      ClimbEnd(edges, nodes, parent, stack, i, j, dep);
    }
  }

  class Search {
    const edges: Edges
    const nodes: set<string>
    var colour: Colours
    var parent: Parents
    ghost var stack: seq<string>
    ghost var finish: map<string, nat>
    ghost var clock: nat

    ghost predicate Valid()
      reads this
    {
      PathOk(edges, nodes, colour, parent, stack) && FinishedOk(edges, nodes, colour, finish, clock)
    }

    function WhiteNodes(): set<string>
      reads this
    {
      Whites(colour)
    }

    /** `colour = {p: WHITE ...}` and `parent = {p: None ...}` over the known projects. */
    constructor (edges: Edges, nodes: set<string>)
      ensures this.edges == edges && this.nodes == nodes
      ensures Valid() && stack == [] && WhiteUnparented(nodes, colour, parent, {})
      ensures forall x :: x in nodes ==> colour[x] == White
    {
      this.edges := edges;
      this.nodes := nodes;
      colour := map p | p in nodes :: White;
      parent := map p | p in nodes :: None;
      stack := [];
      finish := map[];
      clock := 0;
    }

    /** `colour[node] = GRAY`, with the node pushed on the DFS path. */
    method Open(node: string)
      requires Valid() && node in nodes && colour[node] == White
      requires WhiteUnparented(nodes, colour, parent, {node})
      requires |stack| == 0 ==> parent[node] == None
      requires |stack| > 0 ==>
        parent[node] == Some(stack[|stack| - 1]) && node in Deps(edges, stack[|stack| - 1])
      modifies this
      ensures Valid() && WhiteUnparented(nodes, colour, parent, {})
      ensures colour == old(colour)[node := Gray] && stack == old(stack) + [node]
      ensures parent == old(parent) && finish == old(finish) && clock == old(clock)
      ensures WhiteNodes() == old(WhiteNodes()) - {node}
    {
      Enter(edges, nodes, colour, parent, stack, finish, clock, node);
      Recolour(colour, node, Gray);
      colour := colour[node := Gray];
      stack := stack + [node];
    }

    /** `colour[node] = BLACK` once every dependency is finished, with the node popped. */
    method Close(node: string, ghost below: seq<string>)
      requires Valid() && WhiteUnparented(nodes, colour, parent, {})
      requires stack == below + [node] && node in nodes
      requires AllBlack(nodes, Deps(edges, node), colour)
      modifies this
      ensures Valid() && WhiteUnparented(nodes, colour, parent, {})
      ensures colour == old(colour)[node := Black] && stack == below
      ensures BlackKept(nodes, old(colour), colour)
      ensures parent == old(parent) && finish == old(finish)[node := old(clock)] && clock == old(clock) + 1
      ensures node !in old(finish)
      ensures WhiteNodes() == old(WhiteNodes())
    {
      assert colour[node] == Gray;
      ghost var c0, f0, t0 := colour, finish, clock;
      RecolourNonWhite(colour, node, Black);
      colour := colour[node := Black];
      finish := finish[node := clock];
      clock := clock + 1;
      stack := below;
      Leave(edges, nodes, c0, parent, below, f0, t0, node);
    }

    /** The nested `dfs(node)`. */
    method Visit(node: string) returns (result: Option<seq<string>>)
      requires Valid() && node in nodes && colour[node] == White
      requires WhiteUnparented(nodes, colour, parent, {node})
      requires |stack| == 0 ==> parent[node] == None
      requires |stack| > 0 ==>
        parent[node] == Some(stack[|stack| - 1]) && node in Deps(edges, stack[|stack| - 1])
      modifies this
      decreases |WhiteNodes()|, 0
      ensures result.None? ==>
        && Valid() && stack == old(stack) && WhiteUnparented(nodes, colour, parent, {})
        && colour[node] == Black
        && WhiteNodes() <= old(WhiteNodes()) - {node}
        && BlackKept(nodes, old(colour), colour)
      ensures result.Some? ==> HasCycleIn(edges, nodes)
      ensures result.Some? && NoSelfLoop(edges) && "" !in nodes ==> IsCycleIn(edges, nodes, result.value)
    {
      ghost var c0 := colour;
      Open(node);
      FewerWhites(c0, colour, node);
      GreyKeepsBlack(nodes, c0, node);
      ghost var c1 := colour;
      result := Explore(node);
      if result.None? {
        ghost var c2 := colour;
        Close(node, old(stack));
        BlackKeptTrans(nodes, c0, c1, c2);
        BlackKeptTrans(nodes, c0, c2, colour);
      }
    }

    /** The loop of `dfs(node)` over the dependencies of `node`, the top of the DFS path. */
    method Explore(node: string) returns (result: Option<seq<string>>)
      requires Valid() && WhiteUnparented(nodes, colour, parent, {})
      requires |stack| > 0 && stack[|stack| - 1] == node
      modifies this
      decreases |WhiteNodes()|, 2
      ensures result.None? ==>
        && Valid() && stack == old(stack) && WhiteUnparented(nodes, colour, parent, {})
        && AllBlack(nodes, Deps(edges, node), colour)
        && WhiteNodes() <= old(WhiteNodes())
        && BlackKept(nodes, old(colour), colour)
      ensures result.Some? ==> HasCycleIn(edges, nodes)
      ensures result.Some? && NoSelfLoop(edges) && "" !in nodes ==> IsCycleIn(edges, nodes, result.value)
    {
      var deps := Deps(edges, node);
      var todo := deps;
      while todo != {}
        invariant Valid() && WhiteUnparented(nodes, colour, parent, {})
        invariant stack == old(stack)
        invariant todo <= deps
        invariant AllBlack(nodes, deps - todo, colour)
        invariant WhiteNodes() <= old(WhiteNodes())
        invariant BlackKept(nodes, old(colour), colour)
        decreases todo
      {
        var dep :| dep in todo;
        ghost var before := colour;
        ghost var done := deps - todo;
        TakeOne(deps, todo, dep);
        todo := todo - {dep};
        SubsetSize(WhiteNodes(), old(WhiteNodes()));
        result := Step(node, dep);
        if result.Some? {
          return;
        }
        BlackKeptTrans(nodes, old(colour), before, colour);
        AllBlackGrows(nodes, done, before, colour, dep);
      }
      AllHandled(nodes, deps, todo, colour);
      result := None;
    }

    /** One pass of the loop over `node`'s dependencies in `dfs(node)`. */
    method Step(node: string, dep: string) returns (result: Option<seq<string>>)
      requires Valid() && WhiteUnparented(nodes, colour, parent, {})
      requires |stack| > 0 && stack[|stack| - 1] == node && dep in Deps(edges, node)
      modifies this
      decreases |WhiteNodes()|, 1
      ensures result.None? ==>
        && Valid() && stack == old(stack) && WhiteUnparented(nodes, colour, parent, {})
        && (dep in nodes ==> colour[dep] == Black)
        && WhiteNodes() <= old(WhiteNodes())
        && BlackKept(nodes, old(colour), colour)
      ensures result.Some? ==> HasCycleIn(edges, nodes)
      ensures result.Some? && NoSelfLoop(edges) && "" !in nodes ==> IsCycleIn(edges, nodes, result.value)
    {
      if dep !in colour {
        return None;
      }
      if colour[dep] == Gray {
        var cycle := TraceCycle(edges, nodes, parent, stack, dep, node);
        return Some(cycle);
      }
      if colour[dep] == White {
        Adopt(edges, nodes, colour, parent, stack, dep, node);
        AdoptUnparented(nodes, colour, parent, dep, node);
        parent := parent[dep := Some(node)];
        result := Visit(dep);
      } else {
        result := None;
      }
    }

    /** One round of the outer loop: `dfs(project)` unless `project` is already coloured. */
    method Start(project: string) returns (result: Option<seq<string>>)
      requires Valid() && stack == [] && WhiteUnparented(nodes, colour, parent, {})
      requires project in nodes
      modifies this
      ensures result.None? ==>
        && Valid() && stack == [] && WhiteUnparented(nodes, colour, parent, {})
        && colour[project] == Black
        && BlackKept(nodes, old(colour), colour)
      ensures result.Some? ==> HasCycleIn(edges, nodes)
      ensures result.Some? && NoSelfLoop(edges) && "" !in nodes ==> IsCycleIn(edges, nodes, result.value)
    {
      if colour[project] == White {
        result := Visit(project);
      } else {
        assert project !in stack;
        result := None;
      }
    }

    /** The loop over all the projects, starting a search from each one still white. */
    method Run() returns (result: Option<seq<string>>)
      requires Valid() && stack == [] && WhiteUnparented(nodes, colour, parent, {})
      modifies this
      ensures result.None? <==> !HasCycleIn(edges, nodes)
      ensures result.Some? && NoSelfLoop(edges) && "" !in nodes ==> IsCycleIn(edges, nodes, result.value)
    {
      var todo := nodes;
      while todo != {}
        invariant Valid() && stack == [] && WhiteUnparented(nodes, colour, parent, {})
        invariant AllBlack(nodes, nodes - todo, colour)
        invariant todo <= nodes
        decreases todo
      {
        var p :| p in todo;
        ghost var before := colour;
        TakeOne(nodes, todo, p);
        result := Start(p);
        if result.Some? {
          return;
        }
        AllBlackGrows(nodes, nodes - todo, before, colour, p);
        todo := todo - {p};
      }
      AllHandled(nodes, nodes, todo, colour);
      AllBlackIsAcyclic();
      result := None;
    }

    /** Once every node is black, the finishing times rank the graph, so it has no cycle. */
    lemma AllBlackIsAcyclic()
      requires Valid()
      requires AllBlack(nodes, nodes, colour)
      ensures !HasCycleIn(edges, nodes)
    {
      RankedIsAcyclic(edges, nodes, finish);
    }
  }
}
