/**
 * Directed graphs given as an adjacency map from a project to the set of
 * projects it depends on, and what "reachable" and "cycle" mean for them.
 * These are the reference definitions the traversal methods of
 * `Graph.DependencyGraph` are proved against.
 */
module Digraph {

  type Edges = map<string, set<string>>

  /** `edges.get(p, set())`: the direct dependencies of `p`. */
  function Deps(edges: Edges, p: string): (r: set<string>)
    ensures forall q :: q in r <==> p in edges && q in edges[p]
  {
    if p in edges then edges[p] else {}
  }

  /** The projects that list `p` among their dependencies. */
  ghost function Preds(edges: Edges, p: string): set<string> {
    set k | k in edges && p in edges[k]
  }

  /** Every node of `path` depends on the next one. */
  ghost predicate IsPath(edges: Edges, path: seq<string>) {
    forall i :: 0 <= i < |path| - 1 ==> path[i] in edges && path[i + 1] in edges[path[i]]
  }

  /** `b` can be reached from `a` by following one or more dependency edges. */
  ghost predicate Reaches(edges: Edges, a: string, b: string) {
    exists path :: |path| >= 2 && path[0] == a && path[|path| - 1] == b && IsPath(edges, path)
  }

  lemma ReachesStep(edges: Edges, a: string, b: string)
    requires b in Deps(edges, a)
    ensures Reaches(edges, a, b)
  {
    assert IsPath(edges, [a, b]);
  }

  /** A reachable node's dependencies are reachable too. */
  lemma ReachesExtend(edges: Edges, a: string, b: string, c: string)
    requires Reaches(edges, a, b) && c in Deps(edges, b)
    ensures Reaches(edges, a, c)
  {
    var path :| |path| >= 2 && path[0] == a && path[|path| - 1] == b && IsPath(edges, path);
    var longer := path + [c];
    assert IsPath(edges, longer) by {
      forall i | 0 <= i < |longer| - 1
        ensures longer[i] in edges && longer[i + 1] in edges[longer[i]]
      {
        if i < |path| - 1 {
          assert longer[i] == path[i] && longer[i + 1] == path[i + 1];
        }
      }
    }
  }

  /** Anything depending on a node that reaches `b` reaches `b` too. */
  lemma ReachesPrepend(edges: Edges, z: string, a: string, b: string)
    requires a in Deps(edges, z) && Reaches(edges, a, b)
    ensures Reaches(edges, z, b)
  {
    var path :| |path| >= 2 && path[0] == a && path[|path| - 1] == b && IsPath(edges, path);
    var longer := [z] + path;
    assert IsPath(edges, longer) by {
      forall i | 0 <= i < |longer| - 1
        ensures longer[i] in edges && longer[i + 1] in edges[longer[i]]
      {
        if i > 0 {
          assert longer[i] == path[i - 1] && longer[i + 1] == path[i];
        }
      }
    }
  }

  /** A set closed under dependencies that holds `a`'s dependencies holds everything `a` reaches. */
  lemma ForwardClosed(edges: Edges, s: set<string>, a: string, b: string)
    requires Deps(edges, a) <= s
    requires forall x :: x in s ==> Deps(edges, x) <= s
    requires Reaches(edges, a, b)
    ensures b in s
  {
    var path :| |path| >= 2 && path[0] == a && path[|path| - 1] == b && IsPath(edges, path);
    var i := 1;
    while i < |path| - 1
      invariant 1 <= i <= |path| - 1
      invariant path[i] in s
    {
      assert path[i + 1] in Deps(edges, path[i]);
      i := i + 1;
    }
  }

  /** A set closed under dependents that holds `b`'s dependents holds everything reaching `b`. */
  lemma BackwardClosed(edges: Edges, s: set<string>, a: string, b: string)
    requires Preds(edges, b) <= s
    requires forall x :: x in s ==> Preds(edges, x) <= s
    requires Reaches(edges, a, b)
    ensures a in s
  {
    var path :| |path| >= 2 && path[0] == a && path[|path| - 1] == b && IsPath(edges, path);
    var i := |path| - 2;
    while i > 0
      invariant 0 <= i <= |path| - 2
      invariant path[i] in s
    {
      assert path[i] in edges[path[i - 1]];
      assert path[i - 1] in Preds(edges, path[i]);
      i := i - 1;
    }
    assert path[0] in Preds(edges, path[1]);
  }

  // ---------------------------------------------------------------------
  // Cycles among a set of known nodes
  // ---------------------------------------------------------------------

  /** A closed walk of at least one edge that stays inside `nodes`. */
  ghost predicate IsCycleIn(edges: Edges, nodes: set<string>, path: seq<string>) {
    |path| >= 2 && path[0] == path[|path| - 1]
    && (forall i :: 0 <= i < |path| ==> path[i] in nodes)
    && IsPath(edges, path)
  }

  ghost predicate HasCycleIn(edges: Edges, nodes: set<string>) {
    exists path :: IsCycleIn(edges, nodes, path)
  }

  predicate NoSelfLoop(edges: Edges) {
    forall p :: p in edges ==> p !in edges[p]
  }

  /**
   * A numbering of the nodes that strictly decreases along every edge
   * between known nodes rules out any cycle among them.
   */
  lemma RankedIsAcyclic(edges: Edges, nodes: set<string>, rank: map<string, nat>)
    requires nodes <= rank.Keys
    requires forall a, b :: a in nodes && b in nodes && b in Deps(edges, a) ==> rank[b] < rank[a]
    ensures !HasCycleIn(edges, nodes)
  {
    if HasCycleIn(edges, nodes) {
      var path :| IsCycleIn(edges, nodes, path);
      assert path[1] in Deps(edges, path[0]);
      var i := 2;
      while i < |path|
        invariant 2 <= i <= |path|
        invariant rank[path[i - 1]] < rank[path[0]]
      {
        assert path[i] in Deps(edges, path[i - 1]);
        i := i + 1;
      }
      assert false;
    }
  }
}
