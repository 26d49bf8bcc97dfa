/**
 * `DependencyGraph`: a mutable adjacency map from a project to the set of
 * projects it depends on, and a separate set of every known project name.
 *
 * The queries are proved against the reference definitions of module
 * `Digraph`: the one-hop lookups against `Deps` and `Preds`, the two
 * breadth-first closures against `Reaches`, and the cycle search against
 * `HasCycleIn`.
 */
module Graph {
  import opened Wrappers
  import opened Digraph
  import opened Text
  import CycleSearch

  /** The JSON form `{"projects": [...], "edges": {k: [...]}}`, with its keys in order. */
  datatype GraphDict = GraphDict(projects: seq<string>, edges: seq<(string, seq<string>)>)

  /** The keys of a map `m` together with the nodes its sets mention. */
  ghost function Universe(edges: Edges): set<string> {
    edges.Keys + (set k, q | k in edges && q in edges[k] :: q)
  }

  lemma DepsInUniverse(edges: Edges, p: string, q: string)
    requires q in Deps(edges, p)
    ensures q in Universe(edges) && p in Universe(edges)
  {
    assert q in (set k, q' | k in edges && q' in edges[k] :: q');
  }

  /** `list(s)`: the elements of a set in some order, each once. */
  method ListOf(s: set<string>) returns (r: seq<string>)
    ensures Elements(r) == s
    ensures |r| == |s|
  {
    r := [];
    var rest := s;
    while rest != {}
      invariant Elements(r) + rest == s
      invariant Elements(r) !! rest
      invariant |r| + |rest| == |s|
      decreases rest
    {
      var x :| x in rest;
      AppendElements(r, x);
      r := r + [x];
      rest := rest - {x};
    }
  }

  class DependencyGraph {
    var edges: Edges
    var allProjects: set<string>

    /** `DependencyGraph(edges=..., all_projects=...)`; both default to empty. */
    constructor (edges: Edges, allProjects: set<string>)
      ensures this.edges == edges && this.allProjects == allProjects
    {
      this.edges := edges;
      this.allProjects := allProjects;
    }

    /** `add_dependency(project, depends_on)`: `project` now depends on `dependsOn`. */
    method AddDependency(project: string, dependsOn: string)
      modifies this
      ensures edges == old(edges)[project := Deps(old(edges), project) + {dependsOn}]
      ensures allProjects == old(allProjects)
      ensures dependsOn in Deps(edges, project)
      ensures forall p :: p != project ==> Deps(edges, p) == Deps(old(edges), p)
    {
      if project !in edges {
        edges := edges[project := {}];
      }
      edges := edges[project := edges[project] + {dependsOn}];
    }

    /** `get_dependencies(project)`: `edges.get(project, set())`. */
    function GetDependencies(project: string): (r: set<string>)
      reads this
      ensures forall q :: q in r <==> project in edges && q in edges[project]
    {
      Deps(edges, project)
    }

    /** `get_dependents(project)`: the projects whose dependency set holds `project`. */
    method GetDependents(project: string) returns (r: set<string>)
      ensures r == Preds(edges, project)
    {
      r := {};
      var todo := edges.Keys;
      while todo != {}
        invariant todo <= edges.Keys
        invariant r == Preds(edges, project) - todo
        decreases todo
      {
        var k :| k in todo;
        if project in edges[k] {
          r := r + {k};
        }
        todo := todo - {k};
      }
    }

    /**
     * `get_all_dependents(project)`: breadth-first search backwards along
     * the edges; the result is every project with a path of one or more
     * edges to `project`, so `project` itself only when it lies on a cycle.
     */
    method GetAllDependents(project: string) returns (visited: set<string>)
      ensures forall q :: q in visited <==> Reaches(edges, q, project)
    {
      visited := {};
      var queue := [project];
      ghost var processed: set<string> := {};
      while queue != []
        invariant BackwardSearch(edges, project, visited, queue, processed)
        decreases |edges.Keys - visited|, |queue|
      {
        var current := queue[0];
        var added := DependentsStep(current, visited);
        BackwardStep(edges, project, visited, queue, processed, added);
        if added != [] {
          assert added[0] in Elements(added);
          SubsetSmaller(edges.Keys - (visited + Elements(added)), edges.Keys - visited, added[0]);
        }
        visited := visited + Elements(added);
        queue := queue[1..] + added;
        processed := processed + {current};
      }
      BackwardDone(edges, project, visited, processed);
    }

    /**
     * One pass of the inner loop of `get_all_dependents` for the dequeued
     * `current`: the projects depending on `current` that are not yet
     * visited, each listed once.
     */
    method DependentsStep(current: string, visited: set<string>) returns (added: seq<string>)
      ensures Elements(added) == Preds(edges, current) - visited
    {
      added := [];
      var todo := edges.Keys;
      while todo != {}
        invariant todo <= edges.Keys
        invariant Elements(added) == (Preds(edges, current) - visited) - todo
        decreases todo
      {
        var k :| k in todo;
        if current in edges[k] && k !in visited {
          AppendElements(added, k);
          added := added + [k];
        }
        todo := todo - {k};
      }
    }

    /**
     * `get_all_dependencies(project)`: breadth-first search forwards along
     * the edges; the result is every project reachable from `project` by
     * one or more edges.
     */
    method GetAllDependencies(project: string) returns (visited: set<string>)
      ensures forall q :: q in visited <==> Reaches(edges, project, q)
    {
      visited := {};
      var queue := ListOf(Deps(edges, project));
      ForwardStart(edges, project, queue);
      while queue != []
        invariant ForwardSearch(edges, project, visited, queue)
        decreases |Universe(edges) - visited|, |queue|
      {
        var current := queue[0];
        if current !in visited {
          var more := ListOf(Deps(edges, current) - (visited + {current}));
          ForwardVisit(edges, project, visited, queue, more);
          SubsetSmaller(Universe(edges) - (visited + {current}), Universe(edges) - visited, current);
          visited := visited + {current};
          queue := queue[1..] + more;
        } else {
          ForwardSkip(edges, project, visited, queue);
          queue := queue[1..];
        }
      }
      ForwardDone(edges, project, visited);
    }

    /**
     * `has_circular_dependency()`: a depth-first search from every known
     * project in turn.  It finds nothing exactly when the graph restricted
     * to the known projects has no cycle (edges to unknown projects are
     * ignored).  A cycle it returns starts and ends at the same project and
     * follows dependency edges, provided no project depends on itself and
     * no project name is empty.
     */
    method HasCircularDependency() returns (r: Option<seq<string>>)
      ensures r.None? <==> !HasCycleIn(edges, allProjects)
      ensures r.Some? && NoSelfLoop(edges) && "" !in allProjects ==> IsCycleIn(edges, allProjects, r.value)
    {
      var search := new CycleSearch.Search(edges, allProjects);
      r := search.Run();
    }

    /** `to_dict()`: the known projects sorted, and each dependency set sorted, keys in order. */
    method ToDict() returns (d: GraphDict)
      ensures StrictlySorted(d.projects) && Elements(d.projects) == allProjects
      ensures |d.edges| == |edges|
      ensures forall i, j :: 0 <= i < j < |d.edges| ==> StrLt(d.edges[i].0, d.edges[j].0)
      ensures forall k :: k in edges <==> exists i :: 0 <= i < |d.edges| && d.edges[i].0 == k
      ensures forall i :: 0 <= i < |d.edges| ==>
        d.edges[i].0 in edges && StrictlySorted(d.edges[i].1) && Elements(d.edges[i].1) == edges[d.edges[i].0]
    {
      var projects := SortStrings(allProjects);
      var keys := SortStrings(edges.Keys);
      var rows: seq<(string, seq<string>)> := [];
      for n := 0 to |keys|
        invariant |rows| == n
        invariant forall i :: 0 <= i < n ==> rows[i].0 == keys[i]
        invariant forall i :: 0 <= i < n ==>
          rows[i].0 in edges && StrictlySorted(rows[i].1) && Elements(rows[i].1) == edges[rows[i].0]
      {
        assert keys[n] in Elements(keys);
        var values := SortStrings(edges[keys[n]]);
        rows := rows + [(keys[n], values)];
      }
      d := GraphDict(projects, rows);
      forall k | k in edges ensures exists i :: 0 <= i < |d.edges| && d.edges[i].0 == k {
        assert k in Elements(keys);
        var i :| 0 <= i < |keys| && keys[i] == k;
        assert d.edges[i].0 == k;
      }
    }
  }

  /**
   * The state of the backward search: everything visited reaches `project`
   * and is a key of the map; the queue holds `project` or visited
   * projects; every processed project has all its dependents visited; and
   * every visited project, and `project` itself, is processed or queued.
   */
  ghost predicate BackwardSearch(edges: Edges, project: string, visited: set<string>, queue: seq<string>,
                                 processed: set<string>) {
    && visited <= edges.Keys
    && (forall q :: q in visited ==> Reaches(edges, q, project))
    && Elements(queue) <= visited + {project}
    && (forall x :: x in processed ==> Preds(edges, x) <= visited)
    && visited <= processed + Elements(queue)
    && project in processed + Elements(queue)
  }

  lemma BackwardStep(edges: Edges, project: string, visited: set<string>, queue: seq<string>,
                     processed: set<string>, added: seq<string>)
    requires BackwardSearch(edges, project, visited, queue, processed) && queue != []
    requires Elements(added) == Preds(edges, queue[0]) - visited
    ensures BackwardSearch(edges, project, visited + Elements(added), queue[1..] + added, processed + {queue[0]})
  {
    var current := queue[0];
    ElementsOfTail(queue);
    AppendElementsSeq(queue[1..], added);
    assert current in visited + {project};
    forall q | q in Elements(added) ensures Reaches(edges, q, project) && q in edges {
      assert current in Deps(edges, q);
      if current == project {
        ReachesStep(edges, q, project);
      } else {
        ReachesPrepend(edges, q, current, project);
      }
    }
  }

  lemma BackwardDone(edges: Edges, project: string, visited: set<string>, processed: set<string>)
    requires BackwardSearch(edges, project, visited, [], processed)
    ensures forall q :: q in visited <==> Reaches(edges, q, project)
  {
    forall q | Reaches(edges, q, project) ensures q in visited {
      BackwardClosed(edges, visited, q, project);
    }
  }

  /**
   * The state of the forward search: everything visited or queued is
   * reachable from `project`; `project`'s dependencies and those of every
   * visited project are visited or queued.
   */
  ghost predicate ForwardSearch(edges: Edges, project: string, visited: set<string>, queue: seq<string>) {
    && (forall q :: q in visited + Elements(queue) ==> Reaches(edges, project, q) && q in Universe(edges))
    && Deps(edges, project) <= visited + Elements(queue)
    && (forall x :: x in visited ==> Deps(edges, x) <= visited + Elements(queue))
  }

  lemma ForwardStart(edges: Edges, project: string, queue: seq<string>)
    requires Elements(queue) == Deps(edges, project)
    ensures ForwardSearch(edges, project, {}, queue)
  {
    forall q | q in Elements(queue) ensures Reaches(edges, project, q) && q in Universe(edges) {
      ReachesStep(edges, project, q);
      DepsInUniverse(edges, project, q);
    }
  }

  /** Visiting the dequeued project and queueing its unvisited dependencies. */
  lemma ForwardVisit(edges: Edges, project: string, visited: set<string>, queue: seq<string>, more: seq<string>)
    requires ForwardSearch(edges, project, visited, queue) && queue != []
    requires Elements(more) == Deps(edges, queue[0]) - (visited + {queue[0]})
    ensures queue[0] in Universe(edges)
    ensures ForwardSearch(edges, project, visited + {queue[0]}, queue[1..] + more)
  {
    var current := queue[0];
    ElementsOfTail(queue);
    AppendElementsSeq(queue[1..], more);
    assert Reaches(edges, project, current);
    forall q | q in Elements(more) ensures Reaches(edges, project, q) && q in Universe(edges) {
      ReachesExtend(edges, project, current, q);
      DepsInUniverse(edges, current, q);
    }
  }

  /** Dropping a dequeued project that was already visited. */
  lemma ForwardSkip(edges: Edges, project: string, visited: set<string>, queue: seq<string>)
    requires ForwardSearch(edges, project, visited, queue) && queue != [] && queue[0] in visited
    ensures ForwardSearch(edges, project, visited, queue[1..])
  {
    ElementsOfTail(queue);
  }

  lemma ForwardDone(edges: Edges, project: string, visited: set<string>)
    requires ForwardSearch(edges, project, visited, [])
    ensures forall q :: q in visited <==> Reaches(edges, project, q)
  {
    forall q | Reaches(edges, project, q) ensures q in visited {
      ForwardClosed(edges, visited, project, q);
    }
  }

  lemma SubsetSmaller(a: set<string>, b: set<string>, x: string)
    requires a <= b && x in b && x !in a
    ensures |a| < |b|
  {
    CycleSearch.SubsetSize(a, b - {x});
  }

  lemma ElementsOfTail(s: seq<string>)
    requires s != []
    ensures Elements(s) == {s[0]} + Elements(s[1..])
  {
    assert s == [s[0]] + s[1..];
  }

  lemma AppendElementsSeq(a: seq<string>, b: seq<string>)
    ensures Elements(a + b) == Elements(a) + Elements(b)
  {
  }
}
