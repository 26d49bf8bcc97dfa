/**
 * `build_dependency_graph` and `_find_project_mentions`: the dependency
 * graph is read off the task comments.  Wherever a comment (compared in
 * lower case) holds one of the dependency keywords, the text after the
 * keyword is stripped of blanks and of leading ':', '-' and ' ', and every
 * other known project whose lower-case name occurs in it within the first
 * 80 characters becomes a dependency of the task's project.
 */
module GraphBuilder {
  import opened Text
  import opened Digraph
  import opened Portfolio
  import Graph

  /** `CROSS_PROJECT_KEYWORDS`, in their declared order. */
  const Keywords: seq<string> :=
    ["depends on", "dependent on", "blocked by", "waiting for", "waiting on", "requires", "contingent on", "prerequisite"]

  // ---------------------------------------------------------------------
  // The keyword scan skips nothing: no keyword overlaps itself
  // ---------------------------------------------------------------------

  /** Some position at or after `k` tells `kw` apart from itself shifted by `d`. */
  predicate Clash(kw: string, d: nat, k: nat)
    requires 0 < d <= k
    decreases |kw| - k
  {
    k < |kw| && (kw[k] != kw[k - d] || Clash(kw, d, k + 1))
  }

  /** No shift of `kw` by `d` or more (and less than its length) matches it. */
  predicate NoOverlapFrom(kw: string, d: nat)
    requires 0 < d
    decreases |kw| - d
  {
    d >= |kw| || (Clash(kw, d, d) && NoOverlapFrom(kw, d + 1))
  }

  lemma {:induction false} ClashWitness(kw: string, d: nat, k: nat) returns (m: nat)
    requires 0 < d <= k && Clash(kw, d, k)
    ensures k <= m < |kw| && kw[m] != kw[m - d]
    decreases |kw| - k
  {
    if kw[k] != kw[k - d] {
      m := k;
    } else {
      m := ClashWitness(kw, d, k + 1);
    }
  }

  lemma {:induction false} NoOverlapAt(kw: string, d: nat, e: nat)
    requires 0 < d <= e < |kw| && NoOverlapFrom(kw, d)
    ensures Clash(kw, e, e)
    decreases e - d
  {
    if d < e {
      NoOverlapAt(kw, d + 1, e);
    }
  }

  /** Two occurrences of a non-overlapping keyword are at least its length apart. */
  lemma OccurrencesApart(s: string, kw: string, p: int, q: int)
    requires NoOverlapFrom(kw, 1)
    requires OccursAt(s, kw, p) && OccursAt(s, kw, q) && p < q
    ensures q >= p + |kw|
  {
    if q < p + |kw| {
      var d := q - p;
      NoOverlapAt(kw, 1, d);
      var m := ClashWitness(kw, d, d);
      assert false;
    }
  }

  lemma KeywordsDoNotOverlap(w: nat)
    requires w < |Keywords|
    ensures Keywords[w] != [] && NoOverlapFrom(Keywords[w], 1)
  {
    if w == 0 { assert NoOverlapFrom("depends on", 1); }
    else if w == 1 { assert NoOverlapFrom("dependent on", 1); }
    else if w == 2 { assert NoOverlapFrom("blocked by", 1); }
    else if w == 3 { assert NoOverlapFrom("waiting for", 1); }
    else if w == 4 { assert NoOverlapFrom("waiting on", 1); }
    else if w == 5 { assert NoOverlapFrom("requires", 1); }
    else if w == 6 { assert NoOverlapFrom("contingent on", 1); }
    else { assert NoOverlapFrom("prerequisite", 1); }
  }

  // ---------------------------------------------------------------------
  // What one keyword occurrence contributes
  // ---------------------------------------------------------------------

  const Leaders: set<char> := {':', '-', ' '}

  /** `comments[end:].strip().lstrip(":- ")` */
  function AfterKeyword(comments: string, end: nat): string {
    LStripChars(Strip(if end <= |comments| then comments[end..] else ""), Leaders)
  }

  /** `after_lower.find(name_lower)` hits within the first 80 characters. */
  predicate NearMention(afterLower: string, key: string) {
    var pos := Find(afterLower, key);
    pos != -1 && pos < 80
  }

  /** The other projects, among the lookup keys in `keys`, named near the start of `afterLower`. */
  ghost function NamedAmong(afterLower: string, lookup: map<string, string>, current: string,
                            keys: set<string>): set<string> {
    set k | k in keys && k in lookup && lookup[k] != current && NearMention(afterLower, k) :: lookup[k]
  }

  /** The other projects named near the start of the lower-case text `afterLower`. */
  ghost function NamesNear(afterLower: string, lookup: map<string, string>, current: string): set<string> {
    NamedAmong(afterLower, lookup, current, lookup.Keys)
  }

  lemma NamedAmongGrows(afterLower: string, lookup: map<string, string>, current: string,
                        keys: set<string>, k: string)
    requires k in lookup
    ensures NamedAmong(afterLower, lookup, current, keys + {k}) ==
      NamedAmong(afterLower, lookup, current, keys)
      + (if lookup[k] != current && NearMention(afterLower, k) then {lookup[k]} else {})
  {
  }

  /** The inner loop over `name_lookup.items()`. */
  method MatchNames(afterLower: string, lookup: map<string, string>, current: string) returns (found: set<string>)
    ensures found == NamesNear(afterLower, lookup, current)
  {
    found := {};
    var todo := lookup.Keys;
    ghost var done: set<string> := {};
    while todo != {}
      invariant todo + done == lookup.Keys
      invariant found == NamedAmong(afterLower, lookup, current, done)
      decreases todo
    {
      var k :| k in todo;
      NamedAmongGrows(afterLower, lookup, current, done, k);
      if lookup[k] != current {
        var namePos := Find(afterLower, k);
        if namePos != -1 && namePos < 80 {
          found := found + {lookup[k]};
        }
      }
      todo := todo - {k};
      done := done + {k};
    }
  }

  // ---------------------------------------------------------------------
  // Scanning the comment for one keyword
  // ---------------------------------------------------------------------

  /** The projects named in the text after a keyword of length `len` that starts at index `i`. */
  ghost function NamesAt(comments: string, lookup: map<string, string>, current: string, len: nat, i: nat): set<string> {
    NamesNear(Lower(AfterKeyword(comments, i + len)), lookup, current)
  }

  ghost function NamesAfter(comments: string, lookup: map<string, string>, current: string,
                            len: nat): nat -> set<string> {
    (i: nat) => NamesAt(comments, lookup, current, len, i)
  }

  lemma NamesAfterAt(comments: string, lookup: map<string, string>, current: string, len: nat, i: nat)
    ensures NamesAfter(comments, lookup, current, len)(i) == NamesAt(comments, lookup, current, len, i)
  {
  }

  /**
   * What the `while True` loop for `kw` collects once its search index is
   * `pos`, where `near(i)` is what an occurrence at `i` contributes:
   * nothing when `lower.find(kw, pos)` fails, otherwise what that
   * occurrence contributes and what the loop collects from just past it.
   */
  ghost function ScanFrom(lower: string, kw: string, near: nat -> set<string>, acc: set<string>, pos: nat): set<string>
    requires kw != []
    decreases |lower| - pos
  {
    var p := FindFrom(lower, kw, pos);
    if p == -1 then acc else ScanFrom(lower, kw, near, acc + near(p), p + |kw|)
  }

  /** What the scan for `kw` collects from the whole of `comments`, lower-cased as `lower`. */
  ghost function KeywordMentions(comments: string, lower: string, kw: string, lookup: map<string, string>,
                                 current: string): set<string>
    requires kw != []
  {
    ScanFrom(lower, kw, NamesAfter(comments, lookup, current, |kw|), {}, 0)
  }

  /** The body of the `while True` loop once a keyword of length `len` is found at `start`. */
  method NamesFollowing(comments: string, start: nat, len: nat, lookup: map<string, string>, current: string)
    returns (names: set<string>)
    ensures names == NamesAt(comments, lookup, current, len, start)
  {
    var after := AfterKeyword(comments, start + len);
    var afterLower := Lower(after);
    names := MatchNames(afterLower, lookup, current);
  }

  /** The `while True` loop of `_find_project_mentions` for one keyword, over the lower-case comment `lower`. */
  method ScanKeyword(comments: string, lower: string, kw: string, lookup: map<string, string>, current: string,
                     ghost near: nat -> set<string>)
    returns (found: set<string>)
    requires kw != []
    requires forall i :: near(i) == NamesAt(comments, lookup, current, |kw|, i)
    ensures found == ScanFrom(lower, kw, near, {}, 0)
  {
    found := {};
    var pos: nat := 0;
    while true
      invariant ScanFrom(lower, kw, near, found, pos) == ScanFrom(lower, kw, near, {}, 0)
      decreases |lower| - pos
    {
      var p := FindFrom(lower, kw, pos);
      if p == -1 {
        return;
      }
      var names := NamesFollowing(comments, p, |kw|, lookup, current);
      assert names == near(p);
      found := found + names;
      pos := p + |kw|;
    }
  }

  /** Everything the scan adds to `acc` follows some occurrence of the keyword at or after `pos`. */
  lemma {:induction false} ScanFromOnly(lower: string, kw: string, near: nat -> set<string>, acc: set<string>,
                                        pos: nat, n: string)
    returns (i: nat)
    requires kw != []
    requires n in ScanFrom(lower, kw, near, acc, pos) && n !in acc
    ensures pos <= i && OccursAt(lower, kw, i) && n in near(i)
    decreases |lower| - pos
  {
    i := FindFrom(lower, kw, pos);
    if n !in near(i) {
      i := ScanFromOnly(lower, kw, near, acc + near(i), i + |kw|, n);
    }
  }

  /** The scan only ever adds to what it has collected. */
  lemma {:induction false} ScanFromKeeps(lower: string, kw: string, near: nat -> set<string>, acc: set<string>,
                                         pos: nat)
    requires kw != []
    ensures acc <= ScanFrom(lower, kw, near, acc, pos)
    decreases |lower| - pos
  {
    var p := FindFrom(lower, kw, pos);
    if p != -1 {
      ScanFromKeeps(lower, kw, near, acc + near(p), p + |kw|);
    }
  }

  /**
   * The scan skips no occurrence: since no keyword overlaps itself, jumping
   * past an occurrence cannot jump over another one.
   */
  lemma {:induction false} ScanFromAll(lower: string, kw: string, near: nat -> set<string>, acc: set<string>,
                                       pos: nat, n: string, i: nat)
    requires kw != [] && NoOverlapFrom(kw, 1)
    requires pos <= i && OccursAt(lower, kw, i) && n in near(i)
    ensures n in ScanFrom(lower, kw, near, acc, pos)
    decreases |lower| - pos
  {
    var p := FindFrom(lower, kw, pos);
    FindFromFirst(lower, kw, pos);
    if p == i {
      ScanFromKeeps(lower, kw, near, acc + near(p), p + |kw|);
    } else {
      OccurrencesApart(lower, kw, p, i);
      ScanFromAll(lower, kw, near, acc + near(p), p + |kw|, n, i);
    }
  }

  // ---------------------------------------------------------------------
  // All keywords
  // ---------------------------------------------------------------------

  /** Every keyword is non-empty, so every scan moves forward. */
  ghost predicate NonEmpty(kws: seq<string>) {
    forall w :: 0 <= w < |kws| ==> kws[w] != []
  }

  /** The mentions after the keywords `kws`, taken in order, in `comments`, given its lower-case form `lower`. */
  ghost function MentionsIn(comments: string, lower: string, kws: seq<string>, lookup: map<string, string>,
                            current: string): set<string>
    requires NonEmpty(kws)
    decreases |kws|
  {
    if kws == [] then {}
    else
      MentionsIn(comments, lower, kws[..|kws| - 1], lookup, current)
      + KeywordMentions(comments, lower, kws[|kws| - 1], lookup, current)
  }

  lemma KeywordsNonEmpty()
    ensures NonEmpty(Keywords)
  {
    forall w | 0 <= w < |Keywords| ensures Keywords[w] != [] {
      KeywordsDoNotOverlap(w);
    }
  }

  /** What `_find_project_mentions` returns for `comments`. */
  ghost function Mentions(comments: string, lookup: map<string, string>, current: string): set<string> {
    KeywordsNonEmpty();
    MentionsIn(comments, Lower(comments), Keywords, lookup, current)
  }

  /** The `for keyword in CROSS_PROJECT_KEYWORDS` loop, over the keywords `kws`. */
  method ScanKeywords(comments: string, lower: string, kws: seq<string>, lookup: map<string, string>, current: string)
    returns (mentioned: set<string>)
    requires NonEmpty(kws)
    ensures mentioned == MentionsIn(comments, lower, kws, lookup, current)
  {
    mentioned := {};
    for w := 0 to |kws|
      invariant mentioned == MentionsIn(comments, lower, kws[..w], lookup, current)
    {
      ghost var near := NamesAfter(comments, lookup, current, |kws[w]|);
      forall i ensures near(i) == NamesAt(comments, lookup, current, |kws[w]|, i) {
        NamesAfterAt(comments, lookup, current, |kws[w]|, i);
      }
      var found := ScanKeyword(comments, lower, kws[w], lookup, current, near);
      assert kws[..w + 1][..w] == kws[..w];
      mentioned := mentioned + found;
    }
    assert kws[..|kws|] == kws;
  }

  /** `_find_project_mentions(comments, name_lookup, current_project)` */
  method FindProjectMentions(comments: string, lookup: map<string, string>, current: string)
    returns (mentioned: set<string>)
    ensures mentioned == Mentions(comments, lookup, current)
  {
    var lower := Lower(comments);
    KeywordsNonEmpty();
    mentioned := ScanKeywords(comments, lower, Keywords, lookup, current);
  }

  /** The projects named after one keyword occurrence are other projects of the lookup. */
  lemma NamesAtAreOthers(comments: string, lookup: map<string, string>, current: string, len: nat, i: nat, n: string)
    requires n in NamesAt(comments, lookup, current, len, i)
    ensures n != current && n in lookup.Values
  {
    var afterLower := Lower(AfterKeyword(comments, i + len));
    var k :| k in lookup && lookup[k] != current && NearMention(afterLower, k) && lookup[k] == n;
  }

  lemma {:induction false} MentionedInOnly(comments: string, lower: string, kws: seq<string>,
                                           lookup: map<string, string>, current: string, n: string)
    requires NonEmpty(kws)
    requires n in MentionsIn(comments, lower, kws, lookup, current)
    ensures exists w, i :: 0 <= w < |kws| && OccursAt(lower, kws[w], i)
                           && n in NamesAt(comments, lookup, current, |kws[w]|, i)
    decreases |kws|
  {
    var last := |kws| - 1;
    if n in KeywordMentions(comments, lower, kws[last], lookup, current) {
      var i := ScanFromOnly(lower, kws[last], NamesAfter(comments, lookup, current, |kws[last]|), {}, 0, n);
      NamesAfterAt(comments, lookup, current, |kws[last]|, i);
    } else {
      var init := kws[..last];
      MentionedInOnly(comments, lower, init, lookup, current, n);
      var w, i :| 0 <= w < |init| && OccursAt(lower, init[w], i)
                  && n in NamesAt(comments, lookup, current, |init[w]|, i);
      assert init[w] == kws[w];
    }
  }

  lemma {:induction false} MentionedInAll(comments: string, lower: string, kws: seq<string>,
                                          lookup: map<string, string>, current: string, n: string, w: nat, i: nat)
    requires NonEmpty(kws)
    requires w < |kws| && NoOverlapFrom(kws[w], 1) && OccursAt(lower, kws[w], i)
    requires n in NamesAt(comments, lookup, current, |kws[w]|, i)
    ensures n in MentionsIn(comments, lower, kws, lookup, current)
    decreases |kws|
  {
    var last := |kws| - 1;
    if w == last {
      NamesAfterAt(comments, lookup, current, |kws[w]|, i);
      ScanFromAll(lower, kws[w], NamesAfter(comments, lookup, current, |kws[w]|), {}, 0, n, i);
    } else {
      var init := kws[..last];
      assert init[w] == kws[w];
      MentionedInAll(comments, lower, init, lookup, current, n, w, i);
    }
  }

  /**
   * A project is mentioned exactly when some keyword occurs in the
   * lower-case comment and the text after that occurrence names the
   * project (case-insensitively, within 80 characters).
   */
  lemma MentionedIff(comments: string, lookup: map<string, string>, current: string, n: string)
    ensures n in Mentions(comments, lookup, current) <==>
      exists w, i :: 0 <= w < |Keywords| && OccursAt(Lower(comments), Keywords[w], i)
                     && n in NamesAt(comments, lookup, current, |Keywords[w]|, i)
  {
    var lower := Lower(comments);
    KeywordsNonEmpty();
    if n in Mentions(comments, lookup, current) {
      MentionedInOnly(comments, lower, Keywords, lookup, current, n);
    }
    if exists w, i :: 0 <= w < |Keywords| && OccursAt(lower, Keywords[w], i)
                      && n in NamesAt(comments, lookup, current, |Keywords[w]|, i) {
      var w, i :| 0 <= w < |Keywords| && OccursAt(lower, Keywords[w], i)
                  && n in NamesAt(comments, lookup, current, |Keywords[w]|, i);
      KeywordsDoNotOverlap(w);
      MentionedInAll(comments, lower, Keywords, lookup, current, n, w, i);
    }
  }

  /** A task's own project is never among its mentions, and every mention is a known project. */
  lemma MentionsAreOthers(comments: string, lookup: map<string, string>, current: string, n: string)
    requires n in Mentions(comments, lookup, current)
    ensures n != current && n in lookup.Values
  {
    KeywordsNonEmpty();
    MentionedInOnly(comments, Lower(comments), Keywords, lookup, current, n);
    var w, i :| 0 <= w < |Keywords| && OccursAt(Lower(comments), Keywords[w], i)
                && n in NamesAt(comments, lookup, current, |Keywords[w]|, i);
    NamesAtAreOthers(comments, lookup, current, |Keywords[w]|, i, n);
  }

  // ---------------------------------------------------------------------
  // Building the graph
  // ---------------------------------------------------------------------

  /** `{name.lower(): name for name in project_names}`; of names equal up to case, a later one wins. */
  method BuildNameLookup(names: set<string>) returns (lookup: map<string, string>)
    ensures lookup.Keys == set n | n in names :: Lower(n)
    ensures forall k :: k in lookup ==> lookup[k] in names && Lower(lookup[k]) == k
  {
    lookup := map[];
    var todo := names;
    ghost var done: set<string> := {};
    while todo != {}
      invariant todo + done == names && todo !! done
      invariant lookup.Keys == set n | n in done :: Lower(n)
      invariant forall k :: k in lookup ==> lookup[k] in done && Lower(lookup[k]) == k
      decreases todo
    {
      var n :| n in todo;
      lookup := lookup[Lower(n) := n];
      todo := todo - {n};
      done := done + {n};
    }
  }

  /** Names that differ other than in case each get their own lookup entry. */
  lemma LookupFindsEachName(names: set<string>, lookup: map<string, string>, n: string)
    requires lookup.Keys == set m | m in names :: Lower(m)
    requires forall k :: k in lookup ==> lookup[k] in names && Lower(lookup[k]) == k
    requires forall a, b :: a in names && b in names && Lower(a) == Lower(b) ==> a == b
    requires n in names
    ensures Lower(n) in lookup && lookup[Lower(n)] == n
  {
    assert Lower(n) in (set m | m in names :: Lower(m));
  }

  function Names(projects: seq<Project>): set<string> {
    set p | p in projects :: p.name
  }

  /** The dependencies the comments of `tasks` give their project `name`. */
  ghost function TaskDeps(tasks: seq<Task>, lookup: map<string, string>, name: string): set<string> {
    if tasks == [] then {}
    else
      var t := tasks[|tasks| - 1];
      TaskDeps(tasks[..|tasks| - 1], lookup, name) + TaskMentions(t, lookup, name)
  }

  /** The dependencies the task comments of `projects` give the project called `name`. */
  ghost function ProjectDeps(projects: seq<Project>, lookup: map<string, string>, name: string): set<string> {
    if projects == [] then {}
    else
      var p := projects[|projects| - 1];
      ProjectDeps(projects[..|projects| - 1], lookup, name)
      + (if p.name == name then TaskDeps(p.tasks, lookup, name) else {})
  }

  /** The adjacency map after `name` gains the dependencies `deps` (no entry is created for none). */
  function Extend(edges: Edges, name: string, deps: set<string>): Edges {
    if deps == {} then edges else edges[name := Deps(edges, name) + deps]
  }

  /** Extending adds `deps` to `name`'s dependencies and changes nothing else. */
  lemma ExtendDeps(edges: Edges, name: string, deps: set<string>, p: string)
    ensures Deps(Extend(edges, name, deps), p) == Deps(edges, p) + (if p == name then deps else {})
    ensures p in Extend(edges, name, deps) <==> p in edges || (p == name && deps != {})
  {
  }

  lemma ExtendTwice(edges: Edges, name: string, a: set<string>, b: set<string>)
    ensures Extend(Extend(edges, name, a), name, b) == Extend(edges, name, a + b)
  {
    if a == {} {
      assert a + b == b;
    } else if b == {} {
      assert a + b == a;
    } else {
      assert Deps(Extend(edges, name, a), name) + b == Deps(edges, name) + (a + b);
      assert a + b != {};
    }
  }

  /** `for dep_name in mentioned: graph.add_dependency(name, dep_name)` */
  method AddAll(graph: Graph.DependencyGraph, name: string, deps: set<string>)
    modifies graph
    ensures graph.allProjects == old(graph.allProjects)
    ensures graph.edges == Extend(old(graph.edges), name, deps)
  {
    var todo := deps;
    while todo != {}
      invariant graph.allProjects == old(graph.allProjects)
      invariant todo <= deps
      invariant graph.edges == Extend(old(graph.edges), name, deps - todo)
      decreases todo
    {
      var d :| d in todo;
      ghost var e := graph.edges;
      graph.AddDependency(name, d);
      assert graph.edges == Extend(e, name, {d});
      ExtendTwice(old(graph.edges), name, deps - todo, {d});
      assert deps - todo + {d} == deps - (todo - {d});
      todo := todo - {d};
    }
    assert deps - todo == deps;
  }

  /** What one task adds to its project's dependencies. */
  ghost function TaskMentions(task: Task, lookup: map<string, string>, name: string): set<string> {
    if |task.comments| == 0 then {} else Mentions(task.comments, lookup, name)
  }

  /** The loop body over one task. */
  method AddTask(graph: Graph.DependencyGraph, task: Task, name: string, lookup: map<string, string>)
    modifies graph
    ensures graph.allProjects == old(graph.allProjects)
    ensures graph.edges == Extend(old(graph.edges), name, TaskMentions(task, lookup, name))
  {
    if |task.comments| == 0 {
      assert TaskMentions(task, lookup, name) == {};
      return;
    }
    var mentioned := FindProjectMentions(task.comments, lookup, name);
    assert mentioned == TaskMentions(task, lookup, name);
    AddAll(graph, name, mentioned);
  }

  /** The loop over one project's tasks. */
  method AddProject(graph: Graph.DependencyGraph, project: Project, lookup: map<string, string>)
    modifies graph
    ensures graph.allProjects == old(graph.allProjects)
    ensures graph.edges == Extend(old(graph.edges), project.name, TaskDeps(project.tasks, lookup, project.name))
  {
    var name := project.name;
    for j := 0 to |project.tasks|
      invariant graph.allProjects == old(graph.allProjects)
      invariant graph.edges == Extend(old(graph.edges), name, TaskDeps(project.tasks[..j], lookup, name))
    {
      assert project.tasks[..j + 1][..j] == project.tasks[..j];
      ExtendTwice(old(graph.edges), name, TaskDeps(project.tasks[..j], lookup, name),
                  TaskMentions(project.tasks[j], lookup, name));
      AddTask(graph, project.tasks[j], name, lookup);
    }
    assert project.tasks[..|project.tasks|] == project.tasks;
  }

  /** The adjacency map built from `projects`, project by project. */
  ghost function BuiltEdges(projects: seq<Project>, lookup: map<string, string>): Edges {
    if projects == [] then map[]
    else
      var p := projects[|projects| - 1];
      Extend(BuiltEdges(projects[..|projects| - 1], lookup), p.name, TaskDeps(p.tasks, lookup, p.name))
  }

  /**
   * `build_dependency_graph(projects)`: the known projects are the input
   * names, and each project depends on what its tasks' comments mention.
   */
  method BuildDependencyGraph(projects: seq<Project>) returns (graph: Graph.DependencyGraph, ghost lookup: map<string, string>)
    ensures fresh(graph)
    ensures graph.allProjects == Names(projects)
    ensures lookup.Keys == set n | n in Names(projects) :: Lower(n)
    ensures forall k :: k in lookup ==> lookup[k] in Names(projects) && Lower(lookup[k]) == k
    ensures graph.edges == BuiltEdges(projects, lookup)
  {
    graph := new Graph.DependencyGraph(map[], {});
    var names := Names(projects);
    graph.allProjects := names;
    var nameLookup := BuildNameLookup(names);
    lookup := nameLookup;
    for i := 0 to |projects|
      invariant graph.allProjects == names
      invariant graph.edges == BuiltEdges(projects[..i], lookup)
    {
      assert projects[..i + 1][..i] == projects[..i];
      AddProject(graph, projects[i], nameLookup);
    }
    assert projects[..|projects|] == projects;
  }

  /**
   * In the built graph a project's dependencies are exactly what its
   * tasks' comments mention, and a project has an entry exactly when it
   * has some dependency.
   */
  lemma {:induction false} BuiltEdgesDeps(projects: seq<Project>, lookup: map<string, string>, p: string)
    ensures Deps(BuiltEdges(projects, lookup), p) == ProjectDeps(projects, lookup, p)
    ensures p in BuiltEdges(projects, lookup) <==> ProjectDeps(projects, lookup, p) != {}
    decreases |projects|
  {
    if projects != [] {
      var last := projects[|projects| - 1];
      var init := projects[..|projects| - 1];
      BuiltEdgesDeps(init, lookup, p);
      ExtendDeps(BuiltEdges(init, lookup), last.name, TaskDeps(last.tasks, lookup, last.name), p);
    }
  }

  lemma {:induction false} TaskDepsAreMentions(tasks: seq<Task>, lookup: map<string, string>, p: string, q: string)
    requires q in TaskDeps(tasks, lookup, p)
    ensures q != p && q in lookup.Values
    decreases |tasks|
  {
    var t := tasks[|tasks| - 1];
    if q in TaskDeps(tasks[..|tasks| - 1], lookup, p) {
      TaskDepsAreMentions(tasks[..|tasks| - 1], lookup, p, q);
    } else {
      MentionsAreOthers(t.comments, lookup, p, q);
    }
  }

  lemma {:induction false} ProjectDepsAreMentions(projects: seq<Project>, lookup: map<string, string>, p: string, q: string)
    requires q in ProjectDeps(projects, lookup, p)
    ensures p in Names(projects) && q != p && q in lookup.Values
    decreases |projects|
  {
    var last := projects[|projects| - 1];
    var init := projects[..|projects| - 1];
    if q in ProjectDeps(init, lookup, p) {
      ProjectDepsAreMentions(init, lookup, p, q);
      var r :| r in init && r.name == p;
      assert r in projects;
    } else {
      assert last.name == p && last in projects;
      TaskDepsAreMentions(last.tasks, lookup, p, q);
    }
  }

  /**
   * Every edge of the built graph joins two input names, and no project
   * depends on itself.
   */
  lemma BuiltEdgesJoinNames(projects: seq<Project>, lookup: map<string, string>, p: string, q: string)
    requires forall k :: k in lookup ==> lookup[k] in Names(projects)
    requires q in Deps(BuiltEdges(projects, lookup), p)
    ensures p in Names(projects) && q in Names(projects) && q != p
  {
    BuiltEdgesDeps(projects, lookup, p);
    ProjectDepsAreMentions(projects, lookup, p, q);
  }
}
