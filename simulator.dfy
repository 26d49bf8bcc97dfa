/**
 * The scenario simulator: resolves the target of a parsed action, takes a
 * snapshot of every project, copies it into an after-state, edits only the
 * fields the action touches, and lists the direct impact followed by the
 * cascade impacts on dependent projects.
 *
 * Dates are day numbers, money is `real`, and the rendering of numbers and
 * dates inside change descriptions is kept abstract: a change is a value
 * that carries the numbers it would print.
 */
module Simulator {
  import opened Wrappers
  import opened Text
  import opened Portfolio
  import opened Digraph
  import SP = ScenarioParser
  import Graph

  // ---------------------------------------------------------------------
  // Results
  // ---------------------------------------------------------------------

  /** Whether the after-state of a project records a runway, and which one. */
  datatype RunwayEntry = Unrecorded | Recorded(weeks: Option<int>)

  /** The per-project record of `_snapshot`, plus the `runway_weeks` key the budget simulator adds. */
  datatype Snapshot = Snapshot(
    name: string,
    status: string,
    startDate: Option<int>,
    endDate: Option<int>,
    budget: real,
    actualSpend: real,
    scopePct: real,
    taskCount: nat,
    runwayWeeks: RunwayEntry)

  type State = map<string, Snapshot>

  datatype ImpactType = Direct | Cascade

  /** One entry of an impact's `changes` dict, holding what its text reports. */
  datatype Change =
    | BudgetChange(oldBudget: real, newBudget: real)
    | RunwayChange(oldWeeks: Option<int>, newWeeks: Option<int>)
    | ScopeChange(newPct: real)
    | StartDateChange(oldStart: Option<int>, newStart: Option<int>)
    | EndDateChange(oldEnd: Option<int>, newEnd: Option<int>)
    | DaysSaved(days: int)
    | DelayWeeks(weeks: int)
    | CascadeReason(source: string)
    | DeliversEarlier(source: string, days: int)
    | DependencyBroken(source: string)
    | StatusChange(oldStatus: string)
    | BudgetFreed(amount: real)
    | RemainingBudget(amount: real)

  datatype ProjectImpact = ProjectImpact(projectName: string, impactType: ImpactType, changes: seq<Change>)

  /** The warnings the simulator emits; `WarningText` renders them. */
  datatype Warning =
    | NotFound(project: string, available: seq<string>)
    | OverBudget(newBudget: real, actualSpend: real)
    | RunwayReduced(oldWeeks: int, newWeeks: int)
    | DelayCascades(target: string, dependents: seq<string>)
    | BreaksDependencies(target: string, dependents: seq<string>)

  datatype ScenarioResult = ScenarioResult(
    action: SP.ScenarioAction,
    before: State,
    after: State,
    impacts: seq<ProjectImpact>,
    warnings: seq<Warning>)

  /**
   * What every simulation of a resolved target produces: the after-state
   * covers the same projects as the before-state, and the impacts are the
   * direct one on the target followed by cascade ones only.
   */
  predicate Shaped(res: ScenarioResult, target: string) {
    && res.after.Keys == res.before.Keys
    && |res.impacts| >= 1
    && res.impacts[0].projectName == target && res.impacts[0].impactType == Direct
    && forall i :: 1 <= i < |res.impacts| ==> res.impacts[i].impactType == Cascade
  }

  function ImpactNames(cs: seq<ProjectImpact>): (r: seq<string>)
    ensures |r| == |cs| && forall i :: 0 <= i < |cs| ==> r[i] == cs[i].projectName
  {
    seq(|cs|, i requires 0 <= i < |cs| => cs[i].projectName)
  }

  // ---------------------------------------------------------------------
  // Change text
  // ---------------------------------------------------------------------

  /**
   * How amounts and dates print: `money` is `:,.0f`, `whole` is `:.0f`,
   * `percent` is `:.0%`, and `day` is `_fmt_date` (ISO date or "N/A").
   */
  datatype Formats = Formats(
    money: real -> string,
    whole: real -> string,
    percent: real -> string,
    day: Option<int> -> string)

  const Arrow := " → "

  /** The key a change is stored under in the `changes` dict. */
  function ChangeKey(c: Change): string {
    match c
    case BudgetChange(_, _) => "budget"
    case RunwayChange(_, _) => "runway_weeks"
    case ScopeChange(_) => "scope"
    case StartDateChange(_, _) => "start_date"
    case EndDateChange(_, _) => "end_date"
    case DaysSaved(_) => "days_saved"
    case DelayWeeks(_) => "delay_weeks"
    case CascadeReason(_) => "reason"
    case DeliversEarlier(_, _) => "note"
    case DependencyBroken(_) => "note"
    case StatusChange(_) => "status"
    case BudgetFreed(_) => "budget_freed"
    case RemainingBudget(_) => "remaining_budget"
  }

  /** `f"{x}"` for an `int | None`. */
  function OptionText(w: Option<int>): string {
    if w.Some? then IntToString(w.value) else "None"
  }

  /** The value a change is stored with in the `changes` dict. */
  function ChangeText(c: Change, f: Formats): string {
    match c
    case BudgetChange(a, b) => f.money(a) + Arrow + f.money(b)
    case RunwayChange(a, b) => OptionText(a) + Arrow + OptionText(b)
    case ScopeChange(pct) => "100%" + Arrow + f.whole(pct) + "%"
    case StartDateChange(a, b) => f.day(a) + Arrow + f.day(b)
    case EndDateChange(a, b) => f.day(a) + Arrow + f.day(b)
    case DaysSaved(d) => IntToString(d)
    case DelayWeeks(w) => IntToString(w)
    case CascadeReason(t) => "Cascade delay from " + t
    case DeliversEarlier(t, d) => "Dependency on " + t + " delivers " + IntToString(d) + " days earlier."
    case DependencyBroken(t) => "Dependency on " + t + " is broken — project may need re-planning."
    case StatusChange(st) => st + Arrow + "Removed"
    case BudgetFreed(a) => f.money(a)
    case RemainingBudget(a) => f.money(a)
  }

  // ---------------------------------------------------------------------
  // Warning text
  // ---------------------------------------------------------------------

  const NotFoundMid := "' not found in portfolio. Available projects: "
  const OverBudgetMid := ") is below actual spend ("
  const OverBudgetTail := ") — project is already over budget."
  const RemoveTail := ". These projects may need re-scoping or alternative delivery paths."
  const OverBudgetWords := "over budget"

  function IntToString(n: int): string {
    if n < 0 then "-" + NatToString(-n) else NatToString(n)
  }

  /**
   * The text of a warning; `money` stands for the `:,.0f` rendering of an
   * amount, which this model does not spell out.
   */
  function WarningText(w: Warning, money: real -> string): string {
    match w
    case NotFound(p, names) => "Project '" + p + NotFoundMid + Join(names, ", ")
    case OverBudget(b, s) => "New budget (" + money(b) + OverBudgetMid + money(s) + OverBudgetTail
    case RunwayReduced(o, n) =>
      "Budget decrease reduces runway from " + IntToString(o) + " to " + IntToString(n) + " weeks."
    case DelayCascades(t, ds) =>
      "Delay on " + t + " cascades to " + IntToString(|ds|) + " dependent project"
      + (if |ds| > 1 then "s" else "") + ": " + Join(ds, ", ") + "."
    case BreaksDependencies(t, ds) => "Removing " + t + " breaks dependencies for: " + Join(ds, ", ") + RemoveTail
  }

  /** Whatever the amounts render as, the over-budget warning says "over budget" once lower-cased. */
  lemma OverBudgetSaysSo(b: real, s: real, money: real -> string)
    ensures ContainsText(Lower(WarningText(OverBudget(b, s), money)), OverBudgetWords)
  {
    var head := "New budget (" + money(b) + OverBudgetMid + money(s);
    var text := WarningText(OverBudget(b, s), money);
    assert text == head + OverBudgetTail;
    LowerAppend(head, OverBudgetTail);
    var low := Lower(text);
    var i := |head| + 23;
    assert OccursAt(low, OverBudgetWords, i) by {
      forall j | 0 <= j < |OverBudgetWords| ensures low[i + j] == OverBudgetWords[j] {
        LowerAt(OverBudgetTail, 23 + j);
      }
    }
  }

  // ---------------------------------------------------------------------
  // Project map, snapshots and resolution
  // ---------------------------------------------------------------------

  /** Some project of `ps` is called `n`. */
  predicate Named(ps: seq<Project>, n: string) {
    exists i :: 0 <= i < |ps| && ps[i].name == n
  }

  /** `{p.name: p for p in projects}`: a later project replaces an earlier one of the same name. */
  function ProjectMap(ps: seq<Project>): (m: map<string, Project>)
    ensures forall n :: n in m <==> Named(ps, n)
    ensures forall n :: n in m ==> m[n].name == n
  {
    if ps == [] then map[]
    else
      var init := ProjectMap(ps[..|ps| - 1]);
      var last := ps[|ps| - 1];
      assert forall n :: Named(ps, n) <==> Named(ps[..|ps| - 1], n) || n == last.name by {
        forall n | Named(ps, n) && n != last.name ensures Named(ps[..|ps| - 1], n) {
          var i :| 0 <= i < |ps| && ps[i].name == n;
          assert ps[..|ps| - 1][i] == ps[i];
        }
        forall n | Named(ps[..|ps| - 1], n) ensures Named(ps, n) {
          var i :| 0 <= i < |ps| - 1 && ps[..|ps| - 1][i].name == n;
          assert ps[i].name == n;
        }
        assert ps[|ps| - 1].name == last.name;
      }
      init[last.name := last]
  }

  /** The last project of a given name is the one the map keeps. */
  lemma {:induction false} LastWins(ps: seq<Project>, i: nat)
    requires i < |ps|
    requires forall j :: i < j < |ps| ==> ps[j].name != ps[i].name
    ensures ProjectMap(ps)[ps[i].name] == ps[i]
  {
    if i < |ps| - 1 {
      var init := ps[..|ps| - 1];
      assert init[i] == ps[i];
      LastWins(init, i);
    }
  }

  /** `_snapshot(project)`: scope starts at 100 and the task count is the length of the task list. */
  function SnapshotOf(p: Project): (s: Snapshot)
    ensures s.name == p.name && s.status == p.status
    ensures s.startDate == p.startDate && s.endDate == p.endDate
    ensures s.budget == p.budget && s.actualSpend == p.actualSpend
    ensures s.scopePct == 100.0 && s.taskCount == |p.tasks| && s.runwayWeeks == Unrecorded
  {
    Snapshot(p.name, p.status, p.startDate, p.endDate, p.budget, p.actualSpend, 100.0, |p.tasks|, Unrecorded)
  }

  /** `{p.name: _snapshot(p) for p in projects}` */
  function BeforeState(ps: seq<Project>): State {
    if ps == [] then map[]
    else BeforeState(ps[..|ps| - 1])[ps[|ps| - 1].name := SnapshotOf(ps[|ps| - 1])]
  }

  /** The before-state snapshots exactly the projects of the project map. */
  predicate Consistent(pmap: map<string, Project>, before: State) {
    && before.Keys == pmap.Keys
    && forall n :: n in pmap ==> before[n] == SnapshotOf(pmap[n])
  }

  lemma {:induction false} BeforeConsistent(ps: seq<Project>)
    ensures Consistent(ProjectMap(ps), BeforeState(ps))
  {
    if ps != [] {
      BeforeConsistent(ps[..|ps| - 1]);
    }
  }

  /** The first project whose name equals `name` once both are lower-cased. */
  function FirstCaseless(name: string, ps: seq<Project>): (r: Option<string>)
    ensures r.Some? ==> Named(ps, r.value) && Lower(r.value) == Lower(name)
    ensures r.None? ==> forall i :: 0 <= i < |ps| ==> Lower(ps[i].name) != Lower(name)
  {
    if ps == [] then None
    else if Lower(ps[0].name) == Lower(name) then Some(ps[0].name)
    else
      var r := FirstCaseless(name, ps[1..]);
      assert r.Some? ==> Named(ps, r.value) by {
        if r.Some? {
          var i :| 0 <= i < |ps[1..]| && ps[1..][i].name == r.value;
          assert ps[i + 1].name == r.value;
        }
      }
      assert forall i :: 1 <= i < |ps| ==> ps[i] == ps[1..][i - 1];
      r
  }

  /** `_resolve_project_name`: an exact key first, then the first key equal to it up to case. */
  function Resolve(name: string, ps: seq<Project>): Option<string> {
    if name in ProjectMap(ps) then Some(name) else FirstCaseless(name, ps)
  }

  /** Resolution finds a project whose name is `name` up to case, and finds one whenever one exists. */
  lemma ResolveFinds(name: string, ps: seq<Project>)
    ensures Resolve(name, ps).Some? ==> Resolve(name, ps).value in ProjectMap(ps)
    ensures Resolve(name, ps).Some? ==> Lower(Resolve(name, ps).value) == Lower(name)
    ensures Resolve(name, ps).None? <==> forall n :: n in ProjectMap(ps) ==> Lower(n) != Lower(name)
  {
    if Resolve(name, ps).None? {
      forall n | n in ProjectMap(ps) ensures Lower(n) != Lower(name) {
        var i :| 0 <= i < |ps| && ps[i].name == n;
      }
    }
  }

  /** When nothing matches exactly, the earliest project matching up to case wins. */
  lemma {:induction false} ResolveFirst(name: string, ps: seq<Project>, i: nat)
    requires name !in ProjectMap(ps)
    requires i < |ps| && Lower(ps[i].name) == Lower(name)
    requires forall j :: 0 <= j < i ==> Lower(ps[j].name) != Lower(name)
    ensures Resolve(name, ps) == Some(ps[i].name)
  {
    FirstAt(name, ps, i);
  }

  lemma {:induction false} FirstAt(name: string, ps: seq<Project>, i: nat)
    requires i < |ps| && Lower(ps[i].name) == Lower(name)
    requires forall j :: 0 <= j < i ==> Lower(ps[j].name) != Lower(name)
    ensures FirstCaseless(name, ps) == Some(ps[i].name)
  {
    if i > 0 {
      assert ps[1..][i - 1] == ps[i];
      FirstAt(name, ps[1..], i - 1);
    }
  }

  /** The search loop of `_resolve_project_name`, over the keys in their first-insertion order. */
  method ResolveProjectName(name: string, ps: seq<Project>) returns (r: Option<string>)
    ensures r == Resolve(name, ps)
  {
    if name in ProjectMap(ps) {
      return Some(name);
    }
    var lowered := Lower(name);
    var k := 0;
    while k < |ps|
      invariant 0 <= k <= |ps|
      invariant FirstCaseless(name, ps) == FirstCaseless(name, ps[k..])
    {
      assert ps[k..][1..] == ps[k + 1..];
      if Lower(ps[k].name) == lowered {
        return Some(ps[k].name);
      }
      k := k + 1;
    }
    return None;
  }

  // ---------------------------------------------------------------------
  // Runway
  // ---------------------------------------------------------------------

  /** Days since the start, at least one. */
  function Elapsed(start: int, refDay: int): (e: int)
    ensures e >= 1 && e >= refDay - start
  {
    if refDay - start > 1 then refDay - start else 1
  }

  /**
   * `_calc_runway_weeks_with_budget(project, budget, ref)`: whole weeks the
   * remaining budget lasts at the average daily spend so far.
   */
  function RunwayWeeks(budget: real, spend: real, start: Option<int>, refDay: int): (r: Option<int>)
    ensures r.None? <==> budget <= 0.0 || spend <= 0.0 || start.None?
    ensures r.Some? ==> r.value >= 0
    ensures r.Some? && budget <= spend ==> r.value == 0
  {
    if budget <= 0.0 || spend <= 0.0 then None
    else if start.None? then None
    else
      var dailyBurn := spend / Elapsed(start.value, refDay) as real;
      var remaining := budget - spend;
      if dailyBurn <= 0.0 || remaining <= 0.0 then Some(0)
      else
        var weeks := remaining / dailyBurn / 7.0;
        assert weeks > 0.0;
        Some(weeks.Floor)
  }

  /** `_calc_runway_weeks(project, ref)` is the same computation on the project's own budget. */
  function ProjectRunway(p: Project, refDay: int): (r: Option<int>)
    ensures r == RunwayWeeks(p.budget, p.actualSpend, p.startDate, refDay)
    ensures r.None? <==> p.budget <= 0.0 || p.actualSpend <= 0.0 || p.startDate.None?
  {
    if p.budget <= 0.0 || p.actualSpend <= 0.0 then None
    else if p.startDate.None? then None
    else
      var dailyBurn := p.actualSpend / Elapsed(p.startDate.value, refDay) as real;
      var remaining := p.budget - p.actualSpend;
      if dailyBurn <= 0.0 || remaining <= 0.0 then Some(0)
      else Some((remaining / dailyBurn / 7.0).Floor)
  }

  /** The runway is the floor of remaining budget over weekly burn: `w` weeks fit, `w + 1` do not. */
  lemma RunwayIsFloor(budget: real, spend: real, start: int, refDay: int)
    requires budget > spend > 0.0
    ensures var w := RunwayWeeks(budget, spend, Some(start), refDay).value as real;
            var e := Elapsed(start, refDay) as real;
            w * (7.0 * spend) <= (budget - spend) * e < (w + 1.0) * (7.0 * spend)
  {
    var e := Elapsed(start, refDay) as real;
    var remaining := budget - spend;
    var q := remaining / (spend / e) / 7.0;
    var w := q.Floor as real;
    assert q * (7.0 * spend) == remaining * e;
    MulMono(w, q, 7.0 * spend);
    MulStrict(q, w + 1.0, 7.0 * spend);
    assert remaining * e < (w + 1.0) * (7.0 * spend);
  }

  lemma MulMono(a: real, b: real, k: real)
    requires a <= b && k > 0.0
    ensures a * k <= b * k
  {
  }

  lemma MulStrict(a: real, b: real, k: real)
    requires a < b && k > 0.0
    ensures a * k < b * k
  {
  }

  /** More budget never shortens the runway. */
  lemma RunwayMonotone(b1: real, b2: real, spend: real, start: int, refDay: int)
    requires 0.0 < b1 <= b2 && spend > 0.0
    ensures RunwayWeeks(b1, spend, Some(start), refDay).value <= RunwayWeeks(b2, spend, Some(start), refDay).value
  {
    if b1 > spend {
      var daily := spend / Elapsed(start, refDay) as real;
      assert (b1 - spend) / daily <= (b2 - spend) / daily;
    }
  }

  // ---------------------------------------------------------------------
  // Budget change
  // ---------------------------------------------------------------------

  /** `max(0, x)` */
  function Max0(x: real): (r: real)
    ensures r >= 0.0 && r >= x && (r == 0.0 || r == x)
  {
    if x > 0.0 then x else 0.0
  }

  /** `change_amount`: the absolute amount when one was given, else that fraction of the prior budget. */
  function ChangeAmount(action: SP.ScenarioAction, prior: real): real {
    if action.amountAbsolute > 0.0 then action.amountAbsolute else prior * action.amount
  }

  /** The new budget: raised by the change, or lowered by it but never below zero. */
  function NewBudget(action: SP.ScenarioAction, prior: real): real {
    var change := ChangeAmount(action, prior);
    if action.action == SP.BudgetIncrease then prior + change else Max0(prior - change)
  }

  /** A decrease by a non-negative amount never raises the budget; an increase never lowers it. */
  lemma NewBudgetDirection(action: SP.ScenarioAction, prior: real)
    requires prior >= 0.0 && ChangeAmount(action, prior) >= 0.0
    ensures action.action == SP.BudgetIncrease ==> NewBudget(action, prior) >= prior
    ensures action.action != SP.BudgetIncrease ==> 0.0 <= NewBudget(action, prior) <= prior
  {
  }

  /** The runway warning of `_simulate_budget`, when it is due. */
  function RunwayWarning(action: SP.ScenarioAction, oldRunway: Option<int>, newRunway: Option<int>): seq<Warning> {
    if action.action == SP.BudgetDecrease && newRunway.Some? && oldRunway.Some? && newRunway.value < oldRunway.value
    then [RunwayReduced(oldRunway.value, newRunway.value)]
    else []
  }

  /**
   * What `_simulate_budget` produces for `target`: one direct impact with the old and new budget
   * and runway, the target's budget and runway updated, and the over-budget and runway warnings.
   */
  predicate BudgetOutcome(res: ScenarioResult, action: SP.ScenarioAction, target: string, pmap: map<string, Project>,
                          before: State, refDay: int) {
    && target in pmap && target in before
    && var p := pmap[target];
       var newBudget := NewBudget(action, p.budget);
       var oldRunway := ProjectRunway(p, refDay);
       var newRunway := RunwayWeeks(newBudget, p.actualSpend, p.startDate, refDay);
       && res.action == action && res.before == before
       && res.impacts == [ProjectImpact(target, Direct, [BudgetChange(p.budget, newBudget), RunwayChange(oldRunway, newRunway)])]
       && res.after == before[target := before[target].(budget := newBudget, runwayWeeks := Recorded(newRunway))]
       && res.warnings == (if newBudget < p.actualSpend then [OverBudget(newBudget, p.actualSpend)] else [])
                          + RunwayWarning(action, oldRunway, newRunway)
  }

  /** `_simulate_budget` */
  method SimulateBudget(action: SP.ScenarioAction, target: string, pmap: map<string, Project>, before: State, refDay: int)
    returns (res: ScenarioResult)
    requires target in pmap && Consistent(pmap, before)
    ensures BudgetOutcome(res, action, target, pmap, before, refDay)
    ensures Shaped(res, target)
  {
    var project := pmap[target];
    var oldBudget := project.budget;
    var change := ChangeAmount(action, oldBudget);
    var newBudget := if action.action == SP.BudgetIncrease then oldBudget + change else Max0(oldBudget - change);
    var oldRunway := ProjectRunway(project, refDay);
    var newRunway := RunwayWeeks(newBudget, project.actualSpend, project.startDate, refDay);
    var impacts := [ProjectImpact(target, Direct, [BudgetChange(oldBudget, newBudget), RunwayChange(oldRunway, newRunway)])];
    var after := before;
    after := after[target := after[target].(budget := newBudget)];
    after := after[target := after[target].(runwayWeeks := Recorded(newRunway))];
    var warnings := [];
    if newBudget < project.actualSpend {
      warnings := warnings + [OverBudget(newBudget, project.actualSpend)];
    }
    if action.action == SP.BudgetDecrease && newRunway.Some? && oldRunway.Some? {
      if newRunway.value < oldRunway.value {
        warnings := warnings + [RunwayReduced(oldRunway.value, newRunway.value)];
      }
    }
    res := ScenarioResult(action, before, after, impacts, warnings);
  }

  /** A budget change leaves every other project, and every other field of the target, as it was. */
  lemma BudgetTouchesOnlyTarget(res: ScenarioResult, target: string, newBudget: real, newRunway: Option<int>)
    requires target in res.before
    requires res.after == res.before[target := res.before[target].(budget := newBudget, runwayWeeks := Recorded(newRunway))]
    ensures res.after.Keys == res.before.Keys
    ensures forall n :: n in res.before && n != target ==> res.after[n] == res.before[n]
    ensures res.after[target].(budget := res.before[target].budget, runwayWeeks := Unrecorded) == res.before[target].(runwayWeeks := Unrecorded)
  {
  }

  /** An increase never shortens the runway, so the runway warning is only ever about a real loss. */
  lemma RunwayWarningOnlyOnLoss(action: SP.ScenarioAction, p: Project, refDay: int)
    requires p.budget > 0.0 && ChangeAmount(action, p.budget) >= 0.0
    requires action.action == SP.BudgetIncrease
    requires ProjectRunway(p, refDay).Some?
    ensures RunwayWeeks(NewBudget(action, p.budget), p.actualSpend, p.startDate, refDay).Some?
    ensures ProjectRunway(p, refDay).value <= RunwayWeeks(NewBudget(action, p.budget), p.actualSpend, p.startDate, refDay).value
  {
    RunwayMonotone(p.budget, NewBudget(action, p.budget), p.actualSpend, p.startDate.value, refDay);
  }

  // ---------------------------------------------------------------------
  // Cascade impacts
  // ---------------------------------------------------------------------

  /** One cascade impact carrying the same note for each name, in the given order. */
  method CascadeNotes(names: seq<string>, note: Change) returns (r: seq<ProjectImpact>)
    ensures ImpactNames(r) == names
    ensures forall i :: 0 <= i < |r| ==> r[i] == ProjectImpact(names[i], Cascade, [note])
  {
    r := [];
    for k := 0 to |names|
      invariant |r| == k
      invariant forall i :: 0 <= i < k ==> r[i] == ProjectImpact(names[i], Cascade, [note])
    {
      r := r + [ProjectImpact(names[k], Cascade, [note])];
    }
  }

  /** A cascade note for each project that transitively depends on `target`, in name order. */
  method ReachCascade(graph: Graph.DependencyGraph, target: string, note: Change) returns (r: seq<ProjectImpact>)
    ensures StrictlySorted(ImpactNames(r))
    ensures forall q :: q in ImpactNames(r) <==> Reaches(graph.edges, q, target)
    ensures forall i :: 0 <= i < |r| ==> r[i] == ProjectImpact(r[i].projectName, Cascade, [note])
  {
    var dependents := graph.GetAllDependents(target);
    var names := SortStrings(dependents);
    r := CascadeNotes(names, note);
  }

  // ---------------------------------------------------------------------
  // Scope cut
  // ---------------------------------------------------------------------

  /** `int(x)`: truncation toward zero. */
  function Trunc(x: real): (n: int)
    ensures x >= 0.0 ==> n as real <= x < n as real + 1.0
    ensures x < 0.0 ==> n as real - 1.0 < x <= n as real
  {
    if x >= 0.0 then x.Floor else -((-x).Floor)
  }

  /** `days_saved`: the cut share of the planned duration, when both dates are known. */
  function DaysSavedBy(p: Project, cut: real): int {
    if p.startDate.Some? && p.endDate.Some? then Trunc((p.endDate.value - p.startDate.value) as real * cut) else 0
  }

  /** `new_end`: the end date brought forward by the days saved, when both dates are known. */
  function CutEnd(p: Project, cut: real): (r: Option<int>)
    ensures r.Some? <==> p.startDate.Some? && p.endDate.Some?
    ensures r.Some? ==> r.value == p.endDate.value - DaysSavedBy(p, cut)
  {
    if p.startDate.Some? && p.endDate.Some? then Some(p.endDate.value - DaysSavedBy(p, cut)) else None
  }

  /** For a cut between 0 and 100% of a forward schedule, the new end stays between start and end. */
  lemma CutEndWithin(p: Project, cut: real)
    requires p.startDate.Some? && p.endDate.Some? && p.startDate.value <= p.endDate.value
    requires 0.0 <= cut <= 1.0
    ensures 0 <= DaysSavedBy(p, cut) <= p.endDate.value - p.startDate.value
    ensures p.startDate.value <= CutEnd(p, cut).value <= p.endDate.value
  {
    var total := (p.endDate.value - p.startDate.value) as real;
    if total > 0.0 {
      MulMono(cut, 1.0, total);
      MulMono(0.0, cut, total);
    }
  }

  /**
   * What `_simulate_scope_cut` produces for `target`: the direct impact with the new scope, end date
   * and days saved, the target's scope and (when both dates are known) end updated, a cascade note
   * for every transitive dependent in name order, and no warnings.
   */
  ghost predicate ScopeCutOutcome(res: ScenarioResult, action: SP.ScenarioAction, target: string, pmap: map<string, Project>,
                                  edges: Digraph.Edges, before: State) {
    && target in pmap && target in before
    && var p := pmap[target];
       var days := DaysSavedBy(p, action.amount);
       var newEnd := CutEnd(p, action.amount);
       && res.action == action && res.before == before && res.warnings == []
       && |res.impacts| >= 1
       && res.impacts[0] == ProjectImpact(target, Direct,
            [ScopeChange((1.0 - action.amount) * 100.0), EndDateChange(p.endDate, newEnd), DaysSaved(days)])
       && res.after == before[target := before[target].(
            scopePct := (1.0 - action.amount) * 100.0,
            endDate := if newEnd.Some? then newEnd else before[target].endDate)]
       && (forall i :: 1 <= i < |res.impacts| ==>
            res.impacts[i] == ProjectImpact(res.impacts[i].projectName, Cascade, [DeliversEarlier(target, days)]))
       && StrictlySorted(ImpactNames(res.impacts[1..]))
       && forall q :: q in ImpactNames(res.impacts[1..]) <==> Reaches(edges, q, target)
  }

  /** `_simulate_scope_cut` */
  method SimulateScopeCut(action: SP.ScenarioAction, target: string, pmap: map<string, Project>,
                          graph: Graph.DependencyGraph, before: State)
    returns (res: ScenarioResult)
    requires target in pmap && Consistent(pmap, before)
    ensures ScopeCutOutcome(res, action, target, pmap, graph.edges, before)
    ensures Shaped(res, target)
  {
    var project := pmap[target];
    var cut := action.amount;
    var newEnd := CutEnd(project, cut);
    var days := DaysSavedBy(project, cut);
    var direct := ProjectImpact(target, Direct, [ScopeChange((1.0 - cut) * 100.0), EndDateChange(project.endDate, newEnd), DaysSaved(days)]);
    var cascade := ReachCascade(graph, target, DeliversEarlier(target, days));
    var impacts := [direct] + cascade;
    assert impacts[1..] == cascade;
    var after := before;
    after := after[target := after[target].(scopePct := (1.0 - cut) * 100.0)];
    if newEnd.Some? {
      after := after[target := after[target].(endDate := newEnd)];
    }
    res := ScenarioResult(action, before, after, impacts, []);
  }

  // ---------------------------------------------------------------------
  // Delay
  // ---------------------------------------------------------------------

  /** A known date moved by `days`; an unknown one stays unknown. */
  function Shift(d: Option<int>, days: int): (r: Option<int>)
    ensures r.Some? <==> d.Some?
    ensures r.Some? ==> r.value == d.value + days
  {
    if d.Some? then Some(d.value + days) else None
  }

  /** The names of `names` that are keys of `pmap`, in their order. */
  function Known(names: seq<string>, pmap: map<string, Project>): seq<string> {
    if names == [] then []
    else (if names[0] in pmap then [names[0]] else []) + Known(names[1..], pmap)
  }

  /** `Known` keeps exactly the names that are keys of the map. */
  lemma {:induction false} KnownMembers(names: seq<string>, pmap: map<string, Project>)
    ensures forall q :: q in Known(names, pmap) <==> q in names && q in pmap
  {
    if names != [] {
      KnownMembers(names[1..], pmap);
      assert forall q :: q in names <==> q == names[0] || q in names[1..];
    }
  }

  /** Keeping only the known names keeps a sorted list sorted. */
  lemma {:induction false} KnownSorted(names: seq<string>, pmap: map<string, Project>)
    requires StrictlySorted(names)
    ensures StrictlySorted(Known(names, pmap))
  {
    if names != [] {
      var tail := Known(names[1..], pmap);
      KnownSorted(names[1..], pmap);
      KnownMembers(names[1..], pmap);
      forall j | 0 <= j < |tail| ensures StrLt(names[0], tail[j]) {
        assert tail[j] in names[1..];
        var k :| 0 <= k < |names[1..]| && names[1..][k] == tail[j];
        assert names[k + 1] == tail[j];
      }
    }
  }

  /** The cascade impact `_simulate_delay` records for a dependent project. */
  function DelayNote(name: string, p: Project, target: string, weeks: int): ProjectImpact {
    ProjectImpact(name, Cascade, [EndDateChange(p.endDate, Shift(p.endDate, weeks * 7)), DelayWeeks(weeks), CascadeReason(target)])
  }

  lemma KnownStep(names: seq<string>, k: nat, pmap: map<string, Project>)
    requires k < |names|
    ensures Known(names[k..], pmap) == (if names[k] in pmap then [names[k]] else []) + Known(names[k + 1..], pmap)
  {
    assert names[k..][1..] == names[k + 1..];
  }

  lemma NamesAppend(r: seq<ProjectImpact>, c: ProjectImpact)
    ensures ImpactNames(r + [c]) == ImpactNames(r) + [c.projectName]
  {
  }

  /** `c` is the delay note for a project of the map. */
  predicate IsDelayNote(c: ProjectImpact, pmap: map<string, Project>, target: string, weeks: int) {
    c.projectName in pmap && c == DelayNote(c.projectName, pmap[c.projectName], target, weeks)
  }

  /** The cascade loop of `_simulate_delay`: dependents missing from the project map are skipped. */
  method DelayCascade(names: seq<string>, pmap: map<string, Project>, target: string, weeks: int)
    returns (r: seq<ProjectImpact>)
    ensures ImpactNames(r) == Known(names, pmap)
    ensures forall i :: 0 <= i < |r| ==> IsDelayNote(r[i], pmap, target, weeks)
  {
    r := [];
    ghost var listed: seq<string> := [];
    var k := 0;
    while k < |names|
      invariant 0 <= k <= |names|
      invariant listed == ImpactNames(r)
      invariant Known(names, pmap) == listed + Known(names[k..], pmap)
      invariant forall i :: 0 <= i < |r| ==> IsDelayNote(r[i], pmap, target, weeks)
    {
      var name := names[k];
      KnownStep(names, k, pmap);
      ghost var rest := Known(names[k + 1..], pmap);
      if name in pmap {
        var note := DelayNote(name, pmap[name], target, weeks);
        NamesAppend(r, note);
        assert IsDelayNote(note, pmap, target, weeks);
        r := r + [note];
        assert listed + ([name] + rest) == (listed + [name]) + rest;
        listed := listed + [name];
      } else {
        assert [] + rest == rest;
      }
      k := k + 1;
    }
    assert names[k..] == [];
    assert listed + [] == listed;
  }

  /**
   * A snapshot after a delay of `days`: the target's start and end move,
   * and so does the end of every project depending on it.
   */
  function Delayed(s: Snapshot, isTarget: bool, isDependent: bool, days: int): Snapshot {
    s.(startDate := if isTarget then Shift(s.startDate, days) else s.startDate,
       endDate := if isTarget || isDependent then Shift(s.endDate, days) else s.endDate)
  }

  /** Every snapshot of `after` is the delayed snapshot, with `done` standing for the dependents. */
  ghost predicate DelayedUpTo(after: State, before: State, target: string, done: set<string>, days: int) {
    && after.Keys == before.Keys
    && forall n :: n in before ==> after[n] == Delayed(before[n], n == target, n in done, days)
  }

  /** Moving the end of one more dependent. */
  lemma DelayedStep(after: State, before: State, target: string, done: set<string>, days: int, name: string, moved: Snapshot)
    requires DelayedUpTo(after, before, target, done, days)
    requires name in before && before[name].endDate.Some?
    requires moved == after[name].(endDate := Some(before[name].endDate.value + days))
    ensures DelayedUpTo(after[name := moved], before, target, done + {name}, days)
  {
  }

  /** A name outside the state changes nothing, and neither does one without an end date. */
  lemma DelayedSkip(after: State, before: State, target: string, done: set<string>, days: int, name: string)
    requires DelayedUpTo(after, before, target, done, days)
    requires name !in before || before[name].endDate.None?
    ensures DelayedUpTo(after, before, target, done + {name}, days)
  {
  }

  /** The after-state loop of `_simulate_delay`, over the dependents in any order. */
  method ShiftDependents(pmap: map<string, Project>, before: State, target: string, dependents: set<string>, days: int)
    returns (after: State)
    requires target in pmap && Consistent(pmap, before)
    ensures after.Keys == before.Keys
    ensures forall n :: n in before ==> after[n] == Delayed(before[n], n == target, n in dependents, days)
  {
    var project := pmap[target];
    after := before;
    if project.endDate.Some? {
      after := after[target := after[target].(endDate := Shift(project.endDate, days))];
    }
    if project.startDate.Some? {
      after := after[target := after[target].(startDate := Shift(project.startDate, days))];
    }
    DelayedStart(pmap, before, target, days, after);
    var todo := dependents;
    ghost var done: set<string> := {};
    while todo != {}
      invariant done + todo == dependents && done !! todo
      invariant DelayedUpTo(after, before, target, done, days)
      decreases todo
    {
      var name :| name in todo;
      if name in pmap && pmap[name].endDate.Some? {
        var moved := after[name].(endDate := Some(pmap[name].endDate.value + days));
        DelayedStep(after, before, target, done, days, name, moved);
        after := after[name := moved];
      } else {
        DelayedSkip(after, before, target, done, days, name);
      }
      todo := todo - {name};
      done := done + {name};
    }
    assert done == dependents;
  }

  /** The target's own dates are moved before any dependent is visited. */
  lemma DelayedStart(pmap: map<string, Project>, before: State, target: string, days: int, after: State)
    requires target in pmap && Consistent(pmap, before)
    requires var p := pmap[target];
             var a1 := if p.endDate.Some? then before[target := before[target].(endDate := Shift(p.endDate, days))] else before;
             after == if p.startDate.Some? then a1[target := a1[target].(startDate := Shift(p.startDate, days))] else a1
    ensures DelayedUpTo(after, before, target, {}, days)
  {
  }

  /**
   * What `_simulate_delay` produces for `target`: the target's start and end and every transitive
   * dependent's end moved by `weeks * 7` days, a delay note for each known dependent in name order,
   * and the cascade warning listing all dependents exactly when there are some.
   */
  ghost predicate DelayOutcome(res: ScenarioResult, action: SP.ScenarioAction, target: string, pmap: map<string, Project>,
                               edges: Digraph.Edges, before: State) {
    && target in pmap
    && var p := pmap[target];
       var days := action.durationWeeks * 7;
       && res.action == action && res.before == before
       && |res.impacts| >= 1
       && res.impacts[0] == ProjectImpact(target, Direct,
            [StartDateChange(p.startDate, Shift(p.startDate, days)), EndDateChange(p.endDate, Shift(p.endDate, days)),
             DelayWeeks(action.durationWeeks)])
       && res.after.Keys == before.Keys
       && (forall n :: n in before ==>
            res.after[n] == Delayed(before[n], n == target, Reaches(edges, n, target), days))
       && (forall i :: 1 <= i < |res.impacts| ==> IsDelayNote(res.impacts[i], pmap, target, action.durationWeeks))
       && StrictlySorted(ImpactNames(res.impacts[1..]))
       && (forall q :: q in ImpactNames(res.impacts[1..]) <==> Reaches(edges, q, target) && q in pmap)
       && ((exists q :: Reaches(edges, q, target)) <==> res.warnings != [])
       && (res.warnings != [] ==>
            && |res.warnings| == 1 && res.warnings[0].DelayCascades?
            && res.warnings[0].target == target && StrictlySorted(res.warnings[0].dependents)
            && forall q :: q in res.warnings[0].dependents <==> Reaches(edges, q, target))
  }

  /** `_simulate_delay` */
  method SimulateDelay(action: SP.ScenarioAction, target: string, pmap: map<string, Project>,
                       graph: Graph.DependencyGraph, before: State)
    returns (res: ScenarioResult)
    requires target in pmap && Consistent(pmap, before)
    ensures DelayOutcome(res, action, target, pmap, graph.edges, before)
    ensures Shaped(res, target)
  {
    var project := pmap[target];
    var days := action.durationWeeks * 7;
    var direct := ProjectImpact(target, Direct,
      [StartDateChange(project.startDate, Shift(project.startDate, days)), EndDateChange(project.endDate, Shift(project.endDate, days)),
       DelayWeeks(action.durationWeeks)]);
    var dependents := graph.GetAllDependents(target);
    var names := SortStrings(dependents);
    KnownSorted(names, pmap);
    KnownMembers(names, pmap);
    var cascade := DelayCascade(names, pmap, target, action.durationWeeks);
    var impacts := [direct] + cascade;
    assert impacts[1..] == cascade;
    var after := ShiftDependents(pmap, before, target, dependents, days);
    var warnings := [];
    if dependents != {} {
      warnings := [DelayCascades(target, names)];
    } else {
      assert forall q :: !Reaches(graph.edges, q, target);
    }
    res := ScenarioResult(action, before, after, impacts, warnings);
  }

  /** After a delay, every project that is neither the target nor depends on it is exactly as before. */
  lemma DelayLeavesOthers(s: Snapshot, days: int)
    ensures Delayed(s, false, false, days) == s
  {
  }

  /** A delay moves the target's start and end by the same number of days, so its duration is kept. */
  lemma DelayKeepsDuration(s: Snapshot, isDependent: bool, days: int)
    requires s.startDate.Some? && s.endDate.Some?
    ensures var t := Delayed(s, true, isDependent, days);
            t.endDate.value - t.startDate.value == s.endDate.value - s.startDate.value
  {
  }

  // ---------------------------------------------------------------------
  // Removal
  // ---------------------------------------------------------------------

  /**
   * What `_simulate_remove` produces for `target`: only its status becomes "Removed"; the direct
   * impact reports the freed and remaining budget; the one-hop dependents, in name order, get a
   * broken-dependency note and are listed in the warning exactly when there are some.
   */
  ghost predicate RemoveOutcome(res: ScenarioResult, action: SP.ScenarioAction, target: string, pmap: map<string, Project>,
                                edges: Digraph.Edges, before: State) {
    && target in pmap && target in before
    && var p := pmap[target];
       && res.action == action && res.before == before
       && |res.impacts| >= 1
       && res.impacts[0] == ProjectImpact(target, Direct,
            [StatusChange(p.status), BudgetFreed(p.budget), RemainingBudget(Max0(p.budget - p.actualSpend))])
       && res.after == before[target := before[target].(status := "Removed")]
       && (forall i :: 1 <= i < |res.impacts| ==>
            res.impacts[i] == ProjectImpact(res.impacts[i].projectName, Cascade, [DependencyBroken(target)]))
       && StrictlySorted(ImpactNames(res.impacts[1..]))
       && (forall q :: q in ImpactNames(res.impacts[1..]) <==> q in Preds(edges, target))
       && (Preds(edges, target) == {} <==> res.warnings == [])
       && (res.warnings != [] ==> res.warnings == [BreaksDependencies(target, ImpactNames(res.impacts[1..]))])
  }

  /** `_simulate_remove`: only direct dependents are flagged. */
  method SimulateRemove(action: SP.ScenarioAction, target: string, projects: seq<Project>,
                        graph: Graph.DependencyGraph, before: State)
    returns (res: ScenarioResult)
    requires target in ProjectMap(projects) && Consistent(ProjectMap(projects), before)
    ensures RemoveOutcome(res, action, target, ProjectMap(projects), graph.edges, before)
    ensures Shaped(res, target)
  {
    var pmap := ProjectMap(projects);
    var project := pmap[target];
    var direct := ProjectImpact(target, Direct,
      [StatusChange(project.status), BudgetFreed(project.budget), RemainingBudget(Max0(project.budget - project.actualSpend))]);
    var dependents := graph.GetDependents(target);
    var names := SortStrings(dependents);
    var cascade := CascadeNotes(names, DependencyBroken(target));
    var impacts := [direct] + cascade;
    assert impacts[1..] == cascade;
    var after := before[target := before[target].(status := "Removed")];
    var warnings := [];
    if dependents != {} {
      warnings := [BreaksDependencies(target, names)];
    }
    res := ScenarioResult(action, before, after, impacts, warnings);
  }

  // ---------------------------------------------------------------------
  // Simulation
  // ---------------------------------------------------------------------

  /** `simulate`: `refDay` stands for the reference date, which defaults to today in the source. */
  method Simulate(action: SP.ScenarioAction, projects: seq<Project>, graph: Graph.DependencyGraph, refDay: int)
    returns (res: ScenarioResult)
    ensures res.action == action
    ensures Resolve(action.project, projects).None? ==>
              && res.before == map[] && res.after == map[] && res.impacts == []
              && |res.warnings| == 1 && res.warnings[0].NotFound? && res.warnings[0].project == action.project
              && StrictlySorted(res.warnings[0].available)
              && Elements(res.warnings[0].available) == ProjectMap(projects).Keys
    ensures Resolve(action.project, projects).Some? ==>
              var target := Resolve(action.project, projects).value;
              var pmap := ProjectMap(projects);
              var before := BeforeState(projects);
              && res.before == before && Shaped(res, target)
              && (action.action == SP.Remove ==> RemoveOutcome(res, action, target, pmap, graph.edges, before))
              && (action.action == SP.BudgetIncrease || action.action == SP.BudgetDecrease ==>
                    BudgetOutcome(res, action, target, pmap, before, refDay))
              && (action.action == SP.ScopeCut ==> ScopeCutOutcome(res, action, target, pmap, graph.edges, before))
              && (action.action == SP.Delay ==> DelayOutcome(res, action, target, pmap, graph.edges, before))
  {
    var pmap := ProjectMap(projects);
    var target := ResolveProjectName(action.project, projects);
    if target.None? {
      var available := SortStrings(pmap.Keys);
      return ScenarioResult(action, map[], map[], [], [NotFound(action.project, available)]);
    }
    ResolveFinds(action.project, projects);
    var before := BeforeState(projects);
    BeforeConsistent(projects);
    var name := target.value;
    match action.action {
      case Remove =>
        res := SimulateRemove(action, name, projects, graph, before);
      case BudgetIncrease =>
        res := SimulateBudget(action, name, pmap, before, refDay);
      case BudgetDecrease =>
        res := SimulateBudget(action, name, pmap, before, refDay);
      case ScopeCut =>
        res := SimulateScopeCut(action, name, pmap, graph, before);
      case Delay =>
        res := SimulateDelay(action, name, pmap, graph, before);
    }
  }
}
