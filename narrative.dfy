/**
 * The plain-English briefing written from a simulation result: a title, a
 * before and an after summary, an impact analysis, the cascade effects, the
 * recommended actions and the simulator's warnings, rendered as one text.
 */
module Narrative {
  import opened Wrappers
  import opened Text
  import opened Simulator
  import opened Portfolio
  import SP = ScenarioParser

  datatype ScenarioNarrative = ScenarioNarrative(
    title: string,
    scenarioDescription: string,
    beforeSummary: string,
    afterSummary: string,
    impactAnalysis: string,
    cascadeAnalysis: string,
    recommendations: seq<Advice>,
    warnings: seq<Warning>)

  // ---------------------------------------------------------------------
  // Selecting impacts
  // ---------------------------------------------------------------------

  /** `[i for i in impacts if i.impact_type == kind]` */
  function OfType(cs: seq<ProjectImpact>, kind: ImpactType): (r: seq<ProjectImpact>)
    ensures |r| <= |cs|
    ensures forall c :: c in r <==> c in cs && c.impactType == kind
  {
    if cs == [] then []
    else (if cs[0].impactType == kind then [cs[0]] else []) + OfType(cs[1..], kind)
  }

  /** `sum(1 for i in impacts if i.impact_type == "cascade")` */
  function CascadeCount(cs: seq<ProjectImpact>): (n: nat)
    ensures n == |OfType(cs, Cascade)|
  {
    if cs == [] then 0
    else (if cs[0].impactType == Cascade then 1 else 0) + CascadeCount(cs[1..])
  }

  // ---------------------------------------------------------------------
  // Title and description
  // ---------------------------------------------------------------------

  function TitleLabel(kind: SP.ActionType): string {
    match kind
    case BudgetIncrease => "Budget Increase"
    case BudgetDecrease => "Budget Decrease"
    case ScopeCut => "Scope Reduction"
    case Delay => "Schedule Delay"
    case Remove => "Project Removal"
  }

  /** `_build_title`: the label of the action's kind, a colon, and the project as the action names it. */
  function Title(action: SP.ScenarioAction): (t: string)
    ensures |t| > |action.project| && t[|t| - |action.project|..] == action.project
  {
    TitleLabel(action.action) + ": " + action.project
  }

  /** `_build_description`: the action's own description when it has one. */
  function Description(action: SP.ScenarioAction, f: Formats): (d: string)
    ensures action.description != "" ==> d == action.description
  {
    if action.description != "" then action.description
    else
      match action.action
      case BudgetIncrease =>
        if action.amount != 0.0 then "Increase " + action.project + " budget by " + f.percent(action.amount)
        else "Increase " + action.project + " budget by " + f.money(action.amountAbsolute)
      case BudgetDecrease =>
        if action.amount != 0.0 then "Decrease " + action.project + " budget by " + f.percent(action.amount)
        else "Decrease " + action.project + " budget by " + f.money(action.amountAbsolute)
      case ScopeCut => "Cut " + action.project + " scope by " + f.percent(action.amount)
      case Delay => "Delay " + action.project + " by " + IntToString(action.durationWeeks) + " weeks"
      case Remove => "Remove " + action.project + " from portfolio"
  }

  // ---------------------------------------------------------------------
  // Before and after
  // ---------------------------------------------------------------------

  const NoData := ": No data available."

  /**
   * `_build_before_summary`: the before-state of `project`, or the no-data
   * line when the before-state has no entry under that exact name.
   */
  function BeforeSummary(project: string, before: State, f: Formats): (s: string)
    ensures project !in before <==> s == project + NoData
  {
    if project !in before then project + NoData
    else
      var state := before[project];
      var parts := [project + " is currently " + state.status + "."]
        + (if state.budget > 0.0
           then ["Budget: " + f.money(state.budget) + " (" + f.whole(state.actualSpend / state.budget * 100.0)
                 + "% consumed, " + f.money(state.actualSpend) + " spent)."]
           else [])
        + (if state.startDate.Some? && state.endDate.Some?
           then ["Timeline: " + f.day(state.startDate) + " to " + f.day(state.endDate) + "."]
           else [])
        + (if state.taskCount > 0 then [IntToString(state.taskCount) + " tasks in progress."] else []);
      var s := Join(parts, " ");
      JoinHead(parts, " ");
      assert s != project + NoData by {
        NotNoData(project, state.status, s);
      }
      s
  }

  /**
   * As written, the before summary looks the project up under the name the
   * action gives. The simulator resolves that name ignoring case and keys
   * its before-state by the resolved name, so a name that differs from the
   * project's only in case is simulated and yet summarised as having no data.
   */
  lemma ActionNameMissesResolvedProject(ps: seq<Project>, name: string, f: Formats)
    requires name !in ProjectMap(ps) && Resolve(name, ps).Some?
    ensures Resolve(name, ps).value in BeforeState(ps)
    ensures BeforeSummary(name, BeforeState(ps), f) == name + NoData
  {
    BeforeConsistent(ps);
    ResolveFinds(name, ps);
  }

  /** Such a name exists: "alpha" for a portfolio holding only "Alpha". */
  lemma CaseOnlyNameResolves()
    ensures var ps := [Project("Alpha", "Active", None, None, 0.0, 0.0, [])];
            "alpha" !in ProjectMap(ps) && Resolve("alpha", ps) == Some("Alpha")
  {
    var ps := [Project("Alpha", "Active", None, None, 0.0, 0.0, [])];
    assert "alpha"[0] != "Alpha"[0];
    assert !Named(ps, "alpha");
    assert Lower("Alpha") == Lower("alpha") by {
      assert LowerChar('A') == 'a';
    }
  }

  /** The name the before summary looks up: the project the simulation acted on, when there is one. */
  function SummaryName(result: ScenarioResult): string {
    if |result.impacts| >= 1 && result.impacts[0].impactType == Direct then result.impacts[0].projectName
    else result.action.project
  }

  /** Looked up under the resolved name, a simulated project always has its before summary. */
  lemma ResolvedNameHasData(ps: seq<Project>, result: ScenarioResult, target: string, f: Formats)
    requires Resolve(result.action.project, ps) == Some(target)
    requires result.before == BeforeState(ps) && Shaped(result, target)
    ensures SummaryName(result) == target
    ensures BeforeSummary(SummaryName(result), result.before, f) != target + NoData
  {
    BeforeConsistent(ps);
    ResolveFinds(result.action.project, ps);
  }

  /** A joined list starts with its first part. */
  lemma JoinHead(parts: seq<string>, sep: string)
    requires |parts| >= 1
    ensures parts[0] <= Join(parts, sep)
  {
  }

  /** A joined list whose first part is not empty is not empty. */
  lemma JoinNotEmpty(parts: seq<string>, sep: string)
    requires |parts| >= 1 && parts[0] != ""
    ensures Join(parts, sep) != ""
  {
  }

  /** "P is currently S." and what follows it is never the no-data line for P. */
  lemma NotNoData(project: string, status: string, s: string)
    requires project + " is currently " + status + "." <= s
    ensures s != project + NoData
  {
    var head := project + " is currently " + status + ".";
    assert s[|project|] == head[|project|] == ' ';
    assert (project + NoData)[|project|] == ':';
  }

  const NoDirect := "No direct impact identified."

  /** `str.replace("_", " ")` */
  function Unscore(s: string): (r: string)
    ensures |r| == |s|
  {
    seq(|s|, i requires 0 <= i < |s| => if s[i] == '_' then ' ' else s[i])
  }

  predicate IsLetter(c: char) {
    'a' <= c <= 'z' || 'A' <= c <= 'Z'
  }

  function UpperChar(c: char): char {
    if 'a' <= c <= 'z' then (c as int - 32) as char else c
  }

  /** `str.title()` on ASCII: a letter is upper-case when it starts a run of letters, lower-case otherwise. */
  function TitleCase(s: string): (r: string)
    ensures |r| == |s|
    ensures forall i :: 0 <= i < |s| && !IsLetter(s[i]) ==> r[i] == s[i]
  {
    seq(|s|, i requires 0 <= i < |s| =>
      if !IsLetter(s[i]) then s[i]
      else if i == 0 || !IsLetter(s[i - 1]) then UpperChar(s[i])
      else LowerChar(s[i]))
  }

  /** "Label: value." for one change of the direct impact. */
  function ChangeLine(c: Change, f: Formats): string {
    TitleCase(Unscore(ChangeKey(c))) + ": " + ChangeText(c, f) + "."
  }

  function ChangeLines(cs: seq<Change>, f: Formats): (r: seq<string>)
    ensures |r| == |cs|
    ensures forall i :: 0 <= i < |cs| ==> r[i] == ChangeLine(cs[i], f)
  {
    if cs == [] then [] else [ChangeLine(cs[0], f)] + ChangeLines(cs[1..], f)
  }

  /** `_build_after_summary`: the changes of the first direct impact, one labelled sentence each. */
  function AfterSummary(direct: seq<ProjectImpact>, f: Formats): string {
    if direct == [] then NoDirect else Join(ChangeLines(direct[0].changes, f), " ")
  }

  /** The rendering of one change, as a value the loop can be handed. */
  function LineOf(f: Formats): Change -> string {
    c => ChangeLine(c, f)
  }

  /** A rendering loop: one line per element, in order. */
  method RenderEach<T>(xs: seq<T>, line: T -> string) returns (parts: seq<string>)
    ensures |parts| == |xs|
    ensures forall i :: 0 <= i < |xs| ==> parts[i] == line(xs[i])
  {
    parts := [];
    for k := 0 to |xs|
      invariant |parts| == k
      invariant forall i :: 0 <= i < k ==> parts[i] == line(xs[i])
    {
      parts := parts + [line(xs[k])];
    }
  }

  /** `_build_after_summary`, as the loop over the first direct impact's changes. */
  method BuildAfterSummary(direct: seq<ProjectImpact>, f: Formats) returns (text: string)
    ensures text == AfterSummary(direct, f)
  {
    if direct == [] {
      return NoDirect;
    }
    var changes := direct[0].changes;
    var parts := RenderEach(changes, LineOf(f));
    ghost var lines := ChangeLines(changes, f);
    assert parts == lines;
    text := Join(parts, " ");
  }

  /** The after summary is the no-impact line exactly when there is no direct impact. */
  lemma AfterSummaryNoDirect(direct: seq<ProjectImpact>, f: Formats)
    ensures AfterSummary(direct, f) == NoDirect <==> direct == []
  {
    if direct != [] {
      var lines := ChangeLines(direct[0].changes, f);
      if lines != [] {
        var c := direct[0].changes[0];
        var lab := TitleCase(Unscore(ChangeKey(c)));
        JoinHead(lines, " ");
        var s := AfterSummary(direct, f);
        assert s[|lab|] == ':';
        assert ':' !in NoDirect;
      }
    }
  }

  // ---------------------------------------------------------------------
  // Impact analysis
  // ---------------------------------------------------------------------

  const NoMeasurable := "No measurable impact."

  /** `impact.changes.get(key, default)` */
  function ChangeValue(cs: seq<Change>, key: string, default: string, f: Formats): string {
    if cs == [] then default
    else if ChangeKey(cs[0]) == key then ChangeText(cs[0], f)
    else ChangeValue(cs[1..], key, default, f)
  }

  /** The words before the project's name in the impact paragraph. */
  function AnalysisLead(kind: SP.ActionType): string {
    match kind
    case BudgetIncrease => "Increasing the budget for "
    case BudgetDecrease => "Decreasing the budget for "
    case ScopeCut => "Reducing scope on "
    case Delay => "Delaying "
    case Remove => "Removing "
  }

  /** The rest of the impact paragraph, after the project's name. */
  function AnalysisRest(action: SP.ScenarioAction, p: string, changes: seq<Change>, f: Formats): string {
    match action.action
    case BudgetIncrease =>
      " extends the financial runway, reducing the risk of budget exhaustion before delivery. This may allow the team to address scope or resource constraints that are currently limiting progress."
    case BudgetDecrease =>
      " shortens the financial runway. The team may need to reduce scope or find efficiencies to deliver within the revised budget. Review whether current commitments are achievable with reduced funding."
    case ScopeCut =>
      " by " + f.percent(action.amount) + " is estimated to save " + ChangeValue(changes, "days_saved", "0", f)
      + " days on the delivery timeline. This trades feature completeness for earlier delivery. Review which deliverables are deferred and whether benefits targets are still achievable with reduced scope."
    case Delay =>
      " by " + IntToString(action.durationWeeks) + " week" + (if action.durationWeeks > 1 then "s" else "")
      + " shifts the delivery window forward. This may impact dependent projects and downstream milestones. Benefits realisation will be correspondingly delayed."
    case Remove =>
      " from the portfolio frees up budget and resources. However, any projects dependent on " + p
      + " will need re-planning or alternative delivery paths. Expected benefits from " + p + " will not be realised."
  }

  /**
   * `_build_impact_analysis`: a fixed paragraph per kind about the first
   * direct impact's project, or the no-impact line when there is none.
   */
  function ImpactAnalysis(action: SP.ScenarioAction, direct: seq<ProjectImpact>, f: Formats): (s: string)
    ensures direct == [] <==> s == NoMeasurable
    ensures direct != [] ==> Contains(s, direct[0].projectName)
  {
    if direct == [] then NoMeasurable
    else
      var p := direct[0].projectName;
      var lead := AnalysisLead(action.action);
      var rest := AnalysisRest(action, p, direct[0].changes, f);
      ProjectMentioned(lead, p, rest);
      LeadNotNoImpact(action.action, p, rest);
      lead + p + rest
  }

  /** The name sits right after the lead, so the paragraph mentions it. */
  lemma ProjectMentioned(lead: string, p: string, rest: string)
    ensures Contains(lead + p + rest, p)
  {
    var s := lead + p + rest;
    assert OccursAt(s, p, |lead|) by {
      forall j | 0 <= j < |p| ensures s[|lead| + j] == p[j] {
        assert s[|lead| + j] == (lead + p)[|lead| + j];
      }
    }
  }

  /** No paragraph is the no-impact line: the leads and that line differ in their second letter. */
  lemma LeadNotNoImpact(kind: SP.ActionType, p: string, rest: string)
    ensures AnalysisLead(kind) + p + rest != NoMeasurable
  {
    var lead := AnalysisLead(kind);
    assert (lead + p + rest)[1] == lead[1] != 'o';
    assert NoMeasurable[1] == 'o';
  }

  // ---------------------------------------------------------------------
  // Cascade analysis
  // ---------------------------------------------------------------------

  /**
   * One downstream project's line: its delay, its new end date (the text
   * after the arrow, which is the rendered new date), the reason and the note.
   */
  function CascadeLine(c: ProjectImpact, f: Formats): string {
    var delay := ChangeValue(c.changes, "delay_weeks", "", f);
    var end := EndAfterArrow(c.changes, f);
    var reason := ChangeValue(c.changes, "reason", "", f);
    var note := ChangeValue(c.changes, "note", "", f);
    Strip("**" + c.projectName + "**: "
      + (if delay != "" then "Delayed by " + delay + " weeks. " else "")
      + (if end != "" then "New end date: " + end + ". " else "")
      + (if reason != "" then reason + ". " else "")
      + note)
  }

  /** The part of the `end_date` change after its arrow: the new date as rendered. */
  function EndAfterArrow(cs: seq<Change>, f: Formats): string {
    if cs == [] then ""
    else if cs[0].EndDateChange? then f.day(cs[0].newEnd)
    else EndAfterArrow(cs[1..], f)
  }

  function CascadeHeader(n: nat): (h: string)
    ensures h != ""
  {
    IntToString(n) + " downstream project" + (if n > 1 then "s" else "") + " affected:"
  }

  /** One line per downstream project, in the order of the impacts. */
  function CascadeLines(cascade: seq<ProjectImpact>, f: Formats): (r: seq<string>)
    ensures |r| == |cascade|
    ensures forall i :: 0 <= i < |cascade| ==> r[i] == CascadeLine(cascade[i], f)
  {
    if cascade == [] then [] else [CascadeLine(cascade[0], f)] + CascadeLines(cascade[1..], f)
  }

  /** `_build_cascade_analysis`: the header, then one line per cascade impact, never empty. */
  method BuildCascadeAnalysis(cascade: seq<ProjectImpact>, f: Formats) returns (text: string)
    ensures text == Join([CascadeHeader(|cascade|)] + CascadeLines(cascade, f), "\n")
  {
    var parts := RenderEach(cascade, CascadeLineOf(f));
    ghost var lines := CascadeLines(cascade, f);
    assert parts == lines;
    text := Join([CascadeHeader(|cascade|)] + parts, "\n");
  }

  function CascadeLineOf(f: Formats): ProjectImpact -> string {
    p => CascadeLine(p, f)
  }

  // ---------------------------------------------------------------------
  // Recommendations
  // ---------------------------------------------------------------------

  /** Some warning says "over budget", ignoring case. */
  predicate MentionsOverBudget(warnings: seq<Warning>, f: Formats) {
    exists w :: w in warnings && ContainsText(Lower(WarningText(w, f.money)), OverBudgetWords)
  }

  function Plural(n: nat): string {
    if n > 1 then "s" else ""
  }

  /** One recommended action; `AdviceText` renders it as the sentence the narrative shows. */
  datatype Advice =
    | ApproveIncrease(project: string)
    | CheckFunding
    | ConfirmDecrease(project: string)
    | DeferToPhase2
    | Urgent(project: string)
    | AgreeDeferredScope(project: string)
    | CommunicateDate
    | NotifyEarlier(count: nat)
    | CommunicateTimeline(project: string)
    | AssessCascade(count: nat)
    | ReviewCostProfile
    | CloseProject(project: string)
    | UpdateBenefits(project: string)
    | Replan(project: string, count: nat)

  function AdviceText(a: Advice): string {
    match a
    case ApproveIncrease(p) =>
      "Approve the budget increase for " + p + " and communicate the revised allocation to the delivery team."
    case CheckFunding =>
      "Set a checkpoint in 4 weeks to verify the additional funding is translating into accelerated delivery."
    case ConfirmDecrease(p) =>
      "Confirm the revised budget with the " + p + " delivery team and agree scope trade-offs."
    case DeferToPhase2 =>
      "Identify which deliverables can be deferred to Phase 2 to fit within the reduced budget."
    case Urgent(p) =>
      "URGENT: " + p + " is already over budget — immediate intervention required."
    case AgreeDeferredScope(p) =>
      "Agree the deferred scope items with the " + p + " sponsor and update the benefits register."
    case CommunicateDate =>
      "Communicate the revised delivery date to stakeholders."
    case NotifyEarlier(n) =>
      "Notify the " + IntToString(n) + " dependent project" + Plural(n) + " of the earlier delivery window."
    case CommunicateTimeline(p) =>
      "Communicate the revised timeline for " + p + " to all stakeholders."
    case AssessCascade(n) =>
      "Assess the cascade impact on " + IntToString(n) + " dependent project" + Plural(n) + " and update their timelines."
    case ReviewCostProfile =>
      "Review whether the delay changes the cost profile (extended team costs, contract implications)."
    case CloseProject(p) =>
      "Formally close " + p + " and release resources back to the portfolio."
    case UpdateBenefits(p) =>
      "Update the benefits register to remove " + p + "'s expected benefits."
    case Replan(p, n) =>
      "Urgently re-plan the " + IntToString(n) + " project" + Plural(n) + " that depend on " + p + "."
  }

  /** The two lines each kind always recommends. */
  function OpeningLines(kind: SP.ActionType, project: string): (r: seq<Advice>)
    ensures |r| == 2
  {
    match kind
    case BudgetIncrease => [ApproveIncrease(project), CheckFunding]
    case BudgetDecrease => [ConfirmDecrease(project), DeferToPhase2]
    case ScopeCut => [AgreeDeferredScope(project), CommunicateDate]
    case Delay => [CommunicateTimeline(project), ReviewCostProfile]
    case Remove => [CloseProject(project), UpdateBenefits(project)]
  }

  /** The conditional line of each kind (a budget increase has none). */
  function ExtraLine(kind: SP.ActionType, project: string, n: nat): Advice {
    match kind
    case BudgetDecrease => Urgent(project)
    case ScopeCut => NotifyEarlier(n)
    case Delay => AssessCascade(n)
    case Remove => Replan(project, n)
    case BudgetIncrease => CheckFunding
  }

  /** The condition that adds it: an over-budget warning, or at least one cascade impact. */
  predicate ExtraWanted(kind: SP.ActionType, result: ScenarioResult, f: Formats) {
    match kind
    case BudgetIncrease => false
    case BudgetDecrease => MentionsOverBudget(result.warnings, f)
    case _ => CascadeCount(result.impacts) > 0
  }

  /**
   * `_build_recommendations`: the two opening lines, with the conditional
   * line after them (for a delay, between them).
   */
  function Recommendations(action: SP.ScenarioAction, result: ScenarioResult, f: Formats): seq<Advice> {
    var opening := OpeningLines(action.action, action.project);
    var extra := When(ExtraWanted(action.action, result, f),
                      ExtraLine(action.action, action.project, CascadeCount(result.impacts)));
    if action.action == SP.Delay then [opening[0]] + extra + [opening[1]]
    else opening + extra
  }

  /** Each kind's conditional line is there exactly when its condition holds, and nothing else is added. */
  lemma ExtraIffWanted(action: SP.ScenarioAction, result: ScenarioResult, f: Formats)
    ensures var recs := Recommendations(action, result, f);
            && |recs| == (if ExtraWanted(action.action, result, f) then 3 else 2)
            && (ExtraWanted(action.action, result, f) ==>
                  ExtraLine(action.action, action.project, CascadeCount(result.impacts)) in recs)
  {
    var extra := When(ExtraWanted(action.action, result, f),
                      ExtraLine(action.action, action.project, CascadeCount(result.impacts)));
    var recs := Recommendations(action, result, f);
    if ExtraWanted(action.action, result, f) {
      if action.action == SP.Delay {
        assert recs[1] == extra[0];
      } else {
        assert recs[2] == extra[0];
      }
    }
  }

  /** A budget increase gets exactly its two opening lines. */
  lemma IncreaseHasNoExtra(action: SP.ScenarioAction, result: ScenarioResult, f: Formats)
    requires action.action == SP.BudgetIncrease
    ensures Recommendations(action, result, f) == OpeningLines(action.action, action.project)
  {
  }

  /** A budget decrease whose new budget is below spend always gets the urgent line. */
  lemma OverBudgetGetsUrgent(action: SP.ScenarioAction, result: ScenarioResult, f: Formats, b: real, s: real)
    requires action.action == SP.BudgetDecrease
    requires OverBudget(b, s) in result.warnings
    ensures Urgent(action.project) in Recommendations(action, result, f)
  {
    OverBudgetSaysSo(b, s, f.money);
    assert MentionsOverBudget(result.warnings, f);
    ExtraIffWanted(action, result, f);
  }

  // ---------------------------------------------------------------------
  // The narrative
  // ---------------------------------------------------------------------

  /** `generate_narrative` */
  method GenerateNarrative(result: ScenarioResult, f: Formats) returns (n: ScenarioNarrative)
    ensures n.title == Title(result.action)
    ensures n.scenarioDescription == Description(result.action, f)
    ensures n.beforeSummary == BeforeSummary(SummaryName(result), result.before, f)
    ensures n.afterSummary == AfterSummary(OfType(result.impacts, Direct), f)
    ensures n.impactAnalysis == ImpactAnalysis(result.action, OfType(result.impacts, Direct), f)
    ensures n.cascadeAnalysis == if OfType(result.impacts, Cascade) == [] then ""
              else Join([CascadeHeader(|OfType(result.impacts, Cascade)|)] + CascadeLines(OfType(result.impacts, Cascade), f), "\n")
    ensures n.cascadeAnalysis != "" <==> exists c :: c in result.impacts && c.impactType == Cascade
    ensures n.recommendations == Recommendations(result.action, result, f)
    ensures n.warnings == result.warnings
  {
    var action := result.action;
    var direct := OfType(result.impacts, Direct);
    var cascade := OfType(result.impacts, Cascade);
    var after := BuildAfterSummary(direct, f);
    var cascadeText := "";
    if cascade != [] {
      cascadeText := BuildCascadeAnalysis(cascade, f);
      JoinNotEmpty([CascadeHeader(|cascade|)] + CascadeLines(cascade, f), "\n");
      assert cascade[0] in cascade;
    }
    n := ScenarioNarrative(
      Title(action), Description(action, f),
      BeforeSummary(SummaryName(result), result.before, f),
      after,
      ImpactAnalysis(action, direct, f),
      cascadeText,
      Recommendations(action, result, f),
      result.warnings);
  }

  // ---------------------------------------------------------------------
  // Full text
  // ---------------------------------------------------------------------

  function Bullets(items: seq<string>): (r: seq<string>)
    ensures |r| == |items|
  {
    if items == [] then [] else ["- " + items[0]] + Bullets(items[1..])
  }

  function WarningTexts(ws: seq<Warning>, f: Formats): (r: seq<string>)
    ensures |r| == |ws|
  {
    if ws == [] then [] else [WarningText(ws[0], f.money)] + WarningTexts(ws[1..], f)
  }

  function AdviceTexts(rs: seq<Advice>): (r: seq<string>)
    ensures |r| == |rs|
  {
    if rs == [] then [] else [AdviceText(rs[0])] + AdviceTexts(rs[1..])
  }

  /** One "- item" line per item. */
  function BulletList(items: seq<string>): string {
    Join(Bullets(items), "\n")
  }

  /** A section of the full text: the top heading, or a titled part. */
  datatype Section = Heading | Part(title: SectionTitle, body: string)

  datatype SectionTitle =
    ScenarioPart | BeforePart | AfterPart | ImpactPart | CascadePart | ActionsPart | WarningsPart

  function TitleText(t: SectionTitle): string {
    match t
    case ScenarioPart => "Scenario"
    case BeforePart => "Before"
    case AfterPart => "After"
    case ImpactPart => "Impact Analysis"
    case CascadePart => "Cascade Effects"
    case ActionsPart => "Recommended Actions"
    case WarningsPart => "Warnings"
  }

  function SectionText(s: Section): string {
    match s
    case Heading => "# Scenario Impact Summary\n"
    case Part(t, b) => "## " + TitleText(t) + "\n" + b + "\n"
  }

  function SectionTexts(ss: seq<Section>): (r: seq<string>)
    ensures |r| == |ss|
  {
    if ss == [] then [] else [SectionText(ss[0])] + SectionTexts(ss[1..])
  }

  /** `full_text`'s sections: five always, then each optional one when it has content. */
  function Sections(n: ScenarioNarrative, f: Formats): seq<Section> {
    FixedSections(n) + OptionalParts(n, f)
  }

  function FixedSections(n: ScenarioNarrative): (r: seq<Section>)
    ensures |r| == 5
  {
    [Heading,
     Part(ScenarioPart, n.scenarioDescription),
     Part(BeforePart, n.beforeSummary),
     Part(AfterPart, n.afterSummary),
     Part(ImpactPart, n.impactAnalysis)]
  }

  function OptionalParts(n: ScenarioNarrative, f: Formats): seq<Section> {
    When(n.cascadeAnalysis != "", Part(CascadePart, n.cascadeAnalysis))
    + When(n.recommendations != [], Part(ActionsPart, BulletList(AdviceTexts(n.recommendations))))
    + When(n.warnings != [], Part(WarningsPart, BulletList(WarningTexts(n.warnings, f))))
  }

  /** `full_text` */
  function FullText(n: ScenarioNarrative, f: Formats): string {
    Join(SectionTexts(Sections(n, f)), "\n")
  }

  /** The titles of the sections, in order. */
  function Titles(ss: seq<Section>): seq<SectionTitle> {
    if ss == [] then [] else TitleOf(ss[0]) + Titles(ss[1..])
  }

  function TitleOf(s: Section): seq<SectionTitle> {
    if s.Part? then [s.title] else []
  }

  /** The optional parts, by title: each is present exactly when it has content, in this order. */
  lemma {:induction false} OptionalTitles(n: ScenarioNarrative, f: Formats)
    ensures Titles(OptionalParts(n, f))
         == (if n.cascadeAnalysis != "" then [CascadePart] else [])
          + (if n.recommendations != [] then [ActionsPart] else [])
          + (if n.warnings != [] then [WarningsPart] else [])
  {
    var a := When(n.cascadeAnalysis != "", Part(CascadePart, n.cascadeAnalysis));
    var b := When(n.recommendations != [], Part(ActionsPart, BulletList(AdviceTexts(n.recommendations))));
    var c := When(n.warnings != [], Part(WarningsPart, BulletList(WarningTexts(n.warnings, f))));
    TitlesWhen(n.cascadeAnalysis != "", CascadePart, n.cascadeAnalysis);
    TitlesWhen(n.recommendations != [], ActionsPart, BulletList(AdviceTexts(n.recommendations)));
    TitlesWhen(n.warnings != [], WarningsPart, BulletList(WarningTexts(n.warnings, f)));
    TitlesAppend(a, b);
    TitlesAppend(a + b, c);
  }

  lemma TitlesWhen(b: bool, t: SectionTitle, body: string)
    ensures Titles(When(b, Part(t, body))) == if b then [t] else []
  {
    if b {
      assert When(b, Part(t, body))[1..] == [];
    }
  }

  lemma {:induction false} TitlesAppend(xs: seq<Section>, ys: seq<Section>)
    ensures Titles(xs + ys) == Titles(xs) + Titles(ys)
  {
    if xs == [] {
      assert xs + ys == ys;
    } else {
      var h := TitleOf(xs[0]);
      assert (xs + ys)[1..] == xs[1..] + ys;
      TitlesAppend(xs[1..], ys);
      assert Titles(xs + ys) == h + (Titles(xs[1..]) + Titles(ys));
      assert Titles(xs) == h + Titles(xs[1..]);
    }
  }

  /** The five fixed sections come first, then one more for each optional part that has content. */
  lemma SectionLayout(n: ScenarioNarrative, f: Formats)
    ensures |Sections(n, f)| == 5 + (if n.cascadeAnalysis != "" then 1 else 0)
              + (if n.recommendations != [] then 1 else 0) + (if n.warnings != [] then 1 else 0)
    ensures Sections(n, f)[..5] == FixedSections(n)
  {
    assert Sections(n, f)[..5] == FixedSections(n);
  }

  /** After the fixed sections, an optional section appears exactly when it has content, in this order. */
  lemma OptionalSections(n: ScenarioNarrative, f: Formats)
    ensures Titles(Sections(n, f)[5..])
         == (if n.cascadeAnalysis != "" then [CascadePart] else [])
          + (if n.recommendations != [] then [ActionsPart] else [])
          + (if n.warnings != [] then [WarningsPart] else [])
  {
    assert Sections(n, f)[5..] == OptionalParts(n, f);
    OptionalTitles(n, f);
  }
}
