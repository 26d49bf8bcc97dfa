/**
 * The decision log: an audit trail of decisions drawn from a scenario
 * simulation, from the risk report and from the investment review, each
 * numbered by the log that records it.
 */
module Decisions {
  import opened Wrappers
  import opened Text
  import Sim = Simulator
  import SP = ScenarioParser
  import N = Narrative
  import P = Portfolio
  import Inv = Investment
  import BC = BenefitCalc
  import Graph
  import Sorting

  datatype DecisionStatus = Pending | Approved | Rejected | Deferred

  /** Where a decision came from: "scenario", "risk_analysis" or "investment_review". */
  datatype Source = FromScenario | FromRiskAnalysis | FromInvestmentReview

  datatype DecisionOption = DecisionOption(caption: string, description: string, impactSummary: string)

  /** One decision; `date` is the day number of the reference date. */
  datatype Decision = Decision(
    decisionId: string,
    date: int,
    title: string,
    context: string,
    projectsAffected: seq<string>,
    options: seq<DecisionOption>,
    recommendation: string,
    rationale: string,
    status: DecisionStatus,
    source: Source)

  /** `f"DEC-{n:03d}"` */
  function DecisionId(n: nat): (r: string)
    ensures |r| >= 7 && r[..4] == "DEC-"
  {
    "DEC-" + Pad3(n)
  }

  /** Different counter values give different identifiers. */
  lemma DecisionIdsDistinct(i: nat, j: nat)
    requires i != j
    ensures DecisionId(i) != DecisionId(j)
  {
    Pad3RoundTrip(i);
    Pad3RoundTrip(j);
    PrefixKeepsDistinct("DEC-", Pad3(i), Pad3(j));
  }

  /** What `to_dict` reports of the log. */
  datatype LogDict = LogDict(decisionCount: nat, decisions: seq<Decision>)

  class DecisionLog {
    var decisions: seq<Decision>
    var counter: nat

    constructor()
      ensures decisions == [] && counter == 0
    {
      decisions := [];
      counter := 0;
    }

    /**
     * Every recorded decision carries the number of its place in the log,
     * and the counter has issued exactly as many numbers as there are
     * decisions: what the generators below keep true.
     */
    predicate Numbered()
      reads this
    {
      counter == |decisions| && forall i :: 0 <= i < |decisions| ==> decisions[i].decisionId == DecisionId(i + 1)
    }

    /** `add`: one more decision at the end; the counter is not touched. */
    method Add(d: Decision)
      modifies this
      ensures decisions == old(decisions) + [d]
      ensures counter == old(counter)
    {
      decisions := decisions + [d];
    }

    /** `next_id`: advance the counter and name the new value. */
    method NextId() returns (id: string)
      modifies this
      ensures counter == old(counter) + 1
      ensures id == DecisionId(counter)
      ensures decisions == old(decisions)
    {
      counter := counter + 1;
      id := DecisionId(counter);
    }

    /** `to_dict`: the count is the number of decisions recorded. */
    function ToDict(): (r: LogDict)
      reads this
      ensures r.decisionCount == |decisions| && r.decisions == decisions
    {
      LogDict(|decisions|, decisions)
    }

    /** A numbered log never holds two decisions with the same identifier. */
    lemma NumberedIdsDistinct()
      requires Numbered()
      ensures forall i, j :: 0 <= i < j < |decisions| ==> decisions[i].decisionId != decisions[j].decisionId
    {
      forall i, j | 0 <= i < j < |decisions|
        ensures decisions[i].decisionId != decisions[j].decisionId
      {
        DecisionIdsDistinct(i + 1, j + 1);
      }
    }
  }

  /** Issue the next number and record the decision built with it, as every generator does. */
  method Record(log: DecisionLog, build: string -> Decision) returns (d: Decision)
    requires forall id :: build(id).decisionId == id
    modifies log
    ensures log.counter == old(log.counter) + 1
    ensures d == build(DecisionId(log.counter))
    ensures log.decisions == old(log.decisions) + [d]
    ensures old(log.Numbered()) ==> log.Numbered()
  {
    ghost var before := log.decisions;
    var id := log.NextId();
    d := build(id);
    log.Add(d);
    if old(log.Numbered()) {
      RecordKeepsNumbered(before, old(log.counter), d);
    }
  }

  /** Recording a decision that carries the issued number keeps the log numbered. */
  lemma RecordKeepsNumbered(decisions: seq<Decision>, counter: nat, d: Decision)
    requires counter == |decisions|
    requires forall i :: 0 <= i < |decisions| ==> decisions[i].decisionId == DecisionId(i + 1)
    requires d.decisionId == DecisionId(counter + 1)
    ensures forall i :: 0 <= i < |decisions + [d]| ==> (decisions + [d])[i].decisionId == DecisionId(i + 1)
  {
  }

  // ---------------------------------------------------------------------
  // From a scenario
  // ---------------------------------------------------------------------

  function ActionValue(kind: SP.ActionType): string {
    match kind
    case BudgetIncrease => "budget_increase"
    case BudgetDecrease => "budget_decrease"
    case ScopeCut => "scope_cut"
    case Delay => "delay"
    case Remove => "remove"
  }

  /** The action's own description, or "<kind> on <project>" when it has none. */
  function ActionDesc(a: SP.ScenarioAction): (r: string)
    ensures a.description != "" ==> r == a.description
    ensures a.description == "" ==> r == ActionValue(a.action) + " on " + a.project
  {
    if a.description != "" then a.description else ActionValue(a.action) + " on " + a.project
  }

  const CautionPrefix := "Proceed with caution — "
  const RecommendPrefix := "Recommend: "
  const DoNothingLabel := "Do nothing — maintain current plan"
  const DoNothingDescription := "Continue on current trajectory without change."
  const NoChange := "No change to delivery dates, budget, or dependencies."
  const Manageable := "Scenario impact is manageable."

  /** Python's `a or b` on strings. */
  function Or(a: string, b: string): (r: string)
    ensures r == a || r == b
    ensures r == "" ==> a == "" && b == ""
  {
    if a != "" then a else b
  }

  /** The parts of the narrative a scenario decision quotes. */
  datatype Briefing = Briefing(
    beforeSummary: string,
    afterSummary: string,
    impactAnalysis: string,
    recommendations: seq<N.Advice>)

  /** The briefing `generate_narrative` writes for the result. */
  function BriefingOf(result: Sim.ScenarioResult, f: Sim.Formats): Briefing {
    var direct := N.OfType(result.impacts, Sim.Direct);
    Briefing(
      N.BeforeSummary(N.SummaryName(result), result.before, f),
      N.AfterSummary(direct, f),
      N.ImpactAnalysis(result.action, direct, f),
      N.Recommendations(result.action, result, f))
  }

  function ScenarioRecommendation(result: Sim.ScenarioResult): string {
    if result.warnings != [] then CautionPrefix + ActionDesc(result.action)
    else RecommendPrefix + ActionDesc(result.action)
  }

  function ScenarioRationale(result: Sim.ScenarioResult, b: Briefing, f: Sim.Formats): string {
    if result.warnings != [] then
      "Scenario modelled successfully but " + NatToString(|result.warnings|) + " warning(s) flagged: "
      + Join(N.WarningTexts(Sorting.Take(result.warnings, 2), f), "; ") + "."
    else if b.recommendations != [] then Join(N.AdviceTexts(b.recommendations), "; ")
    else Manageable
  }

  /** The names of the impacted projects, or the action's project when nothing is impacted. */
  predicate AffectedNames(result: Sim.ScenarioResult, names: seq<string>) {
    if result.impacts == [] then names == [result.action.project]
    else Elements(names) == ImpactNameSet(result.impacts) && |names| == |ImpactNameSet(result.impacts)|
  }

  function ImpactNameSet(cs: seq<Sim.ProjectImpact>): (r: set<string>)
    ensures forall n :: n in r <==> exists i :: 0 <= i < |cs| && cs[i].projectName == n
  {
    set i | 0 <= i < |cs| :: cs[i].projectName
  }

  /** `decision_from_scenario` once the identifier, the affected names and the briefing are known. */
  function ScenarioDecision(
    result: Sim.ScenarioResult, b: Briefing, names: seq<string>, id: string, day: int, f: Sim.Formats)
    : (d: Decision)
    ensures d.decisionId == id && d.date == day && d.projectsAffected == names
    ensures d.status == Pending && d.source == FromScenario
  {
    var desc := ActionDesc(result.action);
    Decision(
      id, day, "Scenario: " + desc, "Scenario simulation for " + result.action.project + ".", names,
      [ DecisionOption("Apply: " + desc, Or(b.impactAnalysis, b.afterSummary), b.afterSummary),
        DecisionOption(DoNothingLabel, DoNothingDescription, Or(b.beforeSummary, NoChange)) ],
      ScenarioRecommendation(result), ScenarioRationale(result, b, f), Pending, FromScenario)
  }

  /** The recommendation starts "Proceed with caution" exactly when the simulation warned. */
  lemma CautionIffWarnings(result: Sim.ScenarioResult)
    ensures var r := ScenarioRecommendation(result);
            (|r| >= |CautionPrefix| && r[..|CautionPrefix|] == CautionPrefix) <==> result.warnings != []
  {
    var r := ScenarioRecommendation(result);
    if result.warnings == [] {
      assert r[0] == 'R' && CautionPrefix[0] == 'P';
    } else {
      assert r[..|CautionPrefix|] == CautionPrefix;
    }
  }

  /** Two options: apply the action, or keep the plan; the recommendation names the same action as the first. */
  lemma ScenarioOptions(result: Sim.ScenarioResult, b: Briefing, names: seq<string>, id: string, day: int, f: Sim.Formats)
    ensures var d := ScenarioDecision(result, b, names, id, day, f);
            |d.options| == 2
            && d.options[0].caption == "Apply: " + ActionDesc(result.action)
            && d.options[1].caption == DoNothingLabel
            && d.options[0].impactSummary == b.afterSummary
            && (b.impactAnalysis != "" ==> d.options[0].description == b.impactAnalysis)
            && (b.beforeSummary == "" ==> d.options[1].impactSummary == NoChange)
  {
  }

  /** Without warnings the rationale is the narrative's advice, or a fixed line when it has none. */
  lemma RationaleWithoutWarnings(result: Sim.ScenarioResult, b: Briefing, f: Sim.Formats)
    requires result.warnings == []
    ensures b.recommendations == [] ==> ScenarioRationale(result, b, f) == Manageable
    ensures b.recommendations != [] ==> ScenarioRationale(result, b, f) == Join(N.AdviceTexts(b.recommendations), "; ")
  {
  }

  /** The distinct impacted names, in set order. */
  method AffectedProjects(result: Sim.ScenarioResult) returns (names: seq<string>)
    ensures AffectedNames(result, names)
  {
    names := Graph.ListOf(ImpactNameSet(result.impacts));
    if result.impacts == [] {
      names := [result.action.project];
    }
  }

  /** An action with no impacts affects just its own project; otherwise every impacted project, once. */
  lemma AffectedNamesMeaning(result: Sim.ScenarioResult, names: seq<string>)
    requires AffectedNames(result, names)
    ensures |names| >= 1
    ensures result.impacts == [] ==> names == [result.action.project]
    ensures result.impacts != [] ==>
              forall n :: n in names <==> exists i :: 0 <= i < |result.impacts| && result.impacts[i].projectName == n
  {
    if result.impacts != [] {
      assert result.impacts[0].projectName in ImpactNameSet(result.impacts);
      forall n ensures n in names <==> n in ImpactNameSet(result.impacts) {
        ElementsMembership(names, n);
      }
    }
  }

  lemma ElementsMembership(r: seq<string>, n: string)
    ensures n in Elements(r) <==> n in r
  {
    if r != [] {
      ElementsMembership(r[1..], n);
      assert r == [r[0]] + r[1..];
    }
  }

  /** `decision_from_scenario`: the new decision is numbered by the log and recorded in it. */
  method DecisionFromScenario(result: Sim.ScenarioResult, log: DecisionLog, day: int, f: Sim.Formats)
    returns (d: Decision)
    modifies log
    ensures AffectedNames(result, d.projectsAffected)
    ensures d == ScenarioDecision(result, BriefingOf(result, f), d.projectsAffected, DecisionId(log.counter), day, f)
    ensures log.counter == old(log.counter) + 1
    ensures log.decisions == old(log.decisions) + [d]
    ensures old(log.Numbered()) ==> log.Numbered()
  {
    var narrative := N.GenerateNarrative(result, f);
    var b := Briefing(narrative.beforeSummary, narrative.afterSummary, narrative.impactAnalysis, narrative.recommendations);
    assert b == BriefingOf(result, f);
    var names := AffectedProjects(result);
    d := Record(log, id => ScenarioDecision(result, b, names, id, day, f));
  }

  // ---------------------------------------------------------------------
  // From the risk report
  // ---------------------------------------------------------------------

  const EscalateLabel := "Escalate to executive review"
  const RiskOptions := [
    DecisionOption(EscalateLabel, "Schedule emergency review within 5 days.",
                   "Leadership intervention, possible resource reallocation."),
    DecisionOption("Enhanced monitoring", "Increase reporting frequency to weekly.",
                   "Earlier detection but no direct intervention."),
    DecisionOption("Accept risk", "Continue with current oversight level.",
                   "No additional overhead but risk of further deterioration.")]

  const Escalate := "Escalate "
  const RedProject := " Red project"
  const ToExecutive := " to executive review"
  const AtRedWithCombined := " projects at Red status with combined "
  const NeedsLeadership := " projects at Red status requires leadership attention — monitoring alone is insufficient."

  function RedOf(ss: seq<P.RiskSummary>): (r: seq<P.RiskSummary>)
    ensures |r| <= |ss|
    ensures forall s :: s in r <==> s in ss && s.ragStatus == "Red"
  {
    if ss == [] then [] else (if ss[0].ragStatus == "Red" then [ss[0]] else []) + RedOf(ss[1..])
  }

  /** The escalation decision for the Red projects `red` (non-empty). */
  function RiskDecision(red: seq<P.RiskSummary>, id: string, day: int): (d: Decision)
    ensures d.decisionId == id && d.date == day && d.status == Pending && d.source == FromRiskAnalysis
  {
    var n := NatToString(|red|);
    Decision(
      id, day,
      Escalate + n + RedProject + N.Plural(|red|) + ToExecutive,
      n + AtRedWithCombined + IntText(P.RiskCountSum(red)) + " risks.",
      Sorting.Take(P.SummaryNames(red), 5),
      RiskOptions,
      EscalateLabel,
      n + NeedsLeadership,
      Pending, FromRiskAnalysis)
  }

  /** The decisions `decisions_from_risk_report` returns, given the identifier it would issue. */
  function RiskDecisions(report: P.RiskReport, id: string, day: int): (r: seq<Decision>)
    ensures |r| <= 1 && forall d :: d in r ==> d.decisionId == id
  {
    var red := RedOf(report.projectSummaries);
    if red == [] then [] else [RiskDecision(red, id, day)]
  }

  /**
   * One decision exactly when some project is Red; it names at most five
   * projects, all of them Red, and recommends its own first option.
   */
  lemma RiskDecisionsShape(report: P.RiskReport, id: string, day: int)
    ensures |RiskDecisions(report, id, day)| == 1 <==> exists s :: s in report.projectSummaries && s.ragStatus == "Red"
    ensures |RiskDecisions(report, id, day)| <= 1
    ensures forall d :: d in RiskDecisions(report, id, day) ==>
              |d.projectsAffected| <= 5 && d.recommendation == d.options[0].caption && |d.options| == 3
    ensures forall d, n :: d in RiskDecisions(report, id, day) && n in d.projectsAffected ==>
              exists s :: s in report.projectSummaries && s.ragStatus == "Red" && s.projectName == n
  {
    var red := RedOf(report.projectSummaries);
    if red != [] {
      assert red[0] in red;
      var d := RiskDecision(red, id, day);
      forall n | n in d.projectsAffected
        ensures exists s :: s in report.projectSummaries && s.ragStatus == "Red" && s.projectName == n
      {
        var k :| 0 <= k < |d.projectsAffected| && d.projectsAffected[k] == n;
        assert red[k] in red;
      }
    }
  }

  /** `decisions_from_risk_report`: a number is issued only when a decision is recorded. */
  method DecisionsFromRiskReport(report: P.RiskReport, log: DecisionLog, day: int) returns (ds: seq<Decision>)
    modifies log
    ensures ds == RiskDecisions(report, DecisionId(log.counter), day)
    ensures log.counter == old(log.counter) + |ds|
    ensures log.decisions == old(log.decisions) + ds
    ensures old(log.Numbered()) ==> log.Numbered()
  {
    ds := [];
    var red := RedOf(report.projectSummaries);
    if red != [] {
      var d := Record(log, id => RiskDecision(red, id, day));
      ds := ds + [d];
    }
  }

  // ---------------------------------------------------------------------
  // From the investment review
  // ---------------------------------------------------------------------

  const FullDivestment := "Full divestment"
  const DivestRecommendation := "Full divestment — redirect budget to higher-ROI projects"
  const HigherValue := "higher-value initiatives"

  /** The money the divested projects would free: what is left of their budgets. */
  function Freed(pis: seq<Inv.ProjectInvestment>): real {
    BC.Sum(Inv.WithAction(pis, Inv.Divest), Inv.CostToCompleteOf)
  }

  /** Where freed money would go: up to three investment candidates, or a fixed phrase. */
  function InvestTargets(pis: seq<Inv.ProjectInvestment>): string {
    var invests := Inv.WithAction(pis, Inv.Invest);
    if invests != [] then Join(Inv.Names(Sorting.Take(invests, 3)), ", ") else HigherValue
  }

  const DivestFrom := "Divest from "
  const Reallocate := " — reallocate £"
  const DivestContext := " showing negative ROI with Red delivery status."
  const StopSpend := "Stop discretionary spend on "
  const Frees := "Frees £"
  const ForReallocation := " for reallocation to "
  const DivestRationale := "Continuing to invest in negative-ROI, Red-status projects erodes portfolio value. £"
  const BetterDeployed := " better deployed on "
  const OtherDivestOptions := [
    DecisionOption("Reduced scope", "Cut scope to minimum viable and reduce budget.",
                   "Partial savings, some benefit preserved."),
    DecisionOption("Continue as-is", "Maintain current investment level.",
                   "No freed budget. Risk of further value erosion.")]

  /** The title names the leading projects and ends with the amount freed. */
  function DivestTitle(lead: string, amount: string): (t: string)
    ensures |t| >= |amount| && t[|t| - |amount|..] == amount
  {
    DivestFrom + lead + Reallocate + amount
  }

  /** The reallocation decision for the divested projects `divests` (non-empty) of `pis`. */
  function InvestmentDecision(
    pis: seq<Inv.ProjectInvestment>, divests: seq<Inv.ProjectInvestment>, id: string, day: int, f: Sim.Formats)
    : (d: Decision)
    ensures d.decisionId == id && d.date == day && d.status == Pending && d.source == FromInvestmentReview
  {
    var names := Inv.Names(divests);
    var lead := Join(Sorting.Take(names, 2), ", ");
    var freed := f.money(Freed(pis));
    var targets := InvestTargets(pis);
    var full := DecisionOption(FullDivestment, StopSpend + lead + ".", Frees + freed + ForReallocation + targets + ".");
    Decision(
      id, day, DivestTitle(lead, freed),
      NatToString(|divests|) + " project" + N.Plural(|divests|) + DivestContext,
      names, [full] + OtherDivestOptions, DivestRecommendation,
      DivestRationale + freed + BetterDeployed + targets + ".",
      Pending, FromInvestmentReview)
  }

  /** The decisions `decisions_from_investment` returns, given the identifier it would issue. */
  function InvestmentDecisions(report: Inv.PortfolioInvestmentReport, id: string, day: int, f: Sim.Formats)
    : (r: seq<Decision>)
    ensures |r| <= 1 && forall d :: d in r ==> d.decisionId == id
  {
    var divests := Inv.WithAction(report.investments, Inv.Divest);
    if divests == [] then [] else [InvestmentDecision(report.investments, divests, id, day, f)]
  }

  /**
   * One decision exactly when some project is to be divested; it names
   * every divested project, in report order, and nothing else.
   */
  lemma InvestmentDecisionsShape(report: Inv.PortfolioInvestmentReport, id: string, day: int, f: Sim.Formats)
    ensures |InvestmentDecisions(report, id, day, f)| == 1 <==>
              exists pi :: pi in report.investments && pi.action == Inv.Divest
    ensures |InvestmentDecisions(report, id, day, f)| <= 1
    ensures forall d :: d in InvestmentDecisions(report, id, day, f) ==>
              d.projectsAffected == Inv.Names(Inv.WithAction(report.investments, Inv.Divest))
              && |d.options| == 3 && d.options[0].caption == FullDivestment
  {
    Inv.WithActionEmpty(report.investments, Inv.Divest);
  }

  /**
   * The amount in the title is the divested projects' remaining cost: the
   * same amount the investment report's own divest advice quotes.
   */
  lemma FreedMatchesAdvice(report: Inv.PortfolioInvestmentReport, id: string, day: int, f: Sim.Formats)
    requires exists pi :: pi in report.investments && pi.action == Inv.Divest
    ensures var d := InvestmentDecisions(report, id, day, f)[0];
            var m := f.money(Freed(report.investments));
            |d.title| >= |m| && d.title[|d.title| - |m|..] == m
    ensures Inv.Recommendations(report.investments, report.portfolioRoi)[0] ==
              Inv.DivestAdvice(Inv.Names(Sorting.Take(Inv.WithAction(report.investments, Inv.Divest), 3)), Freed(report.investments))
  {
    Inv.WithActionEmpty(report.investments, Inv.Divest);
    Inv.DivestAdviceIff(report.investments, report.portfolioRoi);
    var divests := Inv.WithAction(report.investments, Inv.Divest);
    var d := InvestmentDecision(report.investments, divests, id, day, f);
    var m := f.money(Freed(report.investments));
    assert d.title == DivestTitle(Join(Sorting.Take(Inv.Names(divests), 2), ", "), m);
  }

  /** `decisions_from_investment`: a number is issued only when a decision is recorded. */
  method DecisionsFromInvestment(report: Inv.PortfolioInvestmentReport, log: DecisionLog, day: int, f: Sim.Formats)
    returns (ds: seq<Decision>)
    modifies log
    ensures ds == InvestmentDecisions(report, DecisionId(log.counter), day, f)
    ensures log.counter == old(log.counter) + |ds|
    ensures log.decisions == old(log.decisions) + ds
    ensures old(log.Numbered()) ==> log.Numbered()
  {
    ds := [];
    var divests := Inv.WithAction(report.investments, Inv.Divest);
    if divests != [] {
      var d := Record(log, id => InvestmentDecision(report.investments, divests, id, day, f));
      ds := ds + [d];
    }
  }

  /**
   * Starting from a numbered log, the three generators leave it numbered:
   * every identifier in the log is issued once and names its place.
   */
  method GenerateAll(
    log: DecisionLog, result: Sim.ScenarioResult, risks: P.RiskReport,
    investments: Inv.PortfolioInvestmentReport, day: int, f: Sim.Formats)
    modifies log
    requires log.Numbered()
    ensures log.Numbered()
    ensures |old(log.decisions)| < |log.decisions| <= |old(log.decisions)| + 3
  {
    var d := DecisionFromScenario(result, log, day, f);
    var rs := DecisionsFromRiskReport(risks, log, day);
    var vs := DecisionsFromInvestment(investments, log, day, f);
  }
}
