/**
 * Investment analysis: per project, cost to complete, budget consumed,
 * expected and risk-adjusted benefit, return on investment and an
 * Invest / Hold / Divest / Review call; for the portfolio, a ranking by
 * return, totals, the divest-or-review projects with the most budget, and
 * recommendations.
 */
module Investment {
  import opened Wrappers
  import opened Text
  import P = Portfolio
  import BC = BenefitCalc
  import Sorting
  import Sim = Simulator

  datatype InvestmentAction = Invest | Hold | Divest | Review

  /** Why a project got its call; the wording is rendered by `ReasonText`. */
  datatype Reason =
    | StrongReturn(roi: real)
    | ReturnAtRisk(roi: real, rag: string, drift: real)
    | NegativeAndRed(roi: real)
    | EarlyStage(roi: real)
    | ConsumedLowReturn(pct: real, roi: real)
    | Moderate(roi: real, rag: string)

  datatype ProjectInvestment = ProjectInvestment(
    projectName: string,
    budget: real,
    actualSpend: real,
    costToComplete: real,
    pctBudgetConsumed: real,
    expectedBenefit: real,
    adjustedBenefit: real,
    roi: real,
    roiRank: nat,
    ragStatus: string,
    riskCount: int,
    driftPct: real,
    action: InvestmentAction,
    rationale: Reason)

  // ---------------------------------------------------------------------
  // The call
  // ---------------------------------------------------------------------

  /** `_determine_action`: the first rule that applies decides. */
  function DetermineAction(rag: string, roi: real, drift: real, riskCount: int, pct: real)
    : (InvestmentAction, Reason)
  {
    if roi > 0.5 && (rag == "Green" || rag == "Amber") && drift < 0.3 then (Invest, StrongReturn(roi))
    else if roi > 0.0 && (rag == "Red" || drift > 0.3) then (Review, ReturnAtRisk(roi, rag, drift))
    else if roi < 0.0 && rag == "Red" then (Divest, NegativeAndRed(roi))
    else if roi < 0.0 && rag == "Green" then (Review, EarlyStage(roi))
    else if pct > 0.8 && roi < 0.1 then (Divest, ConsumedLowReturn(pct, roi))
    else (Hold, Moderate(roi, rag))
  }

  /** Invest exactly for a strong return on a Green or Amber project drifting under 30 %. */
  lemma InvestIff(rag: string, roi: real, drift: real, riskCount: int, pct: real)
    ensures DetermineAction(rag, roi, drift, riskCount, pct).0 == Invest <==>
              roi > 0.5 && (rag == "Green" || rag == "Amber") && drift < 0.3
  {
  }

  /** Divest only on a return under 10 %, and always for a negative return on a Red project. */
  lemma DivestNeedsLowReturn(rag: string, roi: real, drift: real, riskCount: int, pct: real)
    ensures DetermineAction(rag, roi, drift, riskCount, pct).0 == Divest ==> roi < 0.1
    ensures roi < 0.0 && rag == "Red" ==> DetermineAction(rag, roi, drift, riskCount, pct).0 == Divest
    ensures DetermineAction(rag, roi, drift, riskCount, pct).0 == Divest ==> rag == "Red" || pct > 0.8
  {
  }

  /** A Red project with a positive return is reviewed, never invested in or held. */
  lemma RedPositiveIsReviewed(roi: real, drift: real, riskCount: int, pct: real)
    requires roi > 0.0
    ensures DetermineAction("Red", roi, drift, riskCount, pct).0 == Review
  {
  }

  /** The call carries the reason given for it. */
  lemma ReasonMatchesAction(rag: string, roi: real, drift: real, riskCount: int, pct: real)
    ensures var (a, r) := DetermineAction(rag, roi, drift, riskCount, pct);
            (a == Invest <==> r.StrongReturn?)
            && (a == Hold <==> r.Moderate?)
            && (a == Divest <==> r.NegativeAndRed? || r.ConsumedLowReturn?)
            && (a == Review <==> r.ReturnAtRisk? || r.EarlyStage?)
  {
  }

  /**
   * A strong return on a Green project drifting exactly 30 % falls
   * between the invest rule (drift under 30 %) and the review rule
   * (drift over 30 %), and is held.
   */
  lemma DriftOfExactlyThirtyIsHeld()
    ensures DetermineAction("Green", 0.6, 0.3, 0, 0.5).0 == Hold
  {
  }

  function ReasonText(r: Reason, f: Sim.Formats): string {
    match r
    case StrongReturn(roi) =>
      "Strong ROI (" + f.percent(roi) + ") with manageable risk. "
      + "Consider accelerating delivery to realise benefits sooner."
    case ReturnAtRisk(roi, rag, drift) =>
      "Positive ROI (" + f.percent(roi) + ") but delivery at risk (RAG: " + rag + ", drift: " + f.percent(drift)
      + "). Protect the benefit case — resolve blockers or adjust scope to lock in remaining value."
    case NegativeAndRed(roi) =>
      "Negative ROI (" + f.percent(roi) + ") and Red delivery status. "
      + "Recommend stopping discretionary spend and redirecting budget to higher-value projects."
    case EarlyStage(roi) =>
      "ROI currently negative (" + f.percent(roi) + ") but delivery is on track. "
      + "May be early-stage investment — confirm benefit timeline and reassess at next cycle."
    case ConsumedLowReturn(pct, roi) =>
      "Budget " + f.percent(pct) + " consumed with minimal return (" + f.percent(roi) + " ROI). "
      + "Consider controlled wind-down or scope reduction."
    case Moderate(roi, rag) =>
      "Moderate position (ROI: " + f.percent(roi) + ", RAG: " + rag + "). "
      + "Continue current trajectory with standard risk monitoring."
  }

  // ---------------------------------------------------------------------
  // One project
  // ---------------------------------------------------------------------

  /** `max(0, budget - actual)` */
  function CostToComplete(budget: real, actual: real): (c: real)
    ensures c >= 0.0 && c >= budget - actual
    ensures c == 0.0 || c == budget - actual
  {
    if budget - actual > 0.0 then budget - actual else 0.0
  }

  /** `{"Red": 0.5, "Amber": 0.7, "Green": 0.9}.get(rag, 0.7)`: the share of budget assumed to come back without benefit data. */
  function ProxyFactor(rag: string): (r: real)
    ensures 0.5 <= r <= 0.9
  {
    if rag == "Red" then 0.5 else if rag == "Amber" then 0.7 else if rag == "Green" then 0.9 else 0.7
  }

  /** The first benefit summary whose project name matches, ignoring case. */
  function MatchBenefits(name: string, ss: seq<BC.ProjectBenefitSummary>): (r: Option<BC.ProjectBenefitSummary>)
    ensures r.Some? ==> r.value in ss && Lower(r.value.projectName) == Lower(name)
    ensures r.None? <==> forall i :: 0 <= i < |ss| ==> Lower(ss[i].projectName) != Lower(name)
  {
    if ss == [] then None
    else if Lower(ss[0].projectName) == Lower(name) then Some(ss[0])
    else MatchBenefits(name, ss[1..])
  }

  /** The RAG status and risk count the risk report gives the project: Green and 0 when absent. */
  function RiskView(name: string, report: P.RiskReport): (string, int) {
    var m := BC.MatchSummary(name, report.projectSummaries);
    if m.Some? then (m.value.ragStatus, m.value.riskCount) else ("Green", 0)
  }

  /** The expected benefit, adjusted benefit and drift: from the benefit report, or the budget as a proxy without one. */
  function BenefitView(name: string, budget: real, rag: string, benefits: Option<BC.PortfolioBenefitReport>)
    : (real, real, real)
  {
    if benefits.None? then (budget, budget * ProxyFactor(rag), 0.0)
    else
      var m := MatchBenefits(name, benefits.value.summaries);
      if m.Some? then (m.value.totalExpected, m.value.adjustedExpected, m.value.driftPct) else (0.0, 0.0, 0.0)
  }

  /** `(adjusted - budget) / budget if budget > 0 else 0.0` */
  function Roi(adjusted: real, budget: real): (r: real)
    ensures budget > 0.0 ==> r * budget == adjusted - budget
    ensures budget <= 0.0 ==> r == 0.0
  {
    if budget > 0.0 then (adjusted - budget) / budget else 0.0
  }

  /** `_analyse_project_investment` as a value (rank 0 until ranked). */
  function Assess(project: P.Project, risks: P.RiskReport, benefits: Option<BC.PortfolioBenefitReport>)
    : (pi: ProjectInvestment)
    ensures pi.projectName == project.name && pi.roiRank == 0
  {
    var budget := project.budget;
    var actual := project.actualSpend;
    var (rag, count) := RiskView(project.name, risks);
    var (expected, adjusted, drift) := BenefitView(project.name, budget, rag, benefits);
    var roi := Roi(adjusted, budget);
    var pct := BC.Ratio(actual, budget);
    var (action, reason) := DetermineAction(rag, roi, drift, count, pct);
    ProjectInvestment(
      project.name, budget, actual, CostToComplete(budget, actual), pct,
      expected, adjusted, roi, 0, rag, count, drift, action, reason)
  }

  /** The search of the risk summaries in `_analyse_project_investment`. */
  method FindRisk(name: string, report: P.RiskReport) returns (rag: string, count: int)
    ensures (rag, count) == RiskView(name, report)
  {
    rag, count := "Green", 0;
    var ss := report.projectSummaries;
    var k := 0;
    while k < |ss|
      invariant 0 <= k <= |ss|
      invariant BC.MatchSummary(name, ss) == BC.MatchSummary(name, ss[k..])
    {
      assert ss[k..][1..] == ss[k + 1..];
      if Lower(ss[k].projectName) == Lower(name) {
        rag, count := ss[k].ragStatus, ss[k].riskCount;
        return;
      }
      k := k + 1;
    }
  }

  /** The search of the benefit summaries in `_analyse_project_investment`, or the budget proxy. */
  method FindBenefits(name: string, budget: real, rag: string, benefits: Option<BC.PortfolioBenefitReport>)
    returns (expected: real, adjusted: real, drift: real)
    ensures (expected, adjusted, drift) == BenefitView(name, budget, rag, benefits)
  {
    if benefits.None? {
      return budget, budget * ProxyFactor(rag), 0.0;
    }
    expected, adjusted, drift := 0.0, 0.0, 0.0;
    var bs := benefits.value.summaries;
    var j := 0;
    while j < |bs|
      invariant 0 <= j <= |bs|
      invariant MatchBenefits(name, bs) == MatchBenefits(name, bs[j..])
    {
      assert bs[j..][1..] == bs[j + 1..];
      if Lower(bs[j].projectName) == Lower(name) {
        expected, adjusted, drift := bs[j].totalExpected, bs[j].adjustedExpected, bs[j].driftPct;
        return;
      }
      j := j + 1;
    }
  }

  method AnalyseProjectInvestment(
    project: P.Project, risks: P.RiskReport, benefits: Option<BC.PortfolioBenefitReport>)
    returns (pi: ProjectInvestment)
    ensures pi == Assess(project, risks, benefits)
  {
    var budget := project.budget;
    var actual := project.actualSpend;
    var rag, count := FindRisk(project.name, risks);
    var expected, adjusted, drift := FindBenefits(project.name, budget, rag, benefits);
    var roi := Roi(adjusted, budget);
    var pct := BC.Ratio(actual, budget);
    var (action, reason) := DetermineAction(rag, roi, drift, count, pct);
    pi := ProjectInvestment(
      project.name, budget, actual, CostToComplete(budget, actual), pct,
      expected, adjusted, roi, 0, rag, count, drift, action, reason);
  }

  /** Without a benefit report the return is the proxy's loss: never positive, so never an investment. */
  lemma ProxyNeverInvests(project: P.Project, risks: P.RiskReport)
    requires project.budget > 0.0
    ensures var pi := Assess(project, risks, None);
            pi.roi == ProxyFactor(pi.ragStatus) - 1.0 && pi.roi < 0.0 && pi.action != Invest
  {
    var pi := Assess(project, risks, None);
    var b := project.budget;
    var f := ProxyFactor(pi.ragStatus);
    assert pi.roi == Roi(b * f, b);
    RoiOfShare(f, b);
  }

  /** A benefit of `f` times the budget is a return of `f - 1`. */
  lemma RoiOfShare(f: real, b: real)
    requires b > 0.0
    ensures Roi(b * f, b) == f - 1.0
  {
    var adjusted := b * f;
    var r := Roi(adjusted, b);
    assert r * b == adjusted - b;
    assert (f - 1.0) * b == adjusted - b;
    if r < f - 1.0 {
      Sim.MulStrict(r, f - 1.0, b);
    } else if r > f - 1.0 {
      Sim.MulStrict(f - 1.0, r, b);
    }
  }

  /** A budgeted project missing from a benefit report counts as returning nothing: ROI of -100 %. */
  lemma MissingFromBenefitReport(project: P.Project, risks: P.RiskReport, benefits: BC.PortfolioBenefitReport)
    requires project.budget > 0.0
    requires forall s :: s in benefits.summaries ==> Lower(s.projectName) != Lower(project.name)
    ensures Assess(project, risks, Some(benefits)).expectedBenefit == 0.0
    ensures Assess(project, risks, Some(benefits)).roi == -1.0
  {
    var ss := benefits.summaries;
    forall i | 0 <= i < |ss| ensures Lower(ss[i].projectName) != Lower(project.name) {
      assert ss[i] in ss;
    }
    assert BenefitView(project.name, project.budget, RiskView(project.name, risks).0, Some(benefits)) == (0.0, 0.0, 0.0);
    RoiOfShare(0.0, project.budget);
    assert project.budget * 0.0 == 0.0;
  }

  /** What is left to spend and what has been spent make up at least the budget. */
  lemma SpendAccounting(project: P.Project, risks: P.RiskReport, benefits: Option<BC.PortfolioBenefitReport>)
    ensures Assess(project, risks, benefits).costToComplete >= 0.0
    ensures Assess(project, risks, benefits).costToComplete + project.actualSpend >= project.budget
    ensures project.actualSpend <= project.budget ==>
              Assess(project, risks, benefits).costToComplete + project.actualSpend == project.budget
  {
  }

  // ---------------------------------------------------------------------
  // Ranking
  // ---------------------------------------------------------------------

  function RoiOf(pi: ProjectInvestment): real { pi.roi }

  function BudgetOf(pi: ProjectInvestment): real { pi.budget }

  function SpendOf(pi: ProjectInvestment): real { pi.actualSpend }

  function CostToCompleteOf(pi: ProjectInvestment): real { pi.costToComplete }

  function ExpectedOf(pi: ProjectInvestment): real { pi.expectedBenefit }

  function AdjustedOf(pi: ProjectInvestment): real { pi.adjustedBenefit }

  /** The investments with their ranks cleared. */
  function Unranked(pis: seq<ProjectInvestment>): (r: seq<ProjectInvestment>)
    ensures |r| == |pis| && forall i :: 0 <= i < |pis| ==> r[i] == pis[i].(roiRank := 0)
  {
    seq(|pis|, i requires 0 <= i < |pis| => pis[i].(roiRank := 0))
  }

  /** Sort by return, highest first, and number the result from 1. */
  method RankByRoi(pis: seq<ProjectInvestment>) returns (ranked: seq<ProjectInvestment>)
    requires forall pi :: pi in pis ==> pi.roiRank == 0
    ensures Sorting.SortedDescending(ranked, RoiOf)
    ensures forall i :: 0 <= i < |ranked| ==> ranked[i].roiRank == i + 1
    ensures multiset(Unranked(ranked)) == multiset(pis)
    ensures Sorting.SameBuckets(Unranked(ranked), pis, RoiOf)
  {
    var sorted := Sorting.SortDescending(pis, RoiOf);
    ranked := [];
    for k := 0 to |sorted|
      invariant |ranked| == k
      invariant forall i :: 0 <= i < k ==> ranked[i] == sorted[i].(roiRank := i + 1)
    {
      ranked := ranked + [sorted[k].(roiRank := k + 1)];
    }
    forall i | 0 <= i < |sorted| ensures Unranked(ranked)[i] == sorted[i] {
      assert sorted[i] in multiset(pis);
    }
    assert Unranked(ranked) == sorted;
  }

  // ---------------------------------------------------------------------
  // Value at risk
  // ---------------------------------------------------------------------

  predicate AtRisk(pi: ProjectInvestment) {
    (pi.action == Divest || pi.action == Review) && pi.budget > 0.0
  }

  function AtRiskOf(pis: seq<ProjectInvestment>): (r: seq<ProjectInvestment>)
    ensures forall pi :: pi in r <==> pi in pis && AtRisk(pi)
  {
    if pis == [] then [] else (if AtRisk(pis[0]) then [pis[0]] else []) + AtRiskOf(pis[1..])
  }

  /**
   * The three divest-or-review projects with the largest budgets; of projects with equal
   * budgets, the ones listed first are kept.
   */
  method TopValueAtRisk(pis: seq<ProjectInvestment>) returns (top: seq<ProjectInvestment>)
    ensures |top| == if |AtRiskOf(pis)| < 3 then |AtRiskOf(pis)| else 3
    ensures multiset(top) <= multiset(AtRiskOf(pis))
    ensures Sorting.SortedDescending(top, BudgetOf)
    ensures forall x, y :: x in AtRiskOf(pis) && x !in top && y in top ==> BudgetOf(y) >= BudgetOf(x)
    ensures Sorting.EarliestBuckets(top, AtRiskOf(pis), BudgetOf)
  {
    var all := AtRiskOf(pis);
    var sorted := Sorting.SortDescending(all, BudgetOf);
    assert |multiset(sorted)| == |multiset(all)|;
    top := Sorting.Take(sorted, 3);
    BC.TakeIsLargest(all, sorted, 3, BudgetOf);
    Sorting.TakeSubMultiset(sorted, 3);
    Sorting.PrefixEarliest(top, sorted, BudgetOf);
  }

  // ---------------------------------------------------------------------
  // Recommendations
  // ---------------------------------------------------------------------

  datatype InvestmentAdvice =
    | DivestAdvice(names: seq<string>, freed: real)
    | AccelerateAdvice(names: seq<string>)
    | ReviewAdvice(names: seq<string>)
    | RebalanceAdvice(roi: real)
    | HealthyAdvice

  function WithAction(pis: seq<ProjectInvestment>, a: InvestmentAction): (r: seq<ProjectInvestment>)
    ensures forall pi :: pi in r <==> pi in pis && pi.action == a
  {
    if pis == [] then [] else (if pis[0].action == a then [pis[0]] else []) + WithAction(pis[1..], a)
  }

  function Names(pis: seq<ProjectInvestment>): (r: seq<string>)
    ensures |r| == |pis| && forall i :: 0 <= i < |pis| ==> r[i] == pis[i].projectName
  {
    seq(|pis|, i requires 0 <= i < |pis| => pis[i].projectName)
  }

  /** The advice the rules call for, before the fallback. */
  function Advised(pis: seq<ProjectInvestment>, portfolioRoi: real): (r: seq<InvestmentAdvice>)
    ensures |r| <= 4 && HealthyAdvice !in r
  {
    var divests := WithAction(pis, Divest);
    var invests := WithAction(pis, Invest);
    var reviews := WithAction(pis, Review);
    var divest := DivestAdvice(Names(Sorting.Take(divests, 3)), BC.Sum(divests, CostToCompleteOf));
    var accelerate := AccelerateAdvice(Names(Sorting.Take(invests, 3)));
    var review := ReviewAdvice(Names(Sorting.Take(reviews, 3)));
    var rebalance := RebalanceAdvice(portfolioRoi);
    WhenHolds(divests != [], divest, HealthyAdvice);
    WhenHolds(invests != [], accelerate, HealthyAdvice);
    WhenHolds(reviews != [], review, HealthyAdvice);
    WhenHolds(portfolioRoi < 0.0, rebalance, HealthyAdvice);
    When(divests != [], divest) + When(invests != [], accelerate) + When(reviews != [], review)
    + When(portfolioRoi < 0.0, rebalance)
  }

  /** `_generate_investment_recommendations`, before wording. */
  function Recommendations(pis: seq<ProjectInvestment>, portfolioRoi: real): (r: seq<InvestmentAdvice>)
    ensures 1 <= |r| <= 4
  {
    var advised := Advised(pis, portfolioRoi);
    if advised == [] then [HealthyAdvice] else advised
  }

  lemma WithActionEmpty(pis: seq<ProjectInvestment>, a: InvestmentAction)
    ensures WithAction(pis, a) == [] <==> forall pi :: pi in pis ==> pi.action != a
  {
    if WithAction(pis, a) != [] {
      assert WithAction(pis, a)[0] in WithAction(pis, a);
    }
  }

  /** Divest advice leads exactly when some project is divested; the money it frees is their remaining cost, never negative. */
  lemma DivestAdviceIff(pis: seq<ProjectInvestment>, portfolioRoi: real)
    ensures (exists pi :: pi in pis && pi.action == Divest) <==> Recommendations(pis, portfolioRoi)[0].DivestAdvice?
    ensures Recommendations(pis, portfolioRoi)[0].DivestAdvice? ==>
              Recommendations(pis, portfolioRoi)[0].freed == BC.Sum(WithAction(pis, Divest), CostToCompleteOf)
    ensures (forall pi :: pi in pis ==> pi.costToComplete >= 0.0) && Recommendations(pis, portfolioRoi)[0].DivestAdvice? ==>
              Recommendations(pis, portfolioRoi)[0].freed >= 0.0
  {
    var divests := WithAction(pis, Divest);
    WithActionEmpty(pis, Divest);
    if forall pi :: pi in pis ==> pi.costToComplete >= 0.0 {
      forall i | 0 <= i < |divests| ensures CostToCompleteOf(divests[i]) >= 0.0 {
        assert divests[i] in divests;
      }
      BC.SumNonNegative(divests, CostToCompleteOf);
    }
  }

  /** Rebalancing is advised exactly when the portfolio return is negative. */
  lemma RebalanceIff(pis: seq<ProjectInvestment>, portfolioRoi: real)
    ensures RebalanceAdvice(portfolioRoi) in Recommendations(pis, portfolioRoi) <==> portfolioRoi < 0.0
  {
    var divests := WithAction(pis, Divest);
    var invests := WithAction(pis, Invest);
    var reviews := WithAction(pis, Review);
    var divest := DivestAdvice(Names(Sorting.Take(divests, 3)), BC.Sum(divests, CostToCompleteOf));
    var accelerate := AccelerateAdvice(Names(Sorting.Take(invests, 3)));
    var review := ReviewAdvice(Names(Sorting.Take(reviews, 3)));
    var rebalance := RebalanceAdvice(portfolioRoi);
    WhenHolds(divests != [], divest, rebalance);
    WhenHolds(invests != [], accelerate, rebalance);
    WhenHolds(reviews != [], review, rebalance);
    WhenHolds(portfolioRoi < 0.0, rebalance, rebalance);
    assert Advised(pis, portfolioRoi) ==
      When(divests != [], divest) + When(invests != [], accelerate) + When(reviews != [], review)
      + When(portfolioRoi < 0.0, rebalance);
  }

  /** "Healthy" is given only when no project is to be divested, accelerated or reviewed and the return is not negative, and then alone. */
  lemma HealthyIff(pis: seq<ProjectInvestment>, portfolioRoi: real)
    ensures HealthyAdvice in Recommendations(pis, portfolioRoi) <==>
              portfolioRoi >= 0.0 && forall pi :: pi in pis ==> pi.action == Hold
    ensures HealthyAdvice in Recommendations(pis, portfolioRoi) ==> Recommendations(pis, portfolioRoi) == [HealthyAdvice]
  {
    WithActionEmpty(pis, Divest);
    WithActionEmpty(pis, Invest);
    WithActionEmpty(pis, Review);
    var divests := WithAction(pis, Divest);
    var invests := WithAction(pis, Invest);
    var reviews := WithAction(pis, Review);
    assert |Advised(pis, portfolioRoi)| ==
      (if divests != [] then 1 else 0) + (if invests != [] then 1 else 0)
      + (if reviews != [] then 1 else 0) + (if portfolioRoi < 0.0 then 1 else 0);
  }

  function AdviceText(a: InvestmentAdvice, f: Sim.Formats): string {
    match a
    case DivestAdvice(names, freed) =>
      "Divest: " + Join(names, ", ") + " — stop or reduce discretionary spend. Potential £" + f.money(freed)
      + " reallocation to higher-value projects."
    case AccelerateAdvice(names) =>
      "Accelerate: " + Join(names, ", ") + " — strong ROI and manageable risk. "
      + "Consider additional resource to pull delivery forward."
    case ReviewAdvice(names) =>
      "Review: " + Join(names, ", ") + " — positive potential but delivery risk is eroding the benefit case. "
      + "Schedule deep-dive review within 2 weeks."
    case RebalanceAdvice(roi) =>
      "Portfolio ROI is negative (" + f.percent(roi) + "). The current investment mix is not generating adequate "
      + "return. Recommend portfolio rebalancing — shift budget from low-ROI to high-ROI projects."
    case HealthyAdvice =>
      "Portfolio investment is broadly healthy. Continue standard monitoring "
      + "and reassess allocation at next quarterly review."
  }

  // ---------------------------------------------------------------------
  // Portfolio
  // ---------------------------------------------------------------------

  datatype PortfolioInvestmentReport = PortfolioInvestmentReport(
    totalBudget: real,
    totalSpent: real,
    totalCostToComplete: real,
    pctBudgetConsumed: real,
    totalExpectedBenefit: real,
    totalAdjustedBenefit: real,
    portfolioRoi: real,
    investments: seq<ProjectInvestment>,
    topValueAtRisk: seq<ProjectInvestment>,
    recommendations: seq<InvestmentAdvice>)

  function AssessAll(projects: seq<P.Project>, risks: P.RiskReport, benefits: Option<BC.PortfolioBenefitReport>)
    : (r: seq<ProjectInvestment>)
    ensures |r| == |projects| && forall i :: 0 <= i < |projects| ==> r[i] == Assess(projects[i], risks, benefits)
  {
    seq(|projects|, i requires 0 <= i < |projects| => Assess(projects[i], risks, benefits))
  }

  /** The loop over projects. */
  method AssessProjects(projects: seq<P.Project>, risks: P.RiskReport, benefits: Option<BC.PortfolioBenefitReport>)
    returns (pis: seq<ProjectInvestment>)
    ensures pis == AssessAll(projects, risks, benefits)
  {
    pis := [];
    for k := 0 to |projects|
      invariant |pis| == k
      invariant forall i :: 0 <= i < k ==> pis[i] == Assess(projects[i], risks, benefits)
    {
      var pi := AnalyseProjectInvestment(projects[k], risks, benefits);
      pis := pis + [pi];
    }
  }

  /** Ranking changes the order, not the totals. */
  lemma RankedTotals(ranked: seq<ProjectInvestment>, pis: seq<ProjectInvestment>, v: ProjectInvestment -> real)
    requires multiset(Unranked(ranked)) == multiset(pis)
    requires forall pi: ProjectInvestment :: v(pi) == v(pi.(roiRank := 0))
    ensures BC.Sum(ranked, v) == BC.Sum(pis, v)
  {
    BC.SumPermutation(Unranked(ranked), pis, v);
    UnrankedSum(ranked, v);
  }

  lemma {:induction false} UnrankedSum(pis: seq<ProjectInvestment>, v: ProjectInvestment -> real)
    requires forall pi: ProjectInvestment :: v(pi) == v(pi.(roiRank := 0))
    ensures BC.Sum(Unranked(pis), v) == BC.Sum(pis, v)
  {
    if pis != [] {
      assert Unranked(pis)[1..] == Unranked(pis[1..]);
      UnrankedSum(pis[1..], v);
    }
  }

  /** `analyse_investments` */
  method AnalyseInvestments(projects: seq<P.Project>, risks: P.RiskReport, benefits: Option<BC.PortfolioBenefitReport>)
    returns (r: PortfolioInvestmentReport)
    ensures multiset(Unranked(r.investments)) == multiset(AssessAll(projects, risks, benefits))
    ensures Sorting.SameBuckets(Unranked(r.investments), AssessAll(projects, risks, benefits), RoiOf)
    ensures Sorting.SortedDescending(r.investments, RoiOf)
    ensures forall i :: 0 <= i < |r.investments| ==> r.investments[i].roiRank == i + 1
    ensures r.totalBudget == BC.Sum(AssessAll(projects, risks, benefits), BudgetOf)
    ensures r.totalSpent == BC.Sum(AssessAll(projects, risks, benefits), SpendOf)
    ensures r.totalCostToComplete == BC.Sum(AssessAll(projects, risks, benefits), CostToCompleteOf)
    ensures r.totalExpectedBenefit == BC.Sum(r.investments, ExpectedOf)
    ensures r.totalAdjustedBenefit == BC.Sum(r.investments, AdjustedOf)
    ensures r.pctBudgetConsumed == BC.Ratio(r.totalSpent, r.totalBudget)
    ensures r.portfolioRoi == Roi(r.totalAdjustedBenefit, r.totalBudget)
    ensures |r.topValueAtRisk| == if |AtRiskOf(r.investments)| < 3 then |AtRiskOf(r.investments)| else 3
    ensures multiset(r.topValueAtRisk) <= multiset(AtRiskOf(r.investments))
    ensures Sorting.SortedDescending(r.topValueAtRisk, BudgetOf)
    ensures forall x, y :: x in AtRiskOf(r.investments) && x !in r.topValueAtRisk && y in r.topValueAtRisk ==>
              y.budget >= x.budget
    ensures Sorting.EarliestBuckets(r.topValueAtRisk, AtRiskOf(r.investments), BudgetOf)
    ensures r.recommendations == Recommendations(r.investments, r.portfolioRoi)
  {
    var pis := AssessProjects(projects, risks, benefits);
    var ranked := RankByRoi(pis);
    RankedTotals(ranked, pis, BudgetOf);
    RankedTotals(ranked, pis, SpendOf);
    RankedTotals(ranked, pis, CostToCompleteOf);
    var totalBudget := BC.Sum(ranked, BudgetOf);
    var totalSpent := BC.Sum(ranked, SpendOf);
    var totalCtc := BC.Sum(ranked, CostToCompleteOf);
    var totalAdjusted := BC.Sum(ranked, AdjustedOf);
    var roi := Roi(totalAdjusted, totalBudget);
    var top := TopValueAtRisk(ranked);
    r := PortfolioInvestmentReport(
      totalBudget, totalSpent, totalCtc, BC.Ratio(totalSpent, totalBudget), BC.Sum(ranked, ExpectedOf),
      totalAdjusted, roi, ranked, top, Recommendations(ranked, roi));
  }

  /** Nothing is left to spend below zero: the portfolio's cost to complete is never negative. */
  lemma TotalCostToCompleteNonNegative(projects: seq<P.Project>, risks: P.RiskReport, benefits: Option<BC.PortfolioBenefitReport>)
    ensures BC.Sum(AssessAll(projects, risks, benefits), CostToCompleteOf) >= 0.0
  {
    var pis := AssessAll(projects, risks, benefits);
    BC.SumNonNegative(pis, CostToCompleteOf);
  }
}
