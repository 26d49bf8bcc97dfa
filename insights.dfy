/**
 * The executive summary: the two or three most urgent things leadership
 * must act on, collected from the risk, benefit and investment reports,
 * ranked by priority, and written as one paragraph with an urgency line.
 */
module Insights {
  import opened Wrappers
  import opened Text
  import P = Portfolio
  import BC = BenefitCalc
  import Inv = Investment
  import Sorting
  import Sim = Simulator
  import Graph

  /** One urgent item; its priority (1 most urgent) is fixed by its kind. */
  datatype Item =
    | BudgetCritical(project: string)
    | RegulatoryDeadline(project: string, critical: nat)
    | BlockerCascade(blocker: string)
    | BenefitsDrifting(drift: real, atRisk: real)
    | StopSpend(names: seq<string>, freed: real)
    | Stalled(names: seq<string>)

  function Priority(it: Item): (p: nat)
    ensures 1 <= p <= 6
  {
    match it
    case BudgetCritical(_) => 1
    case RegulatoryDeadline(_, _) => 2
    case BlockerCascade(_) => 3
    case BenefitsDrifting(_, _) => 4
    case StopSpend(_, _) => 5
    case Stalled(_) => 6
  }

  function Last<T>(xs: seq<T>): T
    requires xs != []
  {
    xs[|xs| - 1]
  }

  function Front<T>(xs: seq<T>): seq<T>
    requires xs != []
  {
    xs[..|xs| - 1]
  }

  // ---------------------------------------------------------------------
  // 1. Budget-critical projects
  // ---------------------------------------------------------------------

  predicate CriticalBurn(r: P.Risk) {
    r.category == P.BurnRate && r.severity == P.Critical
  }

  predicate HasCriticalBurn(s: P.RiskSummary) {
    exists i :: 0 <= i < |s.risks| && CriticalBurn(s.risks[i])
  }

  /** One item per project with a critical burn-rate risk, in report order. */
  function BurnItems(ss: seq<P.RiskSummary>): seq<Item> {
    if ss == [] then [] else BurnItems(Front(ss)) + When(HasCriticalBurn(Last(ss)), BudgetCritical(Last(ss).projectName))
  }

  /** Exactly the projects with a critical burn-rate risk get an item, and no summary gets two. */
  lemma {:induction false} BurnItemsMeaning(ss: seq<P.RiskSummary>)
    ensures |BurnItems(ss)| <= |ss|
    ensures forall it :: it in BurnItems(ss) ==> it.BudgetCritical?
    ensures forall p :: BudgetCritical(p) in BurnItems(ss) <==>
              exists i :: 0 <= i < |ss| && ss[i].projectName == p && HasCriticalBurn(ss[i])
  {
    if ss != [] {
      var front := Front(ss);
      BurnItemsMeaning(front);
      forall p ensures BudgetCritical(p) in BurnItems(ss) <==>
                       exists i :: 0 <= i < |ss| && ss[i].projectName == p && HasCriticalBurn(ss[i])
      {
        if BudgetCritical(p) in BurnItems(front) {
          var i :| 0 <= i < |front| && front[i].projectName == p && HasCriticalBurn(front[i]);
          assert ss[i] == front[i];
        }
        if exists i :: 0 <= i < |ss| && ss[i].projectName == p && HasCriticalBurn(ss[i]) {
          var i :| 0 <= i < |ss| && ss[i].projectName == p && HasCriticalBurn(ss[i]);
          if i < |front| {
            assert front[i] == ss[i];
          }
        }
      }
    }
  }

  /** The inner loop: does some risk of the project burn critically? */
  method AnyCriticalBurn(rs: seq<P.Risk>) returns (found: bool)
    ensures found <==> exists i :: 0 <= i < |rs| && CriticalBurn(rs[i])
  {
    found := false;
    var j := 0;
    while j < |rs|
      invariant 0 <= j <= |rs|
      invariant forall i :: 0 <= i < j ==> !CriticalBurn(rs[i])
    {
      if CriticalBurn(rs[j]) {
        return true;
      }
      j := j + 1;
    }
  }

  method CollectBudgetCritical(ss: seq<P.RiskSummary>) returns (items: seq<Item>)
    ensures items == BurnItems(ss)
  {
    items := [];
    for k := 0 to |ss|
      invariant items == BurnItems(ss[..k])
    {
      assert Front(ss[..k + 1]) == ss[..k];
      var burns := AnyCriticalBurn(ss[k].risks);
      if burns {
        items := items + [BudgetCritical(ss[k].projectName)];
      }
    }
    assert ss[..|ss|] == ss;
  }

  // ---------------------------------------------------------------------
  // 2. Regulatory deadlines
  // ---------------------------------------------------------------------

  /** The project's name mentions compliance, regulation, audit, cyber or security, ignoring case. */
  predicate Regulatory(name: string) {
    var l := Lower(name);
    ContainsText(l, "compliance") || ContainsText(l, "regulatory") || ContainsText(l, "audit")
    || ContainsText(l, "cyber") || ContainsText(l, "security")
  }

  function CriticalCount(rs: seq<P.Risk>): (n: nat)
    ensures n <= |rs|
    ensures n == 0 <==> forall i :: 0 <= i < |rs| ==> rs[i].severity != P.Critical
  {
    if rs == [] then 0 else CriticalCount(Front(rs)) + (if Last(rs).severity == P.Critical then 1 else 0)
  }

  predicate RegulatoryAtRisk(s: P.RiskSummary) {
    Regulatory(s.projectName) && (s.ragStatus == "Red" || s.ragStatus == "Amber") && CriticalCount(s.risks) > 0
  }

  function ComplianceItems(ss: seq<P.RiskSummary>): seq<Item> {
    if ss == [] then []
    else ComplianceItems(Front(ss))
         + When(RegulatoryAtRisk(Last(ss)), RegulatoryDeadline(Last(ss).projectName, CriticalCount(Last(ss).risks)))
  }

  /** An item needs a regulatory name, a Red or Amber rating and at least one critical risk, which it counts. */
  lemma {:induction false} ComplianceNeeds(ss: seq<P.RiskSummary>, it: Item)
    requires it in ComplianceItems(ss)
    ensures it.RegulatoryDeadline?
    ensures exists i :: 0 <= i < |ss| && ss[i].projectName == it.project
              && Regulatory(ss[i].projectName) && (ss[i].ragStatus == "Red" || ss[i].ragStatus == "Amber")
              && it.critical == CriticalCount(ss[i].risks) > 0
  {
    var front := Front(ss);
    if it in ComplianceItems(front) {
      ComplianceNeeds(front, it);
      var i :| 0 <= i < |front| && front[i].projectName == it.project
               && Regulatory(front[i].projectName) && (front[i].ragStatus == "Red" || front[i].ragStatus == "Amber")
               && it.critical == CriticalCount(front[i].risks) > 0;
      assert ss[i] == front[i];
    } else {
      assert ss[|ss| - 1] == Last(ss);
    }
  }

  method CollectCompliance(ss: seq<P.RiskSummary>) returns (items: seq<Item>)
    ensures items == ComplianceItems(ss)
  {
    items := [];
    for k := 0 to |ss|
      invariant items == ComplianceItems(ss[..k])
    {
      assert Front(ss[..k + 1]) == ss[..k];
      var s := ss[k];
      if Regulatory(s.projectName) {
        if s.ragStatus == "Red" || s.ragStatus == "Amber" {
          var critical := CriticalCount(s.risks);
          if critical > 0 {
            items := items + [RegulatoryDeadline(s.projectName, critical)];
          }
        }
      }
    }
    assert ss[..|ss|] == ss;
  }

  // ---------------------------------------------------------------------
  // 3. Blocked cascades
  // ---------------------------------------------------------------------

  predicate Blocking(r: P.Risk) {
    r.category == P.BlockedWork && (r.severity == P.Critical || r.severity == P.High)
  }

  predicate HasBlocking(s: P.RiskSummary) {
    exists i :: 0 <= i < |s.risks| && Blocking(s.risks[i])
  }

  /** The projects with a critical or high blocked-work risk. */
  function BlockedNames(ss: seq<P.RiskSummary>): (r: set<string>)
    ensures forall p :: p in r <==> exists i :: 0 <= i < |ss| && ss[i].projectName == p && HasBlocking(ss[i])
  {
    set i | 0 <= i < |ss| && HasBlocking(ss[i]) :: ss[i].projectName
  }

  /** A listing of a set: each element once, in some order (Python's set iteration order). */
  predicate Listing(order: seq<string>, s: set<string>) {
    Elements(order) == s && |order| == |s|
  }

  method CollectBlocked(ss: seq<P.RiskSummary>) returns (blocked: set<string>)
    ensures blocked == BlockedNames(ss)
  {
    blocked := {};
    for k := 0 to |ss|
      invariant blocked == BlockedNames(ss[..k])
    {
      var s := ss[k];
      for j := 0 to |s.risks|
        invariant blocked == BlockedNames(ss[..k]) + (if exists i :: 0 <= i < j && Blocking(s.risks[i]) then {s.projectName} else {})
      {
        if Blocking(s.risks[j]) {
          blocked := blocked + {s.projectName};
        }
      }
      assert ss[..k + 1][k] == s;
      assert forall i :: 0 <= i < k ==> ss[..k + 1][i] == ss[..k][i];
    }
    assert ss[..|ss|] == ss;
  }

  /** `bp.lower().split(" - ")[0]`: the lower-cased name up to the first " - ". */
  function LeadPart(bp: string): string {
    var l := Lower(bp);
    var k := Find(l, " - ");
    if k < 0 then l else l[..k]
  }

  /** The first blocked project, in iteration order, whose lead part the explanation mentions. */
  function FirstBlocker(order: seq<string>, explanation: string): (r: Option<string>)
    ensures r.Some? ==> r.value in order && ContainsText(Lower(explanation), LeadPart(r.value))
    ensures r.None? <==> forall i :: 0 <= i < |order| ==> !ContainsText(Lower(explanation), LeadPart(order[i]))
  {
    if order == [] then None
    else if ContainsText(Lower(explanation), LeadPart(order[0])) then Some(order[0])
    else FirstBlocker(order[1..], explanation)
  }

  function OptionItem(b: Option<string>): seq<Item> {
    if b.Some? then [BlockerCascade(b.value)] else []
  }

  /** One item per dependency risk that mentions a blocked project. */
  function RiskCascades(rs: seq<P.Risk>, order: seq<string>): seq<Item> {
    if rs == [] then []
    else RiskCascades(Front(rs), order)
         + (if Last(rs).category == P.DependencyRisk then OptionItem(FirstBlocker(order, Last(rs).explanation)) else [])
  }

  function CascadeItems(ss: seq<P.RiskSummary>, order: seq<string>): seq<Item> {
    if ss == [] then [] else CascadeItems(Front(ss), order) + RiskCascades(Last(ss).risks, order)
  }

  /** Every cascade item names a blocked project. */
  lemma {:induction false} CascadeNamesBlocked(ss: seq<P.RiskSummary>, order: seq<string>, it: Item)
    requires it in CascadeItems(ss, order)
    ensures it.BlockerCascade? && it.blocker in order
  {
    if it in CascadeItems(Front(ss), order) {
      CascadeNamesBlocked(Front(ss), order, it);
    } else {
      RiskCascadesNameBlocked(Last(ss).risks, order, it);
    }
  }

  lemma {:induction false} RiskCascadesNameBlocked(rs: seq<P.Risk>, order: seq<string>, it: Item)
    requires it in RiskCascades(rs, order)
    ensures it.BlockerCascade? && it.blocker in order
  {
    if it in RiskCascades(Front(rs), order) {
      RiskCascadesNameBlocked(Front(rs), order, it);
    }
  }

  /** The innermost loop: the first blocked project the explanation mentions. */
  method FindBlocker(order: seq<string>, explanation: string) returns (r: Option<string>)
    ensures r == FirstBlocker(order, explanation)
  {
    var lower := Lower(explanation);
    var k := 0;
    while k < |order|
      invariant 0 <= k <= |order|
      invariant FirstBlocker(order, explanation) == FirstBlocker(order[k..], explanation)
    {
      assert order[k..][1..] == order[k + 1..];
      if ContainsText(lower, LeadPart(order[k])) {
        return Some(order[k]);
      }
      k := k + 1;
    }
    return None;
  }

  method CollectRiskCascades(rs: seq<P.Risk>, order: seq<string>) returns (items: seq<Item>)
    ensures items == RiskCascades(rs, order)
  {
    items := [];
    for j := 0 to |rs|
      invariant items == RiskCascades(rs[..j], order)
    {
      assert Front(rs[..j + 1]) == rs[..j];
      if rs[j].category == P.DependencyRisk {
        var b := FindBlocker(order, rs[j].explanation);
        items := items + OptionItem(b);
      }
    }
    assert rs[..|rs|] == rs;
  }

  method CollectCascades(ss: seq<P.RiskSummary>, order: seq<string>) returns (items: seq<Item>)
    ensures items == CascadeItems(ss, order)
  {
    items := [];
    for k := 0 to |ss|
      invariant items == CascadeItems(ss[..k], order)
    {
      assert Front(ss[..k + 1]) == ss[..k];
      var more := CollectRiskCascades(ss[k].risks, order);
      items := items + more;
    }
    assert ss[..|ss|] == ss;
  }

  // ---------------------------------------------------------------------
  // 4-6. Benefits drift, divestment, stalled projects
  // ---------------------------------------------------------------------

  /** A drift item when there is a benefit report drifting more than 20 %. */
  function DriftItems(benefits: Option<BC.PortfolioBenefitReport>): (r: seq<Item>)
    ensures |r| <= 1
    ensures r != [] <==> benefits.Some? && benefits.value.driftPct > 0.2
  {
    if benefits.Some? && benefits.value.driftPct > 0.2
    then [BenefitsDrifting(benefits.value.driftPct, benefits.value.totalAtRisk)]
    else []
  }

  /** A divest item, naming the first two, when some project is to be divested. */
  function DivestItems(investments: Option<Inv.PortfolioInvestmentReport>): (r: seq<Item>)
    ensures |r| <= 1
  {
    if investments.None? then []
    else
      var divests := Inv.WithAction(investments.value.investments, Inv.Divest);
      if divests == [] then []
      else [StopSpend(Inv.Names(Sorting.Take(divests, 2)), BC.Sum(divests, Inv.CostToCompleteOf))]
  }

  lemma DivestItemIff(investments: Option<Inv.PortfolioInvestmentReport>)
    ensures DivestItems(investments) != [] <==>
              investments.Some? && exists pi :: pi in investments.value.investments && pi.action == Inv.Divest
  {
    if investments.Some? {
      Inv.WithActionEmpty(investments.value.investments, Inv.Divest);
    }
  }

  /** `"hold" in status or "on hold" in status`, ignoring case. */
  predicate OnHold(s: P.RiskSummary) {
    ContainsText(Lower(s.projectStatus), "hold") || ContainsText(Lower(s.projectStatus), "on hold")
  }

  /** The second test adds nothing: "on hold" contains "hold". */
  lemma OnHoldIsHold(s: P.RiskSummary)
    ensures OnHold(s) <==> ContainsText(Lower(s.projectStatus), "hold")
  {
    if ContainsText(Lower(s.projectStatus), "on hold") {
      assert OccursAt("on hold", "hold", 3);
      ContainsTrans(Lower(s.projectStatus), "on hold", "hold");
    }
  }

  function HeldOf(ss: seq<P.RiskSummary>): (r: seq<P.RiskSummary>)
    ensures forall s :: s in r <==> s in ss && OnHold(s)
  {
    if ss == [] then [] else (if OnHold(ss[0]) then [ss[0]] else []) + HeldOf(ss[1..])
  }

  function StalledItems(ss: seq<P.RiskSummary>): (r: seq<Item>)
    ensures |r| <= 1
    ensures r != [] <==> exists i :: 0 <= i < |ss| && OnHold(ss[i])
  {
    var held := HeldOf(ss);
    assert held != [] ==> held[0] in held;
    if held == [] then [] else [Stalled(P.SummaryNames(Sorting.Take(held, 2)))]
  }

  // ---------------------------------------------------------------------
  // Ranking and deduplication
  // ---------------------------------------------------------------------

  /** All items, in the order they are collected. */
  function Collected(
    ss: seq<P.RiskSummary>, order: seq<string>,
    benefits: Option<BC.PortfolioBenefitReport>, investments: Option<Inv.PortfolioInvestmentReport>)
    : seq<Item>
  {
    BurnItems(ss) + ComplianceItems(ss) + CascadeItems(ss, order)
    + DriftItems(benefits) + DivestItems(investments) + StalledItems(ss)
  }

  /** `sorted(items, key=priority)`: Python's stable sort. */
  function ByPriority(items: seq<Item>): seq<Item> {
    Sorting.KeySort(items, Priority, 0, 6)
  }

  lemma ByPriorityIsStableSort(items: seq<Item>)
    ensures Sorting.SortedByKey(ByPriority(items), Priority)
    ensures multiset(ByPriority(items)) == multiset(items)
  {
    Sorting.KeySortIsStableSort(items, Priority, 6);
  }

  /**
   * The loop that drops an item whose key was already seen, but only once
   * three items are kept (`key not in seen or len(deduped) < 3`).
   */
  function DedupFrom<T>(xs: seq<T>, key: T -> string, seen: set<string>, kept: nat): (r: seq<T>)
    ensures |r| <= |xs|
  {
    if xs == [] then []
    else if key(xs[0]) !in seen || kept < 3 then [xs[0]] + DedupFrom(xs[1..], key, seen + {key(xs[0])}, kept + 1)
    else DedupFrom(xs[1..], key, seen, kept)
  }

  /** Deduplication never drops one of the first three, nor keeps anything new. */
  lemma {:induction false} DedupKeepsFirst<T>(xs: seq<T>, key: T -> string, seen: set<string>, kept: nat)
    requires kept <= 3
    ensures var n := if |xs| < 3 - kept then |xs| else 3 - kept;
            |DedupFrom(xs, key, seen, kept)| >= n && DedupFrom(xs, key, seen, kept)[..n] == xs[..n]
    ensures forall x :: x in DedupFrom(xs, key, seen, kept) ==> x in xs
  {
    if xs != [] {
      if key(xs[0]) !in seen || kept < 3 {
        var rest := DedupFrom(xs[1..], key, seen + {key(xs[0])}, kept + 1);
        if kept < 3 {
          DedupKeepsFirst(xs[1..], key, seen + {key(xs[0])}, kept + 1);
        } else {
          DedupMembers(xs[1..], key, seen + {key(xs[0])}, kept + 1);
        }
        assert DedupFrom(xs, key, seen, kept) == [xs[0]] + rest;
      } else {
        DedupMembers(xs[1..], key, seen, kept);
      }
    }
  }

  lemma {:induction false} DedupMembers<T>(xs: seq<T>, key: T -> string, seen: set<string>, kept: nat)
    ensures forall x :: x in DedupFrom(xs, key, seen, kept) ==> x in xs
  {
    if xs != [] {
      DedupMembers(xs[1..], key, seen + {key(xs[0])}, kept + 1);
      DedupMembers(xs[1..], key, seen, kept);
    }
  }

  /** The deduplication loop. */
  method Dedup<T>(xs: seq<T>, key: T -> string) returns (r: seq<T>)
    ensures r == DedupFrom(xs, key, {}, 0)
  {
    r := [];
    var seen: set<string> := {};
    for k := 0 to |xs|
      invariant r + DedupFrom(xs[k..], key, seen, |r|) == DedupFrom(xs, key, {}, 0)
    {
      assert xs[k..][1..] == xs[k + 1..];
      var x := xs[k];
      if key(x) !in seen || |r| < 3 {
        assert DedupFrom(xs[k..], key, seen, |r|) == [x] + DedupFrom(xs[k + 1..], key, seen + {key(x)}, |r| + 1);
        r := r + [x];
        seen := seen + {key(x)};
      }
    }
  }

  // ---------------------------------------------------------------------
  // The paragraph
  // ---------------------------------------------------------------------

  datatype Urgency = Emergency | BeforeSteering | Scheduled

  function UrgencyOf(top: seq<Item>): Urgency {
    if exists i :: 0 <= i < |top| && Priority(top[i]) <= 2 then Emergency
    else if exists i :: 0 <= i < |top| && Priority(top[i]) <= 4 then BeforeSteering
    else Scheduled
  }

  /** The urgency follows the most urgent item shown. */
  lemma UrgencyLadder(top: seq<Item>)
    ensures UrgencyOf(top) == Emergency <==> exists it :: it in top && Priority(it) <= 2
    ensures UrgencyOf(top) == BeforeSteering <==>
              (forall it :: it in top ==> Priority(it) > 2) && exists it :: it in top && Priority(it) <= 4
    ensures UrgencyOf(top) == Scheduled <==> forall it :: it in top ==> Priority(it) > 4
  {
    if exists it :: it in top && Priority(it) <= 2 {
      var it :| it in top && Priority(it) <= 2;
      var i :| 0 <= i < |top| && top[i] == it;
    }
    if exists it :: it in top && Priority(it) <= 4 {
      var it :| it in top && Priority(it) <= 4;
      var i :| 0 <= i < |top| && top[i] == it;
    }
  }

  datatype ExecutiveSummary =
    | AllClear(total: nat, reds: nat, ambers: nat)
    | Escalation(top: seq<Item>, urgency: Urgency)

  function RagCount(ss: seq<P.RiskSummary>, rag: string): (n: nat)
    ensures n <= |ss|
    ensures n == 0 <==> forall i :: 0 <= i < |ss| ==> ss[i].ragStatus != rag
    ensures n == |ss| <==> forall i :: 0 <= i < |ss| ==> ss[i].ragStatus == rag
  {
    if ss == [] then 0 else (if ss[0].ragStatus == rag then 1 else 0) + RagCount(ss[1..], rag)
  }

  /** `text.split(" ")[0]`: the dedup key, which is the project name for items that lead with one. */
  function FirstWord(t: string): string {
    Split(t, ' ')[0]
  }

  /** The dedup key of an item: the first word of its text. */
  function DedupKey(f: Sim.Formats): Item -> string {
    it => FirstWord(ItemText(it, f))
  }

  const ExhaustBudget := " will exhaust its budget before delivery completes — approve a top-up or cut scope"
  const MissDeadline := " critical issues and may miss its regulatory deadline"
  const BlockersIn := "blockers in "
  const Cascading := " are cascading into dependent projects"
  const DriftingBy := "benefits are drifting "
  const FromPlan := " from plan — £"
  const ValueAtRisk := " of portfolio value at risk"
  const NegativeRoi := " showing negative ROI — recommend stopping discretionary spend, freeing £"
  const ForReallocation := " for reallocation"
  const StalledTail := " stalled — confirm go/no-go to release committed resources"

  function ItemText(it: Item, f: Sim.Formats): string {
    match it
    case BudgetCritical(p) => p + ExhaustBudget
    case RegulatoryDeadline(p, n) => p + " has " + NatToString(n) + MissDeadline
    case BlockerCascade(bp) => BlockersIn + bp + Cascading
    case BenefitsDrifting(d, v) => DriftingBy + f.percent(d) + FromPlan + f.money(v) + ValueAtRisk
    case StopSpend(names, freed) => Join(names, ", ") + NegativeRoi + f.money(freed) + ForReallocation
    case Stalled(names) => Join(names, ", ") + StalledTail
  }

  /** The paragraph drawn from the items: all clear when there are none, else the first three after dedup. */
  function Paragraph(ss: seq<P.RiskSummary>, items: seq<Item>, f: Sim.Formats): ExecutiveSummary {
    var deduped := DedupFrom(ByPriority(items), DedupKey(f), {}, 0);
    if deduped == [] then AllClear(|ss|, RagCount(ss, "Red"), RagCount(ss, "Amber"))
    else Escalation(Sorting.Take(deduped, 3), UrgencyOf(Sorting.Take(deduped, 3)))
  }

  /** `generate_executive_summary`, given the order the blocked set is iterated in. */
  function Summary(
    ss: seq<P.RiskSummary>, order: seq<string>,
    benefits: Option<BC.PortfolioBenefitReport>, investments: Option<Inv.PortfolioInvestmentReport>,
    f: Sim.Formats)
    : ExecutiveSummary
  {
    Paragraph(ss, Collected(ss, order, benefits, investments), f)
  }

  /** What deduplication leaves: nothing only from nothing, and the first three as they came. */
  lemma DedupTop<T>(xs: seq<T>, key: T -> string)
    ensures DedupFrom(xs, key, {}, 0) == [] <==> xs == []
    ensures Sorting.Take(DedupFrom(xs, key, {}, 0), 3) == Sorting.Take(xs, 3)
  {
    DedupKeepsFirst(xs, key, {}, 0);
  }

  lemma TakeSortedByKey<T>(xs: seq<T>, n: nat, key: T -> nat)
    requires Sorting.SortedByKey(xs, key)
    ensures Sorting.SortedByKey(Sorting.Take(xs, n), key)
  {
  }

  /**
   * The paragraph is the all-clear exactly when nothing urgent was found;
   * otherwise it shows the first three items by priority, most urgent
   * first, whatever the deduplication does.
   */
  lemma ParagraphShape(ss: seq<P.RiskSummary>, items: seq<Item>, f: Sim.Formats)
    ensures var r := Paragraph(ss, items, f);
            (r.AllClear? <==> items == [])
            && (r.AllClear? ==> r.total == |ss| && r.reds == RagCount(ss, "Red") && r.ambers == RagCount(ss, "Amber"))
            && (r.Escalation? ==> r.top == Sorting.Take(ByPriority(items), 3))
            && (r.Escalation? ==> 1 <= |r.top| <= 3 && Sorting.SortedByKey(r.top, Priority))
  {
    var sorted := ByPriority(items);
    ByPriorityIsStableSort(items);
    assert |sorted| == |items| by {
      assert |multiset(sorted)| == |multiset(items)|;
    }
    DedupTop(sorted, DedupKey(f));
    TakeSortedByKey(sorted, 3, Priority);
  }

  /** Every collected item of a phase has that phase's priority. */
  predicate OfPriority(items: seq<Item>, p: nat) {
    forall it :: it in items ==> Priority(it) == p
  }

  lemma {:induction false} BurnPriority(ss: seq<P.RiskSummary>)
    ensures OfPriority(BurnItems(ss), 1)
  {
    if ss != [] {
      BurnPriority(Front(ss));
    }
  }

  lemma {:induction false} CompliancePriority(ss: seq<P.RiskSummary>)
    ensures OfPriority(ComplianceItems(ss), 2)
  {
    if ss != [] {
      CompliancePriority(Front(ss));
    }
  }

  lemma CascadePriority(ss: seq<P.RiskSummary>, order: seq<string>)
    ensures OfPriority(CascadeItems(ss, order), 3)
  {
    forall it | it in CascadeItems(ss, order) ensures Priority(it) == 3 {
      CascadeNamesBlocked(ss, order, it);
    }
  }

  lemma DriftPriority(benefits: Option<BC.PortfolioBenefitReport>)
    ensures OfPriority(DriftItems(benefits), 4)
  {
  }

  lemma DivestPriority(investments: Option<Inv.PortfolioInvestmentReport>)
    ensures OfPriority(DivestItems(investments), 5)
  {
  }

  lemma StalledPriority(ss: seq<P.RiskSummary>)
    ensures OfPriority(StalledItems(ss), 6)
  {
  }

  /** In phases of rising priority, an item of the fourth or fifth priority comes from that phase. */
  lemma PhaseOf(early: seq<Item>, drift: seq<Item>, divest: seq<Item>, stalled: seq<Item>)
    requires forall it :: it in early ==> Priority(it) <= 3
    requires OfPriority(drift, 4) && OfPriority(divest, 5) && OfPriority(stalled, 6)
    ensures forall it :: it in early + drift + divest + stalled && Priority(it) == 4 ==> it in drift
    ensures forall it :: it in early + drift + divest + stalled && Priority(it) == 5 ==> it in divest
  {
  }

  /** Items are collected phase by phase, so already in priority order. */
  lemma CollectedPhases(
    ss: seq<P.RiskSummary>, order: seq<string>,
    benefits: Option<BC.PortfolioBenefitReport>, investments: Option<Inv.PortfolioInvestmentReport>)
    ensures forall it :: it in Collected(ss, order, benefits, investments) && Priority(it) == 4 ==> it in DriftItems(benefits)
    ensures forall it :: it in Collected(ss, order, benefits, investments) && Priority(it) == 5 ==> it in DivestItems(investments)
  {
    BurnPriority(ss);
    CompliancePriority(ss);
    CascadePriority(ss, order);
    DriftPriority(benefits);
    DivestPriority(investments);
    StalledPriority(ss);
    PhaseOf(BurnItems(ss) + ComplianceItems(ss) + CascadeItems(ss, order),
      DriftItems(benefits), DivestItems(investments), StalledItems(ss));
  }

  /** With a benefit report drifting over 20 % there is a drift item, and only then. */
  lemma DriftItemIff(
    ss: seq<P.RiskSummary>, order: seq<string>,
    benefits: Option<BC.PortfolioBenefitReport>, investments: Option<Inv.PortfolioInvestmentReport>)
    ensures (exists it :: it in Collected(ss, order, benefits, investments) && it.BenefitsDrifting?) <==>
              benefits.Some? && benefits.value.driftPct > 0.2
  {
    var all := Collected(ss, order, benefits, investments);
    if exists it :: it in all && it.BenefitsDrifting? {
      var it :| it in all && it.BenefitsDrifting?;
      DriftFromDriftItems(ss, order, benefits, investments, it);
    }
    if DriftItems(benefits) != [] {
      assert DriftItems(benefits)[0] in all;
    }
  }

  lemma DriftFromDriftItems(
    ss: seq<P.RiskSummary>, order: seq<string>,
    benefits: Option<BC.PortfolioBenefitReport>, investments: Option<Inv.PortfolioInvestmentReport>, it: Item)
    requires it in Collected(ss, order, benefits, investments) && it.BenefitsDrifting?
    ensures it in DriftItems(benefits)
  {
    CollectedPhases(ss, order, benefits, investments);
    assert Priority(it) == 4;
  }

  /** With some project to divest there is a divest item, and only then. */
  lemma DivestItemPresentIff(
    ss: seq<P.RiskSummary>, order: seq<string>,
    benefits: Option<BC.PortfolioBenefitReport>, investments: Option<Inv.PortfolioInvestmentReport>)
    ensures (exists it :: it in Collected(ss, order, benefits, investments) && it.StopSpend?) <==>
              investments.Some? && exists pi :: pi in investments.value.investments && pi.action == Inv.Divest
  {
    CollectedPhases(ss, order, benefits, investments);
    DivestItemIff(investments);
    if DivestItems(investments) != [] {
      assert DivestItems(investments)[0] in Collected(ss, order, benefits, investments);
    }
  }

  function Numbered(top: seq<Item>, from: nat, f: Sim.Formats): seq<string> {
    if top == [] then [] else ["(" + NatToString(from) + ") " + ItemText(top[0], f)] + Numbered(top[1..], from + 1, f)
  }

  const EmergencyLine := "Recommended: schedule emergency portfolio review within 5 working days."
  const BeforeSteeringLine := "Recommended: address these items before the next steering cycle."
  const ScheduledLine := "Recommended: review at next scheduled steering committee."
  const NoEscalation := " at Amber. No critical escalation needed this cycle — continue standard monitoring."

  function UrgencyText(u: Urgency): string {
    match u
    case Emergency => EmergencyLine
    case BeforeSteering => BeforeSteeringLine
    case Scheduled => ScheduledLine
  }

  function SummaryText(r: ExecutiveSummary, f: Sim.Formats): string {
    match r
    case AllClear(total, reds, ambers) =>
      "The portfolio is tracking " + NatToString(total) + " active projects with " + NatToString(reds)
      + " at Red status and " + NatToString(ambers) + NoEscalation
    case Escalation(top, u) =>
      "Your portfolio has " + NatToString(|top|) + " urgent issue" + (if |top| > 1 then "s" else "")
      + " this cycle: " + Join(Numbered(top, 1, f), "; ") + ". " + UrgencyText(u)
  }

  /** Collect, rank, deduplicate and summarise; `order` is the order the blocked set was iterated in. */
  method GenerateExecutiveSummary(
    risks: P.RiskReport, benefits: Option<BC.PortfolioBenefitReport>,
    investments: Option<Inv.PortfolioInvestmentReport>, f: Sim.Formats)
    returns (r: ExecutiveSummary, order: seq<string>)
    ensures Listing(order, BlockedNames(risks.projectSummaries))
    ensures r == Summary(risks.projectSummaries, order, benefits, investments, f)
  {
    var ss := risks.projectSummaries;
    var burn := CollectBudgetCritical(ss);
    var compliance := CollectCompliance(ss);
    var blocked := CollectBlocked(ss);
    order := Graph.ListOf(blocked);
    var cascades := CollectCascades(ss, order);
    var items := burn + compliance + cascades + DriftItems(benefits) + DivestItems(investments) + StalledItems(ss);
    assert items == Collected(ss, order, benefits, investments);
    var deduped := Dedup(ByPriority(items), DedupKey(f));
    if deduped == [] {
      r := AllClear(|ss|, RagCount(ss, "Red"), RagCount(ss, "Amber"));
    } else {
      var top := Sorting.Take(deduped, 3);
      r := Escalation(top, UrgencyOf(top));
    }
  }
}
