/**
 * The data-driven text of the Word briefing and the slide deck: the
 * recommended decisions, the talking points, the actions suggested for one
 * project, the heading overrides, the most severe risks of the portfolio
 * and the quick decisions of the summary slide.
 *
 * Each wording is a constructor of a small datatype, rendered by a text
 * function, so that the properties are stated about which lines appear and
 * in what order rather than about the characters.
 */
module Artefacts {
  import opened Wrappers
  import opened Text
  import P = Portfolio
  import Sorting
  import Ins = Insights
  import Graph

  /** Python's `xs[:n]` for any integer `n`: a negative `n` counts back from the end. */
  function Prefix<T>(xs: seq<T>, n: int): (r: seq<T>)
    ensures r <= xs
    ensures 0 <= n ==> r == Sorting.Take(xs, n)
    ensures n < 0 ==> |r| == if |xs| + n < 0 then 0 else |xs| + n
  {
    if n >= |xs| then xs
    else if n >= 0 then xs[..n]
    else if |xs| + n <= 0 then []
    else xs[..|xs| + n]
  }

  // ---------------------------------------------------------------------
  // Recommended decisions of the briefing
  // ---------------------------------------------------------------------

  datatype DecisionLine =
    | BudgetUrgent(project: string)
    | UnblockProjects(names: seq<string>)
    | EscalateRed(names: seq<string>, count: nat, combinedRisks: int)
    | MonitorAmber(names: seq<string>)
    | ScheduleReview

  /** One urgent budget line per project with a critical burn-rate risk, in report order. */
  function BurnLines(ss: seq<P.RiskSummary>): seq<DecisionLine> {
    if ss == [] then []
    else BurnLines(Ins.Front(ss)) + When(Ins.HasCriticalBurn(Ins.Last(ss)), BudgetUrgent(Ins.Last(ss).projectName))
  }

  /** The burn loop as written: a project is added only while fewer than `n` lines exist. */
  function CappedBurnLines(ss: seq<P.RiskSummary>, n: int): seq<DecisionLine> {
    if ss == [] then []
    else
      var prev := CappedBurnLines(Ins.Front(ss), n);
      prev + When(Ins.HasCriticalBurn(Ins.Last(ss)) && |prev| < n, BudgetUrgent(Ins.Last(ss).projectName))
  }

  /** Exactly the projects with a critical burn-rate risk get a line, each line urgent, none twice per summary. */
  lemma {:induction false} BurnLinesMeaning(ss: seq<P.RiskSummary>)
    ensures |BurnLines(ss)| <= |ss|
    ensures forall d :: d in BurnLines(ss) ==> d.BudgetUrgent?
    ensures forall p :: BudgetUrgent(p) in BurnLines(ss) <==>
              exists i :: 0 <= i < |ss| && ss[i].projectName == p && Ins.HasCriticalBurn(ss[i])
  {
    if ss != [] {
      var front := Ins.Front(ss);
      BurnLinesMeaning(front);
      forall p ensures BudgetUrgent(p) in BurnLines(ss) <==>
                       exists i :: 0 <= i < |ss| && ss[i].projectName == p && Ins.HasCriticalBurn(ss[i])
      {
        if BudgetUrgent(p) in BurnLines(front) {
          var i :| 0 <= i < |front| && front[i].projectName == p && Ins.HasCriticalBurn(front[i]);
          assert ss[i] == front[i];
        }
        if exists i :: 0 <= i < |ss| && ss[i].projectName == p && Ins.HasCriticalBurn(ss[i]) {
          var i :| 0 <= i < |ss| && ss[i].projectName == p && Ins.HasCriticalBurn(ss[i]);
          if i < |front| {
            assert front[i] == ss[i];
          }
        }
      }
    }
  }

  /** The cap keeps the first `n` urgent lines, and none when `n` is not positive. */
  lemma {:induction false} CappedBurnIsTake(ss: seq<P.RiskSummary>, n: int)
    ensures n >= 0 ==> CappedBurnLines(ss, n) == Sorting.Take(BurnLines(ss), n)
    ensures n < 0 ==> CappedBurnLines(ss, n) == []
  {
    if ss != [] {
      var front := Ins.Front(ss);
      CappedBurnIsTake(front, n);
      if n >= 0 {
        var all := BurnLines(front);
        if Ins.HasCriticalBurn(Ins.Last(ss)) && |all| < n {
          assert Sorting.Take(all, n) == all;
        } else if Ins.HasCriticalBurn(Ins.Last(ss)) {
          var x := BudgetUrgent(Ins.Last(ss).projectName);
          assert Sorting.Take(all + [x], n) == (all + [x])[..n] == all[..n];
        }
      }
    }
  }

  /** The catch-all loop: review lines until there are `n`. */
  function Padded(lines: seq<DecisionLine>, n: int): (r: seq<DecisionLine>)
    decreases n - |lines|
  {
    if |lines| < n then Padded(lines + [ScheduleReview], n) else lines
  }

  lemma {:induction false} PaddedShape(lines: seq<DecisionLine>, n: int)
    ensures |Padded(lines, n)| == if |lines| < n then n else |lines|
    ensures lines <= Padded(lines, n)
    ensures forall i :: |lines| <= i < |Padded(lines, n)| ==> Padded(lines, n)[i] == ScheduleReview
    decreases n - |lines|
  {
    if |lines| < n {
      PaddedShape(lines + [ScheduleReview], n);
    }
  }

  /** `if cond and len(lines) < n: lines.append(x)` */
  function AddIf(lines: seq<DecisionLine>, cond: bool, x: DecisionLine, n: int): (r: seq<DecisionLine>)
    ensures lines <= r && |r| <= |lines| + 1
    ensures |r| > |lines| <==> cond && |lines| < n
    ensures forall i :: |lines| <= i < |r| ==> r[i] == x
  {
    if cond && |lines| < n then lines + [x] else lines
  }

  /** The lines before the catch-all: burn, blocked, Red escalation, Amber watch, each while room is left. */
  function Derived(ss: seq<P.RiskSummary>, order: seq<string>, n: int): seq<DecisionLine> {
    var burn := CappedBurnLines(ss, n);
    var reds := P.WithRag(ss, "Red");
    var ambers := P.WithRag(ss, "Amber");
    var a := AddIf(burn, order != [], UnblockProjects(Sorting.Take(order, 3)), n);
    var b := AddIf(a, reds != [], EscalateRed(P.SummaryNames(Sorting.Take(reds, 3)), |reds|, P.RiskCountSum(reds)), n);
    AddIf(b, ambers != [], MonitorAmber(P.SummaryNames(Sorting.Take(ambers, 2))), n)
  }

  /**
   * The `n` recommended decisions; `order` is the iteration order of the
   * set of blocked projects.
   */
  function DecisionLines(ss: seq<P.RiskSummary>, order: seq<string>, n: int): seq<DecisionLine> {
    Prefix(Padded(Derived(ss, order, n), n), n)
  }

  lemma DerivedCount(ss: seq<P.RiskSummary>, order: seq<string>, n: int)
    ensures n >= 0 ==> |Derived(ss, order, n)| <= n
    ensures n < 0 ==> Derived(ss, order, n) == []
    ensures Sorting.Take(BurnLines(ss), if n < 0 then 0 else n) <= Derived(ss, order, n)
    ensures forall i :: |Sorting.Take(BurnLines(ss), if n < 0 then 0 else n)| <= i < |Derived(ss, order, n)| ==>
              !Derived(ss, order, n)[i].BudgetUrgent? && Derived(ss, order, n)[i] != ScheduleReview
  {
    CappedBurnIsTake(ss, n);
    var burn := CappedBurnLines(ss, n);
    var reds, ambers := P.WithRag(ss, "Red"), P.WithRag(ss, "Amber");
    var a := AddIf(burn, order != [], UnblockProjects(Sorting.Take(order, 3)), n);
    var b := AddIf(a, reds != [], EscalateRed(P.SummaryNames(Sorting.Take(reds, 3)), |reds|, P.RiskCountSum(reds)), n);
    var c := AddIf(b, ambers != [], MonitorAmber(P.SummaryNames(Sorting.Take(ambers, 2))), n);
    assert Derived(ss, order, n) == c;
    forall i | |burn| <= i < |c| ensures !c[i].BudgetUrgent? && c[i] != ScheduleReview {
      if i < |a| {
        assert c[i] == a[i];
      } else if i < |b| {
        assert c[i] == b[i];
      }
    }
  }

  /** There are always exactly `n` decisions (none for a negative `n`), so the final slice changes nothing. */
  lemma DecisionCount(ss: seq<P.RiskSummary>, order: seq<string>, n: int)
    ensures |DecisionLines(ss, order, n)| == if n < 0 then 0 else n
    ensures DecisionLines(ss, order, n) == Padded(Derived(ss, order, n), n)
  {
    DerivedCount(ss, order, n);
    PaddedShape(Derived(ss, order, n), n);
  }

  /** The urgent budget lines come first and are the first `n` of the critical-burn projects. */
  lemma BurnFirst(ss: seq<P.RiskSummary>, order: seq<string>, n: int)
    requires n >= 0
    ensures Sorting.Take(BurnLines(ss), n) <= DecisionLines(ss, order, n)
    ensures forall i :: |Sorting.Take(BurnLines(ss), n)| <= i < |DecisionLines(ss, order, n)| ==>
              !DecisionLines(ss, order, n)[i].BudgetUrgent?
  {
    var d := Derived(ss, order, n);
    DecisionCount(ss, order, n);
    DerivedCount(ss, order, n);
    PaddedShape(d, n);
  }

  /** The catch-all review lines come last: nothing derived from the report follows one. */
  lemma ReviewLast(ss: seq<P.RiskSummary>, order: seq<string>, n: int)
    ensures forall i, j :: 0 <= i < j < |DecisionLines(ss, order, n)| && DecisionLines(ss, order, n)[i] == ScheduleReview ==>
              DecisionLines(ss, order, n)[j] == ScheduleReview
  {
    var d := Derived(ss, order, n);
    DecisionCount(ss, order, n);
    DerivedCount(ss, order, n);
    PaddedShape(d, n);
    var r := DecisionLines(ss, order, n);
    forall i, j | 0 <= i < j < |r| && r[i] == ScheduleReview
      ensures r[j] == ScheduleReview
    {
      if i < |d| {
        assert r[i] == d[i];
        DerivedMembers(ss, order, n, d[i]);
        assert false;
      }
    }
  }

  /** Every line before the catch-all is an urgent budget line or one of the three single lines. */
  lemma DerivedMembers(ss: seq<P.RiskSummary>, order: seq<string>, n: int, x: DecisionLine)
    requires x in Derived(ss, order, n)
    ensures x.BudgetUrgent?
         || (order != [] && x == UnblockProjects(Sorting.Take(order, 3)))
         || (P.WithRag(ss, "Red") != [] && x == EscalateRed(P.SummaryNames(Sorting.Take(P.WithRag(ss, "Red"), 3)),
               |P.WithRag(ss, "Red")|, P.RiskCountSum(P.WithRag(ss, "Red"))))
         || (P.WithRag(ss, "Amber") != [] && x == MonitorAmber(P.SummaryNames(Sorting.Take(P.WithRag(ss, "Amber"), 2))))
  {
    BurnLinesMeaning(ss);
    CappedBurnIsTake(ss, n);
    var burn := CappedBurnLines(ss, n);
    if n >= 0 && x in burn {
      assert x in Sorting.Take(BurnLines(ss), n);
    }
  }

  /** Each recommended decision is one derived from the report or the catch-all review. */
  lemma DecisionMembers(ss: seq<P.RiskSummary>, order: seq<string>, n: int, x: DecisionLine)
    requires x in DecisionLines(ss, order, n)
    ensures x in Derived(ss, order, n) || x == ScheduleReview
  {
    var r := DecisionLines(ss, order, n);
    var d := Derived(ss, order, n);
    DecisionCount(ss, order, n);
    PaddedShape(d, n);
    var i :| 0 <= i < |r| && r[i] == x;
    if i < |d| {
      assert r[i] == d[i];
    }
  }

  /** The blocked line names one to three projects, each with a critical or high blocked-work risk. */
  lemma UnblockNamesBlocked(ss: seq<P.RiskSummary>, order: seq<string>, n: int, names: seq<string>)
    requires Ins.Listing(order, Ins.BlockedNames(ss))
    requires UnblockProjects(names) in DecisionLines(ss, order, n)
    ensures 1 <= |names| <= 3
    ensures forall p :: p in names ==> p in Ins.BlockedNames(ss)
  {
    DecisionMembers(ss, order, n, UnblockProjects(names));
    DerivedMembers(ss, order, n, UnblockProjects(names));
    forall p | p in names ensures p in Ins.BlockedNames(ss) {
      assert p in order;
    }
  }

  /** The escalation line counts every Red project and sums their risks, naming the first three. */
  lemma EscalationCountsReds(ss: seq<P.RiskSummary>, order: seq<string>, n: int, names: seq<string>, c: nat, k: int)
    requires EscalateRed(names, c, k) in DecisionLines(ss, order, n)
    ensures c == |P.WithRag(ss, "Red")| && c > 0
    ensures k == P.RiskCountSum(P.WithRag(ss, "Red"))
    ensures names == P.SummaryNames(Sorting.Take(P.WithRag(ss, "Red"), 3))
  {
    DecisionMembers(ss, order, n, EscalateRed(names, c, k));
    DerivedMembers(ss, order, n, EscalateRed(names, c, k));
  }

  /** The watch line names one or two Amber projects. */
  lemma MonitorNamesAmber(ss: seq<P.RiskSummary>, order: seq<string>, n: int, names: seq<string>)
    requires MonitorAmber(names) in DecisionLines(ss, order, n)
    ensures 1 <= |names| <= 2
    ensures forall p :: p in names ==> exists s :: s in ss && s.ragStatus == "Amber" && s.projectName == p
  {
    DecisionMembers(ss, order, n, MonitorAmber(names));
    DerivedMembers(ss, order, n, MonitorAmber(names));
    var top := Sorting.Take(P.WithRag(ss, "Amber"), 2);
    forall p | p in names
      ensures exists s :: s in ss && s.ragStatus == "Amber" && s.projectName == p
    {
      var i :| 0 <= i < |top| && P.SummaryNames(top)[i] == p;
      assert top[i] in P.WithRag(ss, "Amber");
    }
  }

  /** `"s" if count > 1 else ""` */
  function Plural(count: nat): string {
    if count > 1 then "s" else ""
  }

  const UrgentPrefix := "URGENT: "
  const BudgetCriticalText := " budget is critical — approve a budget top-up or cut scope before the next review cycle. Without action, delivery cannot be completed within allocation."
  const UnblockPrefix := "Assign resolution owners to unblock "
  const UnblockText := " — set 5-day resolution deadlines and escalate if not cleared. Blocked tasks are the #1 source of delivery delay this cycle."
  const EscalatePrefix := "Escalate "
  const ToExecutiveReview := " to executive review — "
  const AtRedStatus := " at Red status with combined "
  const InterventionText := " risks. Leadership intervention required this cycle."
  const MonitorPrefix := "Monitor "
  const MonitorText := " — emerging risks could escalate to Red without proactive mitigation. Schedule mid-cycle check-in."
  const ReviewText := "Schedule portfolio risk review in 2 weeks to track resolution progress and reassess the risk posture."

  function DecisionText(d: DecisionLine): string {
    match d
    case BudgetUrgent(p) => UrgentPrefix + p + BudgetCriticalText
    case UnblockProjects(names) => UnblockPrefix + Join(names, ", ") + UnblockText
    case EscalateRed(names, c, k) =>
      EscalatePrefix + Join(names, ", ") + ToExecutiveReview + NatToString(c) + " project" + Plural(c) +
      AtRedStatus + IntText(k) + InterventionText
    case MonitorAmber(names) => MonitorPrefix + Join(names, ", ") + MonitorText
    case ScheduleReview => ReviewText
  }

  /** The letter right after `head` in `head + p + rest` is an `s` exactly when the suffix `p` is. */
  lemma LetterAfter(head: string, p: string, rest: string)
    requires p == "s" || (p == "" && rest != [] && rest[0] == ' ')
    ensures var t := head + p + rest;
            |head| < |t| && t[..|head|] == head && (t[|head|] == 's' <==> p == "s")
  {
    var t := head + p + rest;
    assert t[..|head|] == head;
    if p == "" {
      assert t[|head|] == rest[0];
    }
  }

  /**
   * The escalation line reads "<count> projects at Red status" when more than one project is Red
   * and "<count> project at Red status" otherwise: the letter after "project" is an `s` exactly then.
   */
  lemma EscalationPlural(names: seq<string>, c: nat, k: int)
    ensures var head := EscalatePrefix + Join(names, ", ") + ToExecutiveReview + NatToString(c) + " project";
            var text := DecisionText(EscalateRed(names, c, k));
            |head| < |text| && text[..|head|] == head && (text[|head|] == 's' <==> c > 1)
  {
    var head := EscalatePrefix + Join(names, ", ") + ToExecutiveReview + NatToString(c) + " project";
    var rest := AtRedStatus + IntText(k) + InterventionText;
    assert rest[0] == ' ';
    assert DecisionText(EscalateRed(names, c, k)) == head + Plural(c) + rest;
    LetterAfter(head, Plural(c), rest);
  }

  /** The summaries of a report with the given RAG status, collected by a loop. */
  method CollectRag(ss: seq<P.RiskSummary>, rag: string) returns (r: seq<P.RiskSummary>)
    ensures r == P.WithRag(ss, rag)
  {
    r := [];
    var k := |ss|;
    while k > 0
      invariant 0 <= k <= |ss|
      invariant r == P.WithRag(ss[k..], rag)
    {
      k := k - 1;
      assert ss[k..][1..] == ss[k + 1..];
      if ss[k].ragStatus == rag {
        r := [ss[k]] + r;
      }
    }
  }

  /** The budget-critical loop of the briefing, with its cap and its break. */
  method CollectUrgent(ss: seq<P.RiskSummary>, n: int) returns (lines: seq<DecisionLine>)
    ensures lines == CappedBurnLines(ss, n)
  {
    lines := [];
    for k := 0 to |ss|
      invariant lines == CappedBurnLines(ss[..k], n)
    {
      assert Ins.Front(ss[..k + 1]) == ss[..k];
      var s := ss[k];
      var before := lines;
      var j := 0;
      while j < |s.risks|
        invariant 0 <= j <= |s.risks|
        invariant lines == before
        invariant forall i :: 0 <= i < j ==> !(Ins.CriticalBurn(s.risks[i]) && |lines| < n)
      {
        if Ins.CriticalBurn(s.risks[j]) && |lines| < n {
          lines := lines + [BudgetUrgent(s.projectName)];
          break;
        }
        j := j + 1;
      }
    }
    assert ss[..|ss|] == ss;
  }

  /**
   * `_generate_decisions(report, n)`: also returns the iteration order it
   * used for the set of blocked projects.
   */
  method GenerateDecisions(report: P.RiskReport, n: int) returns (lines: seq<DecisionLine>, order: seq<string>)
    ensures Ins.Listing(order, Ins.BlockedNames(report.projectSummaries))
    ensures lines == DecisionLines(report.projectSummaries, order, n)
  {
    var ss := report.projectSummaries;
    var reds := CollectRag(ss, "Red");
    var ambers := CollectRag(ss, "Amber");
    lines := CollectUrgent(ss, n);
    var blocked := Ins.CollectBlocked(ss);
    order := Graph.ListOf(blocked);
    if blocked != {} && |lines| < n {
      lines := lines + [UnblockProjects(Sorting.Take(order, 3))];
    }
    if reds != [] && |lines| < n {
      lines := lines + [EscalateRed(P.SummaryNames(Sorting.Take(reds, 3)), |reds|, P.RiskCountSum(reds))];
    }
    if ambers != [] && |lines| < n {
      lines := lines + [MonitorAmber(P.SummaryNames(Sorting.Take(ambers, 2)))];
    }
    assert lines == Derived(ss, order, n);
    while |lines| < n
      invariant Padded(lines, n) == Padded(Derived(ss, order, n), n)
      decreases n - |lines|
    {
      lines := lines + [ScheduleReview];
    }
    lines := Prefix(lines, n);
  }

  // ---------------------------------------------------------------------
  // Talking points
  // ---------------------------------------------------------------------

  /** The `value` of a risk category; the values are distinct, so the tally may be keyed by category. */
  function CategoryValue(c: P.Category): string {
    match c
    case BlockedWork => "Blocked Work"
    case ChronicCarryOver => "Chronic Carry-Over"
    case BurnRate => "Burn Rate"
    case DependencyRisk => "Dependency"
  }

  /** The `cats` dictionary: each category seen, in first-seen order, with its count. */
  type Tally = seq<(P.Category, nat)>

  /** The position of `c` among the keys of the tally, or -1. */
  function KeyIndex(t: Tally, c: P.Category): (i: int)
    ensures -1 <= i < |t|
    ensures i >= 0 ==> t[i].0 == c
    ensures i < 0 ==> forall j :: 0 <= j < |t| ==> t[j].0 != c
  {
    if t == [] then -1
    else if t[0].0 == c then 0
    else
      var k := KeyIndex(t[1..], c);
      if k < 0 then -1 else k + 1
  }

  /** `cats[c] = cats.get(c, 0) + 1` */
  function Bump(t: Tally, c: P.Category): Tally {
    var i := KeyIndex(t, c);
    if i < 0 then t + [(c, 1)] else t[i := (c, t[i].1 + 1)]
  }

  /** The tally after counting the risks `rs` in order. */
  function TallyOf(rs: seq<P.Risk>): Tally {
    if rs == [] then [] else Bump(TallyOf(Ins.Front(rs)), Ins.Last(rs).category)
  }

  /** The number of risks of category `c`. */
  function CountOf(rs: seq<P.Risk>, c: P.Category): nat {
    if rs == [] then 0 else CountOf(Ins.Front(rs), c) + (if Ins.Last(rs).category == c then 1 else 0)
  }

  predicate DistinctKeys(t: Tally) {
    forall i, j :: 0 <= i < j < |t| ==> t[i].0 != t[j].0
  }

  /**
   * The tally holds each category of the risks once, with the number of
   * risks of that category, and is empty only when there are no risks.
   */
  lemma {:induction false} TallyMeaning(rs: seq<P.Risk>)
    ensures DistinctKeys(TallyOf(rs))
    ensures forall i :: 0 <= i < |TallyOf(rs)| ==> TallyOf(rs)[i].1 == CountOf(rs, TallyOf(rs)[i].0) > 0
    ensures forall c :: CountOf(rs, c) > 0 ==> exists i :: 0 <= i < |TallyOf(rs)| && TallyOf(rs)[i].0 == c
    ensures TallyOf(rs) == [] <==> rs == []
  {
    if rs != [] {
      var front := Ins.Front(rs);
      var t := TallyOf(front);
      var x := Ins.Last(rs).category;
      TallyMeaning(front);
      var k := KeyIndex(t, x);
      var r := TallyOf(rs);
      assert r == Bump(t, x);
      forall i | 0 <= i < |r| ensures r[i].1 == CountOf(rs, r[i].0) > 0 {
        if i < |t| && i != k {
          assert r[i] == t[i];
        }
      }
      forall c | CountOf(rs, c) > 0 ensures exists i :: 0 <= i < |r| && r[i].0 == c {
        if c == x {
          if k < 0 {
            assert r[|t|].0 == c;
          } else {
            assert r[k].0 == c;
          }
        } else {
          assert CountOf(front, c) == CountOf(rs, c);
          var i :| 0 <= i < |t| && t[i].0 == c;
          assert r[i].0 == c;
        }
      }
    }
  }

  /** The scan behind `max`: the first position holding the largest count. */
  function ArgMaxFrom(t: Tally, best: nat, k: nat): (m: nat)
    requires best < k <= |t|
    requires forall j :: 0 <= j < k ==> t[j].1 <= t[best].1
    requires forall j :: 0 <= j < best ==> t[j].1 < t[best].1
    ensures m < |t|
    ensures forall j :: 0 <= j < |t| ==> t[j].1 <= t[m].1
    ensures forall j :: 0 <= j < m ==> t[j].1 < t[m].1
    decreases |t| - k
  {
    if k == |t| then best
    else ArgMaxFrom(t, if t[k].1 > t[best].1 then k else best, k + 1)
  }

  /** `max(cats, key=cats.get)`: the first category, in insertion order, with the largest count. */
  function ArgMax(t: Tally): (m: nat)
    requires t != []
    ensures m < |t|
    ensures forall j :: 0 <= j < |t| ==> t[j].1 <= t[m].1
    ensures forall j :: 0 <= j < m ==> t[j].1 < t[m].1
  {
    ArgMaxFrom(t, 0, 1)
  }

  datatype TalkingPoint =
    | HealthPoint(reds: nat, total: nat)
    | FrequentRisk(category: P.Category, count: nat)
    | KeyQuestion

  function TalkingPoints(ss: seq<P.RiskSummary>): seq<TalkingPoint> {
    var t := TallyOf(P.AllRisks(ss));
    var frequent := if t == [] then [] else [FrequentRisk(t[ArgMax(t)].0, t[ArgMax(t)].1)];
    [HealthPoint(|P.WithRag(ss, "Red")|, |ss|)] + frequent + [KeyQuestion]
  }

  /**
   * The health line comes first and the key question last; between them
   * the most frequent category appears exactly when there is some risk,
   * with its true count, and no category is more frequent.
   */
  lemma TalkingPointsShape(ss: seq<P.RiskSummary>)
    ensures |TalkingPoints(ss)| == if P.AllRisks(ss) == [] then 2 else 3
    ensures TalkingPoints(ss)[0] == HealthPoint(|P.WithRag(ss, "Red")|, |ss|)
    ensures TalkingPoints(ss)[|TalkingPoints(ss)| - 1] == KeyQuestion
    ensures |TalkingPoints(ss)| == 3 ==>
              TalkingPoints(ss)[1].FrequentRisk? &&
              TalkingPoints(ss)[1].count == CountOf(P.AllRisks(ss), TalkingPoints(ss)[1].category) &&
              forall c :: CountOf(P.AllRisks(ss), c) <= TalkingPoints(ss)[1].count
  {
    var all := P.AllRisks(ss);
    TallyMeaning(all);
    if all != [] {
      MostFrequent(all);
    }
  }

  /** The category `max` picks is counted truly and no category is counted more often. */
  lemma MostFrequent(rs: seq<P.Risk>)
    requires TallyOf(rs) != []
    ensures TallyOf(rs)[ArgMax(TallyOf(rs))].1 == CountOf(rs, TallyOf(rs)[ArgMax(TallyOf(rs))].0)
    ensures forall c :: CountOf(rs, c) <= TallyOf(rs)[ArgMax(TallyOf(rs))].1
  {
    var t := TallyOf(rs);
    var m := ArgMax(t);
    TallyMeaning(rs);
    forall c ensures CountOf(rs, c) <= t[m].1 {
      if CountOf(rs, c) > 0 {
        var i :| 0 <= i < |t| && t[i].0 == c;
      }
    }
  }

  /** The risks of `xs + [s]` are those of `xs` followed by those of `s`. */
  lemma {:induction false} AllRisksSnoc(xs: seq<P.RiskSummary>, s: P.RiskSummary)
    ensures P.AllRisks(xs + [s]) == P.AllRisks(xs) + s.risks
  {
    if xs != [] {
      assert (xs + [s])[1..] == xs[1..] + [s];
      AllRisksSnoc(xs[1..], s);
    }
  }

  /** The inner loop: count the risks `rs` into a tally that already holds `before`. */
  method CountInto(cats: Tally, ghost before: seq<P.Risk>, rs: seq<P.Risk>) returns (r: Tally)
    requires cats == TallyOf(before)
    ensures r == TallyOf(before + rs)
  {
    r := cats;
    assert before + rs[..0] == before;
    for j := 0 to |rs|
      invariant r == TallyOf(before + rs[..j])
    {
      var seen := before + rs[..j];
      assert seen + [rs[j]] == before + rs[..j + 1];
      assert Ins.Front(seen + [rs[j]]) == seen;
      r := Bump(r, rs[j].category);
    }
    assert rs[..|rs|] == rs;
  }

  /** The `cats` loop: every risk of every project, counted by category. */
  method CountCategories(ss: seq<P.RiskSummary>) returns (cats: Tally)
    ensures cats == TallyOf(P.AllRisks(ss))
  {
    cats := [];
    for k := 0 to |ss|
      invariant cats == TallyOf(P.AllRisks(ss[..k]))
    {
      assert ss[..k + 1] == ss[..k] + [ss[k]];
      AllRisksSnoc(ss[..k], ss[k]);
      cats := CountInto(cats, P.AllRisks(ss[..k]), ss[k].risks);
    }
    assert ss[..|ss|] == ss;
  }

  /** `_generate_talking_points(report)` */
  method GenerateTalkingPoints(report: P.RiskReport) returns (points: seq<TalkingPoint>)
    ensures points == TalkingPoints(report.projectSummaries)
  {
    var ss := report.projectSummaries;
    var reds := CollectRag(ss, "Red");
    points := [HealthPoint(|reds|, |ss|)];
    var cats := CountCategories(ss);
    if cats != [] {
      var top := ArgMax(cats);
      points := points + [FrequentRisk(cats[top].0, cats[top].1)];
    }
    points := points + [KeyQuestion];
  }

  const HealthPrefix := "Portfolio health: "
  const HealthText := " projects are Red — this requires leadership attention, not just monitoring."
  const FrequentPrefix := "Most frequent risk type: '"
  const FrequentText := " instances). This is a systemic pattern, not a one-off — consider a targeted intervention."
  const KeyQuestionText := "Key question: Are we comfortable with the current risk exposure, or do we need to reallocate resources across the portfolio?"

  function TalkingPointText(p: TalkingPoint): string {
    match p
    case HealthPoint(reds, total) => HealthPrefix + NatToString(reds) + " of " + NatToString(total) + HealthText
    case FrequentRisk(c, k) => FrequentPrefix + CategoryValue(c) + "' (" + NatToString(k) + FrequentText
    case KeyQuestion => KeyQuestionText
  }

  // ---------------------------------------------------------------------
  // Actions for one project
  // ---------------------------------------------------------------------

  datatype ProjectAction = FirstStep(sentence: string) | ContinueCourse

  /** `m.split(". ")[0]`: the text before the first ". ", or all of it when there is none. */
  function FirstSentence(m: string): (r: string)
    ensures r <= m
    ensures forall i :: !OccursAt(r, ". ", i)
    ensures r == m || OccursAt(m, ". ", |r|)
  {
    var i := Find(m, ". ");
    FindFirst(m, ". ");
    var r := if i < 0 then m else m[..i];
    assert forall j :: OccursAt(r, ". ", j) ==> OccursAt(m, ". ", j) && j < |r|;
    r
  }

  /** One action per risk with a suggested mitigation: its first sentence. */
  function Steps(rs: seq<P.Risk>): seq<ProjectAction> {
    if rs == [] then []
    else
      var m := Ins.Last(rs).suggestedMitigation;
      Steps(Ins.Front(rs)) + When(m != "", FirstStep(FirstSentence(m)))
  }

  predicate Mitigated(rs: seq<P.Risk>, i: int) {
    0 <= i < |rs| && rs[i].suggestedMitigation != ""
  }

  /** No action is derived exactly when no risk carries a mitigation. */
  lemma {:induction false} StepsEmpty(rs: seq<P.Risk>)
    ensures |Steps(rs)| <= |rs|
    ensures Steps(rs) == [] <==> forall i :: !Mitigated(rs, i)
  {
    if rs != [] {
      var front, last := Ins.Front(rs), Ins.Last(rs);
      StepsEmpty(front);
      var tail := When(last.suggestedMitigation != "", FirstStep(FirstSentence(last.suggestedMitigation)));
      assert Steps(rs) == Steps(front) + tail;
      if forall i :: !Mitigated(rs, i) {
        forall i ensures !Mitigated(front, i) {
          assert !Mitigated(rs, i);
        }
        assert !Mitigated(rs, |rs| - 1);
      }
      forall i | Mitigated(rs, i) ensures Steps(rs) != [] {
        if i < |front| {
          assert Mitigated(front, i);
        } else {
          assert tail != [];
        }
      }
    }
  }

  /** Each action is the first sentence of the mitigation of some risk that has one. */
  lemma {:induction false} StepsFromMitigations(rs: seq<P.Risk>)
    ensures forall a :: a in Steps(rs) ==>
              exists i :: Mitigated(rs, i) && a == FirstStep(FirstSentence(rs[i].suggestedMitigation))
  {
    if rs != [] {
      var front := Ins.Front(rs);
      StepsFromMitigations(front);
      forall a | a in Steps(rs)
        ensures exists i :: Mitigated(rs, i) && a == FirstStep(FirstSentence(rs[i].suggestedMitigation))
      {
        if a in Steps(front) {
          var i :| Mitigated(front, i) && a == FirstStep(FirstSentence(front[i].suggestedMitigation));
          assert rs[i] == front[i];
        } else {
          assert Mitigated(rs, |rs| - 1);
        }
      }
    }
  }

  /** `_generate_project_actions(summary)` as a value. */
  function ProjectActions(s: P.RiskSummary): seq<ProjectAction> {
    var steps := Steps(Sorting.Take(s.risks, 3));
    if steps == [] && s.ragStatus == "Green" then [ContinueCourse] else steps
  }

  /**
   * At most three actions, each the first sentence of the mitigation of
   * one of the three leading risks; the "continue" line stands alone and
   * appears exactly for a Green project none of whose three leading risks
   * carries a mitigation.
   */
  lemma ProjectActionsShape(s: P.RiskSummary)
    ensures |ProjectActions(s)| <= 3
    ensures ContinueCourse in ProjectActions(s) <==> ProjectActions(s) == [ContinueCourse]
    ensures ProjectActions(s) == [ContinueCourse] <==>
              s.ragStatus == "Green" && forall i :: !Mitigated(Sorting.Take(s.risks, 3), i)
    ensures forall a :: a in ProjectActions(s) && a != ContinueCourse ==>
              exists i :: 0 <= i < 3 && Mitigated(s.risks, i) && a == FirstStep(FirstSentence(s.risks[i].suggestedMitigation))
  {
    var top := Sorting.Take(s.risks, 3);
    StepsEmpty(top);
    StepsFromMitigations(top);
    assert forall i :: Mitigated(top, i) ==> Mitigated(s.risks, i) && top[i] == s.risks[i];
  }

  const ContinueText := "Continue on current trajectory. No escalation needed."

  function ActionText(a: ProjectAction): (t: string)
    ensures t != "" && t[|t| - 1] == '.'
  {
    match a
    case FirstStep(sentence) => sentence + "."
    case ContinueCourse => ContinueText
  }

  method GenerateProjectActions(s: P.RiskSummary) returns (actions: seq<ProjectAction>)
    ensures actions == ProjectActions(s)
  {
    var top := Sorting.Take(s.risks, 3);
    actions := [];
    for k := 0 to |top|
      invariant actions == Steps(top[..k])
    {
      assert Ins.Front(top[..k + 1]) == top[..k];
      var m := top[k].suggestedMitigation;
      if m != "" {
        actions := actions + [FirstStep(FirstSentence(m))];
      }
    }
    assert top[..|top|] == top;
    if actions == [] && s.ragStatus == "Green" {
      actions := actions + [ContinueCourse];
    }
  }

  // ---------------------------------------------------------------------
  // Headings, top risks
  // ---------------------------------------------------------------------

  /** `brand.custom_headings.get(key, default)`: a brand's override wins over the default heading. */
  function Heading(custom: map<string, string>, key: string, default: string): (r: string)
    ensures key in custom ==> r == custom[key]
    ensures key !in custom ==> r == default
  {
    if key in custom then custom[key] else default
  }

  /** `_get_top_n_risks(report, n)` as a value. */
  function TopRisks(ss: seq<P.RiskSummary>, n: int): seq<P.Risk> {
    Prefix(P.SortBySeverity(P.AllRisks(ss)), n)
  }

  lemma PrefixSubMultiset<T>(xs: seq<T>, n: int)
    ensures multiset(Prefix(xs, n)) <= multiset(xs)
  {
    var top := Prefix(xs, n);
    assert xs == top + xs[|top|..];
    assert multiset(xs) == multiset(top) + multiset(xs[|top|..]);
  }

  /** The top risks are `n` of the report's risks, or all of them when there are fewer. */
  lemma TopRisksCount(ss: seq<P.RiskSummary>, n: int)
    ensures n >= 0 ==> |TopRisks(ss, n)| == if n < |P.AllRisks(ss)| then n else |P.AllRisks(ss)|
    ensures n < 0 ==> |TopRisks(ss, n)| == if |P.AllRisks(ss)| + n < 0 then 0 else |P.AllRisks(ss)| + n
    ensures multiset(TopRisks(ss, n)) <= multiset(P.AllRisks(ss))
  {
    var all := P.AllRisks(ss);
    var sorted := P.SortBySeverity(all);
    P.SortBySeverityCorrect(all);
    P.SortBySeverityLength(all);
    PrefixSubMultiset(sorted, n);
  }

  predicate SeveritySorted(xs: seq<P.Risk>) {
    forall i, j :: 0 <= i < j < |xs| ==> P.SeverityRank(xs[i].severity) <= P.SeverityRank(xs[j].severity)
  }

  lemma PrefixSorted(xs: seq<P.Risk>, n: int)
    requires SeveritySorted(xs)
    ensures Sorting.SortedByKey(Prefix(xs, n), P.RiskRank)
  {
  }

  /** Nothing left after a prefix of a severity-sorted list is more severe than anything in it. */
  lemma LeftOutNoMoreSevere(xs: seq<P.Risk>, n: int, x: P.Risk)
    requires SeveritySorted(xs)
    requires x in xs && x !in Prefix(xs, n)
    ensures forall i :: 0 <= i < |Prefix(xs, n)| ==> P.RiskRank(Prefix(xs, n)[i]) <= P.RiskRank(x)
  {
    var top := Prefix(xs, n);
    var j :| 0 <= j < |xs| && xs[j] == x;
    assert j >= |top|;
  }

  /** The top risks come most severe first, and every risk left out is no more severe than any risk kept. */
  lemma TopRisksMostSevere(ss: seq<P.RiskSummary>, n: int)
    ensures Sorting.SortedByKey(TopRisks(ss, n), P.RiskRank)
    ensures forall x :: x in P.AllRisks(ss) && x !in TopRisks(ss, n) ==>
              forall i :: 0 <= i < |TopRisks(ss, n)| ==> P.RiskRank(TopRisks(ss, n)[i]) <= P.RiskRank(x)
  {
    var all := P.AllRisks(ss);
    var sorted := P.SortBySeverity(all);
    P.SortBySeverityCorrect(all);
    assert SeveritySorted(sorted);
    PrefixSorted(sorted, n);
    forall x | x in all && x !in Prefix(sorted, n)
      ensures forall i :: 0 <= i < |Prefix(sorted, n)| ==> P.RiskRank(Prefix(sorted, n)[i]) <= P.RiskRank(x)
    {
      assert x in multiset(sorted);
      LeftOutNoMoreSevere(sorted, n, x);
    }
  }

  method GetTopNRisks(report: P.RiskReport, n: int) returns (top: seq<P.Risk>)
    ensures top == TopRisks(report.projectSummaries, n)
  {
    var ss := report.projectSummaries;
    var all: seq<P.Risk> := [];
    for k := 0 to |ss|
      invariant all == P.AllRisks(ss[..k])
    {
      assert ss[..k + 1] == ss[..k] + [ss[k]];
      AllRisksSnoc(ss[..k], ss[k]);
      all := all + ss[k].risks;
    }
    assert ss[..|ss|] == ss;
    top := Prefix(P.SortBySeverity(all), n);
  }

  // ---------------------------------------------------------------------
  // Quick decisions of the summary slide
  // ---------------------------------------------------------------------

  datatype SlideDecision =
    | BudgetCall(project: string)
    | UnblockCall(names: seq<string>)
    | EscalateCall(count: nat)
    | ReviewCall

  /** One budget line per project with a critical burn-rate risk, uncapped. */
  function SlideBurn(ss: seq<P.RiskSummary>): seq<SlideDecision> {
    if ss == [] then []
    else SlideBurn(Ins.Front(ss)) + When(Ins.HasCriticalBurn(Ins.Last(ss)), BudgetCall(Ins.Last(ss).projectName))
  }

  /** The slide and the briefing flag the same projects for budget, in the same order. */
  lemma {:induction false} SlideBurnMatchesBriefing(ss: seq<P.RiskSummary>)
    ensures |SlideBurn(ss)| == |BurnLines(ss)|
    ensures forall i :: 0 <= i < |SlideBurn(ss)| ==>
              BurnLines(ss)[i].BudgetUrgent? && SlideBurn(ss)[i] == BudgetCall(BurnLines(ss)[i].project)
  {
    if ss != [] {
      SlideBurnMatchesBriefing(Ins.Front(ss));
    }
  }

  /** `_get_decisions_text(report)` as a value, `order` being the set's iteration order. */
  function SlideDecisions(ss: seq<P.RiskSummary>, order: seq<string>): seq<SlideDecision> {
    var reds := P.WithRag(ss, "Red");
    var d := SlideBurn(ss) + When(order != [], UnblockCall(Sorting.Take(order, 2))) + When(reds != [], EscalateCall(|reds|));
    if d == [] then [ReviewCall] else d
  }

  /**
   * The slide always has a decision; the review fallback appears exactly
   * when there is no budget, blocked or Red line, and then alone.
   */
  lemma SlideFallback(ss: seq<P.RiskSummary>, order: seq<string>)
    requires Ins.Listing(order, Ins.BlockedNames(ss))
    ensures SlideDecisions(ss, order) != []
    ensures ReviewCall in SlideDecisions(ss, order) <==> SlideDecisions(ss, order) == [ReviewCall]
    ensures SlideDecisions(ss, order) == [ReviewCall] <==>
              BurnLines(ss) == [] && Ins.BlockedNames(ss) == {} && P.WithRag(ss, "Red") == []
  {
    SlideBurnMatchesBriefing(ss);
    SlideBurnCalls(ss);
    var burn, reds := SlideBurn(ss), P.WithRag(ss, "Red");
    var d := burn + When(order != [], UnblockCall(Sorting.Take(order, 2))) + When(reds != [], EscalateCall(|reds|));
    assert ReviewCall !in d;
    assert |order| == 0 <==> Ins.BlockedNames(ss) == {};
  }

  lemma {:induction false} SlideBurnCalls(ss: seq<P.RiskSummary>)
    ensures forall x :: x in SlideBurn(ss) ==> x.BudgetCall?
  {
    if ss != [] {
      SlideBurnCalls(Ins.Front(ss));
    }
  }

  /** The Red line appears exactly when some project is Red, and counts them all. */
  lemma SlideEscalation(ss: seq<P.RiskSummary>, order: seq<string>)
    ensures (exists c :: EscalateCall(c) in SlideDecisions(ss, order)) <==> exists s :: s in ss && s.ragStatus == "Red"
    ensures forall c :: EscalateCall(c) in SlideDecisions(ss, order) ==> c == |P.WithRag(ss, "Red")|
  {
    SlideBurnCalls(ss);
    var burn := SlideBurn(ss);
    var reds := P.WithRag(ss, "Red");
    var u := When(order != [], UnblockCall(Sorting.Take(order, 2)));
    var e := When(reds != [], EscalateCall(|reds|));
    var d := SlideDecisions(ss, order);
    assert d == if burn + u + e == [] then [ReviewCall] else burn + u + e;
    forall c | EscalateCall(c) in d ensures reds != [] && c == |reds| {
      assert EscalateCall(c) !in burn && EscalateCall(c) !in u;
      assert EscalateCall(c) in e;
    }
    if reds != [] {
      assert reds[0] in reds;
      assert EscalateCall(|reds|) in d;
    }
  }

  /** The blocked line names one or two projects with a critical or high blocked-work risk. */
  lemma SlideUnblock(ss: seq<P.RiskSummary>, order: seq<string>, names: seq<string>)
    requires Ins.Listing(order, Ins.BlockedNames(ss))
    requires UnblockCall(names) in SlideDecisions(ss, order)
    ensures 1 <= |names| <= 2
    ensures forall p :: p in names ==> p in Ins.BlockedNames(ss)
  {
    SlideBurnCalls(ss);
    var burn := SlideBurn(ss);
    assert UnblockCall(names) !in burn;
    assert names == Sorting.Take(order, 2);
    assert forall p :: p in names ==> p in order;
  }

  const BudgetCallText := ": Budget critical — approve top-up or cut scope"
  const UnblockCallPrefix := "Unblock "
  const UnblockCallText := ": assign owners, 5-day deadline"
  const EscalateCallText := " to executive review"
  const ReviewCallText := "Schedule portfolio risk review in 2 weeks"

  function SlideText(d: SlideDecision): string {
    match d
    case BudgetCall(p) => p + BudgetCallText
    case UnblockCall(names) => UnblockCallPrefix + Join(names, ", ") + UnblockCallText
    case EscalateCall(c) => EscalatePrefix + NatToString(c) + " Red project" + Plural(c) + EscalateCallText
    case ReviewCall => ReviewCallText
  }

  /** `_get_decisions_text(report)`, returning the iteration order used for the blocked set. */
  method GetDecisionsText(report: P.RiskReport) returns (decisions: seq<SlideDecision>, order: seq<string>)
    ensures Ins.Listing(order, Ins.BlockedNames(report.projectSummaries))
    ensures decisions == SlideDecisions(report.projectSummaries, order)
  {
    var ss := report.projectSummaries;
    decisions := [];
    for k := 0 to |ss|
      invariant decisions == SlideBurn(ss[..k])
    {
      assert Ins.Front(ss[..k + 1]) == ss[..k];
      var burns := Ins.AnyCriticalBurn(ss[k].risks);
      if burns {
        decisions := decisions + [BudgetCall(ss[k].projectName)];
      }
    }
    assert ss[..|ss|] == ss;
    var blocked := Ins.CollectBlocked(ss);
    order := Graph.ListOf(blocked);
    if blocked != {} {
      decisions := decisions + [UnblockCall(Sorting.Take(order, 2))];
    }
    var reds := CollectRag(ss, "Red");
    if reds != [] {
      decisions := decisions + [EscalateCall(|reds|)];
    }
    if decisions == [] {
      decisions := [ReviewCall];
    }
  }
}
