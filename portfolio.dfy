/**
 * The records every part of the portfolio tooling shares: the parsed
 * `Task` and `Project`, the risk vocabulary (`Severity`, `Category`, `Risk`)
 * and the per-project risk summary that the reporting layer reads.
 *
 * Dates are day numbers (`int`), so adding a number of days is addition;
 * money is `real`.
 */
module Portfolio {
  import opened Wrappers
  import Sorting

  datatype Task = Task(
    name: string,
    status: string,
    priority: string,
    assignee: string,
    sprint: string,
    previousSprints: seq<string>,
    comments: string)

  /** A task as the parser builds it when only the name and status are known. */
  function NewTask(name: string, status: string): (t: Task)
    ensures t.name == name && t.status == status
    ensures t.priority == "Medium" && t.assignee == "" && t.sprint == ""
    ensures t.previousSprints == [] && t.comments == ""
  {
    Task(name, status, "Medium", "", "", [], "")
  }

  datatype Project = Project(
    name: string,
    status: string,
    startDate: Option<int>,
    endDate: Option<int>,
    budget: real,
    actualSpend: real,
    tasks: seq<Task>)

  datatype Severity = Critical | High | Medium | Low

  datatype Category = BlockedWork | ChronicCarryOver | BurnRate | DependencyRisk

  datatype Risk = Risk(
    projectName: string,
    category: Category,
    severity: Severity,
    title: string,
    explanation: string,
    suggestedMitigation: string)

  /**
   * What the reporting layer reads of one project's risk assessment; the
   * engine that fills it in is not part of this model.
   */
  datatype RiskSummary = RiskSummary(
    projectName: string,
    projectStatus: string,
    ragStatus: string,
    riskCount: int,
    risks: seq<Risk>)

  datatype RiskReport = RiskReport(projectSummaries: seq<RiskSummary>)

  /** The sort key `{CRITICAL: 0, HIGH: 1, MEDIUM: 2, LOW: 3}`. */
  function SeverityRank(s: Severity): (k: nat)
    ensures k <= 3
    ensures s == Critical <==> k == 0
  {
    match s
    case Critical => 0
    case High => 1
    case Medium => 2
    case Low => 3
  }

  lemma SeverityRankInjective(a: Severity, b: Severity)
    ensures SeverityRank(a) == SeverityRank(b) ==> a == b
  {
  }

  function RiskRank(r: Risk): nat {
    SeverityRank(r.severity)
  }

  /** `risks.sort(key=lambda r: order[r.severity])`: critical first, stable. */
  function SortBySeverity(rs: seq<Risk>): seq<Risk> {
    Sorting.KeySort(rs, RiskRank, 0, 3)
  }

  /** The risks of one severity, in their original order. */
  function OfSeverity(rs: seq<Risk>, s: Severity): seq<Risk> {
    Sorting.Bucket(rs, RiskRank, SeverityRank(s))
  }

  /**
   * Sorting by severity orders the risks critical-first, loses and invents
   * none, and keeps the risks of each severity in their original order.
   */
  lemma SortBySeverityCorrect(rs: seq<Risk>)
    ensures forall i, j :: 0 <= i < j < |SortBySeverity(rs)| ==>
      SeverityRank(SortBySeverity(rs)[i].severity) <= SeverityRank(SortBySeverity(rs)[j].severity)
    ensures multiset(SortBySeverity(rs)) == multiset(rs)
    ensures forall s :: OfSeverity(SortBySeverity(rs), s) == OfSeverity(rs, s)
  {
    Sorting.KeySortIsStableSort(rs, RiskRank, 3);
  }

  lemma SortBySeverityLength(rs: seq<Risk>)
    ensures |SortBySeverity(rs)| == |rs|
  {
    SortBySeverityCorrect(rs);
    assert |multiset(SortBySeverity(rs))| == |multiset(rs)|;
  }

  /** All risks of a report, project by project. */
  function AllRisks(summaries: seq<RiskSummary>): (r: seq<Risk>)
    ensures forall s :: s in summaries ==> multiset(s.risks) <= multiset(r)
  {
    if summaries == [] then []
    else
      var rest := AllRisks(summaries[1..]);
      assert forall s :: s in summaries[1..] ==> multiset(s.risks) <= multiset(rest);
      summaries[0].risks + rest
  }

  /** The summaries whose RAG status is exactly `rag`, in report order. */
  function WithRag(summaries: seq<RiskSummary>, rag: string): (r: seq<RiskSummary>)
    ensures |r| <= |summaries|
    ensures forall s :: s in r <==> s in summaries && s.ragStatus == rag
  {
    if summaries == [] then []
    else (if summaries[0].ragStatus == rag then [summaries[0]] else []) + WithRag(summaries[1..], rag)
  }

  /** The project names of the summaries, in order. */
  function SummaryNames(ss: seq<RiskSummary>): (r: seq<string>)
    ensures |r| == |ss| && forall i :: 0 <= i < |ss| ==> r[i] == ss[i].projectName
  {
    seq(|ss|, i requires 0 <= i < |ss| => ss[i].projectName)
  }

  /** The combined risk count of the summaries. */
  function RiskCountSum(ss: seq<RiskSummary>): int {
    if ss == [] then 0 else ss[0].riskCount + RiskCountSum(ss[1..])
  }
}
