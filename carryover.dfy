/**
 * The chronic carry-over detector: a task that is not finished and has
 * already slipped through `threshold` or more earlier sprints becomes a
 * `ChronicCarryOver` risk whose severity follows the task's priority,
 * raised one step once it has slipped five or more times.
 */
module Carryover {
  import opened Portfolio
  import opened Text

  /** The default threshold: three or more earlier sprints. */
  const CarryoverThreshold: int := 3

  /** From this many earlier sprints on, severity is raised one step. */
  const Excessive: nat := 5

  const CompletedStatuses: set<string> := {"done", "complete", "completed", "closed", "resolved"}

  /** A task whose status, stripped and lower-cased, is a completion word. */
  predicate IsComplete(t: Task) {
    Lower(Strip(t.status)) in CompletedStatuses
  }

  /** The priority map, looked up with the stripped lower-cased priority; anything else is Medium. */
  function PrioritySeverity(priority: string): (s: Severity)
    ensures s == Critical <==> Lower(Strip(priority)) == "critical"
    ensures s == High <==> Lower(Strip(priority)) == "high"
    ensures s == Low <==> Lower(Strip(priority)) == "low"
  {
    var key := Lower(Strip(priority));
    if key == "critical" then Critical
    else if key == "high" then High
    else if key == "low" then Low
    else Medium
  }

  /** The elevation table: one step more severe, Critical staying Critical. */
  function Elevate(s: Severity): (r: Severity)
    ensures SeverityRank(r) == if SeverityRank(s) == 0 then 0 else SeverityRank(s) - 1
  {
    match s
    case Low => Medium
    case Medium => High
    case High => Critical
    case Critical => Critical
  }

  function CalculateSeverity(t: Task, sprintCount: nat): (s: Severity)
    ensures sprintCount < Excessive ==> s == PrioritySeverity(t.priority)
    ensures sprintCount >= Excessive ==>
      SeverityRank(s) == if SeverityRank(PrioritySeverity(t.priority)) == 0 then 0
                         else SeverityRank(PrioritySeverity(t.priority)) - 1
  {
    var base := PrioritySeverity(t.priority);
    if sprintCount >= Excessive then Elevate(base) else base
  }

  /** Elevation never lowers severity, and a Critical or High priority yields at least High. */
  lemma SeverityNeverBelowPriority(t: Task, sprintCount: nat)
    ensures SeverityRank(CalculateSeverity(t, sprintCount)) <= SeverityRank(PrioritySeverity(t.priority))
    ensures Lower(Strip(t.priority)) in {"critical", "high"} ==>
      SeverityRank(CalculateSeverity(t, sprintCount)) <= 1
    ensures sprintCount >= Excessive && Lower(Strip(t.priority)) in {"critical", "high"} ==>
      CalculateSeverity(t, sprintCount) == Critical
  {
  }

  // ---------------------------------------------------------------------
  // The wording of a risk
  // ---------------------------------------------------------------------

  // Every fixed fragment of wording is a named constant.
  const Arrow: string := " \U{2192} "
  const Dash: string := " \U{2014} "
  const Quote: string := "'"
  const Nobody: string := "nobody"
  const TitleStuck: string := "' stuck \U{2014} carried over "
  const SprintsWord: string := " sprints"
  const BouncedAcross: string := "' has bounced across "
  const SprintsOpen: string := " sprints ("
  const ExplanationMiddle: string := ") without getting done. Assigned to "
  const AtWord: string := " at "
  const SmellSentence: string :=
    " priority. This is a delivery smell \U{2014} either the task is too large, "
    + "blocked on something unstated, or consistently deprioritised."
  const ReviewWhy: string := "Review why '"
  const NotCompleted: string := "' has not been completed after "
  const ReviewTail: string :=
    " sprints. Consider whether it needs to be re-scoped, broken into smaller tasks, or escalated."
  const ExcessSentence: string :=
    "This task has been carried over excessively \U{2014} consider a dedicated "
    + "spike or assigning additional resource to unblock it."
  const AsA: string := "As a "
  const PriorityTail: string := "-priority item, continued delay may impact project milestones."
  const Space: string := " "

  /** The earlier sprints, then the current one when the task has one. */
  function SprintHistory(t: Task): (h: seq<string>)
    ensures |h| == |t.previousSprints| + (if t.sprint == "" then 0 else 1)
    ensures h[..|t.previousSprints|] == t.previousSprints
    ensures t.sprint != "" ==> h[|h| - 1] == t.sprint
  {
    t.previousSprints + (if t.sprint != "" then [t.sprint] else [])
  }

  /** `task.assignee or 'nobody'` */
  function AssigneeOrNobody(t: Task): (a: string)
    ensures a != ""
    ensures t.assignee != "" ==> a == t.assignee
  {
    if t.assignee != "" then t.assignee else Nobody
  }

  function TitleHead(t: Task): string {
    Quote + t.name + TitleStuck
  }

  function Title(t: Task, sprintCount: nat): string {
    TitleHead(t) + NatToString(sprintCount) + SprintsWord
  }

  /** The explanation up to the sprint history. */
  function ExplanationHead(t: Task, sprintCount: nat): string {
    Quote + t.name + BouncedAcross + NatToString(sprintCount) + SprintsOpen
  }

  /** The explanation after the assignee. */
  function ExplanationTail(t: Task): string {
    AtWord + Lower(t.priority) + SmellSentence
  }

  function Explanation(t: Task, sprintCount: nat): string {
    ExplanationHead(t, sprintCount) + Join(SprintHistory(t), Arrow)
    + ExplanationMiddle + AssigneeOrNobody(t) + ExplanationTail(t)
  }

  /** The title quotes the count, the explanation the history and who holds the task. */
  lemma WordingMentions(t: Task, sprintCount: nat)
    ensures Contains(Title(t, sprintCount), NatToString(sprintCount))
    ensures Contains(Explanation(t, sprintCount), Join(SprintHistory(t), Arrow))
    ensures Contains(Explanation(t, sprintCount), AssigneeOrNobody(t))
  {
    var c := NatToString(sprintCount);
    ContainsSelf(c);
    ContainsInAppend(TitleHead(t), c, c, SprintsWord);
    var head, h, a, tail := ExplanationHead(t, sprintCount), Join(SprintHistory(t), Arrow), AssigneeOrNobody(t), ExplanationTail(t);
    ContainsSelf(h);
    ContainsInAppend(head, h, h, ExplanationMiddle + a + tail);
    assert Explanation(t, sprintCount) == head + h + (ExplanationMiddle + a + tail);
    ContainsSelf(a);
    ContainsInAppend(head + h + ExplanationMiddle, a, a, tail);
  }

  // ---------------------------------------------------------------------
  // Mitigation
  // ---------------------------------------------------------------------

  function ReviewSentence(t: Task, sprintCount: nat): string {
    ReviewWhy + t.name + NotCompleted + NatToString(sprintCount) + ReviewTail
  }

  function PrioritySentence(t: Task): string {
    AsA + Lower(t.priority) + PriorityTail
  }

  /** The mitigation's priority test: lower-cased, but not stripped. */
  predicate UrgentPriority(t: Task) {
    Lower(t.priority) in {"critical", "high"}
  }

  /** The sentences of the mitigation, in the order they are appended. */
  function MitigationParts(t: Task, sprintCount: nat): (parts: seq<string>)
    ensures |parts| >= 1 && parts[0] == ReviewSentence(t, sprintCount)
    ensures |parts| == 1 + (if sprintCount >= Excessive then 1 else 0) + (if UrgentPriority(t) then 1 else 0)
    ensures sprintCount >= Excessive ==> parts[1] == ExcessSentence
    ensures UrgentPriority(t) ==> parts[|parts| - 1] == PrioritySentence(t)
  {
    [ReviewSentence(t, sprintCount)]
    + (if sprintCount >= Excessive then [ExcessSentence] else [])
    + (if UrgentPriority(t) then [PrioritySentence(t)] else [])
  }

  /** The mitigation text is the sentences joined by spaces. */
  function Mitigation(t: Task, sprintCount: nat): string {
    Join(MitigationParts(t, sprintCount), Space)
  }

  /** `_build_mitigation`: append the sentences that apply, then join them. */
  method BuildMitigation(t: Task, sprintCount: nat) returns (m: string)
    ensures m == Mitigation(t, sprintCount)
  {
    var parts := [ReviewSentence(t, sprintCount)];
    if sprintCount >= Excessive {
      parts := parts + [ExcessSentence];
    }
    if UrgentPriority(t) {
      parts := parts + [PrioritySentence(t)];
    }
    assert parts == MitigationParts(t, sprintCount);
    m := Join(parts, Space);
  }

  /** The mitigation always starts with the review sentence, so it is never empty. */
  lemma MitigationStartsWithReview(t: Task, sprintCount: nat)
    ensures |Mitigation(t, sprintCount)| >= |ReviewSentence(t, sprintCount)|
    ensures Mitigation(t, sprintCount)[..|ReviewSentence(t, sprintCount)|] == ReviewSentence(t, sprintCount)
    ensures Mitigation(t, sprintCount) != ""
  {
    var parts := MitigationParts(t, sprintCount);
    if |parts| > 1 {
      JoinCons(parts[0], parts[1..], Space);
      assert parts == [parts[0]] + parts[1..];
    }
  }

  // ---------------------------------------------------------------------
  // Detection
  // ---------------------------------------------------------------------

  /** A task is flagged when it is unfinished and has slipped `threshold` or more times. */
  predicate Flagged(t: Task, threshold: int) {
    !IsComplete(t) && |t.previousSprints| >= threshold
  }

  /** The risk reported for a flagged task of the named project. */
  function CarryoverRisk(projectName: string, t: Task): (r: Risk)
    ensures r.projectName == projectName && r.category == ChronicCarryOver
    ensures r.severity == CalculateSeverity(t, |t.previousSprints|)
  {
    var n := |t.previousSprints|;
    Risk(projectName, ChronicCarryOver, CalculateSeverity(t, n), Title(t, n), Explanation(t, n), Mitigation(t, n))
  }

  /** The risks in task order, before sorting. */
  function FlaggedRisks(projectName: string, tasks: seq<Task>, threshold: int): (r: seq<Risk>)
    ensures |r| <= |tasks|
  {
    if tasks == [] then []
    else
      var last := tasks[|tasks| - 1];
      FlaggedRisks(projectName, tasks[..|tasks| - 1], threshold)
      + (if Flagged(last, threshold) then [CarryoverRisk(projectName, last)] else [])
  }

  /**
   * A risk is reported exactly for the flagged tasks, and every risk is a
   * chronic carry-over of this project.
   */
  lemma {:induction false} FlaggedRisksIff(projectName: string, tasks: seq<Task>, threshold: int, r: Risk)
    ensures r in FlaggedRisks(projectName, tasks, threshold) <==>
      exists t :: t in tasks && Flagged(t, threshold) && r == CarryoverRisk(projectName, t)
  {
    if tasks != [] {
      var init, last := tasks[..|tasks| - 1], tasks[|tasks| - 1];
      assert tasks == init + [last];
      FlaggedRisksIff(projectName, init, threshold, r);
      if r in FlaggedRisks(projectName, tasks, threshold) && r !in FlaggedRisks(projectName, init, threshold) {
        assert Flagged(last, threshold) && r == CarryoverRisk(projectName, last);
      }
      if t :| t in tasks && Flagged(t, threshold) && r == CarryoverRisk(projectName, t) {
        if t != last {
          assert t in init;
        }
      }
    }
  }

  /** Lowering the threshold can only add risks. */
  lemma {:induction false} LowerThresholdAddsRisks(projectName: string, tasks: seq<Task>, low: int, high: int)
    requires low <= high
    ensures multiset(FlaggedRisks(projectName, tasks, high)) <= multiset(FlaggedRisks(projectName, tasks, low))
  {
    if tasks != [] {
      LowerThresholdAddsRisks(projectName, tasks[..|tasks| - 1], low, high);
    }
  }

  /** Every collected risk is a chronic carry-over of the named project. */
  lemma {:induction false} FlaggedRisksShape(projectName: string, tasks: seq<Task>, threshold: int)
    ensures forall r :: r in FlaggedRisks(projectName, tasks, threshold) ==>
      r.category == ChronicCarryOver && r.projectName == projectName
  {
    if tasks != [] {
      FlaggedRisksShape(projectName, tasks[..|tasks| - 1], threshold);
    }
  }

  /** The loop of `detect_carryover`: one risk per flagged task, in task order. */
  method CollectCarryover(project: Project, threshold: int) returns (found: seq<Risk>)
    ensures found == FlaggedRisks(project.name, project.tasks, threshold)
  {
    found := [];
    for i := 0 to |project.tasks|
      invariant found == FlaggedRisks(project.name, project.tasks[..i], threshold)
    {
      var t := project.tasks[i];
      assert project.tasks[..i + 1] == project.tasks[..i] + [t];
      if IsComplete(t) {
        continue;
      }
      var sprintCount := |t.previousSprints|;
      if sprintCount < threshold {
        continue;
      }
      var severity := CalculateSeverity(t, sprintCount);
      var mitigation := BuildMitigation(t, sprintCount);
      var risk := Risk(project.name, ChronicCarryOver, severity, Title(t, sprintCount),
                       Explanation(t, sprintCount), mitigation);
      assert risk == CarryoverRisk(project.name, t);
      found := found + [risk];
    }
    assert project.tasks[..|project.tasks|] == project.tasks;
  }

  /** `detect_carryover`: collect the risks task by task, then sort them critical-first. */
  method DetectCarryover(project: Project, threshold: int) returns (risks: seq<Risk>)
    ensures risks == SortBySeverity(FlaggedRisks(project.name, project.tasks, threshold))
    ensures multiset(risks) == multiset(FlaggedRisks(project.name, project.tasks, threshold))
    ensures forall i, j :: 0 <= i < j < |risks| ==> SeverityRank(risks[i].severity) <= SeverityRank(risks[j].severity)
    ensures forall r :: r in risks ==> r.category == ChronicCarryOver && r.projectName == project.name
    ensures project.tasks == [] ==> risks == []
  {
    var found := CollectCarryover(project, threshold);
    risks := SortBySeverity(found);
    SortBySeverityCorrect(found);
    FlaggedRisksShape(project.name, project.tasks, threshold);
    assert forall r :: r in risks ==> r in multiset(found);
  }
}
