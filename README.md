# Portfolio risk copilot — a verified model of its core

This project models, in Dafny, the checkable core of *portfolio-risk-copilot*,
a tool that reads a portfolio of projects (tasks, sprints, budgets, dates),
detects delivery risks, simulates "what if" scenarios and writes the results up
for a steering committee. The model covers:

- the **dependency graph** between projects: the adjacency map, its one-hop and
  transitive queries, the depth-first cycle search, and how the graph is built
  from dependency keywords in task comments;
- the **chronic carry-over detector**, the one risk detector that is implemented;
- the **scenario parser**, which turns a sentence such as "push back Gamma by
  3 months" into an action. Its regular expressions run on a small regular
  expression matcher (module `Regex`) that is proved sound and complete for
  the language of each pattern;
- the **scenario simulator**, which applies an action to a snapshot of the
  portfolio and lists its direct and cascade impacts and warnings;
- the **scenario narrative**, which writes a simulation result up as a titled
  briefing with recommended actions;
- the KPI **colour ladders** of the dashboard;
- **ingestion**: the header-to-field column map built from the alias table,
  reading one field of a row, the sprint-history field, the flattening of
  nested JSON projects into rows, and the grouping of rows into projects;
- the **column validator**: which fields a file's headers map to, the
  missing-required error and the missing-optional warnings;
- the **benefits register**: reading benefit rows, and the benefit
  calculator's adjusted value, drift, at-risk list and recommendations;
- the **investment analysis**: cost to complete, ROI, the
  invest/hold/review/divest call, ranking and recommendations;
- the **decision log** and the three decision generators;
- the **executive summary** paragraph of the insights module;
- the data-driven text of the **Word briefing and slide deck**: recommended
  decisions, talking points, project actions, heading overrides, the most
  severe risks and the quick slide decisions.

Every operation is stated against an independent definition and proved:

- The graph queries are proved against the path relation `Digraph.Reaches` and
  the cycle predicate `Digraph.HasCycleIn`.
- The comment scan is proved against "some keyword occurs, and the text after
  it names the project within 80 characters".
- The detector is proved against a task-by-task filter, plus the stable
  severity sort of `Sorting.KeySort`.
- The parser is proved against the language of its patterns: which parser
  wins, what each capture group can hold, and how the numbers are read.
- Every loop of ingestion, the validator, the calculators and the text
  generators is a method proved equal to a function of its inputs, and the
  properties of those functions (which header wins, which rows go to which
  project, which items appear, the bounds and orderings of the figures) are
  proved as lemmas.

Conventions:

- Strings are `seq<char>`.
- `str.lower()` folds ASCII `A`–`Z`.
- `str.strip()` removes the ASCII blanks space, tab, newline, carriage return,
  vertical tab and form feed.
- Dates are day numbers and money is `real`; floating-point arithmetic is
  modelled as exact real arithmetic.

## Model

| member | source | states |
|---|---|---|
| Graph.DependencyGraph.constructor | src/scenario/graph.py:31-40 | the graph starts with the given adjacency map and set of known projects |
| Graph.DependencyGraph.AddDependency | src/scenario/graph.py:42-46 | afterwards `dependsOn` is a dependency of `project`; every other project's dependencies and the set of known projects are unchanged |
| Graph.DependencyGraph.GetDependencies | src/scenario/graph.py:48-50 | `q` is returned iff `project` has an entry and `q` is in it; a project without an entry has no dependencies |
| Graph.DependencyGraph.GetDependents | src/scenario/graph.py:52-58 | the result is exactly the projects whose dependency set contains `project` |
| Graph.DependencyGraph.GetAllDependents | src/scenario/graph.py:60-73 | the breadth-first search terminates; `q` is returned iff there is a path of one or more dependency edges from `q` to `project`, so `project` itself only when it lies on a cycle |
| Graph.DependencyGraph.DependentsStep | src/scenario/graph.py:69-72 | one pass of the inner loop enqueues exactly the not-yet-visited projects that depend on `current` |
| Graph.DependencyGraph.GetAllDependencies | src/scenario/graph.py:75-84 | the breadth-first search terminates; `q` is returned iff it is reachable from `project` by one or more dependency edges |
| Graph.DependencyGraph.HasCircularDependency | src/scenario/graph.py:86-123 | returns nothing iff the graph restricted to the known projects has no cycle; edges to unknown projects are ignored; a returned list is a cycle when no project depends on itself and no name is empty |
| Graph.DependencyGraph.ToDict | src/scenario/graph.py:125-130 | the projects are listed strictly sorted, each exactly once; one row per adjacency key, keys strictly ascending; each row lists that key's dependencies strictly sorted |
| Graph.ListOf | src/scenario/graph.py:78 | `list(s)` lists every element of the set exactly once |
| CycleSearch.Search.constructor | src/scenario/graph.py:92-94 | every known project starts white with no parent |
| CycleSearch.Search.Visit | src/scenario/graph.py:96-116 | `dfs(node)`: when it returns a list, a cycle exists; when it returns nothing, the node is black, no node became white again, black nodes stay black and the DFS path is as before |
| CycleSearch.Search.Run | src/scenario/graph.py:118-123 | the loop over the known projects returns nothing iff there is no cycle among them |
| CycleSearch.Search.AllBlackIsAcyclic | src/scenario/graph.py:115-123 | once every known project is black, the finishing order ranks the graph, so it has no cycle |
| CycleSearch.TraceCycle | src/scenario/graph.py:101-109 | climbing the parent links from the meeting point yields a list that starts and ends with the grey project and follows dependency edges (no self-loop, no empty name) |
| GraphBuilder.KeywordsDoNotOverlap | src/scenario/graph.py:19-28 | no dependency keyword overlaps a shifted copy of itself, so `pos += len(keyword)` skips no occurrence |
| GraphBuilder.OccurrencesApart | src/scenario/graph.py:181-200 | two occurrences of a non-overlapping keyword are at least its length apart |
| GraphBuilder.MatchNames | src/scenario/graph.py:191-198 | the name loop collects exactly the other projects whose lower-case name occurs in the text before index 80 |
| GraphBuilder.NamesFollowing | src/scenario/graph.py:186-198 | the names collected for one keyword occurrence are those found in the text after it, stripped and with leading `:`, `-`, blanks removed |
| GraphBuilder.ScanKeyword | src/scenario/graph.py:179-200 | the `while True` loop for one keyword terminates and collects what every occurrence from the start contributes |
| GraphBuilder.ScanFromOnly | src/scenario/graph.py:179-200 | every name the scan collects comes from some keyword occurrence |
| GraphBuilder.ScanFromAll | src/scenario/graph.py:179-200 | every occurrence of a non-overlapping keyword is visited, so each name it contributes is collected |
| GraphBuilder.ScanKeywords | src/scenario/graph.py:178-200 | the loop over the keywords unions the per-keyword scans |
| GraphBuilder.FindProjectMentions | src/scenario/graph.py:165-202 | `_find_project_mentions` returns exactly the mentions defined by the keyword scan |
| GraphBuilder.MentionedIff | src/scenario/graph.py:165-202 | a project is mentioned iff some keyword occurs in the lower-cased comment and the text after that occurrence names the project case-insensitively within 80 characters |
| GraphBuilder.MentionsAreOthers | src/scenario/graph.py:191-198 | a mention is never the task's own project and is always a known project |
| GraphBuilder.BuildNameLookup | src/scenario/graph.py:150 | the lookup keys are the lower-cased names, and each key maps to a name that lower-cases to it |
| GraphBuilder.LookupFindsEachName | src/scenario/graph.py:150 | when no two names differ only in case, each name is found under its lower-case key |
| GraphBuilder.AddAll | src/scenario/graph.py:159-160 | adding the mentions extends only the project's own dependency set, by exactly the mentions |
| GraphBuilder.AddTask | src/scenario/graph.py:153-160 | a task with an empty comment adds nothing; otherwise its mentions are added |
| GraphBuilder.AddProject | src/scenario/graph.py:152-160 | a project's tasks add the union of their mentions |
| GraphBuilder.BuildDependencyGraph | src/scenario/graph.py:133-162 | the known projects are exactly the input names; the edges are those that the comments define |
| GraphBuilder.BuiltEdgesDeps | src/scenario/graph.py:145-162 | a project's dependencies are exactly what its tasks' comments mention; it has an entry iff it has some dependency |
| GraphBuilder.BuiltEdgesJoinNames | src/scenario/graph.py:145-162 | every edge joins two input names, and no project depends on itself |
| Portfolio.NewTask | src/ingestion/parser.py:21-31 | a task built from a name and status has the declared defaults |
| Portfolio.SortBySeverityCorrect | src/risk_engine/carryover.py:84-90 | sorting by severity puts risks critical-first, keeps the same risks, and keeps each severity's risks in their original order |
| Carryover.PrioritySeverity | src/risk_engine/carryover.py:20-25 | critical, high and low map to their severities, looked up stripped and lower-cased; anything else is Medium |
| Carryover.Elevate | src/risk_engine/carryover.py:114-119 | elevation is exactly one step more severe, capped at Critical |
| Carryover.CalculateSeverity | src/risk_engine/carryover.py:105-122 | below 5 sprints the severity is the priority's; from 5 on it is one step higher, capped at Critical |
| Carryover.SeverityNeverBelowPriority | src/risk_engine/carryover.py:105-122 | severity is never below the priority's; a critical or high priority at 5 or more sprints is Critical |
| Carryover.SprintHistory | src/risk_engine/carryover.py:61 | the history is the earlier sprints in order, then the current sprint when non-empty |
| Carryover.AssigneeOrNobody | src/risk_engine/carryover.py:67 | the assignee, or "nobody" when it is empty |
| Carryover.WordingMentions | src/risk_engine/carryover.py:64-78 | the title contains the sprint count; the explanation contains the history joined by " → " and the assignee or "nobody" |
| Carryover.MitigationParts | src/risk_engine/carryover.py:127-145 | the review sentence comes first; the excess sentence is added iff the count is at least 5; the priority sentence is added iff the lower-cased priority is critical or high |
| Carryover.BuildMitigation | src/risk_engine/carryover.py:125-147 | the mitigation is the applicable sentences joined by single spaces |
| Carryover.MitigationStartsWithReview | src/risk_engine/carryover.py:125-147 | the mitigation begins with the review sentence and is never empty |
| Carryover.CarryoverRisk | src/risk_engine/carryover.py:74-81 | each risk is a chronic carry-over of the project, with the calculated severity |
| Carryover.FlaggedRisksIff | src/risk_engine/carryover.py:47-55 | a risk is emitted exactly for each task that is unfinished and has at least `threshold` earlier sprints |
| Carryover.LowerThresholdAddsRisks | src/risk_engine/carryover.py:53-55 | lowering the threshold can only add risks |
| Carryover.FlaggedRisksShape | src/risk_engine/carryover.py:74-81 | every risk emitted is a chronic carry-over of the scanned project |
| Carryover.CollectCarryover | src/risk_engine/carryover.py:45-81 | the task loop emits the flagged tasks' risks in task order |
| Carryover.DetectCarryover | src/risk_engine/carryover.py:28-92 | the output is critical-first, is a permutation of the flagged risks, is stable within each severity, holds only chronic carry-overs of this project, and is empty for a project without tasks |
| Dashboard.KpiColour | src/artefacts/dashboard.py:37-43 | red iff the value is below the first threshold, amber iff it is between the two, green otherwise; always one of the three hex codes |
| Dashboard.PctColour | src/artefacts/dashboard.py:46-54 | inverted: red iff above 0.30, amber iff above 0.15 and at most 0.30, green otherwise; not inverted: the KPI colour with thresholds 0.7 and 0.85 |
| Dashboard.KpiColourMonotone | src/artefacts/dashboard.py:37-43 | a higher value never gets a worse KPI colour |
| Dashboard.InvertedColourAntitone | src/artefacts/dashboard.py:46-53 | with the inverted ladder a higher percentage never gets a better colour |
| Regex.MatchSound | src/scenario/parser.py:118 | every end position the matcher returns for a pattern delimits a string of that pattern's language |
| Regex.MatchComplete | src/scenario/parser.py:118 | every string of the pattern's language that starts at the position is among the matcher's results |
| Regex.MatchAllSound | src/scenario/parser.py:135-136 | every boundary list returned for a sequence of segments splits the text into strings of the segments, starting where matching started |
| Regex.MatchAllComplete | src/scenario/parser.py:135-136 | every such split is among the results |
| Regex.FirstMatchSplits | src/scenario/parser.py:141 | when `re.match` succeeds, its boundaries split a prefix of the text, starting at 0, into strings of the segments |
| Regex.FirstMatchIff | src/scenario/parser.py:141 | `re.match` fails iff no split of the text into the segments starts at 0 |
| Regex.WordsLang | src/scenario/parser.py:118 | an alternation of words matches only one of those words |
| ScenarioParser.NewAction | src/scenario/parser.py:26-35 | a new action has the given kind and project, amounts 0, no duration and an empty description |
| ScenarioParser.FirstHit | src/scenario/parser.py:117-121 | the pattern loop returns the first pattern that matches; all earlier ones fail; it returns nothing iff none matches |
| ScenarioParser.BudgetAction | src/scenario/parser.py:144 | decrease, reduce and lower give a budget decrease; every other verb gives a budget increase |
| ScenarioParser.NumberDecimal | src/scenario/parser.py:135 | a string matched by `\d+(?:\.\d+)?` is one that `float()` reads as a decimal |
| ScenarioParser.AmountDecimal | src/scenario/parser.py:153-161 | a string matched by `\d[\d,]*(?:\.\d+)?` is a decimal once its commas are removed |
| ScenarioParser.RemoveFacts | src/scenario/parser.py:118-123 | a removal match starts with a removal verb and its group 1 is a piece of the text |
| ScenarioParser.PctFacts | src/scenario/parser.py:134-143 | a percentage match's group 1 is a budget verb that starts the text, group 2 is a piece of the text and group 3 a decimal piece of it |
| ScenarioParser.AbsFacts | src/scenario/parser.py:152-161 | an absolute-amount match's group 1 is a budget verb that starts the text and group 3 is a decimal once commas are removed |
| ScenarioParser.ScopeFacts | src/scenario/parser.py:174-181 | a scope match starts with a scope verb and its group 2 is a decimal piece of the text |
| ScenarioParser.DelayFacts | src/scenario/parser.py:193-202 | a delay match starts with a delay verb, its group 2 is a nonempty run of digits and its group 3 is one of the ten unit words |
| ScenarioParser.BudgetVerbsExclusive | src/scenario/parser.py:135-144 | no sentence starts with both an increase verb and a decrease verb, since no verb of one list is a prefix of a verb of the other |
| ScenarioParser.UnitsHaveWeeks | src/scenario/parser.py:201-203 | every unit the pattern accepts is already lower-case and has an entry in the table, so the default of 1 week is never used |
| ScenarioParser.RemoveMatches | src/scenario/parser.py:115-128 | the removal parser succeeds iff a removal pattern matches the stripped text, and then gives a removal |
| ScenarioParser.RemoveVerbLeads | src/scenario/parser.py:118 | text a removal pattern matches starts with a removal verb |
| ScenarioParser.RemoveName | src/scenario/parser.py:123 | a removal names a piece of the original text |
| ScenarioParser.BudgetMatches | src/scenario/parser.py:131-169 | the budget parser succeeds iff a percentage or an absolute pattern matches, and then gives a budget increase or decrease |
| ScenarioParser.BudgetVerbOf | src/scenario/parser.py:144-162 | the action chosen from a captured budget verb is one whose verbs include it |
| ScenarioParser.BudgetVerbLeads | src/scenario/parser.py:134-162 | a parsed budget change is led by a verb of its own direction |
| ScenarioParser.BudgetName | src/scenario/parser.py:142-160 | a budget change names a piece of the original text |
| ScenarioParser.ScopeMatches | src/scenario/parser.py:172-188 | the scope parser succeeds iff a scope pattern matches, and then gives a scope cut |
| ScenarioParser.ScopeVerbLeads | src/scenario/parser.py:176 | text a scope pattern matches starts with a scope verb |
| ScenarioParser.ScopeName | src/scenario/parser.py:182 | a scope cut names a piece of the original text |
| ScenarioParser.DelayMatches | src/scenario/parser.py:191-209 | the delay parser succeeds iff a delay pattern matches, and then gives a delay |
| ScenarioParser.DelayVerbLeads | src/scenario/parser.py:194 | text a delay pattern matches starts with a delay verb |
| ScenarioParser.DelayName | src/scenario/parser.py:200 | a delay names a piece of the original text |
| ScenarioParser.RemoveNumbers | src/scenario/parser.py:123-126 | a removal keeps every number at its default |
| ScenarioParser.BudgetNumbers | src/scenario/parser.py:141-167 | a percentage sets `amount` to a number written in the text over 100 and leaves `amountAbsolute` 0; otherwise `amountAbsolute` is an amount written in the text, read without commas, and `amount` stays 0; the duration stays 0 |
| ScenarioParser.ScopeNumbers | src/scenario/parser.py:180-187 | a scope cut's amount is a percentage written in the text, as a fraction; the other numbers stay 0 |
| ScenarioParser.DelayNumbers | src/scenario/parser.py:199-208 | a delay's weeks are a count written in the text times the weeks of a unit written in the text; the amounts stay 0 |
| ScenarioParser.ParseEmpty | src/scenario/parser.py:83-85 | `parse_scenario` rejects the input as empty iff it is blank |
| ScenarioParser.ParseDispatch | src/scenario/parser.py:91-107 | removal, budget, scope and delay are tried in that order and the first parser whose patterns match decides the action; input none of them matches is rejected, quoting the stripped input |
| ScenarioParser.ParseResult | src/scenario/parser.py:83-101 | a parsed action's description is the stripped input and its project is a piece of that input |
| ScenarioParser.ParseVerb | src/scenario/parser.py:118-194 | the kind of a parsed action agrees with the verb the normalised sentence starts with |
| ScenarioParser.ParseBudgetDirection | src/scenario/parser.py:144-162 | a parsed budget change is a decrease iff the sentence starts with a decrease verb, and an increase iff it starts with an increase verb |
| ScenarioParser.ParseFields | src/scenario/parser.py:123-208 | the numbers of a parsed action are the ones its kind reads from the sentence, and every other number keeps its default |
| ProjectName.CleanNameNotFound | src/scenario/parser.py:228-232 | when the trimmed capture occurs nowhere in the original, case-insensitively, it is returned as it is |
| ProjectName.CleanNameFirst | src/scenario/parser.py:217-232 | otherwise the name is the stripped text of the original at the first case-insensitive occurrence of the trimmed capture |
| ProjectName.CaptureRestored | src/scenario/parser.py:217-232 | a capture taken from the normalised original is always found again, so the name is a piece of the original text that lower-cases to the trimmed capture |
| Simulator.ProjectMap | src/scenario/simulator.py:82 | the project map has a key exactly for each project name, and each key maps to a project of that name |
| Simulator.LastWins | src/scenario/simulator.py:82 | of several projects with the same name, the last one is the one the map keeps |
| Simulator.SnapshotOf | src/scenario/simulator.py:367-378 | a snapshot copies name, status, dates, budget and spend, starts scope at 100% and counts the tasks |
| Simulator.BeforeConsistent | src/scenario/simulator.py:94 | the before-state has the same keys as the project map and holds the snapshot of each mapped project |
| Simulator.FirstCaseless | src/scenario/simulator.py:421-427 | a result names a project equal to the sought name up to case; no result means no project matches up to case |
| Simulator.ResolveFinds | src/scenario/simulator.py:417-427 | resolution returns a key of the map equal to the sought name up to case, and returns nothing only when no key matches up to case |
| Simulator.ResolveFirst | src/scenario/simulator.py:419-425 | without an exact key, the earliest project whose name matches up to case is chosen |
| Simulator.ResolveProjectName | src/scenario/simulator.py:417-427 | the search loop returns the exact key when there is one, else the first key matching up to case, else nothing |
| Simulator.RunwayWeeks | src/scenario/simulator.py:399-414 | the runway is absent iff the budget or spend is not positive or there is no start date; it is never negative, and 0 when nothing remains |
| Simulator.ProjectRunway | src/scenario/simulator.py:381-396 | the runway on the project's own budget is the budget-parameterised runway, with the same absent cases |
| Simulator.RunwayIsFloor | src/scenario/simulator.py:388-396 | with money left, the runway is the number of whole weeks the remaining budget lasts at the average daily burn since the start |
| Simulator.RunwayMonotone | src/scenario/simulator.py:399-414 | a larger budget never gives a shorter runway |
| Simulator.NewBudgetDirection | src/scenario/simulator.py:128-136 | for a non-negative change, an increase never lowers the budget and a decrease never raises it nor takes it below zero |
| Simulator.SimulateBudget | src/scenario/simulator.py:116-176 | one direct impact with the old and new budget and runway; only the target's budget and runway change in the after-state; the over-budget warning appears iff the new budget is below spend, and the runway warning only on a decrease that shortens a defined runway |
| Simulator.BudgetTouchesOnlyTarget | src/scenario/simulator.py:151-154 | after a budget change every other project, and every other field of the target, is as it was |
| Simulator.RunwayWarningOnlyOnLoss | src/scenario/simulator.py:170-174 | an increase never shortens the runway, so the runway warning can only report a real loss |
| Simulator.OverBudgetSaysSo | src/scenario/simulator.py:164-168 | the over-budget warning contains "over budget" once lower-cased, whatever the amounts render as |
| Simulator.CascadeNotes | src/scenario/simulator.py:212-220 | the loop adds one cascade impact per name, in order, each carrying the same note |
| Simulator.ReachCascade | src/scenario/simulator.py:211-220 | the cascade impacts name, in sorted order and once each, exactly the projects with a dependency path to the target |
| Simulator.Trunc | src/scenario/simulator.py:197 | `int()` truncates toward zero, on both sides of zero |
| Simulator.CutEnd | src/scenario/simulator.py:191-198 | a new end exists iff both dates are known, and it is the old end brought forward by the days saved |
| Simulator.CutEndWithin | src/scenario/simulator.py:194-198 | for a cut between 0 and 100% of a forward schedule, the days saved lie between 0 and the duration, so the new end lies between start and old end |
| Simulator.SimulateScopeCut | src/scenario/simulator.py:179-232 | a direct impact with the new scope, end date and days saved; the after-state changes only the target's scope and, when both dates are known, its end; every transitive dependent gets a cascade note and nothing else; no warnings |
| Simulator.KnownMembers | src/scenario/simulator.py:268-270 | the dependents kept are exactly those present in the project map |
| Simulator.KnownSorted | src/scenario/simulator.py:268-270 | skipping unknown dependents keeps the names in sorted order |
| Simulator.DelayCascade | src/scenario/simulator.py:268-279 | the loop emits, in order, a delay note for each dependent present in the project map and skips the others |
| Simulator.ShiftDependents | src/scenario/simulator.py:283-292 | the after-state moves the target's start and end, and the end of every dependent, by the delay; nothing else changes |
| Simulator.SimulateDelay | src/scenario/simulator.py:235-307 | the target's start and end and every transitive dependent's end move by `weeks * 7` days; the cascade impacts are the known dependents in sorted order; the warning appears iff the target has dependents and lists all of them sorted |
| Simulator.DelayLeavesOthers | src/scenario/simulator.py:283-292 | a project that is neither the target nor a dependent is unchanged by a delay |
| Simulator.DelayKeepsDuration | src/scenario/simulator.py:244-252 | the target's start and end move together, so its duration is kept |
| Simulator.SimulateRemove | src/scenario/simulator.py:310-360 | only the target's status becomes "Removed"; the direct impact reports the freed budget and `max(0, budget - spend)`; cascade impacts and the warning cover exactly the one-hop dependents, sorted |
| Simulator.Simulate | src/scenario/simulator.py:61-104 | an unresolved target gives empty states, no impacts and one not-found warning listing every project name sorted; otherwise the before-state snapshots every project, the direct impact on the resolved target comes first, followed only by cascade impacts, and the result is the one the action's kind calls for: the removal, budget, scope-cut or delay outcome on the resolved target |
| Narrative.OfType | src/scenario/narrative.py:83-84 | the selected impacts are exactly those of the given kind, in their order |
| Narrative.CascadeCount | src/scenario/narrative.py:248 | the count is the number of cascade impacts |
| Narrative.Title | src/scenario/narrative.py:104-112 | the title ends with the project as the action names it, after the label of the action's kind |
| Narrative.Description | src/scenario/narrative.py:115-126 | an action's own description is used whenever it has one |
| Narrative.BeforeSummary | src/scenario/narrative.py:129-152 | the no-data line is produced exactly when the before-state has no entry under the looked-up name |
| Narrative.ActionNameMissesResolvedProject | src/scenario/narrative.py:129-133 | as written, a name that resolves only up to case finds the project in the simulation but gives the no-data line |
| Narrative.CaseOnlyNameResolves | src/scenario/simulator.py:417-427 | "alpha" resolves to the only project "Alpha" without being a key of the project map |
| Narrative.ResolvedNameHasData | src/scenario/narrative.py:129-152 | looking up the project the simulation acted on, a simulated project always gets its summary |
| Narrative.Unscore | src/scenario/narrative.py:167 | replacing underscores keeps the length |
| Narrative.TitleCase | src/scenario/narrative.py:167 | title-casing keeps the length and every character that is not a letter |
| Narrative.BuildAfterSummary | src/scenario/narrative.py:155-170 | the loop joins one "Label: change." sentence per change of the first direct impact, or gives the no-impact line |
| Narrative.AfterSummaryNoDirect | src/scenario/narrative.py:160-161 | the after summary is the no-impact line exactly when there is no direct impact |
| Narrative.ImpactAnalysis | src/scenario/narrative.py:173-219 | the no-measurable-impact line exactly when there is no direct impact; otherwise the paragraph names the impacted project |
| Narrative.BuildCascadeAnalysis | src/scenario/narrative.py:222-242 | the header counting the cascade impacts, then one line per impact in order, joined by newlines |
| Narrative.RenderEach | src/scenario/narrative.py:164-168 | the rendering loop yields exactly one line per element, in the elements' order |
| Narrative.ExtraIffWanted | src/scenario/narrative.py:245-278 | every kind gets its two fixed lines, plus its conditional line exactly when there is an over-budget warning (decrease) or a cascade impact (cut, delay, removal) |
| Narrative.IncreaseHasNoExtra | src/scenario/narrative.py:250-252 | a budget increase gets only its two fixed lines |
| Narrative.OverBudgetGetsUrgent | src/scenario/narrative.py:257-258 | a decrease whose simulation warns of overspend always gets the urgent line |
| Narrative.GenerateNarrative | src/scenario/narrative.py:66-96 | each part is its builder's result on the direct or cascade impacts: the cascade part is empty without cascade impacts and otherwise their header and one line each, joined by newlines; the warnings are passed through |
| Narrative.SectionLayout | src/scenario/narrative.py:33-50 | the full text has the five fixed sections first, then one section for each optional part |
| Narrative.OptionalSections | src/scenario/narrative.py:42-49 | the cascade, actions and warnings sections appear, in that order, exactly when each has content |
| Ingestion.PutSpec | src/ingestion/parser.py:441 | `col_map[header] = ...` on an insertion-ordered dict: the key maps to the new value, keys stay distinct, an existing key keeps its place, a new key goes at the end |
| Ingestion.ColumnMapSpec | src/ingestion/parser.py:424-442 | the header map holds a header iff its stripped, lowercased form is an alias key, maps it to that alias's field, and lists each header once |
| Ingestion.BuildColumnMap | src/ingestion/parser.py:424-442 | the loop builds exactly the header map `ColumnMapSpec` describes |
| Ingestion.LastWithSpec | src/ingestion/parser.py:464 | the index found is a pair carrying the field, and no later pair carries it |
| Ingestion.ReverseOfSpec | src/ingestion/parser.py:464 | `{v: k for k, v in col_map.items()}` knows a field iff some pair carries it, and sends it to the header of the LAST such pair |
| Ingestion.ReverseMap | src/ingestion/parser.py:464 | the comprehension builds exactly the reversed map `ReverseOfSpec` describes |
| Ingestion.LastAliasingSpec | src/ingestion/parser.py:438-441 | the index found is a header aliasing the field, and no later header aliases it |
| Ingestion.ColumnMapLast | src/ingestion/parser.py:438-441 | with distinct headers, the last pair for a field in the header map is the last header aliasing that field |
| Ingestion.LastHeaderWins | src/ingestion/parser.py:438-464 | with distinct headers, the parser knows a field iff some header aliases it, and reads it from the LAST such header |
| Ingestion.GetField | src/ingestion/parser.py:518-520 | an unmapped field reads as the default |
| Ingestion.GetFieldSpec | src/ingestion/parser.py:507-523 | a mapped field reads as the stripped cell when that is non-empty and as the default when the column is absent or blank; the result is the default or a non-empty stripped text |
| Ingestion.SprintHistoryShape | src/ingestion/parser.py:580-594 | blank text has no history; every parsed sprint is non-empty, stripped and free of `;` |
| Ingestion.SprintHistoryRoundTrip | src/ingestion/parser.py:580-594 | a history written as `";".join` of clean sprint names parses back to the same list, order preserved |
| Ingestion.StringifyRow | src/ingestion/parser.py:324-337 | the row keeps exactly its keys; `None` becomes "", a list becomes its items joined by `;`, any other value its text |
| Ingestion.StringifiedHistoryRoundTrip | src/ingestion/parser.py:334 | a sprint list stored as a JSON list, stringified and read back as the `previous_sprints` field, is the same list |
| Ingestion.MergedRow | src/ingestion/parser.py:316-319 | task keys override project keys, project keys fill the rest, and `project` is filled from `name` only when neither side has it; no other key appears |
| Ingestion.RowsOfProject | src/ingestion/parser.py:312-320 | a project gives one merged row per task, with the `tasks` entry removed from its own fields |
| Ingestion.FlatRowsCount | src/ingestion/parser.py:310-321 | flattening yields one row per task over all projects, so a project without tasks contributes none |
| Ingestion.FlatRowOrigin | src/ingestion/parser.py:310-321 | every flat row is some project's fields overlaid by one of that project's tasks |
| Ingestion.FlattenNestedProjects | src/ingestion/parser.py:301-321 | the nested loops produce exactly the rows of each project in turn, task by task |
| Ingestion.ProjectRows | src/ingestion/parser.py:315-320 | the inner loop yields one merged row per task, in task order, the task's fields over the project's and `project` filled from `name` |
| Ingestion.RowsNamed | src/ingestion/parser.py:468-471 | a row is in a project's group iff it is one of the input rows with that project name |
| Ingestion.RowsNamedAppend | src/ingestion/parser.py:468-471 | grouping a concatenation appends the groups, so file order is kept |
| Ingestion.GroupMapSpec | src/ingestion/parser.py:466-471 | the grouping dict has one entry per non-blank project name, holding that project's rows in file order |
| Ingestion.GroupRows | src/ingestion/parser.py:466-471 | the `project_rows[...].append(row)` loop builds exactly the grouping `GroupMapSpec` describes, and drops rows with a blank project name |
| Ingestion.TasksOfMembers | src/ingestion/parser.py:487-500 | a project's task list holds exactly the named tasks its rows describe |
| Ingestion.ProjectOfShape | src/ingestion/parser.py:474-500 | a built project keeps its name, has a non-blank status ("Unknown" by default), and holds exactly the named tasks of its rows, each with a non-blank priority and a clean sprint history |
| Ingestion.TasksOfSnoc | src/ingestion/parser.py:487-500 | one more row adds its task at the end when the task has a name, and nothing otherwise |
| Ingestion.BuildProject | src/ingestion/parser.py:475-502 | the project is built from the first row's metadata, and its tasks are appended in row order |
| Ingestion.CollectTasks | src/ingestion/parser.py:487-500 | the row loop appends exactly the tasks of the rows that name one, in row order |
| Ingestion.ProjectsFor | src/ingestion/parser.py:474-502 | one project per given name, in that order, each built from that name's rows |
| Ingestion.RowsToProjects | src/ingestion/parser.py:450-504 | one project per distinct non-blank project name, strictly sorted by name, each built from its own rows in file order with the reversed header map |
| Validators.FirstAliasingSpec | src/ingestion/validators.py:290-293 | the index found is a header aliasing the field, and no earlier header aliases it |
| Validators.FirstHeaderWins | src/ingestion/validators.py:281-294 | the validator maps a field iff some header aliases it, and maps it to the FIRST such header |
| Validators.MapColumns | src/ingestion/validators.py:281-294 | the loop builds exactly the map `FirstHeaderWins` describes |
| Validators.FirstIffLast | src/ingestion/validators.py:290-293 | a first header aliasing a field exists iff a last one does |
| Validators.SameFieldsAsParser | src/ingestion/validators.py:281-294 | with distinct headers, the validator and the parser know the same set of fields |
| Validators.FirstAndLastDiffer | src/ingestion/validators.py:292 | two different headers aliasing one field: the validator reads the first and the parser the second |
| Validators.MissingOfMembers | src/ingestion/validators.py:299 | the missing list holds exactly the listed fields the column map lacks |
| Validators.RequiredFieldsSorted | src/ingestion/parser.py:127 | the required field names listed in this order are strictly increasing |
| Validators.HighValueFieldsSorted | src/ingestion/validators.py:314 | the high-value field names listed in this order are strictly increasing |
| Validators.MediumValueFieldsSorted | src/ingestion/validators.py:315 | the medium-value field names listed in this order are strictly increasing |
| Validators.MissingOfSorted | src/ingestion/validators.py:303 | dropping fields from a list sorted by name leaves it sorted by name |
| Validators.MissingRequiredIsSortedSet | src/ingestion/validators.py:297-305 | the error's field list is `sorted(REQUIRED_FIELDS - mapped)`: exactly the missing required fields, strictly increasing |
| Validators.MissingOptionalAreSortedSets | src/ingestion/validators.py:308-331 | the two warning lists are `sorted(missing_optional & high_value)` and `sorted(missing_optional & medium_value)` |
| Validators.ValidationResult.constructor | src/ingestion/validators.py:79 | a fresh result is valid with no errors, warnings or columns, and is consistent |
| Validators.ValidationResult.CheckRequired | src/ingestion/validators.py:297-305 | with a required field missing, one error naming the missing fields is appended and `valid` becomes false; otherwise nothing changes; consistency is kept |
| Validators.ValidationResult.CheckOptional | src/ingestion/validators.py:308-331 | `valid` and `errors` are untouched; a high-value warning and then a medium-value warning are appended exactly when their lists are non-empty |
| Validators.RequiredCheckIff | src/ingestion/validators.py:297-301 | the required check fails iff one of `project`, `task_name`, `task_status` has no column |
| Validators.HighWarningIff | src/ingestion/validators.py:310-325 | the burn-rate warning is given iff one of budget, actual_spend, start_date, end_date has no column |
| Validators.MediumWarningIff | src/ingestion/validators.py:310-331 | the risk-detection warning is given iff one of priority, sprint, previous_sprints, comments has no column |
| Validators.LowValueNeverWarned | src/ingestion/validators.py:311-331 | `project_status` and `assignee` are never named in a warning |
| Validators.CheckColumns | src/ingestion/validators.py:127-139 | the header checks record the headers and the field map, keep `valid` iff it was valid and no required field is missing, append the missing-required error exactly when a required field is missing, append the high-value and then the medium-value warning exactly when their lists are non-empty, and keep the result consistent |
| Benefits.RealisationPct | src/benefits/parser.py:62-66 | 0 when nothing is expected; otherwise the share that, times the expected value, gives the realised value |
| Benefits.UnrealisedValue | src/benefits/parser.py:68-70 | `max(0, expected - realised)`: never negative, at least the shortfall, and either 0 or exactly the shortfall |
| Benefits.ExactIndex | src/benefits/parser.py:310-311 | the index of the first table entry whose keyword equals the key, or none when no entry does |
| Benefits.ContainedIndex | src/benefits/parser.py:313-315 | the index of the first table entry whose keyword occurs in the key, or none when no keyword occurs |
| Benefits.ScanKeywords | src/benefits/parser.py:313-315 | the keyword loop returns exactly the first entry whose keyword occurs in the key |
| Benefits.ExactKeyWins | src/benefits/parser.py:310-311 | an exact key decides the lookup, whatever earlier keywords occur inside the key |
| Benefits.FirstKeywordWins | src/benefits/parser.py:313-315 | without an exact key, the earliest declared keyword contained in the key decides |
| Benefits.NoKeywordDefault | src/benefits/parser.py:316 | a key containing no keyword gets the default |
| Benefits.NoExactIsKeyword | src/benefits/parser.py:309-316 | without an exact key the lookup is the keyword scan |
| Benefits.ParseStatus | src/benefits/parser.py:305-316 | blank gives not started; otherwise the exact key of the stripped, lowercased value, then the first keyword it contains, then not started |
| Benefits.PartiallyRealisedIsPartial | src/benefits/parser.py:108-131 | "partially realised" is an exact key, so it reads as partial although the keyword "realised" occurs in it and comes earlier in the table |
| Benefits.ParseCategory | src/benefits/parser.py:319-327 | blank gives other; otherwise the first declared keyword contained in the stripped, lowercased value; otherwise other |
| Benefits.ConfidenceOf | src/benefits/parser.py:330-338 | blank gives medium; "high" is looked for before "low"; medium exactly when neither occurs |
| Benefits.FirstExact | src/benefits/parser.py:197-199 | the first column that is an alias, or none |
| Benefits.FirstPartial | src/benefits/parser.py:201-204 | the first column that overlaps some alias (either occurs in the other), or none |
| Benefits.FindColumn | src/benefits/parser.py:196-205 | a found column is one of the columns |
| Benefits.OverlapsSome | src/benefits/parser.py:202-204 | the alias loop reports whether some alias overlaps the column |
| Benefits.ScanExact | src/benefits/parser.py:197-199 | the first loop returns exactly the first column that is an alias |
| Benefits.ScanPartial | src/benefits/parser.py:201-204 | the second loop returns exactly the first column overlapping an alias |
| Benefits.Find | src/benefits/parser.py:196-205 | `_find` returns an exact match first, then a partial one, then nothing |
| Benefits.ExactBeatsPartial | src/benefits/parser.py:196-205 | when some column is an exact alias, an exact alias is found, even if an earlier column overlaps only partly |
| Benefits.PartialFallback | src/benefits/parser.py:200-205 | without an exact alias, nothing is found iff no column overlaps an alias, and a found column overlaps one |
| Benefits.FindColumns | src/benefits/parser.py:194-218 | each benefit field gets the column `_find` picks from its own alias set |
| Benefits.DerivedConfidence | src/benefits/parser.py:237-244 | a given high or low confidence stays; a medium one becomes high for a realised benefit, low for at-risk or delayed, low when nothing is expected or realised, and medium otherwise |
| Benefits.BenefitIdsDistinct | src/benefits/parser.py:247 | rows at different positions get different `BEN-nnn` identifiers |
| Benefits.ParseRow | src/benefits/parser.py:221-258 | no benefit iff the project is blank; otherwise the benefit carries the project, the row's identifier, the row's name or "Benefit <row number>", the row's owner or "Unassigned", the row's expected and realised values, target date and notes, the parsed status and category, and the derived confidence |
| BenefitCalc.SumPermutation | src/benefits/calculator.py:109-115 | a sum does not depend on the order of its terms |
| BenefitCalc.Ratio | src/benefits/calculator.py:112 | the ratio is 0 when the total is not positive, and otherwise the share that times the total gives the part |
| BenefitCalc.DriftRag | src/benefits/calculator.py:260-265 | the rating is one of Red, Amber, Green |
| BenefitCalc.DriftRagBands | src/benefits/calculator.py:260-265 | Red iff drift is above 0.30, Amber iff above 0.15 and at most 0.30, Green iff at most 0.15 |
| BenefitCalc.DriftRagMonotone | src/benefits/calculator.py:260-265 | more drift never gives a better rating |
| BenefitCalc.RagBase | src/benefits/calculator.py:218 | the RAG base lies between 0.5 and 0.9 (0.8 for an unknown RAG) |
| BenefitCalc.CriticalCount | src/benefits/calculator.py:224 | the count is at most the number of risks, and 0 iff no risk is critical |
| BenefitCalc.SummaryFactor | src/benefits/calculator.py:217-227 | the factor is at least 0.2, at most the RAG base for a non-negative risk count, and above 0.2 only as the RAG base less both penalties |
| BenefitCalc.MatchSummary | src/benefits/calculator.py:215-216 | the first summary whose project name matches ignoring case; none iff no summary matches |
| BenefitCalc.ConfidenceFactor | src/benefits/calculator.py:210-229 | 0.8 without a report or without a matching summary, the matching summary's factor otherwise, and always at least 0.2 |
| BenefitCalc.GetConfidenceFactor | src/benefits/calculator.py:210-229 | the search loop returns the factor `ConfidenceFactor` describes |
| BenefitCalc.ConfidenceFactorBounded | src/benefits/calculator.py:210-229 | with non-negative risk counts the factor lies between 0.2 and 0.9 |
| BenefitCalc.StatusMultiplier | src/benefits/calculator.py:237-245 | the status multiplier lies in [0, 1] and is 0 exactly for a cancelled benefit |
| BenefitCalc.ConfidenceMultiplier | src/benefits/calculator.py:254-255 | the confidence multiplier lies in [0.6, 1] |
| BenefitCalc.OverduePenalty | src/benefits/calculator.py:247-251 | the penalty lies in [0, 0.3] and is positive exactly when the benefit is past its target date and not realised |
| BenefitCalc.Multiplier | src/benefits/calculator.py:232-257 | the multiplier is never negative |
| BenefitCalc.MultiplierAtMostProject | src/benefits/calculator.py:232-257 | a benefit's multiplier never exceeds its project's confidence |
| BenefitCalc.CancelledCountsNothing | src/benefits/calculator.py:243-257 | a cancelled benefit's multiplier is 0 |
| BenefitCalc.OverdueNeverRaises | src/benefits/calculator.py:247-257 | being overdue never raises the multiplier |
| BenefitCalc.AdjustedExpected | src/benefits/calculator.py:162-170 | the loop adds a realised benefit at full expected value, a cancelled one at 0, and any other at expected value times its multiplier |
| BenefitCalc.AdjustedWithinExpected | src/benefits/calculator.py:162-170 | with non-negative expected values and a confidence in [0, 1], the adjusted value lies between 0 and the expected total |
| BenefitCalc.Drift | src/benefits/calculator.py:172 | drift is 0 when nothing is expected, and otherwise the share of the expected total that the adjusted value falls short |
| BenefitCalc.DriftInUnit | src/benefits/calculator.py:172 | drift lies in [0, 1] whenever the adjusted value lies between 0 and the total |
| BenefitCalc.FlaggedOf | src/benefits/calculator.py:176-181 | a benefit is listed iff it is at risk by status, has low confidence, or is unrealised with value left in a project drifting above 30 % |
| BenefitCalc.UniqueSpec | src/benefits/calculator.py:183-189 | deduplication keeps pairwise-distinct identifiers, every identifier not yet seen, and only benefits it was given |
| BenefitCalc.Dedup | src/benefits/calculator.py:183-189 | the `seen`-set loop keeps the first benefit of each identifier, in order |
| BenefitCalc.CancelledOf | src/benefits/calculator.py:285 | exactly the cancelled benefits |
| BenefitCalc.AtRiskOf | src/benefits/calculator.py:284 | exactly the benefits at risk by status |
| BenefitCalc.OverdueOf | src/benefits/calculator.py:286 | exactly the benefits past their target date and not realised |
| BenefitCalc.DriftExplanationKind | src/benefits/calculator.py:268-304 | no-benefits note iff nothing is expected; on-course note iff something is expected and drift is at most 5 %; the note names the project |
| BenefitCalc.CausesNamed | src/benefits/calculator.py:283-297 | at most three drivers; none iff no benefit is at risk or overdue (a cancelled one is at risk); a cancellation is named first |
| BenefitCalc.Summarise | src/benefits/calculator.py:147-207 | the summary names the project and carries its benefits |
| BenefitCalc.AnalyseProject | src/benefits/calculator.py:147-207 | the per-project analysis computes exactly the summary `Summarise` describes |
| BenefitCalc.SummaryDriftBounded | src/benefits/calculator.py:154-173 | for non-negative expected values and risk counts: adjusted value between 0 and the expected total, drift in [0, 1] |
| BenefitCalc.SummaryAtRisk | src/benefits/calculator.py:176-190 | the at-risk list holds each flagged identifier once, only flagged benefits of the project, and its value is non-negative |
| BenefitCalc.Group | src/benefits/calculator.py:98-100 | a benefit is in a project's group iff it is one of the benefits with that project name |
| BenefitCalc.GroupMapSpec | src/benefits/calculator.py:98-100 | the grouping dict has one entry per project, holding its benefits in register order |
| BenefitCalc.GroupByProject | src/benefits/calculator.py:98-100 | the `setdefault(...).append(b)` loop builds exactly that grouping |
| BenefitCalc.GroupingKeepsTotal | src/benefits/calculator.py:109-111 | per-project totals over distinct names covering every benefit add up to the total over all benefits |
| BenefitCalc.TakeIsLargest | src/benefits/calculator.py:121-122 | the first `n` of a list sorted largest first are at least as large as anything left out |
| BenefitCalc.TopAtRisk | src/benefits/calculator.py:118-122 | exactly min(5, n) of the n at-risk benefits, drawn from the summaries' lists, sorted by unrealised value descending, none smaller than one left out, and of equal values the earliest listed kept |
| BenefitCalc.RedDrift | src/benefits/calculator.py:318 | exactly the names of the projects drifting Red |
| BenefitCalc.NothingRealised | src/benefits/calculator.py:339 | exactly the names of the projects with something expected and nothing realised |
| BenefitCalc.RecommendationsShape | src/benefits/calculator.py:311-354 | one to three recommendations; "broadly on track" appears iff no other applies, and then alone |
| BenefitCalc.EscalateIffRedDrift | src/benefits/calculator.py:318-325 | escalation comes first exactly when some project drifts Red, and names at most three projects |
| BenefitCalc.SummariesFor | src/benefits/calculator.py:104-106 | one summary per given name, in that order, each built from that project's benefits |
| BenefitCalc.BuildSummaries | src/benefits/calculator.py:97-106 | one summary per distinct project, strictly sorted by name, each built from that project's benefits |
| BenefitCalc.AnalyseBenefits | src/benefits/calculator.py:89-140 | summaries strictly sorted by name, one per project, each the project's `Summarise`; expected and realised totals are the sums over all benefits, adjusted and at-risk totals the sums over the summaries; ratio, drift and rating follow `Ratio`, `Drift`, `DriftRag`; exactly min(5, n) top benefits at risk, drawn from the summaries, sorted by unrealised value descending, none smaller than one left out and of equal values the earliest kept; recommendations as `Recommendations` states |
| Investment.InvestIff | src/investment/__init__.py:219-225 | the call is Invest exactly for a return above 50 % on a Green or Amber project drifting under 30 % |
| Investment.DivestNeedsLowReturn | src/investment/__init__.py:234-253 | Divest only for a return under 10 % on a Red project or one that has consumed over 80 % of budget, and always for a negative return on a Red project |
| Investment.RedPositiveIsReviewed | src/investment/__init__.py:219-232 | a Red project with a positive return is reviewed |
| Investment.ReasonMatchesAction | src/investment/__init__.py:214-258 | each call carries one of the reasons its own rule gives, and each reason belongs to exactly one call |
| Investment.DriftOfExactlyThirtyIsHeld | src/investment/__init__.py:220-227 | a Green project with a strong return and drift of exactly 30 % matches neither the Invest nor the Review rule and is held |
| Investment.CostToComplete | src/investment/__init__.py:162 | the cost to complete is never negative, is at least budget less spend, and is one of the two |
| Investment.ProxyFactor | src/investment/__init__.py:188 | the share of budget assumed to come back without benefit data lies between 0.5 and 0.9 |
| Investment.MatchBenefits | src/investment/__init__.py:179-180 | the first benefit summary whose name matches ignoring case; none iff no summary matches |
| Investment.Roi | src/investment/__init__.py:191 | ROI times budget is adjusted benefit less budget when the budget is positive, and 0 otherwise |
| Investment.Assess | src/investment/__init__.py:155-206 | the assessment names the project and carries rank 0 until ranking |
| Investment.FindRisk | src/investment/__init__.py:165-172 | the search loop returns the matching risk summary's RAG and risk count, or Green and 0 |
| Investment.FindBenefits | src/investment/__init__.py:174-188 | the search loop returns the matching benefit summary's figures, zeros when the report lacks the project, or the budget proxy without a report |
| Investment.AnalyseProjectInvestment | src/investment/__init__.py:155-206 | the per-project analysis computes exactly the assessment `Assess` describes |
| Investment.ProxyNeverInvests | src/investment/__init__.py:186-191 | without a benefit report a budgeted project's ROI is its proxy factor less 1, negative, so never Invest |
| Investment.RoiOfShare | src/investment/__init__.py:191 | a benefit of f times the budget is an ROI of f - 1 |
| Investment.MissingFromBenefitReport | src/investment/__init__.py:177-191 | a budgeted project absent from a benefit report counts as expecting nothing, at an ROI of -100 % |
| Investment.SpendAccounting | src/investment/__init__.py:160-162 | cost to complete is non-negative, with spend it covers the budget, and exactly so when spend is within budget |
| Investment.Unranked | src/investment/__init__.py:111-112 | clearing ranks keeps every assessment and its position |
| Sorting.SortDescending | src/investment/__init__.py:110 | `sorted(..., reverse=True)`: the result is ordered by key highest first, a permutation of the input, and stable: the items of each key value keep their input order |
| Investment.RankByRoi | src/investment/__init__.py:109-115 | ranked output is sorted by ROI highest first, numbered from 1, a permutation of the assessments, and projects of equal ROI keep their input order |
| Investment.AtRiskOf | src/investment/__init__.py:127-130 | exactly the budgeted projects to be divested or reviewed |
| Investment.TopValueAtRisk | src/investment/__init__.py:131-146 | exactly min(3, n) of the n projects at risk, sorted by budget descending, none smaller than one left out, and of equal budgets the earliest listed kept |
| Investment.WithAction | src/investment/__init__.py:271-273 | exactly the projects given the action |
| Investment.Names | src/investment/__init__.py:276 | the project names, in order |
| Investment.Advised | src/investment/__init__.py:271-302 | at most four pieces of advice, never the healthy fallback |
| Investment.Recommendations | src/investment/__init__.py:265-310 | between one and four recommendations |
| Investment.WithActionEmpty | src/investment/__init__.py:275 | no project with the action iff the filtered list is empty |
| Investment.DivestAdviceIff | src/investment/__init__.py:275-281 | divest advice comes first exactly when some project is divested, and the money it frees is the divested projects' cost to complete, never negative |
| Investment.RebalanceIff | src/investment/__init__.py:297-302 | rebalancing is advised exactly when the portfolio ROI is negative |
| Investment.HealthyIff | src/investment/__init__.py:304-308 | the healthy note appears exactly when every project is held and the portfolio ROI is not negative, and then alone |
| Investment.AssessAll | src/investment/__init__.py:105-107 | one assessment per project, in order |
| Investment.AssessProjects | src/investment/__init__.py:103-107 | the loop builds exactly those assessments |
| Investment.RankedTotals | src/investment/__init__.py:117-123 | a total over the ranked list equals the total over the assessments |
| Investment.UnrankedSum | src/investment/__init__.py:117-123 | totals do not depend on the ranks |
| Investment.AnalyseInvestments | src/investment/__init__.py:96-150 | investments are the assessments ranked by ROI from 1, equal ROIs in input order; totals are sums over all projects; consumption and portfolio ROI follow the ratio rules; exactly min(3, n) projects at risk, sorted by budget descending, none smaller than one left out and of equal budgets the earliest kept; recommendations as `Recommendations` states |
| Investment.TotalCostToCompleteNonNegative | src/investment/__init__.py:119 | the portfolio cost to complete is never negative |
| Decisions.DecisionId | src/decisions/__init__.py:80 | an identifier is "DEC-" followed by at least three digits |
| Decisions.DecisionIdsDistinct | src/decisions/__init__.py:78-80 | different counter values give different identifiers |
| Decisions.DecisionLog.constructor | src/decisions/__init__.py:70-73 | a new log is empty with its counter at 0 |
| Decisions.DecisionLog.Add | src/decisions/__init__.py:75-76 | the decision is appended and the counter is untouched |
| Decisions.DecisionLog.NextId | src/decisions/__init__.py:78-80 | the counter advances by one and the identifier names its new value; the decisions are untouched |
| Decisions.DecisionLog.ToDict | src/decisions/__init__.py:82-86 | the reported count is the number of decisions, listed in order |
| Decisions.DecisionLog.NumberedIdsDistinct | src/decisions/__init__.py:75-80 | a log whose decisions carry the numbers issued in order never holds two with the same identifier |
| Decisions.Record | src/decisions/__init__.py:75-80 | issuing a number and recording the decision built with it advances the counter by one, appends that decision, and keeps the log numbered |
| Decisions.RecordKeepsNumbered | src/decisions/__init__.py:75-80 | appending a decision that carries the next number keeps every identifier equal to its position |
| Decisions.ActionDesc | src/decisions/__init__.py:102 | the action's own description, or "<kind> on <project>" when it is empty |
| Decisions.Or | src/decisions/__init__.py:112-118 | Python's `a or b` on strings yields one of the two, and is empty only when both are |
| Decisions.ImpactNameSet | src/decisions/__init__.py:105 | a name is in the set iff some impact carries it |
| Decisions.ScenarioDecision | src/decisions/__init__.py:129-140 | the decision carries the issued identifier and date, the affected names, and is a pending scenario decision |
| Decisions.CautionIffWarnings | src/decisions/__init__.py:122-126 | the recommendation starts "Proceed with caution — " exactly when the simulation warned |
| Decisions.ScenarioOptions | src/decisions/__init__.py:109-119 | two options, "Apply: <action>" and "Do nothing", with the narrative's after summary, its impact analysis when present, and the no-change line without a before summary |
| Decisions.RationaleWithoutWarnings | src/decisions/__init__.py:125-127 | without warnings the rationale is the narrative's recommendations joined by "; ", or the manageable line when there are none |
| Decisions.AffectedProjects | src/decisions/__init__.py:105-107 | the affected names are the distinct impacted names, or the action's project when nothing is impacted |
| Decisions.AffectedNamesMeaning | src/decisions/__init__.py:105-107 | at least one name; just the action's project without impacts; otherwise each impacted project once |
| Decisions.DecisionFromScenario | src/decisions/__init__.py:96-142 | the decision is built from the briefing with the next identifier, appended to the log, the counter advanced by one, and the log kept numbered |
| Decisions.RedOf | src/decisions/__init__.py:152 | exactly the Red project summaries |
| Decisions.RiskDecision | src/decisions/__init__.py:155-170 | the escalation carries the identifier and date, and is a pending risk-analysis decision |
| Decisions.RiskDecisions | src/decisions/__init__.py:150-175 | at most one decision, carrying the identifier |
| Decisions.RiskDecisionsShape | src/decisions/__init__.py:152-175 | one decision exactly when some project is Red; it names at most five projects, all Red, has three options and recommends the first |
| Decisions.DecisionsFromRiskReport | src/decisions/__init__.py:145-175 | a number is issued only when a decision is recorded; the log grows by the returned decisions and stays numbered |
| Decisions.DivestTitle | src/decisions/__init__.py:194 | the title ends with the amount freed |
| Decisions.InvestmentDecision | src/decisions/__init__.py:191-206 | the reallocation decision carries the identifier and date, and is a pending investment-review decision |
| Decisions.InvestmentDecisions | src/decisions/__init__.py:182-214 | at most one decision, carrying the identifier |
| Decisions.InvestmentDecisionsShape | src/decisions/__init__.py:184-214 | one decision exactly when some project is divested; it names every divested project and offers full divestment first of three options |
| Decisions.FreedMatchesAdvice | src/decisions/__init__.py:186-194 | the title ends with the money the divested projects free, the same amount the investment report's divest advice gives |
| Decisions.DecisionsFromInvestment | src/decisions/__init__.py:177-214 | a number is issued only when a decision is recorded; the log grows by the returned decisions and stays numbered |
| Decisions.GenerateAll | src/decisions/__init__.py:96-214 | running the three generators on a numbered log adds one to three decisions and leaves it numbered |
| Insights.Priority | src/insights/__init__.py:35-78 | each kind of urgent item has its fixed priority between 1 (budget) and 6 (stalled) |
| Insights.BurnItemsMeaning | src/insights/__init__.py:31-36 | exactly the projects with a critical burn-rate risk get a budget item, at most one per project |
| Insights.AnyCriticalBurn | src/insights/__init__.py:33-36 | the inner loop finds a critical burn-rate risk exactly when the project has one |
| Insights.CollectBudgetCritical | src/insights/__init__.py:31-36 | the loop collects exactly the budget items |
| Insights.CriticalCount | src/insights/__init__.py:43 | the count of critical risks is at most the number of risks, and 0 iff none is critical |
| Insights.ComplianceNeeds | src/insights/__init__.py:38-45 | a compliance item needs a regulatory-sounding name, a Red or Amber rating and at least one critical risk, whose count it quotes |
| Insights.CollectCompliance | src/insights/__init__.py:38-45 | the loop collects exactly the compliance items |
| Insights.BlockedNames | src/insights/__init__.py:48-52 | a project is in the blocked set iff it has a critical or high blocked-work risk |
| Insights.CollectBlocked | src/insights/__init__.py:48-52 | the loop builds exactly that set |
| Insights.FirstBlocker | src/insights/__init__.py:56-59 | the first blocked project, in iteration order, whose lead part the explanation mentions ignoring case; none iff none is mentioned |
| Insights.CascadeNamesBlocked | src/insights/__init__.py:53-59 | every cascade item names a blocked project |
| Insights.RiskCascadesNameBlocked | src/insights/__init__.py:54-59 | every cascade item of one project's risks names a blocked project |
| Insights.FindBlocker | src/insights/__init__.py:56-59 | the loop with its `break` returns that first blocked project |
| Insights.CollectRiskCascades | src/insights/__init__.py:54-59 | the loop over one project's risks collects exactly its cascade items |
| Insights.CollectCascades | src/insights/__init__.py:53-59 | the loop collects exactly the cascade items |
| Insights.DriftItems | src/insights/__init__.py:62-64 | at most one drift item, present iff a benefit report drifts more than 20 % |
| Insights.DivestItems | src/insights/__init__.py:67-72 | at most one divest item |
| Insights.DivestItemIff | src/insights/__init__.py:67-72 | the divest item is present iff an investment report divests some project |
| Insights.OnHoldIsHold | src/insights/__init__.py:75 | the on-hold test is the same as the project status mentioning "hold", ignoring case |
| Insights.HeldOf | src/insights/__init__.py:75 | exactly the on-hold projects |
| Insights.StalledItems | src/insights/__init__.py:75-78 | at most one stalled item, present iff some project is on hold |
| Insights.ByPriorityIsStableSort | src/insights/__init__.py:83 | the sorted items are ordered by priority and a permutation of the collected items |
| Insights.DedupFrom | src/insights/__init__.py:81-88 | deduplication never yields more items than it is given |
| Insights.DedupKeepsFirst | src/insights/__init__.py:86-88 | deduplication never drops one of the first three items and keeps only items it was given |
| Insights.DedupMembers | src/insights/__init__.py:86-88 | deduplication keeps only items it was given |
| Insights.Dedup | src/insights/__init__.py:81-88 | the loop computes the deduplication `DedupFrom` describes |
| Insights.UrgencyLadder | src/insights/__init__.py:102-107 | emergency iff some item shown has priority at most 2; before the next steering cycle iff none does but one has at most 4; scheduled iff all are above 4 |
| Insights.RagCount | src/insights/__init__.py:28-29 | the count is at most the number of projects, 0 iff no project has the rating, and all iff every project has it |
| Insights.DedupTop | src/insights/__init__.py:91-98 | deduplication leaves nothing only from nothing, and the first three are the first three given |
| Insights.TakeSortedByKey | src/insights/__init__.py:98 | a prefix of a list sorted by priority is sorted by priority |
| Insights.ParagraphShape | src/insights/__init__.py:90-112 | all clear, quoting the project, Red and Amber counts, iff there are no items; otherwise the first three of the priority-sorted items, sorted by priority |
| Insights.BurnPriority | src/insights/__init__.py:35 | every budget item has priority 1 |
| Insights.CompliancePriority | src/insights/__init__.py:45 | every compliance item has priority 2 |
| Insights.CascadePriority | src/insights/__init__.py:58 | every cascade item has priority 3 |
| Insights.CollectedPhases | src/insights/__init__.py:61-72 | every collected item of priority 4 is the drift item and every one of priority 5 is the divest item |
| Insights.DriftItemIff | src/insights/__init__.py:62-64 | among all collected items there is a drift item iff a benefit report drifts more than 20 % |
| Insights.DriftFromDriftItems | src/insights/__init__.py:62-64 | a collected drift item comes from the benefit report |
| Insights.DivestItemPresentIff | src/insights/__init__.py:66-72 | among all collected items there is a divest item iff an investment report divests some project |
| Insights.GenerateExecutiveSummary | src/insights/__init__.py:18-112 | the summary is the paragraph of all collected items, with the blocked set listed once per element in the order it was iterated |
| Artefacts.Prefix | src/artefacts/docx_generator.py:555 | Python's `xs[:n]`: a prefix of the list, the first n for n >= 0, and all but the last -n for negative n |
| Artefacts.BurnLinesMeaning | src/artefacts/docx_generator.py:505-514 | exactly the projects with a critical burn-rate risk get an urgent budget line, at most one per project |
| Artefacts.CappedBurnIsTake | src/artefacts/docx_generator.py:505-514 | with the "fewer than n" test inside the loop, the burn lines are the first n of them, and none for negative n |
| Artefacts.PaddedShape | src/artefacts/docx_generator.py:547-551 | the catch-all loop keeps the lines it is given and adds review lines up to n |
| Artefacts.AddIf | src/artefacts/docx_generator.py:522-540 | a line is appended exactly when its condition holds and fewer than n lines exist |
| Artefacts.DerivedCount | src/artefacts/docx_generator.py:500-545 | at most n lines are derived from the report, none for negative n, starting with the first n burn lines and with no burn or review line after them |
| Artefacts.DecisionCount | src/artefacts/docx_generator.py:547-553 | there are exactly n decisions (none for negative n), so the final slice changes nothing |
| Artefacts.BurnFirst | src/artefacts/docx_generator.py:505-514 | the urgent budget lines come first and no budget line follows them |
| Artefacts.ReviewLast | src/artefacts/docx_generator.py:547-551 | nothing but review lines follows a review line |
| Artefacts.DerivedMembers | src/artefacts/docx_generator.py:505-545 | each derived line is a budget line, or the unblock, Red escalation or Amber watch line built from the report |
| Artefacts.DecisionMembers | src/artefacts/docx_generator.py:500-553 | each decision is derived from the report or the catch-all review |
| Artefacts.UnblockNamesBlocked | src/artefacts/docx_generator.py:516-528 | the unblock line names one to three projects, each with a critical or high blocked-work risk |
| Artefacts.EscalationCountsReds | src/artefacts/docx_generator.py:530-538 | the escalation line counts every Red project, sums their risks and names the first three |
| Artefacts.MonitorNamesAmber | src/artefacts/docx_generator.py:540-545 | the watch line names one or two Amber projects |
| Artefacts.EscalationPlural | src/artefacts/docx_generator.py:530-538 | the escalation line says "project" followed by an `s` exactly when more than one project is Red |
| Artefacts.CollectRag | src/artefacts/docx_generator.py:502-503 | the loop collects exactly the summaries with that rating |
| Artefacts.CollectUrgent | src/artefacts/docx_generator.py:505-514 | the loop with its cap and its `break` collects the capped burn lines |
| Artefacts.GenerateDecisions | src/artefacts/docx_generator.py:500-553 | the decisions are those the report calls for, given the order the blocked set is iterated in |
| Artefacts.KeyIndex | src/artefacts/docx_generator.py:566 | the position of a category among the tally's keys, or -1 when it is absent |
| Artefacts.TallyMeaning | src/artefacts/docx_generator.py:564-566 | the tally has each category once, with the number of risks of that category, every category seen is in it, and it is empty iff there are no risks |
| Artefacts.ArgMaxFrom | src/artefacts/docx_generator.py:568 | the scan ends on the first position with the largest count |
| Artefacts.ArgMax | src/artefacts/docx_generator.py:568 | `max(cats, key=cats.get)` is the first category in insertion order with the largest count |
| Artefacts.TalkingPointsShape | src/artefacts/docx_generator.py:558-580 | two points without risks, three with; the first counts the Red projects out of all, the last is the key question, the middle one names a most frequent category with its count |
| Artefacts.MostFrequent | src/artefacts/docx_generator.py:565-570 | the category `max` picks carries its true number of risks, and no category has more |
| Artefacts.AllRisksSnoc | src/artefacts/docx_generator.py:564-566 | the risks of one more project follow those counted so far |
| Artefacts.CountInto | src/artefacts/docx_generator.py:565-566 | the inner loop extends the tally by the project's risks |
| Artefacts.CountCategories | src/artefacts/docx_generator.py:563-566 | the loop tallies every risk of every project |
| Artefacts.GenerateTalkingPoints | src/artefacts/docx_generator.py:558-580 | the talking points are those the report calls for |
| Artefacts.FirstSentence | src/artefacts/docx_generator.py:587 | `split(". ")[0]` is a prefix with no ". " in it, and is all of the text or ends where the first ". " starts |
| Artefacts.StepsEmpty | src/artefacts/docx_generator.py:585-588 | no action is derived exactly when no risk carries a mitigation |
| Artefacts.StepsFromMitigations | src/artefacts/docx_generator.py:585-588 | each action is the first sentence of the mitigation of some risk that has one |
| Artefacts.ProjectActionsShape | src/artefacts/docx_generator.py:583-590 | at most three actions, each from one of the first three risks; "continue" appears alone, exactly for a Green project whose first three risks carry no mitigation |
| Artefacts.ActionText | src/artefacts/docx_generator.py:588-590 | every action is rendered as a non-empty sentence ending in a full stop |
| Artefacts.GenerateProjectActions | src/artefacts/docx_generator.py:583-590 | the loop computes those actions |
| Artefacts.Heading | src/artefacts/docx_generator.py:598-599 | a brand's custom heading wins over the default |
| Artefacts.PrefixSubMultiset | src/artefacts/docx_generator.py:674 | a prefix holds no risk more often than the list |
| Artefacts.TopRisksCount | src/artefacts/docx_generator.py:668-674 | n of the report's risks, or all of them when there are fewer, each drawn from the report |
| Artefacts.PrefixSorted | src/artefacts/docx_generator.py:674 | a prefix of a severity-sorted list is severity-sorted |
| Artefacts.LeftOutNoMoreSevere | src/artefacts/docx_generator.py:673-674 | no risk left out of a prefix is more severe than one kept |
| Artefacts.TopRisksMostSevere | src/artefacts/docx_generator.py:668-674 | the top risks come most severe first, and every risk left out is no more severe than any kept |
| Artefacts.GetTopNRisks | src/artefacts/docx_generator.py:668-674 | the loop and sort compute those top risks |
| Artefacts.SlideBurnMatchesBriefing | src/artefacts/pptx_generator.py:256-260 | the slide flags the same projects for budget as the briefing, in the same order |
| Artefacts.SlideFallback | src/artefacts/pptx_generator.py:270-271 | there is always a decision; the review call appears alone, exactly when there is no burn, blocked or Red decision |
| Artefacts.SlideBurnCalls | src/artefacts/pptx_generator.py:256-260 | the burn decisions are budget calls |
| Artefacts.SlideEscalation | src/artefacts/pptx_generator.py:267-269 | the Red line appears exactly when some project is Red, and counts them all |
| Artefacts.SlideUnblock | src/artefacts/pptx_generator.py:261-266 | the unblock line names one or two projects with a critical or high blocked-work risk |
| Artefacts.GetDecisionsText | src/artefacts/pptx_generator.py:253-272 | the slide decisions are those the report calls for, given the order the blocked set is iterated in |

## Left out

- Graph.DependencyGraph.HasCircularDependency: a returned list is claimed to be a cycle only when no project depends on itself and no project name is empty. Otherwise the reconstruction can return a list that is not a cycle, because it stops at an empty (falsy) parent name and climbs past a self-loop.
- Set and dict iteration order (`for project in self.all_projects`, `name_lookup.items()`, `self.edges.items()`) is hash-dependent in the source; the model picks elements in an arbitrary order and states only facts that do not depend on it.
- `str.lower()` and `str.strip()` are modelled on ASCII only; Unicode case mappings that change a string's length are not modelled. `str.strip()` and `\s` also treat the ASCII separators `\x1c`–`\x1f` and the non-ASCII spaces as blanks; the model keeps them as text.
- Arithmetic: the source computes ratios, drift, ROI, multipliers and runways in binary floating point; the model computes them exactly on reals, so a value that lands on a threshold only after rounding (0.15 and 0.30 in `BenefitCalc.DriftRag`, 0.1, 0.3, 0.5 and 0.8 in the investment call, the dashboard bands) can be classified differently.
- Regex: the matcher lists its results in the priority order of Python's backtracking engine, and `re.match` takes the first. Soundness and completeness are proved; that the order is the engine's is not.
- ScenarioParser.ParseVerb: the optional `project ` token before the name is consumed greedily by the model's match order, but no lemma states it; the lemmas state what every match guarantees.
- ScenarioParser.DecimalValue: `float()` is modelled as exact decimal arithmetic on reals, without binary rounding.
- `\s` and `\d` match ASCII blanks and digits only.
- Simulator and Narrative: the rendering of amounts, percentages and dates (`:,.0f`, `:.0%`, `:.0f`, `isoformat`, `_fmt_date`) is not modelled; `Simulator.Formats` takes each rendering as a parameter and the texts are built around it.
- Narrative.BuildCascadeAnalysis: the new end date is taken as the rendering of the new date, which is the text after the arrow as long as a rendered date holds no arrow.
- Narrative.GenerateNarrative: the before summary is looked up under the resolved project name rather than the action's spelling of it (see Findings).
- Decisions.DecisionFromScenario: the briefing (`Decisions.BriefingOf`) takes the same corrected before summary, so the "Do nothing" option's impact text differs from the source's when the action names the project in a different case (see Findings).
- Narrative: a recommendation is kept as an `Advice` value and rendered by `AdviceText`; section headings are an enumeration rendered by `TitleText`.
- Narrative: the fall-back title, description and impact paragraph for an unknown action kind cannot be reached, since every kind has its own text; `to_dict` is not modelled.
- Simulator: the reference date is a day-number parameter; its default, today's date, is not modelled.
- Simulator.Simulate: the "Unsupported action type" branch is left out, because the five action kinds are all dispatched and the branch cannot be reached.
- Simulator: the after-state is a fresh map value, so the deep copy and the independence of before and after states hold by construction; dates in snapshots are day numbers rather than ISO strings.
- Ingestion: the file readers `parse_file`, `_parse_csv`, `_parse_json` and `_parse_xlsx` (src/ingestion/parser.py:151-298 and 340-421) are not modelled; the model starts from the header row and the rows they produce.
- Ingestion: `_parse_date` and `_parse_float` are parameters of `Ingestion.RowsToProjects`; their handling of date formats and of currency text is not modelled.
- Ingestion: Python's `str()` of a cell value is taken as given: a `Cell` carries the text of a scalar or the texts of a list's items.
- Ingestion: internal field names are the enumeration `Ingestion.Field`, rendered by `FieldName`, rather than strings.
- Ingestion.RowsToProjects: the groups are visited in sorted name order rather than the dictionary's insertion order; the source sorts the projects by name afterwards, so the result is the same.
- Ingestion.LastHeaderWins: stated for header rows without repeated headers, where the parser's dictionary holds one entry per header.
- Validators.SameFieldsAsParser: stated for header rows without repeated headers, for the same reason.
- Validators: the per-format readers `validate_file`, `_validate_csv`, `_validate_json` and `_validate_xlsx` (src/ingestion/validators.py:62-278), with their file checks and row counts, are not modelled; `Validators.CheckColumns` models the header step they share. `ValidationResult.to_dict` is not modelled.
- Benefits: the file reader `parse_benefits` and the cell readers `_get_str`, `_get_float` and `_parse_date` (src/benefits/parser.py:162-191 and 265-302) are not modelled; a row arrives as a `RawRow` of texts, numbers and an optional day number. `to_dict` is not modelled.
- BenefitCalc: the reference date is a day-number parameter; its default, today's date, is not modelled. The explanation and recommendation texts are datatypes; the rendering of amounts and percentages is not modelled. `to_dict` is not modelled.
- Investment: the wording of reasons and advice is rendered from datatypes by `ReasonText` and `AdviceText`, with money and percentages as parameters; `to_dict` is not modelled.
- Decisions: `to_json` and `export_decision_log` (src/decisions/__init__.py:88-93, 217-300) write files and are not modelled. Dates are day numbers rather than ISO strings.
- Decisions.AffectedProjects: `list({...})` takes the set in hash order; the model returns each name once in an arbitrary order.
- Insights: Python's set iteration order for the blocked projects is a parameter `order`, constrained to list the set once per element.
- Insights.Dedup: the dedup key is the first word of an item's rendered text, so it depends on the rendering of amounts given by `Simulator.Formats`.
- Artefacts: only the text-producing helpers are modelled; building the Word and PowerPoint documents (styles, tables, shapes, files) is not.
- Artefacts.TopRisksMostSevere: stability among equal severities comes from `Portfolio.SortBySeverity`, which is `Sorting.KeySort` and proved stable there; the lemma itself states the order and what is left out.

## Findings

| source | as written | input that shows it | evidently intended | confidence | as-written member | corrected member |
|---|---|---|---|---|---|---|
| src/scenario/narrative.py:129-133 | the before summary looks the project up under the action's spelling of the name | a portfolio holding "Alpha" and the action "cut alpha scope by 20%": the simulation resolves "alpha" to "Alpha", the summary says "alpha: No data available." | look the project up under the name the simulator resolved | medium, not executed | Narrative.ActionNameMissesResolvedProject | Narrative.ResolvedNameHasData |
