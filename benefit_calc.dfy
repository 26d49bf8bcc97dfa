/**
 * Benefits realisation and drift: per project, the expected value is
 * discounted by delivery confidence (from the risk report) and by each
 * benefit's status, confidence and lateness; the gap between expected and
 * adjusted value is the drift, rated Red, Amber or Green.
 */
module BenefitCalc {
  import opened Wrappers
  import opened Text
  import opened Benefits
  import P = Portfolio
  import Sorting
  import Sim = Simulator

  // ---------------------------------------------------------------------
  // Sums
  // ---------------------------------------------------------------------

  /** `sum(v(x) for x in xs)` */
  function Sum<T>(xs: seq<T>, v: T -> real): real {
    if xs == [] then 0.0 else v(xs[0]) + Sum(xs[1..], v)
  }

  lemma {:induction false} SumAppend<T>(a: seq<T>, b: seq<T>, v: T -> real)
    ensures Sum(a + b, v) == Sum(a, v) + Sum(b, v)
  {
    if a == [] {
      assert a + b == b;
    } else {
      assert (a + b)[1..] == a[1..] + b;
      SumAppend(a[1..], b, v);
    }
  }

  lemma {:induction false} SumNonNegative<T>(xs: seq<T>, v: T -> real)
    requires forall i :: 0 <= i < |xs| ==> v(xs[i]) >= 0.0
    ensures Sum(xs, v) >= 0.0
  {
    if xs != [] {
      SumNonNegative(xs[1..], v);
    }
  }

  /** A sum does not depend on the order of its terms. */
  lemma {:induction false} SumPermutation<T>(a: seq<T>, b: seq<T>, v: T -> real)
    requires multiset(a) == multiset(b)
    ensures Sum(a, v) == Sum(b, v)
    decreases |a|
  {
    if a != [] {
      assert a[0] in multiset(b);
      var j :| 0 <= j < |b| && b[j] == a[0];
      var rest := b[..j] + b[j + 1..];
      assert b == b[..j] + [b[j]] + b[j + 1..];
      SumAppend(b[..j] + [b[j]], b[j + 1..], v);
      SumAppend(b[..j], [b[j]], v);
      SumAppend(b[..j], b[j + 1..], v);
      assert a == [a[0]] + a[1..];
      calc {
        multiset(a[1..]);
        multiset(a) - multiset{a[0]};
        multiset(b) - multiset{b[j]};
        { assert multiset(b) == multiset(b[..j]) + multiset{b[j]} + multiset(b[j + 1..]); }
        multiset(rest);
      }
      SumPermutation(a[1..], rest, v);
    }
  }

  function ExpectedOf(b: Benefit): real { b.expectedValue }

  function RealisedOf(b: Benefit): real { b.realisedValue }

  /** `x / total if total > 0 else 0.0` */
  function Ratio(x: real, total: real): (r: real)
    ensures total > 0.0 ==> r * total == x
    ensures total <= 0.0 ==> r == 0.0
  {
    if total > 0.0 then x / total else 0.0
  }

  // ---------------------------------------------------------------------
  // Drift rating
  // ---------------------------------------------------------------------

  /** `_drift_rag`: Red above 30 %, Amber above 15 %, Green otherwise. */
  function DriftRag(drift: real): (r: string)
    ensures r == "Red" || r == "Amber" || r == "Green"
  {
    if drift > 0.30 then "Red" else if drift > 0.15 then "Amber" else "Green"
  }

  function RagRank(rag: string): nat {
    if rag == "Red" then 2 else if rag == "Amber" then 1 else 0
  }

  /** The rating bands: each rating is exactly its range of drift. */
  lemma DriftRagBands(drift: real)
    ensures DriftRag(drift) == "Red" <==> drift > 0.30
    ensures DriftRag(drift) == "Amber" <==> 0.15 < drift <= 0.30
    ensures DriftRag(drift) == "Green" <==> drift <= 0.15
  {
  }

  /** More drift never gives a better rating. */
  lemma DriftRagMonotone(d1: real, d2: real)
    requires d1 <= d2
    ensures RagRank(DriftRag(d1)) <= RagRank(DriftRag(d2))
  {
  }

  // ---------------------------------------------------------------------
  // Project delivery confidence
  // ---------------------------------------------------------------------

  /** `{"Red": 0.5, "Amber": 0.7, "Green": 0.9}.get(rag, 0.8)` */
  function RagBase(rag: string): (r: real)
    ensures 0.5 <= r <= 0.9
  {
    if rag == "Red" then 0.5 else if rag == "Amber" then 0.7 else if rag == "Green" then 0.9 else 0.8
  }

  /** How many of the risks are critical. */
  function CriticalCount(rs: seq<P.Risk>): (n: nat)
    ensures n <= |rs|
    ensures n == 0 <==> forall i :: 0 <= i < |rs| ==> rs[i].severity != P.Critical
  {
    if rs == [] then 0
    else (if rs[0].severity == P.Critical then 1 else 0) + CriticalCount(rs[1..])
  }

  /** `min(risk_count * 0.03, 0.2)` */
  function RiskPenalty(count: int): real {
    if count as real * 0.03 <= 0.2 then count as real * 0.03 else 0.2
  }

  /** The confidence a risk summary gives its project: the RAG base less the penalties, at least 0.2. */
  function SummaryFactor(s: P.RiskSummary): (f: real)
    ensures f >= 0.2
    ensures s.riskCount >= 0 ==> f <= RagBase(s.ragStatus)
    ensures f > 0.2 ==> f == RagBase(s.ragStatus) - RiskPenalty(s.riskCount) - CriticalCount(s.risks) as real * 0.05
  {
    var raw := RagBase(s.ragStatus) - RiskPenalty(s.riskCount) - CriticalCount(s.risks) as real * 0.05;
    if raw > 0.2 then raw else 0.2
  }

  /** The first summary whose project name matches, ignoring case. */
  function MatchSummary(name: string, ss: seq<P.RiskSummary>): (r: Option<P.RiskSummary>)
    ensures r.Some? ==> r.value in ss && Lower(r.value.projectName) == Lower(name)
    ensures r.None? <==> forall i :: 0 <= i < |ss| ==> Lower(ss[i].projectName) != Lower(name)
  {
    if ss == [] then None
    else if Lower(ss[0].projectName) == Lower(name) then Some(ss[0])
    else MatchSummary(name, ss[1..])
  }

  /** `_get_confidence_factor`: 0.8 without a report or a matching summary. */
  function ConfidenceFactor(name: string, report: Option<P.RiskReport>): (f: real)
    ensures f >= 0.2
    ensures report.None? ==> f == 0.8
    ensures report.Some? && MatchSummary(name, report.value.projectSummaries).None? ==> f == 0.8
    ensures report.Some? && MatchSummary(name, report.value.projectSummaries).Some? ==>
              f == SummaryFactor(MatchSummary(name, report.value.projectSummaries).value)
  {
    if report.None? then 0.8
    else
      var m := MatchSummary(name, report.value.projectSummaries);
      if m.Some? then SummaryFactor(m.value) else 0.8
  }

  method GetConfidenceFactor(name: string, report: Option<P.RiskReport>) returns (f: real)
    ensures f == ConfidenceFactor(name, report)
  {
    if report.None? {
      return 0.8;
    }
    var ss := report.value.projectSummaries;
    for k := 0 to |ss|
      invariant MatchSummary(name, ss) == MatchSummary(name, ss[k..])
    {
      assert ss[k..][1..] == ss[k + 1..];
      if Lower(ss[k].projectName) == Lower(name) {
        return SummaryFactor(ss[k]);
      }
    }
    return 0.8;
  }

  /** With risk counts that are counts, the factor lies between 0.2 and 0.9. */
  lemma ConfidenceFactorBounded(name: string, report: Option<P.RiskReport>)
    requires report.Some? ==> forall s :: s in report.value.projectSummaries ==> s.riskCount >= 0
    ensures 0.2 <= ConfidenceFactor(name, report) <= 0.9
  {
  }

  // ---------------------------------------------------------------------
  // Per-benefit multiplier
  // ---------------------------------------------------------------------

  function StatusMultiplier(s: Status): (m: real)
    ensures 0.0 <= m <= 1.0
    ensures m == 0.0 <==> s == Cancelled
  {
    match s
    case OnTrack => 1.0
    case Partial => 0.85
    case NotStarted => 0.7
    case AtRisk => 0.5
    case Delayed => 0.4
    case Cancelled => 0.0
    case Realised => 1.0
  }

  function ConfidenceMultiplier(c: Confidence): (m: real)
    ensures 0.6 <= m <= 1.0
  {
    match c
    case High => 1.0
    case Medium => 0.85
    case Low => 0.6
  }

  /** Past its target date and not yet realised. */
  predicate Overdue(b: Benefit, ref: int) {
    b.targetDate.Some? && b.targetDate.value < ref && b.status != Realised
  }

  /** One thirtieth of a point per 18 days overdue, at most 0.3. */
  function OverduePenalty(b: Benefit, ref: int): (p: real)
    ensures 0.0 <= p <= 0.3
    ensures p > 0.0 <==> Overdue(b, ref)
  {
    if Overdue(b, ref) then
      var days := (ref - b.targetDate.value) as real;
      if days / 180.0 <= 0.3 then days / 180.0 else 0.3
    else 0.0
  }

  /** `_benefit_confidence_multiplier` */
  function Multiplier(b: Benefit, projectConfidence: real, ref: int): (m: real)
    ensures m >= 0.0
  {
    var raw := projectConfidence * StatusMultiplier(b.status) * ConfidenceMultiplier(b.confidence)
               - OverduePenalty(b, ref);
    if raw > 0.0 then raw else 0.0
  }

  /** A benefit is never more likely than its project: the multiplier is at most the project's confidence. */
  lemma MultiplierAtMostProject(b: Benefit, pc: real, ref: int)
    requires pc >= 0.0
    ensures Multiplier(b, pc, ref) <= pc
  {
    var sm := StatusMultiplier(b.status);
    var cm := ConfidenceMultiplier(b.confidence);
    assert pc * sm <= pc;
    assert pc * sm * cm <= pc * sm;
  }

  /** A cancelled benefit counts for nothing. */
  lemma CancelledCountsNothing(b: Benefit, pc: real, ref: int)
    requires b.status == Cancelled
    ensures Multiplier(b, pc, ref) == 0.0
  {
  }

  /** Being overdue never raises the multiplier. */
  lemma OverdueNeverRaises(b: Benefit, pc: real, ref: int)
    ensures Multiplier(b, pc, ref) <= Multiplier(b.(targetDate := None), pc, ref)
  {
    var c := b.(targetDate := None);
    assert OverduePenalty(c, ref) == 0.0;
  }

  // ---------------------------------------------------------------------
  // Adjusted value and drift
  // ---------------------------------------------------------------------

  /** What one benefit adds to the adjusted value: all of it when realised, none when cancelled. */
  function Contribution(b: Benefit, pc: real, ref: int): real {
    if b.status == Realised then b.expectedValue
    else if b.status == Cancelled then 0.0
    else b.expectedValue * Multiplier(b, pc, ref)
  }

  function Adjusted(bs: seq<Benefit>, pc: real, ref: int): real {
    if bs == [] then 0.0 else Contribution(bs[0], pc, ref) + Adjusted(bs[1..], pc, ref)
  }

  /** One step of the adjusting loop: the three branches on the benefit's status. */
  method Contribute(b: Benefit, pc: real, ref: int) returns (c: real)
    ensures c == Contribution(b, pc, ref)
  {
    if b.status == Realised {
      c := b.expectedValue;
    } else if b.status == Cancelled {
      c := 0.0;
    } else {
      var bf := Multiplier(b, pc, ref);
      c := b.expectedValue * bf;
    }
  }

  /** The adjusting loop of `_analyse_project_benefits`. */
  method AdjustedExpected(bs: seq<Benefit>, pc: real, ref: int) returns (adjusted: real)
    ensures adjusted == Adjusted(bs, pc, ref)
  {
    adjusted := 0.0;
    for k := 0 to |bs|
      invariant adjusted + Adjusted(bs[k..], pc, ref) == Adjusted(bs, pc, ref)
    {
      assert bs[k..][1..] == bs[k + 1..];
      var c := Contribute(bs[k], pc, ref);
      adjusted := adjusted + c;
    }
  }

  lemma ScaleWithin(e: real, m: real)
    requires e >= 0.0 && 0.0 <= m <= 1.0
    ensures 0.0 <= e * m <= e
  {
  }

  /** With non-negative expected values and a confidence of at most 1, the adjusted value lies between 0 and the expected total. */
  lemma {:induction false} AdjustedWithinExpected(bs: seq<Benefit>, pc: real, ref: int)
    requires 0.0 <= pc <= 1.0
    requires forall i :: 0 <= i < |bs| ==> bs[i].expectedValue >= 0.0
    ensures 0.0 <= Adjusted(bs, pc, ref) <= Sum(bs, ExpectedOf)
  {
    if bs != [] {
      var b := bs[0];
      MultiplierAtMostProject(b, pc, ref);
      ScaleWithin(b.expectedValue, Multiplier(b, pc, ref));
      assert 0.0 <= Contribution(b, pc, ref) <= b.expectedValue;
      assert Sum(bs, ExpectedOf) == ExpectedOf(b) + Sum(bs[1..], ExpectedOf);
      AdjustedWithinExpected(bs[1..], pc, ref);
    }
  }

  /** `(total - adjusted) / total if total > 0 else 0.0` */
  function Drift(total: real, adjusted: real): (d: real)
    ensures total > 0.0 ==> d * total == total - adjusted
    ensures total <= 0.0 ==> d == 0.0
  {
    if total > 0.0 then (total - adjusted) / total else 0.0
  }

  /** Drift is a share: between 0 and 1 whenever the adjusted value is between 0 and the total. */
  lemma DriftInUnit(total: real, adjusted: real)
    requires 0.0 <= adjusted <= total
    ensures 0.0 <= Drift(total, adjusted) <= 1.0
  {
    if total > 0.0 {
      var d := Drift(total, adjusted);
      Sim.MulMono(d, 1.0, total);
      if d > 1.0 {
        Sim.MulStrict(1.0, d, total);
      }
      if d < 0.0 {
        Sim.MulStrict(d, 0.0, total);
      }
    }
  }

  // ---------------------------------------------------------------------
  // Benefits at risk
  // ---------------------------------------------------------------------

  /** At risk by status, low confidence, or an unrealised benefit of a project drifting above 30 %. */
  predicate Flagged(b: Benefit, drift: real) {
    IsAtRisk(b) || b.confidence == Low
    || (drift > 0.30 && b.status != Realised && UnrealisedValue(b) > 0.0)
  }

  function FlaggedOf(bs: seq<Benefit>, drift: real): (r: seq<Benefit>)
    ensures forall b :: b in r <==> b in bs && Flagged(b, drift)
  {
    if bs == [] then []
    else (if Flagged(bs[0], drift) then [bs[0]] else []) + FlaggedOf(bs[1..], drift)
  }

  function Ids(bs: seq<Benefit>): set<string> {
    set b | b in bs :: b.benefitId
  }

  predicate DistinctIds(bs: seq<Benefit>) {
    forall i, j :: 0 <= i < j < |bs| ==> bs[i].benefitId != bs[j].benefitId
  }

  /** The first benefit of each identifier not in `seen`, in order. */
  function Unique(bs: seq<Benefit>, seen: set<string>): seq<Benefit> {
    if bs == [] then []
    else if bs[0].benefitId in seen then Unique(bs[1..], seen)
    else [bs[0]] + Unique(bs[1..], seen + {bs[0].benefitId})
  }

  /** Deduplication keeps one benefit per identifier not yet seen, and only benefits it was given. */
  lemma UniqueSpec(bs: seq<Benefit>, seen: set<string>)
    ensures DistinctIds(Unique(bs, seen))
    ensures Ids(Unique(bs, seen)) == Ids(bs) - seen
    ensures forall b :: b in Unique(bs, seen) ==> b in bs
  {
    UniqueDistinct(bs, seen);
    UniqueIds(bs, seen);
    UniqueMembers(bs, seen);
  }

  lemma {:induction false} UniqueDistinct(bs: seq<Benefit>, seen: set<string>)
    ensures DistinctIds(Unique(bs, seen))
    ensures forall i :: 0 <= i < |Unique(bs, seen)| ==> Unique(bs, seen)[i].benefitId !in seen
  {
    if bs != [] {
      var id := bs[0].benefitId;
      if id in seen {
        UniqueDistinct(bs[1..], seen);
      } else {
        var tail := Unique(bs[1..], seen + {id});
        UniqueDistinct(bs[1..], seen + {id});
        var r := [bs[0]] + tail;
        forall i, j | 0 <= i < j < |r| ensures r[i].benefitId != r[j].benefitId {
          assert r[j] == tail[j - 1];
          if i > 0 {
            assert r[i] == tail[i - 1];
          }
        }
        forall i | 0 <= i < |r| ensures r[i].benefitId !in seen {
          if i > 0 {
            assert r[i] == tail[i - 1];
          }
        }
      }
    }
  }

  lemma {:induction false} UniqueIds(bs: seq<Benefit>, seen: set<string>)
    ensures Ids(Unique(bs, seen)) == Ids(bs) - seen
  {
    if bs != [] {
      var id := bs[0].benefitId;
      assert Ids(bs) == {id} + Ids(bs[1..]);
      if id in seen {
        UniqueIds(bs[1..], seen);
      } else {
        var tail := Unique(bs[1..], seen + {id});
        UniqueIds(bs[1..], seen + {id});
        assert Ids([bs[0]] + tail) == {id} + Ids(tail);
      }
    }
  }

  lemma {:induction false} UniqueMembers(bs: seq<Benefit>, seen: set<string>)
    ensures forall b :: b in Unique(bs, seen) ==> b in bs
  {
    if bs != [] {
      UniqueMembers(bs[1..], seen);
      UniqueMembers(bs[1..], seen + {bs[0].benefitId});
    }
  }

  /** The deduplicating loop: a set of seen identifiers and the list kept so far. */
  method Dedup(bs: seq<Benefit>) returns (r: seq<Benefit>)
    ensures r == Unique(bs, {})
  {
    var seen: set<string> := {};
    r := [];
    for k := 0 to |bs|
      invariant r + Unique(bs[k..], seen) == Unique(bs, {})
    {
      assert bs[k..][1..] == bs[k + 1..];
      var b := bs[k];
      if b.benefitId !in seen {
        seen := seen + {b.benefitId};
        r := r + [b];
      }
    }
  }

  // ---------------------------------------------------------------------
  // Drift explanation
  // ---------------------------------------------------------------------

  datatype Cause = WrittenOff(value: real) | DeliveryRisk(value: real) | OverdueCount(count: nat)

  datatype DriftNote =
    | NoBenefits(project: string)
    | OnCourse(project: string, adjusted: real, expected: real)
    | Drifting(project: string, expected: real, adjusted: real, drift: real, causes: seq<Cause>)

  function CancelledOf(bs: seq<Benefit>): (r: seq<Benefit>)
    ensures forall b :: b in r <==> b in bs && b.status == Cancelled
  {
    if bs == [] then []
    else (if bs[0].status == Cancelled then [bs[0]] else []) + CancelledOf(bs[1..])
  }

  function AtRiskOf(bs: seq<Benefit>): (r: seq<Benefit>)
    ensures forall b :: b in r <==> b in bs && IsAtRisk(b)
  {
    if bs == [] then [] else (if IsAtRisk(bs[0]) then [bs[0]] else []) + AtRiskOf(bs[1..])
  }

  function OverdueOf(bs: seq<Benefit>, ref: int): (r: seq<Benefit>)
    ensures forall b :: b in r <==> b in bs && Overdue(b, ref)
  {
    if bs == [] then [] else (if Overdue(bs[0], ref) then [bs[0]] else []) + OverdueOf(bs[1..], ref)
  }

  /** The drivers of drift, in the order written off, at risk, overdue. */
  function Causes(bs: seq<Benefit>, ref: int): seq<Cause> {
    When(CancelledOf(bs) != [], WrittenOff(Sum(CancelledOf(bs), ExpectedOf)))
    + When(AtRiskOf(bs) != [], DeliveryRisk(Sum(AtRiskOf(bs), UnrealisedValue)))
    + When(OverdueOf(bs, ref) != [], OverdueCount(|OverdueOf(bs, ref)|))
  }

  /** `_build_drift_explanation`, before wording. */
  function DriftExplanation(project: string, bs: seq<Benefit>, total: real, adjusted: real, drift: real, ref: int)
    : DriftNote
  {
    if total == 0.0 then NoBenefits(project)
    else if drift <= 0.05 then OnCourse(project, adjusted, total)
    else Drifting(project, total, adjusted, drift, Causes(bs, ref))
  }

  /** Which note: none without benefits, on track up to 5 % drift, and drivers named otherwise. */
  lemma DriftExplanationKind(project: string, bs: seq<Benefit>, total: real, adjusted: real, drift: real, ref: int)
    ensures DriftExplanation(project, bs, total, adjusted, drift, ref).NoBenefits? <==> total == 0.0
    ensures DriftExplanation(project, bs, total, adjusted, drift, ref).OnCourse? <==> total != 0.0 && drift <= 0.05
    ensures DriftExplanation(project, bs, total, adjusted, drift, ref).project == project
  {
  }

  /** A driver is named exactly when some benefit is cancelled, at risk or overdue; at most one of each. */
  lemma CausesNamed(bs: seq<Benefit>, ref: int)
    ensures |Causes(bs, ref)| <= 3
    ensures Causes(bs, ref) == [] <==> forall b :: b in bs ==> !IsAtRisk(b) && !Overdue(b, ref)
    ensures (exists b :: b in bs && b.status == Cancelled) ==> Causes(bs, ref)[0].WrittenOff?
  {
    var cancelled, atRisk, overdue := CancelledOf(bs), AtRiskOf(bs), OverdueOf(bs, ref);
    assert cancelled != [] ==> cancelled[0] in cancelled && cancelled[0] in atRisk;
    assert atRisk != [] ==> atRisk[0] in atRisk;
    assert overdue != [] ==> overdue[0] in overdue;
    forall b | b in bs && b.status == Cancelled ensures b in cancelled {
    }
  }

  function CauseText(c: Cause, f: Sim.Formats): string {
    match c
    case WrittenOff(v) => "£" + f.money(v) + " written off (cancelled)"
    case DeliveryRisk(v) => "£" + f.money(v) + " at risk due to delivery issues"
    case OverdueCount(n) => NatToString(n) + " benefit" + (if n > 1 then "s" else "") + " overdue"
  }

  function CauseTexts(cs: seq<Cause>, f: Sim.Formats): seq<string> {
    if cs == [] then [] else [CauseText(cs[0], f)] + CauseTexts(cs[1..], f)
  }

  /** The sentence the summary carries. */
  function NoteText(n: DriftNote, f: Sim.Formats): string {
    match n
    case NoBenefits(p) => p + " has no quantified financial benefits."
    case OnCourse(p, adjusted, expected) =>
      p + " benefits are on track — £" + f.money(adjusted) + " of £" + f.money(expected) + " expected to realise."
    case Drifting(p, expected, adjusted, drift, causes) =>
      p + " was forecast to deliver £" + f.money(expected) + ". Adjusted estimate is £" + f.money(adjusted)
      + " — a " + f.percent(drift) + " drift. Drivers: "
      + (if causes == [] then "reduced delivery confidence" else Join(CauseTexts(causes, f), "; ")) + "."
  }

  // ---------------------------------------------------------------------
  // Project summary
  // ---------------------------------------------------------------------

  datatype ProjectBenefitSummary = ProjectBenefitSummary(
    projectName: string,
    benefits: seq<Benefit>,
    totalExpected: real,
    totalRealised: real,
    realisationPct: real,
    adjustedExpected: real,
    driftPct: real,
    driftRag: string,
    atRiskValue: real,
    atRisk: seq<Benefit>,
    explanation: DriftNote)

  /** `_analyse_project_benefits` as a value. */
  function Summarise(name: string, bs: seq<Benefit>, report: Option<P.RiskReport>, ref: int): (s: ProjectBenefitSummary)
    ensures s.projectName == name && s.benefits == bs
  {
    var total := Sum(bs, ExpectedOf);
    var realised := Sum(bs, RealisedOf);
    var adjusted := Adjusted(bs, ConfidenceFactor(name, report), ref);
    var drift := Drift(total, adjusted);
    var atRisk := Unique(FlaggedOf(bs, drift), {});
    ProjectBenefitSummary(
      name, bs, total, realised, Ratio(realised, total), adjusted, drift, DriftRag(drift),
      Sum(atRisk, UnrealisedValue), atRisk, DriftExplanation(name, bs, total, adjusted, drift, ref))
  }

  /** `_analyse_project_benefits` */
  method AnalyseProject(name: string, bs: seq<Benefit>, report: Option<P.RiskReport>, ref: int)
    returns (s: ProjectBenefitSummary)
    ensures s == Summarise(name, bs, report, ref)
  {
    var total := Sum(bs, ExpectedOf);
    var realised := Sum(bs, RealisedOf);
    var pc := GetConfidenceFactor(name, report);
    var adjusted := AdjustedExpected(bs, pc, ref);
    var drift := Drift(total, adjusted);
    var atRisk := Dedup(FlaggedOf(bs, drift));
    s := ProjectBenefitSummary(
      name, bs, total, realised, Ratio(realised, total), adjusted, drift, DriftRag(drift),
      Sum(atRisk, UnrealisedValue), atRisk, DriftExplanation(name, bs, total, adjusted, drift, ref));
  }

  /** Well-formed inputs give a drift between 0 and 1 and an adjusted value no larger than expected. */
  lemma SummaryDriftBounded(name: string, bs: seq<Benefit>, report: Option<P.RiskReport>, ref: int)
    requires forall i :: 0 <= i < |bs| ==> bs[i].expectedValue >= 0.0
    requires report.Some? ==> forall s :: s in report.value.projectSummaries ==> s.riskCount >= 0
    ensures 0.0 <= Summarise(name, bs, report, ref).adjustedExpected <= Summarise(name, bs, report, ref).totalExpected
    ensures 0.0 <= Summarise(name, bs, report, ref).driftPct <= 1.0
  {
    var pc := ConfidenceFactor(name, report);
    ConfidenceFactorBounded(name, report);
    AdjustedWithinExpected(bs, pc, ref);
    DriftInUnit(Sum(bs, ExpectedOf), Adjusted(bs, pc, ref));
  }

  /** The at-risk list holds each flagged identifier once, only flagged benefits of the project, and a non-negative value. */
  lemma SummaryAtRisk(name: string, bs: seq<Benefit>, report: Option<P.RiskReport>, ref: int)
    ensures DistinctIds(Summarise(name, bs, report, ref).atRisk)
    ensures Ids(Summarise(name, bs, report, ref).atRisk) == Ids(FlaggedOf(bs, Summarise(name, bs, report, ref).driftPct))
    ensures forall b :: b in Summarise(name, bs, report, ref).atRisk ==>
              b in bs && Flagged(b, Summarise(name, bs, report, ref).driftPct)
    ensures Summarise(name, bs, report, ref).atRiskValue >= 0.0
  {
    var s := Summarise(name, bs, report, ref);
    UniqueSpec(FlaggedOf(bs, s.driftPct), {});
    SumNonNegative(s.atRisk, UnrealisedValue);
  }

  // ---------------------------------------------------------------------
  // Grouping by project
  // ---------------------------------------------------------------------

  function ProjectNames(bs: seq<Benefit>): set<string> {
    set b | b in bs :: b.projectName
  }

  /** The benefits of one project, in register order. */
  function Group(bs: seq<Benefit>, n: string): (r: seq<Benefit>)
    ensures forall b :: b in r <==> b in bs && b.projectName == n
  {
    if bs == [] then [] else (if bs[0].projectName == n then [bs[0]] else []) + Group(bs[1..], n)
  }

  lemma {:induction false} GroupAppend(a: seq<Benefit>, b: seq<Benefit>, n: string)
    ensures Group(a + b, n) == Group(a, n) + Group(b, n)
  {
    if a == [] {
      assert a + b == b;
    } else {
      assert (a + b)[1..] == a[1..] + b;
      GroupAppend(a[1..], b, n);
    }
  }

  /** A project with no benefit in the list has an empty group. */
  lemma GroupOfAbsent(bs: seq<Benefit>, n: string)
    requires n !in ProjectNames(bs)
    ensures Group(bs, n) == []
  {
    if Group(bs, n) != [] {
      assert Group(bs, n)[0] in Group(bs, n);
    }
  }

  /** Appending one benefit adds its project to the names. */
  lemma NamesStep(bs: seq<Benefit>, b: Benefit)
    ensures ProjectNames(bs + [b]) == ProjectNames(bs) + {b.projectName}
  {
  }

  /** The dictionary the grouping loop builds, one benefit at a time. */
  function GroupMap(bs: seq<Benefit>): map<string, seq<Benefit>>
    decreases |bs|
  {
    if bs == [] then map[]
    else
      var m := GroupMap(bs[..|bs| - 1]);
      var b := bs[|bs| - 1];
      m[b.projectName := (if b.projectName in m then m[b.projectName] else []) + [b]]
  }

  /** The dictionary has one entry per project, holding that project's benefits in register order. */
  lemma {:induction false} GroupMapSpec(bs: seq<Benefit>)
    ensures GroupMap(bs).Keys == ProjectNames(bs)
    ensures forall n :: n in GroupMap(bs) ==> GroupMap(bs)[n] == Group(bs, n)
    decreases |bs|
  {
    if bs != [] {
      var k := |bs| - 1;
      var front, b := bs[..k], bs[k];
      assert bs == front + [b];
      GroupMapSpec(front);
      NamesStep(front, b);
      forall n | n in GroupMap(bs) ensures GroupMap(bs)[n] == Group(bs, n) {
        GroupMapStep(front, b, n);
      }
    }
  }

  /** The entry for `n` after one more benefit, given the entries before it. */
  lemma GroupMapStep(front: seq<Benefit>, b: Benefit, n: string)
    requires GroupMap(front).Keys == ProjectNames(front)
    requires forall x :: x in GroupMap(front) ==> GroupMap(front)[x] == Group(front, x)
    requires n in GroupMap(front + [b])
    ensures GroupMap(front + [b])[n] == Group(front + [b], n)
  {
    var bs := front + [b];
    assert bs[..|bs| - 1] == front && bs[|bs| - 1] == b;
    GroupAppend(front, [b], n);
    if n == b.projectName && n !in GroupMap(front) {
      GroupOfAbsent(front, n);
    }
  }

  /** The `setdefault(...).append(b)` loop. */
  method GroupByProject(bs: seq<Benefit>) returns (m: map<string, seq<Benefit>>)
    ensures m.Keys == ProjectNames(bs)
    ensures forall n :: n in m ==> m[n] == Group(bs, n)
  {
    m := map[];
    for k := 0 to |bs|
      invariant m == GroupMap(bs[..k])
    {
      var b := bs[k];
      assert bs[..k + 1][..k] == bs[..k] && bs[..k + 1][k] == b;
      var group := if b.projectName in m then m[b.projectName] else [];
      m := m[b.projectName := group + [b]];
    }
    assert bs[..|bs|] == bs;
    GroupMapSpec(bs);
  }

  predicate DistinctNames(names: seq<string>) {
    forall i, j :: 0 <= i < j < |names| ==> names[i] != names[j]
  }

  /** The total of `v` over each named project's benefits, project by project. */
  function GroupedTotal(bs: seq<Benefit>, names: seq<string>, v: Benefit -> real): real {
    if names == [] then 0.0 else Sum(Group(bs, names[0]), v) + GroupedTotal(bs, names[1..], v)
  }

  /** `x` once for every occurrence of `p` among the names. */
  function Hits(names: seq<string>, p: string, x: real): real {
    if names == [] then 0.0 else (if names[0] == p then x else 0.0) + Hits(names[1..], p, x)
  }

  lemma {:induction false} HitsOnce(names: seq<string>, p: string, x: real)
    requires DistinctNames(names)
    ensures Hits(names, p, x) == if p in names then x else 0.0
  {
    if names != [] {
      HitsOnce(names[1..], p, x);
      if names[0] == p {
        forall j | 0 <= j < |names[1..]| ensures names[1..][j] != p {
          assert names[1..][j] == names[j + 1];
        }
      }
    }
  }

  lemma {:induction false} GroupedTotalEmpty(names: seq<string>, v: Benefit -> real)
    ensures GroupedTotal([], names, v) == 0.0
  {
    if names != [] {
      GroupedTotalEmpty(names[1..], v);
    }
  }

  lemma {:induction false} GroupedTotalStep(b: Benefit, rest: seq<Benefit>, names: seq<string>, v: Benefit -> real)
    ensures GroupedTotal([b] + rest, names, v) == Hits(names, b.projectName, v(b)) + GroupedTotal(rest, names, v)
  {
    if names != [] {
      GroupedTotalStep(b, rest, names[1..], v);
      var bs := [b] + rest;
      assert bs[1..] == rest;
      assert Group(bs, names[0]) == (if b.projectName == names[0] then [b] else []) + Group(rest, names[0]);
      SumAppend(if b.projectName == names[0] then [b] else [], Group(rest, names[0]), v);
    }
  }

  /** Grouping loses and duplicates nothing: the per-project totals add up to the register's total. */
  lemma {:induction false} GroupingKeepsTotal(bs: seq<Benefit>, names: seq<string>, v: Benefit -> real)
    requires DistinctNames(names)
    requires forall i :: 0 <= i < |bs| ==> bs[i].projectName in names
    ensures GroupedTotal(bs, names, v) == Sum(bs, v)
  {
    if bs == [] {
      GroupedTotalEmpty(names, v);
    } else {
      assert bs == [bs[0]] + bs[1..];
      GroupedTotalStep(bs[0], bs[1..], names, v);
      HitsOnce(names, bs[0].projectName, v(bs[0]));
      GroupingKeepsTotal(bs[1..], names, v);
    }
  }

  // ---------------------------------------------------------------------
  // Portfolio report
  // ---------------------------------------------------------------------

  function SummaryExpected(s: ProjectBenefitSummary): real { s.totalExpected }

  function SummaryRealised(s: ProjectBenefitSummary): real { s.totalRealised }

  function SummaryAdjusted(s: ProjectBenefitSummary): real { s.adjustedExpected }

  function SummaryAtRiskValue(s: ProjectBenefitSummary): real { s.atRiskValue }

  function SummaryNames(ss: seq<ProjectBenefitSummary>): (r: seq<string>)
    ensures |r| == |ss| && forall i :: 0 <= i < |ss| ==> r[i] == ss[i].projectName
  {
    seq(|ss|, i requires 0 <= i < |ss| => ss[i].projectName)
  }

  /** Summing a field over the summaries is summing it over each project's group. */
  lemma {:induction false} SummaryTotals(
    ss: seq<ProjectBenefitSummary>, bs: seq<Benefit>, names: seq<string>,
    field: ProjectBenefitSummary -> real, v: Benefit -> real)
    requires |ss| == |names|
    requires forall i :: 0 <= i < |ss| ==> field(ss[i]) == Sum(Group(bs, names[i]), v)
    ensures Sum(ss, field) == GroupedTotal(bs, names, v)
  {
    if ss != [] {
      SummaryTotals(ss[1..], bs, names[1..], field, v);
    }
  }

  /** Every benefit in every at-risk list, project after project. */
  function AllAtRisk(ss: seq<ProjectBenefitSummary>): seq<Benefit> {
    if ss == [] then [] else ss[0].atRisk + AllAtRisk(ss[1..])
  }

  /** The first `n` of a list sorted on `key`, largest first, are the largest. */
  lemma TakeIsLargest<T>(all: seq<T>, sorted: seq<T>, n: nat, key: T -> real)
    requires Sorting.SortedDescending(sorted, key) && multiset(sorted) == multiset(all)
    ensures forall x, y :: x in all && x !in Sorting.Take(sorted, n) && y in Sorting.Take(sorted, n) ==> key(y) >= key(x)
  {
    var top := Sorting.Take(sorted, n);
    forall x, y | x in all && x !in top && y in top ensures key(y) >= key(x) {
      assert x in multiset(all);
      var i :| 0 <= i < |sorted| && sorted[i] == x;
      var j :| 0 <= j < |top| && top[j] == y;
      assert forall k :: 0 <= k < |top| ==> sorted[k] != x;
    }
  }

  /** The five benefits with the most unrealised value across the portfolio. */
  method TopAtRisk(ss: seq<ProjectBenefitSummary>) returns (top: seq<Benefit>)
    ensures |top| == if |AllAtRisk(ss)| < 5 then |AllAtRisk(ss)| else 5
    ensures multiset(top) <= multiset(AllAtRisk(ss))
    ensures Sorting.SortedDescending(top, UnrealisedValue)
    ensures forall x, y :: x in AllAtRisk(ss) && x !in top && y in top ==> UnrealisedValue(y) >= UnrealisedValue(x)
    ensures Sorting.EarliestBuckets(top, AllAtRisk(ss), UnrealisedValue)
  {
    var all := AllAtRisk(ss);
    var sorted := Sorting.SortDescending(all, UnrealisedValue);
    assert |multiset(sorted)| == |multiset(all)|;
    top := Sorting.Take(sorted, 5);
    TakeIsLargest(all, sorted, 5, UnrealisedValue);
    assert sorted == top + sorted[|top|..];
    assert multiset(sorted) == multiset(top) + multiset(sorted[|top|..]);
    Sorting.PrefixEarliest(top, sorted, UnrealisedValue);
  }

  // ---------------------------------------------------------------------
  // Recommendations
  // ---------------------------------------------------------------------

  datatype BenefitAdvice =
    | EscalateDrift(names: seq<string>)
    | ProtectBenefits(atRisk: real, share: real)
    | StartRealising(names: seq<string>)
    | BroadlyOnTrack

  function RedDrift(ss: seq<ProjectBenefitSummary>): (r: seq<string>)
    ensures forall n :: n in r <==> exists s :: s in ss && s.driftRag == "Red" && s.projectName == n
  {
    if ss == [] then []
    else (if ss[0].driftRag == "Red" then [ss[0].projectName] else []) + RedDrift(ss[1..])
  }

  lemma RedDriftEmpty(ss: seq<ProjectBenefitSummary>)
    ensures RedDrift(ss) == [] <==> forall s :: s in ss ==> s.driftRag != "Red"
  {
    if RedDrift(ss) != [] {
      assert RedDrift(ss)[0] in RedDrift(ss);
    }
  }

  function NothingRealised(ss: seq<ProjectBenefitSummary>): (r: seq<string>)
    ensures forall n :: n in r <==>
              exists s :: s in ss && s.totalRealised == 0.0 && s.totalExpected > 0.0 && s.projectName == n
  {
    if ss == [] then []
    else (if ss[0].totalRealised == 0.0 && ss[0].totalExpected > 0.0 then [ss[0].projectName] else [])
         + NothingRealised(ss[1..])
  }

  predicate MuchAtRisk(totalExpected: real, totalAtRisk: real) {
    totalAtRisk > 0.0 && totalExpected > 0.0 && totalAtRisk / totalExpected > 0.2
  }

  /** `_generate_recommendations`, before wording. */
  function Recommendations(ss: seq<ProjectBenefitSummary>, totalExpected: real, totalAtRisk: real)
    : seq<BenefitAdvice>
  {
    var recs :=
      When(RedDrift(ss) != [], EscalateDrift(Sorting.Take(RedDrift(ss), 3)))
      + When(MuchAtRisk(totalExpected, totalAtRisk), ProtectBenefits(totalAtRisk, Ratio(totalAtRisk, totalExpected)))
      + When(NothingRealised(ss) != [], StartRealising(Sorting.Take(NothingRealised(ss), 3)));
    if recs == [] then [BroadlyOnTrack] else recs
  }

  /** There is always advice; "on track" comes alone and exactly when nothing else applies. */
  lemma RecommendationsShape(ss: seq<ProjectBenefitSummary>, totalExpected: real, totalAtRisk: real)
    ensures 1 <= |Recommendations(ss, totalExpected, totalAtRisk)| <= 3
    ensures BroadlyOnTrack in Recommendations(ss, totalExpected, totalAtRisk) <==>
              (RedDrift(ss) == [] && !MuchAtRisk(totalExpected, totalAtRisk) && NothingRealised(ss) == [])
    ensures BroadlyOnTrack in Recommendations(ss, totalExpected, totalAtRisk) ==>
              Recommendations(ss, totalExpected, totalAtRisk) == [BroadlyOnTrack]
  {
  }

  /** Escalation comes first, exactly when some project drifts Red, naming at most three of them. */
  lemma EscalateIffRedDrift(ss: seq<ProjectBenefitSummary>, totalExpected: real, totalAtRisk: real)
    ensures (exists s :: s in ss && s.driftRag == "Red") <==>
              Recommendations(ss, totalExpected, totalAtRisk)[0].EscalateDrift?
    ensures Recommendations(ss, totalExpected, totalAtRisk)[0].EscalateDrift? ==>
              1 <= |Recommendations(ss, totalExpected, totalAtRisk)[0].names| <= 3
  {
    var red := RedDrift(ss);
    var rest := When(MuchAtRisk(totalExpected, totalAtRisk), ProtectBenefits(totalAtRisk, Ratio(totalAtRisk, totalExpected)))
                + When(NothingRealised(ss) != [], StartRealising(Sorting.Take(NothingRealised(ss), 3)));
    if exists s :: s in ss && s.driftRag == "Red" {
      var s :| s in ss && s.driftRag == "Red";
      assert s.projectName in red;
      assert Recommendations(ss, totalExpected, totalAtRisk) == [EscalateDrift(Sorting.Take(red, 3))] + rest;
    } else {
      RedDriftEmpty(ss);
      assert When(red != [], EscalateDrift(Sorting.Take(red, 3))) + rest == rest;
      assert Recommendations(ss, totalExpected, totalAtRisk) == if rest == [] then [BroadlyOnTrack] else rest;
    }
  }

  function AdviceText(a: BenefitAdvice, f: Sim.Formats): string {
    match a
    case EscalateDrift(names) =>
      "Escalate benefits review for " + Join(names, ", ") + " — drift exceeds 30%. "
      + "Decide whether to protect the benefit case (inject resource/budget) or formally write down expected value."
    case ProtectBenefits(atRisk, share) =>
      "£" + f.money(atRisk) + " of portfolio benefits are at risk (" + f.percent(share)
      + " of total expected value). Conduct a benefits protection review — identify which benefits "
      + "can be recovered and which should be written down."
    case StartRealising(names) =>
      "No benefits have been realised yet for " + Join(names, ", ") + ". Confirm benefit tracking is in place "
      + "and validate that delivery milestones still support the benefit case."
    case BroadlyOnTrack =>
      "Benefits realisation is broadly on track. Continue regular tracking and flag any emerging drift early."
  }

  datatype PortfolioBenefitReport = PortfolioBenefitReport(
    totalExpected: real,
    totalRealised: real,
    totalAdjusted: real,
    realisationPct: real,
    driftPct: real,
    driftRag: string,
    totalAtRisk: real,
    summaries: seq<ProjectBenefitSummary>,
    topAtRisk: seq<Benefit>,
    recommendations: seq<BenefitAdvice>)

  /** Sorted names make a list without repeats. */
  lemma SortedDistinct(names: seq<string>)
    requires StrictlySorted(names)
    ensures DistinctNames(names)
  {
    forall i, j | 0 <= i < j < |names| ensures names[i] != names[j] {
      StrLtIrreflexive(names[i]);
    }
  }

  /** The loop over the sorted project names. */
  method SummariesFor(
    names: seq<string>, groups: map<string, seq<Benefit>>, bs: seq<Benefit>, report: Option<P.RiskReport>, ref: int)
    returns (ss: seq<ProjectBenefitSummary>)
    requires forall n :: n in names ==> n in groups && groups[n] == Group(bs, n)
    ensures |ss| == |names|
    ensures forall i :: 0 <= i < |ss| ==> ss[i] == Summariser(bs, report, ref)(names[i])
  {
    var summarise := Summariser(bs, report, ref);
    ss := [];
    for k := 0 to |names|
      invariant |ss| == k
      invariant forall i :: 0 <= i < k ==> ss[i] == summarise(names[i])
    {
      var n := names[k];
      assert groups[n] == Group(bs, n);
      var s := AnalyseProject(n, groups[n], report, ref);
      ss := ss + [s];
    }
  }

  /** The summary of each project, from the benefits bearing its name. */
  function Summariser(bs: seq<Benefit>, report: Option<P.RiskReport>, ref: int): (f: string -> ProjectBenefitSummary)
    ensures forall n :: f(n).projectName == n
  {
    n => Summarise(n, Group(bs, n), report, ref)
  }

  /** Summaries made by a name-keeping summariser carry the names they were made from. */
  lemma SummaryNamesOf(ss: seq<ProjectBenefitSummary>, names: seq<string>, f: string -> ProjectBenefitSummary)
    requires |ss| == |names| && forall i :: 0 <= i < |ss| ==> ss[i] == f(names[i])
    requires forall n :: f(n).projectName == n
    ensures SummaryNames(ss) == names
    ensures forall i :: 0 <= i < |ss| ==> ss[i] == f(ss[i].projectName)
  {
    assert forall i :: 0 <= i < |ss| ==> ss[i].projectName == names[i];
  }

  /** One summary per project, in name order. */
  method BuildSummaries(bs: seq<Benefit>, report: Option<P.RiskReport>, ref: int)
    returns (ss: seq<ProjectBenefitSummary>)
    ensures StrictlySorted(SummaryNames(ss)) && Elements(SummaryNames(ss)) == ProjectNames(bs)
    ensures forall i :: 0 <= i < |ss| ==>
              ss[i] == Summarise(ss[i].projectName, Group(bs, ss[i].projectName), report, ref)
  {
    var groups := GroupByProject(bs);
    var names := SortStrings(groups.Keys);
    assert forall n :: n in names ==> n in Elements(names);
    ss := SummariesFor(names, groups, bs, report, ref);
    SummaryNamesOf(ss, names, Summariser(bs, report, ref));
  }

  /** `analyse_benefits` */
  method AnalyseBenefits(bs: seq<Benefit>, report: Option<P.RiskReport>, ref: int)
    returns (r: PortfolioBenefitReport)
    ensures StrictlySorted(SummaryNames(r.summaries)) && Elements(SummaryNames(r.summaries)) == ProjectNames(bs)
    ensures forall i :: 0 <= i < |r.summaries| ==>
              r.summaries[i] == Summarise(r.summaries[i].projectName, Group(bs, r.summaries[i].projectName), report, ref)
    ensures r.totalExpected == Sum(bs, ExpectedOf)
    ensures r.totalRealised == Sum(bs, RealisedOf)
    ensures r.totalAdjusted == Sum(r.summaries, SummaryAdjusted)
    ensures r.totalAtRisk == Sum(r.summaries, SummaryAtRiskValue)
    ensures r.realisationPct == Ratio(r.totalRealised, r.totalExpected)
    ensures r.driftPct == Drift(r.totalExpected, r.totalAdjusted) && r.driftRag == DriftRag(r.driftPct)
    ensures |r.topAtRisk| == if |AllAtRisk(r.summaries)| < 5 then |AllAtRisk(r.summaries)| else 5
    ensures multiset(r.topAtRisk) <= multiset(AllAtRisk(r.summaries))
    ensures Sorting.SortedDescending(r.topAtRisk, UnrealisedValue)
    ensures forall x, y :: x in AllAtRisk(r.summaries) && x !in r.topAtRisk && y in r.topAtRisk ==>
              UnrealisedValue(y) >= UnrealisedValue(x)
    ensures Sorting.EarliestBuckets(r.topAtRisk, AllAtRisk(r.summaries), UnrealisedValue)
    ensures r.recommendations == Recommendations(r.summaries, r.totalExpected, r.totalAtRisk)
  {
    var ss := BuildSummaries(bs, report, ref);
    var names := SummaryNames(ss);
    SortedDistinct(names);
    forall i | 0 <= i < |bs| ensures bs[i].projectName in names {
      assert bs[i].projectName in ProjectNames(bs);
      assert bs[i].projectName in Elements(names);
    }
    SummaryTotals(ss, bs, names, SummaryExpected, ExpectedOf);
    GroupingKeepsTotal(bs, names, ExpectedOf);
    SummaryTotals(ss, bs, names, SummaryRealised, RealisedOf);
    GroupingKeepsTotal(bs, names, RealisedOf);
    var totalExpected := Sum(ss, SummaryExpected);
    var totalRealised := Sum(ss, SummaryRealised);
    var totalAdjusted := Sum(ss, SummaryAdjusted);
    var drift := Drift(totalExpected, totalAdjusted);
    var totalAtRisk := Sum(ss, SummaryAtRiskValue);
    var top := TopAtRisk(ss);
    r := PortfolioBenefitReport(
      totalExpected, totalRealised, totalAdjusted, Ratio(totalRealised, totalExpected), drift, DriftRag(drift),
      totalAtRisk, ss, top, Recommendations(ss, totalExpected, totalAtRisk));
  }
}
