/**
 * The benefits register: one benefit per row, linked to a project by name,
 * with its category, status and confidence read from free text through
 * keyword tables, and columns found through alias sets.
 */
module Benefits {
  import opened Wrappers
  import opened Text

  datatype Category = Revenue | CostSaving | CostAvoidance | Efficiency | Strategic | RiskMitigation | Other

  datatype Status = OnTrack | AtRisk | Delayed | Cancelled | Realised | Partial | NotStarted

  datatype Confidence = High | Medium | Low

  datatype Benefit = Benefit(
    benefitId: string,
    name: string,
    projectName: string,
    category: Category,
    expectedValue: real,
    realisedValue: real,
    targetDate: Option<int>,
    status: Status,
    confidence: Confidence,
    owner: string,
    notes: string)

  // ---------------------------------------------------------------------
  // Derived values of a benefit
  // ---------------------------------------------------------------------

  /** `realisation_pct`: the realised share of the expected value, 0 when nothing is expected. */
  function RealisationPct(b: Benefit): (r: real)
    ensures b.expectedValue <= 0.0 ==> r == 0.0
    ensures b.expectedValue > 0.0 ==> r * b.expectedValue == b.realisedValue
  {
    if b.expectedValue <= 0.0 then 0.0 else b.realisedValue / b.expectedValue
  }

  /** `unrealised_value`: what is still to come, never negative. */
  function UnrealisedValue(b: Benefit): (r: real)
    ensures r >= 0.0 && r >= b.expectedValue - b.realisedValue
    ensures r == 0.0 || r == b.expectedValue - b.realisedValue
  {
    if b.expectedValue - b.realisedValue > 0.0 then b.expectedValue - b.realisedValue else 0.0
  }

  /** `is_at_risk` */
  predicate IsAtRisk(b: Benefit) {
    b.status == AtRisk || b.status == Delayed || b.status == Cancelled
  }

  // ---------------------------------------------------------------------
  // Keyword tables
  // ---------------------------------------------------------------------

  /** `STATUS_MAP`, in declaration order. */
  const StatusTable: seq<(string, Status)> := [
    ("on track", OnTrack), ("on-track", OnTrack), ("green", OnTrack),
    ("at risk", AtRisk), ("at-risk", AtRisk), ("amber", AtRisk),
    ("delayed", Delayed), ("red", Delayed),
    ("cancelled", Cancelled), ("canceled", Cancelled), ("closed", Cancelled),
    ("realised", Realised), ("realized", Realised), ("complete", Realised), ("achieved", Realised),
    ("partial", Partial), ("partially realised", Partial), ("in progress", Partial),
    ("not started", NotStarted), ("not yet started", NotStarted), ("pending", NotStarted), ("planned", NotStarted)]

  /** `CATEGORY_MAP`, in declaration order. */
  const CategoryTable: seq<(string, Category)> := [
    ("revenue", Revenue), ("income", Revenue), ("sales", Revenue), ("new product", Revenue), ("new market", Revenue),
    ("cost saving", CostSaving), ("cost reduction", CostSaving), ("savings", CostSaving),
    ("cost avoidance", CostAvoidance), ("avoidance", CostAvoidance),
    ("efficiency", Efficiency), ("productivity", Efficiency), ("process", Efficiency), ("automation", Efficiency),
    ("strategic", Strategic), ("capability", Strategic),
    ("risk", RiskMitigation), ("compliance", RiskMitigation), ("regulatory", RiskMitigation),
    ("risk mitigation", RiskMitigation)]

  /** The index of the first entry whose keyword is exactly `key`. */
  function ExactIndex<T>(table: seq<(string, T)>, key: string): (r: Option<nat>)
    ensures r.Some? ==> r.value < |table| && table[r.value].0 == key
    ensures r.Some? ==> forall j :: 0 <= j < r.value ==> table[j].0 != key
    ensures r.None? ==> forall j :: 0 <= j < |table| ==> table[j].0 != key
  {
    if table == [] then None
    else if table[0].0 == key then Some(0)
    else
      var r := ExactIndex(table[1..], key);
      if r.Some? then Some(r.value + 1) else None
  }

  /** The index of the first entry whose keyword occurs in `key`. */
  function ContainedIndex<T>(table: seq<(string, T)>, key: string): (r: Option<nat>)
    ensures r.Some? ==> r.value < |table| && Contains(key, table[r.value].0)
    ensures r.Some? ==> forall j :: 0 <= j < r.value ==> !Contains(key, table[j].0)
    ensures r.None? ==> forall j :: 0 <= j < |table| ==> !Contains(key, table[j].0)
  {
    if table == [] then None
    else if ContainsText(key, table[0].0) then Some(0)
    else
      var r := ContainedIndex(table[1..], key);
      if r.Some? then Some(r.value + 1) else None
  }

  /** The keyword scan: the first entry whose keyword occurs in `key`, as a loop. */
  method ScanKeywords<T>(table: seq<(string, T)>, key: string) returns (r: Option<nat>)
    ensures r == ContainedIndex(table, key)
  {
    for k := 0 to |table|
      invariant ContainedIndex(table, key) == ShiftIndex(ContainedIndex(table[k..], key), k)
    {
      assert table[k..][1..] == table[k + 1..];
      if ContainsText(key, table[k].0) {
        return Some(k);
      }
    }
    return None;
  }

  function ShiftIndex(r: Option<nat>, k: nat): Option<nat> {
    if r.Some? then Some(r.value + k) else None
  }

  // ---------------------------------------------------------------------
  // Status, category, confidence
  // ---------------------------------------------------------------------

  /** The key a free-text value is looked up under. */
  function Key(val: string): string {
    Lower(Strip(val))
  }

  /** The dictionary lookup: an exact key first, then the first keyword contained in the key, then `default`. */
  function Lookup<T>(table: seq<(string, T)>, key: string, default: T): T {
    var exact := ExactIndex(table, key);
    if exact.Some? then table[exact.value].1 else Keyword(table, key, default)
  }

  /** The keyword scan alone: the first keyword contained in the key, then `default`. */
  function Keyword<T>(table: seq<(string, T)>, key: string, default: T): T {
    var partial := ContainedIndex(table, key);
    if partial.Some? then table[partial.value].1 else default
  }

  /** The first entry whose keyword equals the key decides, whatever keywords before it occur in the key. */
  lemma ExactKeyWins<T>(table: seq<(string, T)>, key: string, default: T, i: nat)
    requires i < |table| && table[i].0 == key
    requires forall j :: 0 <= j < i ==> table[j].0 != key
    ensures Lookup(table, key, default) == table[i].1
  {
    var exact := ExactIndex(table, key);
    assert exact.Some?;
    assert !(exact.value < i);
  }

  /** Without an exact key, the earliest keyword contained in the key decides. */
  lemma FirstKeywordWins<T>(table: seq<(string, T)>, key: string, default: T, i: nat)
    requires i < |table| && Contains(key, table[i].0)
    requires forall j :: 0 <= j < i ==> !Contains(key, table[j].0)
    ensures Keyword(table, key, default) == table[i].1
  {
    var partial := ContainedIndex(table, key);
    assert partial.Some?;
    assert !(partial.value < i);
  }

  /** A key containing no keyword at all (not even as an exact key) gets the default. */
  lemma NoKeywordDefault<T>(table: seq<(string, T)>, key: string, default: T)
    requires forall j :: 0 <= j < |table| ==> !Contains(key, table[j].0)
    ensures Lookup(table, key, default) == default
  {
    ContainsSelf(key);
  }

  /** Without an exact key the lookup is the keyword scan. */
  lemma NoExactIsKeyword<T>(table: seq<(string, T)>, key: string, default: T)
    requires forall j :: 0 <= j < |table| ==> table[j].0 != key
    ensures Lookup(table, key, default) == Keyword(table, key, default)
  {
    var exact := ExactIndex(table, key);
    assert exact.None?;
  }

  /** `_parse_status`: blank, then an exact key, then the first keyword contained, then not started. */
  function StatusOf(val: string): Status {
    if val == "" then NotStarted else Lookup(StatusTable, Key(val), NotStarted)
  }

  method ParseStatus(val: string) returns (s: Status)
    ensures s == StatusOf(val)
  {
    if val == "" {
      return NotStarted;
    }
    var key := Key(val);
    var exact := ExactIndex(StatusTable, key);
    if exact.Some? {
      return StatusTable[exact.value].1;
    }
    var partial := ScanKeywords(StatusTable, key);
    s := if partial.Some? then StatusTable[partial.value].1 else NotStarted;
  }

  /** The key of an already lower-case, stripped value is the value itself. */
  lemma PartiallyRealisedKey()
    ensures Key("partially realised") == "partially realised"
  {
    var key := "partially realised";
    StripUnchanged(key);
    LowerOfLowerCase(key);
  }

  /** "partially realised" is an exact key, so it reads as partial although "realised" occurs in it earlier in the table. */
  lemma PartiallyRealisedIsPartial()
    ensures StatusOf("partially realised") == Partial
  {
    var key := "partially realised";
    PartiallyRealisedKey();
    forall j | 0 <= j < 16 ensures StatusTable[j].0 != key {
      assert |StatusTable[j].0| != |key|;
    }
    ExactKeyWins(StatusTable, key, NotStarted, 16);
  }

  /** `_parse_category`: blank, then the first keyword contained, then other. */
  function CategoryOf(val: string): Category {
    if val == "" then Other else Keyword(CategoryTable, Key(val), Other)
  }

  method ParseCategory(val: string) returns (c: Category)
    ensures c == CategoryOf(val)
  {
    if val == "" {
      return Other;
    }
    var partial := ScanKeywords(CategoryTable, Key(val));
    c := if partial.Some? then CategoryTable[partial.value].1 else Other;
  }

  /** `_parse_confidence`: "high" is looked for before "low"; medium otherwise. */
  function ConfidenceOf(val: string): (c: Confidence)
    ensures val == "" ==> c == Medium
    ensures val != "" && Contains(Key(val), "high") ==> c == High
    ensures val != "" && !Contains(Key(val), "high") && Contains(Key(val), "low") ==> c == Low
    ensures c == Medium ==> val == "" || (!Contains(Key(val), "high") && !Contains(Key(val), "low"))
  {
    if val == "" then Medium
    else if ContainsText(Key(val), "high") then High
    else if ContainsText(Key(val), "low") then Low
    else Medium
  }

  // ---------------------------------------------------------------------
  // Columns
  // ---------------------------------------------------------------------

  const ProjectAliases: set<string> := {"project", "project name", "project_name", "project key", "programme"}
  const NameAliases: set<string> :=
    {"benefit", "benefit name", "benefit_name", "description", "benefit description", "expected annual benefit"}
  const ExpectedAliases: set<string> :=
    {"expected", "expected value", "expected_value", "expected annual benefit", "planned benefit", "target value",
     "forecast", "expected benefit"}
  const RealisedAliases: set<string> :=
    {"realised", "realised value", "realised_value", "actual benefit", "realised benefit",
     "realised benefit to date", "actual value", "actual"}
  const StatusAliases: set<string> := {"status", "benefit status", "benefit_status", "realisation status"}
  const CategoryAliases: set<string> := {"category", "benefit category", "benefit_category", "type", "benefit type"}
  const TargetDateAliases: set<string> :=
    {"target date", "target_date", "target realisation date", "realisation date", "due date", "benefit due"}
  const OwnerAliases: set<string> := {"owner", "benefit owner", "benefit_owner", "responsible", "accountable"}
  const ConfidenceAliases: set<string> := {"confidence", "confidence level", "certainty", "likelihood"}
  const NotesAliases: set<string> := {"notes", "comments", "remarks", "detail", "description"}

  /** A column and an alias overlap when either occurs in the other. */
  predicate Overlaps(col: string, alias: string) {
    ContainsText(alias, col) || ContainsText(col, alias)
  }

  predicate PartlyAliased(col: string, aliases: set<string>) {
    exists a :: a in aliases && Overlaps(col, a)
  }

  /** The first column that is an alias. */
  function FirstExact(columns: seq<string>, aliases: set<string>): (r: Option<nat>)
    ensures r.Some? ==> r.value < |columns| && columns[r.value] in aliases
    ensures r.Some? ==> forall j :: 0 <= j < r.value ==> columns[j] !in aliases
    ensures r.None? ==> forall j :: 0 <= j < |columns| ==> columns[j] !in aliases
  {
    if columns == [] then None
    else if columns[0] in aliases then Some(0)
    else ShiftIndex(FirstExact(columns[1..], aliases), 1)
  }

  /** The first column that overlaps some alias. */
  function FirstPartial(columns: seq<string>, aliases: set<string>): (r: Option<nat>)
    ensures r.Some? ==> r.value < |columns| && PartlyAliased(columns[r.value], aliases)
    ensures r.Some? ==> forall j :: 0 <= j < r.value ==> !PartlyAliased(columns[j], aliases)
    ensures r.None? ==> forall j :: 0 <= j < |columns| ==> !PartlyAliased(columns[j], aliases)
  {
    if columns == [] then None
    else if PartlyAliased(columns[0], aliases) then Some(0)
    else ShiftIndex(FirstPartial(columns[1..], aliases), 1)
  }

  /** `_find`: an exact alias anywhere beats an earlier partial one. */
  function FindColumn(columns: seq<string>, aliases: set<string>): (r: Option<string>)
    ensures r.Some? ==> r.value in columns
  {
    var exact := FirstExact(columns, aliases);
    if exact.Some? then Some(columns[exact.value])
    else
      var partial := FirstPartial(columns, aliases);
      if partial.Some? then Some(columns[partial.value]) else None
  }

  /** Whether some alias overlaps the column, by a scan of the alias set. */
  method OverlapsSome(col: string, aliases: set<string>) returns (b: bool)
    ensures b == PartlyAliased(col, aliases)
  {
    var rest := aliases;
    while rest != {}
      invariant rest <= aliases
      invariant forall a :: a in aliases - rest ==> !Overlaps(col, a)
      decreases |rest|
    {
      var a :| a in rest;
      if Overlaps(col, a) {
        return true;
      }
      rest := rest - {a};
    }
    return false;
  }

  /** The first loop of `_find`: the first column that is an alias. */
  method ScanExact(columns: seq<string>, aliases: set<string>) returns (r: Option<nat>)
    ensures r == FirstExact(columns, aliases)
  {
    for k := 0 to |columns|
      invariant FirstExact(columns, aliases) == ShiftIndex(FirstExact(columns[k..], aliases), k)
    {
      assert columns[k..][1..] == columns[k + 1..];
      if columns[k] in aliases {
        return Some(k);
      }
    }
    return None;
  }

  /** The second loop of `_find`: the first column overlapping some alias. */
  method ScanPartial(columns: seq<string>, aliases: set<string>) returns (r: Option<nat>)
    ensures r == FirstPartial(columns, aliases)
  {
    for k := 0 to |columns|
      invariant FirstPartial(columns, aliases) == ShiftIndex(FirstPartial(columns[k..], aliases), k)
    {
      assert columns[k..][1..] == columns[k + 1..];
      var hit := OverlapsSome(columns[k], aliases);
      if hit {
        return Some(k);
      }
    }
    return None;
  }

  /** `_find`: exact matches first, then partial ones. */
  method Find(columns: seq<string>, aliases: set<string>) returns (r: Option<string>)
    ensures r == FindColumn(columns, aliases)
  {
    var exact := ScanExact(columns, aliases);
    if exact.Some? {
      return Some(columns[exact.value]);
    }
    var partial := ScanPartial(columns, aliases);
    r := if partial.Some? then Some(columns[partial.value]) else None;
  }

  /** An exact alias is found even when an earlier column overlaps an alias only partly. */
  lemma ExactBeatsPartial(columns: seq<string>, aliases: set<string>, i: nat)
    requires i < |columns| && columns[i] in aliases
    ensures FindColumn(columns, aliases).Some? && FindColumn(columns, aliases).value in aliases
  {
    var exact := FirstExact(columns, aliases);
    assert exact.Some?;
  }

  /** Without an exact alias, the first column overlapping an alias is found, and none is found only if no column overlaps. */
  lemma PartialFallback(columns: seq<string>, aliases: set<string>)
    requires forall j :: 0 <= j < |columns| ==> columns[j] !in aliases
    ensures FindColumn(columns, aliases).None? <==> forall j :: 0 <= j < |columns| ==> !PartlyAliased(columns[j], aliases)
    ensures FindColumn(columns, aliases).Some? ==> PartlyAliased(FindColumn(columns, aliases).value, aliases)
  {
    var partial := FirstPartial(columns, aliases);
    if partial.Some? {
      assert !(forall j :: 0 <= j < |columns| ==> !PartlyAliased(columns[j], aliases));
    }
  }

  /** The column found for each field of a benefit. */
  datatype ColumnMap = ColumnMap(
    project: Option<string>, name: Option<string>, expected: Option<string>, realised: Option<string>,
    status: Option<string>, category: Option<string>, targetDate: Option<string>, owner: Option<string>,
    confidence: Option<string>, notes: Option<string>)

  /** `_find_columns` */
  method FindColumns(columns: seq<string>) returns (m: ColumnMap)
    ensures m.project == FindColumn(columns, ProjectAliases)
    ensures m.name == FindColumn(columns, NameAliases)
    ensures m.expected == FindColumn(columns, ExpectedAliases)
    ensures m.realised == FindColumn(columns, RealisedAliases)
    ensures m.status == FindColumn(columns, StatusAliases)
    ensures m.category == FindColumn(columns, CategoryAliases)
    ensures m.targetDate == FindColumn(columns, TargetDateAliases)
    ensures m.owner == FindColumn(columns, OwnerAliases)
    ensures m.confidence == FindColumn(columns, ConfidenceAliases)
    ensures m.notes == FindColumn(columns, NotesAliases)
  {
    var project := Find(columns, ProjectAliases);
    var name := Find(columns, NameAliases);
    var expected := Find(columns, ExpectedAliases);
    var realised := Find(columns, RealisedAliases);
    var status := Find(columns, StatusAliases);
    var category := Find(columns, CategoryAliases);
    var targetDate := Find(columns, TargetDateAliases);
    var owner := Find(columns, OwnerAliases);
    var confidence := Find(columns, ConfidenceAliases);
    var notes := Find(columns, NotesAliases);
    m := ColumnMap(project, name, expected, realised, status, category, targetDate, owner, confidence, notes);
  }

  // ---------------------------------------------------------------------
  // Rows
  // ---------------------------------------------------------------------

  /**
   * The cells of one row as the extraction helpers return them: text
   * stripped (empty when missing), amounts as numbers (0 when missing or
   * unreadable), the target date as a day number when it parses.
   */
  datatype RawRow = RawRow(
    project: string, name: string, expected: real, realised: real, status: string,
    category: string, targetDate: Option<int>, owner: string, confidence: string, notes: string)

  /** The confidence a benefit ends up with: a medium one is re-derived from the status and values. */
  function DerivedConfidence(given: Confidence, status: Status, expected: real, realised: real): (c: Confidence)
    ensures given != Medium ==> c == given
    ensures given == Medium && status == Realised ==> c == High
    ensures given == Medium && (status == AtRisk || status == Delayed) ==> c == Low
    ensures given == Medium && status !in {Realised, AtRisk, Delayed} ==>
              (c == Low <==> expected == 0.0 && realised == 0.0)
    ensures c == Medium ==> given == Medium
  {
    if given != Medium then given
    else if status == Realised then High
    else if status == AtRisk || status == Delayed then Low
    else if expected == 0.0 && realised == 0.0 then Low
    else Medium
  }

  /** `BEN-` and the 1-based row number, at least three digits. */
  function BenefitId(idx: nat): string {
    "BEN-" + Pad3(idx + 1)
  }

  /** Rows at different positions get different identifiers. */
  lemma BenefitIdsDistinct(i: nat, j: nat)
    requires i != j
    ensures BenefitId(i) != BenefitId(j)
  {
    Pad3RoundTrip(i + 1);
    Pad3RoundTrip(j + 1);
    PrefixKeepsDistinct("BEN-", Pad3(i + 1), Pad3(j + 1));
  }

  /** `_parse_row`: no benefit without a project; defaults for a missing name and owner. */
  function ParseRow(row: RawRow, idx: nat): (r: Option<Benefit>)
    ensures r.None? <==> row.project == ""
    ensures r.Some? ==> && r.value.projectName == row.project
                        && r.value.benefitId == BenefitId(idx)
                        && r.value.name != ""
                        && (row.name != "" ==> r.value.name == row.name)
                        && (row.name == "" ==> r.value.name == "Benefit " + NatToString(idx + 1))
                        && r.value.owner != ""
                        && (row.owner != "" ==> r.value.owner == row.owner)
                        && (row.owner == "" ==> r.value.owner == "Unassigned")
                        && r.value.expectedValue == row.expected && r.value.realisedValue == row.realised
                        && r.value.targetDate == row.targetDate && r.value.notes == row.notes
                        && r.value.status == StatusOf(row.status)
                        && r.value.category == CategoryOf(row.category)
                        && r.value.confidence
                           == DerivedConfidence(ConfidenceOf(row.confidence), r.value.status, row.expected, row.realised)
  {
    if row.project == "" then None
    else
      var status := StatusOf(row.status);
      Some(Benefit(
        BenefitId(idx),
        if row.name != "" then row.name else "Benefit " + NatToString(idx + 1),
        row.project,
        CategoryOf(row.category),
        row.expected,
        row.realised,
        row.targetDate,
        status,
        DerivedConfidence(ConfidenceOf(row.confidence), status, row.expected, row.realised),
        if row.owner != "" then row.owner else "Unassigned",
        row.notes))
  }
}
