/**
 * The column checks the validator runs on a header row before parsing: the
 * field-to-header map (first header wins), and the required and optional
 * column checks that record errors and warnings on a `ValidationResult`.
 */
module Validators {
  import opened Wrappers
  import opened Text
  import opened Ingestion

  /** `REQUIRED_FIELDS`, listed in `sorted` order of their names. */
  const RequiredFields: seq<Field> := [ProjectName, TaskName, TaskStatus]
  /** The high-value optional fields (`budget`, `actual_spend`, `start_date`, `end_date`), in name order. */
  const HighValueFields: seq<Field> := [ActualSpend, Budget, EndDate, StartDate]
  /** The medium-value optional fields (`priority`, `sprint`, `previous_sprints`, `comments`), in name order. */
  const MediumValueFields: seq<Field> := [Comments, PreviousSprints, Priority, Sprint]
  /** `OPTIONAL_FIELDS`: every field but the three required ones. */
  const OptionalFields: set<Field> := {
    ProjectStatus, StartDate, EndDate, Budget, ActualSpend,
    Priority, Assignee, Sprint, PreviousSprints, Comments}

  const RequiredHead := "Missing required columns: "
  const RequiredTail := ". Required: project name, task name, task status."
  const HighHead := "Missing columns for full analysis: "
  const HighTail := ". Burn rate and timeline analysis will be limited."
  const MediumHead := "Missing columns: "
  const MediumTail := ". Risk detection (blocked work, carry-over) may be limited."

  // ---------------------------------------------------------------------
  // Field-to-header map
  // ---------------------------------------------------------------------

  /** The map `_map_columns` fills, one header at a time. */
  function MappedOf(headers: seq<string>): map<Field, string>
    decreases |headers|
  {
    if headers == [] then map[]
    else
      var m := MappedOf(headers[..|headers| - 1]);
      var h := headers[|headers| - 1];
      var normalised := Normalise(h);
      if normalised in ColumnAliases && ColumnAliases[normalised] !in m
      then m[ColumnAliases[normalised] := h]
      else m
  }

  /** The index of the first header that aliases `f`, or -1. */
  function FirstAliasing(headers: seq<string>, f: Field): (r: int)
    ensures -1 <= r < |headers|
    decreases |headers|
  {
    if headers == [] then -1
    else
      var j := FirstAliasing(headers[..|headers| - 1], f);
      if j >= 0 then j
      else if Aliased(headers[|headers| - 1], f) then |headers| - 1
      else -1
  }

  lemma {:induction false} FirstAliasingSpec(headers: seq<string>, f: Field)
    ensures FirstAliasing(headers, f) >= 0 ==> Aliased(headers[FirstAliasing(headers, f)], f)
    ensures forall k :: 0 <= k < |headers| && (FirstAliasing(headers, f) < 0 || k < FirstAliasing(headers, f)) ==>
              !Aliased(headers[k], f)
    decreases |headers|
  {
    if headers != [] {
      var front := headers[..|headers| - 1];
      FirstAliasingSpec(front, f);
      forall k | 0 <= k < |front| ensures headers[k] == front[k] { }
    }
  }

  /**
   * The validator knows a field exactly when some header aliases it, and
   * reads it from the FIRST such header.
   */
  lemma {:induction false} FirstHeaderWins(headers: seq<string>, f: Field)
    ensures f in MappedOf(headers) <==> FirstAliasing(headers, f) >= 0
    ensures f in MappedOf(headers) ==> MappedOf(headers)[f] == headers[FirstAliasing(headers, f)]
    decreases |headers|
  {
    if headers != [] {
      FirstHeaderWins(headers[..|headers| - 1], f);
    }
  }

  /** `_map_columns` */
  method MapColumns(headers: seq<string>) returns (mapped: map<Field, string>)
    ensures mapped == MappedOf(headers)
  {
    mapped := map[];
    for k := 0 to |headers|
      invariant mapped == MappedOf(headers[..k])
    {
      assert headers[..k + 1][..k] == headers[..k];
      var normalised := Normalise(headers[k]);
      if normalised in ColumnAliases {
        var internal := ColumnAliases[normalised];
        if internal !in mapped {
          mapped := mapped[internal := headers[k]];
        }
      }
    }
    assert headers[..|headers|] == headers;
  }

  /** Some header aliases `f` exactly when a first one does, exactly when a last one does. */
  lemma FirstIffLast(headers: seq<string>, f: Field)
    ensures FirstAliasing(headers, f) >= 0 <==> LastAliasing(headers, f) >= 0
  {
    FirstAliasingSpec(headers, f);
    LastAliasingSpec(headers, f);
  }

  /**
   * For a header row without repeats, the validator and the parser know the
   * same fields; they may read a field from different headers.
   */
  lemma SameFieldsAsParser(headers: seq<string>)
    requires DistinctHeaders(headers)
    ensures MappedOf(headers).Keys == FieldToCol(headers).Keys
  {
    forall f ensures f in MappedOf(headers) <==> f in FieldToCol(headers) {
      FirstHeaderWins(headers, f);
      LastHeaderWins(headers, f);
      FirstIffLast(headers, f);
    }
  }

  /**
   * Two different headers that alias the same field make the validator and
   * the parser read it from different columns: the validator from the
   * first, the parser from the second.
   */
  lemma FirstAndLastDiffer(a: string, b: string, f: Field)
    requires a != b && Aliased(a, f) && Aliased(b, f)
    ensures f in MappedOf([a, b]) && MappedOf([a, b])[f] == a
    ensures f in FieldToCol([a, b]) && FieldToCol([a, b])[f] == b
  {
    var headers := [a, b];
    assert headers[..1] == [a] && headers[..1][..0] == [];
    FirstHeaderWins(headers, f);
    LastHeaderWins(headers, f);
  }

  // ---------------------------------------------------------------------
  // Missing fields
  // ---------------------------------------------------------------------

  /** The names of a list of fields. */
  function Names(fields: seq<Field>): (r: seq<string>)
    ensures |r| == |fields|
    ensures forall i :: 0 <= i < |fields| ==> r[i] == FieldName(fields[i])
  {
    seq(|fields|, i requires 0 <= i < |fields| => FieldName(fields[i]))
  }

  /** The fields of `order` that `mapped` lacks, in the order given. */
  function MissingOf(order: seq<Field>, mapped: set<Field>): (r: seq<Field>)
    ensures |r| <= |order|
  {
    if order == [] then []
    else (if order[0] !in mapped then [order[0]] else []) + MissingOf(order[1..], mapped)
  }

  /** The missing list holds exactly the listed fields `mapped` lacks. */
  lemma {:induction false} MissingOfMembers(order: seq<Field>, mapped: set<Field>)
    ensures forall f :: f in MissingOf(order, mapped) <==> f in order && f !in mapped
  {
    if order != [] {
      MissingOfMembers(order[1..], mapped);
      assert order == [order[0]] + order[1..];
    }
  }

  /** A list whose neighbours increase is strictly increasing. */
  lemma {:induction false} AdjacentSorted(r: seq<string>)
    requires forall i :: 0 <= i < |r| - 1 ==> StrLt(r[i], r[i + 1])
    ensures StrictlySorted(r)
  {
    if |r| > 1 {
      AdjacentSorted(r[1..]);
      forall j | 1 <= j < |r| ensures StrLt(r[0], r[j]) {
        if j > 1 {
          assert StrLt(r[1..][0], r[1..][j - 1]);
          StrLtTransitive(r[0], r[1], r[j]);
        }
      }
      forall i, j | 0 <= i < j < |r| ensures StrLt(r[i], r[j]) {
        if i > 0 {
          assert StrLt(r[1..][i - 1], r[1..][j - 1]);
        }
      }
    }
  }

  /** Two strings that agree on their first `k` characters and then differ upwards are in order. */
  lemma {:induction false} StrLtAt(a: string, b: string, k: nat)
    requires k < |a| && k < |b| && a[..k] == b[..k] && a[k] < b[k]
    ensures StrLt(a, b)
  {
    if k > 0 {
      assert a[0] == a[..k][0] == b[..k][0] == b[0];
      assert a[1..][..k - 1] == a[..k][1..] && b[1..][..k - 1] == b[..k][1..];
      StrLtAt(a[1..], b[1..], k - 1);
    }
  }

  /** `sorted(REQUIRED_FIELDS)` is the order of `RequiredFields`. */
  lemma RequiredFieldsSorted()
    ensures StrictlySorted(Names(RequiredFields))
  {
    var r := Names(RequiredFields);
    StrLtAt(r[0], r[1], 0);
    StrLtAt(r[1], r[2], 5);
    AdjacentSorted(r);
  }

  /** `sorted` of the high-value fields is the order of `HighValueFields`. */
  lemma HighValueFieldsSorted()
    ensures StrictlySorted(Names(HighValueFields))
  {
    var r := Names(HighValueFields);
    StrLtAt(r[0], r[1], 0);
    StrLtAt(r[1], r[2], 0);
    StrLtAt(r[2], r[3], 0);
    AdjacentSorted(r);
  }

  /** `sorted` of the medium-value fields is the order of `MediumValueFields`. */
  lemma MediumValueFieldsSorted()
    ensures StrictlySorted(Names(MediumValueFields))
  {
    var r := Names(MediumValueFields);
    StrLtAt(r[0], r[1], 0);
    StrLtAt(r[1], r[2], 2);
    StrLtAt(r[2], r[3], 0);
    AdjacentSorted(r);
  }

  /** Putting a string below every element in front of a strictly increasing list keeps it strictly increasing. */
  lemma SortedCons(x: string, rest: seq<string>)
    requires StrictlySorted(rest)
    requires forall j :: 0 <= j < |rest| ==> StrLt(x, rest[j])
    ensures StrictlySorted([x] + rest)
  {
    var r := [x] + rest;
    forall i, j | 0 <= i < j < |r| ensures StrLt(r[i], r[j]) {
      if i > 0 {
        assert r[i] == rest[i - 1] && r[j] == rest[j - 1];
      }
    }
  }

  /** Every field still missing from the tail of a name-sorted list comes after its head. */
  lemma MissingAboveHead(order: seq<Field>, mapped: set<Field>)
    requires order != [] && StrictlySorted(Names(order))
    ensures forall j :: 0 <= j < |MissingOf(order[1..], mapped)| ==>
              StrLt(FieldName(order[0]), FieldName(MissingOf(order[1..], mapped)[j]))
  {
    var tail := order[1..];
    var rest := MissingOf(tail, mapped);
    MissingOfMembers(tail, mapped);
    forall j | 0 <= j < |rest| ensures StrLt(FieldName(order[0]), FieldName(rest[j])) {
      assert rest[j] in rest;
      var i :| 0 <= i < |tail| && tail[i] == rest[j];
      assert Names(order)[i + 1] == FieldName(rest[j]);
    }
  }

  lemma NamesCons(f: Field, fields: seq<Field>)
    ensures Names([f] + fields) == [FieldName(f)] + Names(fields)
  {
  }

  /** Dropping fields from a list sorted by name leaves it sorted by name. */
  lemma {:induction false} MissingOfSorted(order: seq<Field>, mapped: set<Field>)
    requires StrictlySorted(Names(order))
    ensures StrictlySorted(Names(MissingOf(order, mapped)))
  {
    if order != [] {
      var tail := order[1..];
      assert Names(tail) == Names(order)[1..];
      MissingOfSorted(tail, mapped);
      var rest := MissingOf(tail, mapped);
      if order[0] !in mapped {
        MissingAboveHead(order, mapped);
        SortedCons(FieldName(order[0]), Names(rest));
        NamesCons(order[0], rest);
      }
    }
  }

  /**
   * The missing required list is `sorted(REQUIRED_FIELDS - mapped)`: exactly
   * those fields, in increasing name order.
   */
  lemma MissingRequiredIsSortedSet(mapped: set<Field>)
    ensures StrictlySorted(Names(MissingOf(RequiredFields, mapped)))
    ensures forall f :: f in MissingOf(RequiredFields, mapped) <==> f in RequiredFields && f !in mapped
  {
    RequiredFieldsSorted();
    MissingOfSorted(RequiredFields, mapped);
    MissingOfMembers(RequiredFields, mapped);
  }

  /**
   * The two optional lists are `sorted(missing_optional & high_value)` and
   * `sorted(missing_optional & medium_value)`.
   */
  lemma MissingOptionalAreSortedSets(mapped: set<Field>)
    ensures StrictlySorted(Names(MissingOf(HighValueFields, mapped)))
    ensures forall f :: f in MissingOf(HighValueFields, mapped) <==> f in OptionalFields - mapped && f in HighValueFields
    ensures StrictlySorted(Names(MissingOf(MediumValueFields, mapped)))
    ensures forall f :: f in MissingOf(MediumValueFields, mapped) <==> f in OptionalFields - mapped && f in MediumValueFields
  {
    HighValueFieldsSorted();
    MediumValueFieldsSorted();
    MissingOfSorted(HighValueFields, mapped);
    MissingOfSorted(MediumValueFields, mapped);
    MissingOfMembers(HighValueFields, mapped);
    MissingOfMembers(MediumValueFields, mapped);
  }

  function RequiredError(missing: seq<Field>): string {
    RequiredHead + Join(Names(missing), ", ") + RequiredTail
  }

  function HighWarning(missing: seq<Field>): string {
    HighHead + Join(Names(missing), ", ") + HighTail
  }

  function MediumWarning(missing: seq<Field>): string {
    MediumHead + Join(Names(missing), ", ") + MediumTail
  }

  // ---------------------------------------------------------------------
  // The validation result
  // ---------------------------------------------------------------------

  /** `ValidationResult`, as `validate_file` creates it: valid, with nothing recorded yet. */
  class ValidationResult {
    var valid: bool
    var errors: seq<string>
    var warnings: seq<string>
    var fileType: string
    var rowCount: int
    var columnsFound: seq<string>
    var columnsMapped: map<Field, string>

    constructor()
      ensures valid && errors == [] && warnings == []
      ensures fileType == "" && rowCount == 0 && columnsFound == [] && columnsMapped == map[]
      ensures Consistent()
    {
      valid := true;
      errors := [];
      warnings := [];
      fileType := "";
      rowCount := 0;
      columnsFound := [];
      columnsMapped := map[];
    }

    /** Every recorded error comes with `valid = False`, and only then. */
    predicate Consistent()
      reads this
    {
      valid <==> errors == []
    }

    /** `_check_required` */
    method CheckRequired(colMap: map<Field, string>)
      modifies this
      ensures var missing := MissingOf(RequiredFields, colMap.Keys);
              if missing == [] then valid == old(valid) && errors == old(errors)
              else !valid && errors == old(errors) + [RequiredError(missing)]
      ensures warnings == old(warnings) && fileType == old(fileType) && rowCount == old(rowCount)
      ensures columnsFound == old(columnsFound) && columnsMapped == old(columnsMapped)
      ensures old(Consistent()) ==> Consistent()
    {
      var missing := MissingOf(RequiredFields, colMap.Keys);
      if missing != [] {
        valid := false;
        errors := errors + [RequiredError(missing)];
      }
    }

    /** `_check_optional` */
    method CheckOptional(colMap: map<Field, string>)
      modifies this
      ensures var high := MissingOf(HighValueFields, colMap.Keys);
              var medium := MissingOf(MediumValueFields, colMap.Keys);
              warnings == old(warnings) + When(high != [], HighWarning(high)) + When(medium != [], MediumWarning(medium))
      ensures valid == old(valid) && errors == old(errors)
      ensures fileType == old(fileType) && rowCount == old(rowCount)
      ensures columnsFound == old(columnsFound) && columnsMapped == old(columnsMapped)
    {
      var high := MissingOf(HighValueFields, colMap.Keys);
      var medium := MissingOf(MediumValueFields, colMap.Keys);
      if high != [] {
        warnings := warnings + [HighWarning(high)];
      }
      if medium != [] {
        warnings := warnings + [MediumWarning(medium)];
      }
    }
  }

  /** The required check fails exactly when a required field has no column. */
  lemma RequiredCheckIff(colMap: map<Field, string>)
    ensures MissingOf(RequiredFields, colMap.Keys) != [] <==>
              !(ProjectName in colMap && TaskName in colMap && TaskStatus in colMap)
  {
    var missing := MissingOf(RequiredFields, colMap.Keys);
    MissingOfMembers(RequiredFields, colMap.Keys);
    if missing != [] {
      assert missing[0] in missing;
    } else {
      assert ProjectName in RequiredFields && TaskName in RequiredFields && TaskStatus in RequiredFields;
    }
  }

  /** The burn-rate warning is given exactly when a budget, spend or date column is missing. */
  lemma HighWarningIff(colMap: map<Field, string>)
    ensures MissingOf(HighValueFields, colMap.Keys) != [] <==>
              !(Budget in colMap && ActualSpend in colMap && StartDate in colMap && EndDate in colMap)
  {
    var high := MissingOf(HighValueFields, colMap.Keys);
    MissingOfMembers(HighValueFields, colMap.Keys);
    if high != [] {
      assert high[0] in high;
    } else {
      assert Budget in HighValueFields && ActualSpend in HighValueFields;
      assert StartDate in HighValueFields && EndDate in HighValueFields;
    }
  }

  /** The risk-detection warning is given exactly when a priority, sprint, history or comment column is missing. */
  lemma MediumWarningIff(colMap: map<Field, string>)
    ensures MissingOf(MediumValueFields, colMap.Keys) != [] <==>
              !(Priority in colMap && Sprint in colMap && PreviousSprints in colMap && Comments in colMap)
  {
    var medium := MissingOf(MediumValueFields, colMap.Keys);
    MissingOfMembers(MediumValueFields, colMap.Keys);
    if medium != [] {
      assert medium[0] in medium;
    } else {
      assert Priority in MediumValueFields && Sprint in MediumValueFields;
      assert PreviousSprints in MediumValueFields && Comments in MediumValueFields;
    }
  }

  /** The optional check never warns about `project_status` or `assignee`. */
  lemma LowValueNeverWarned(mapped: set<Field>)
    ensures ProjectStatus !in MissingOf(HighValueFields, mapped) && ProjectStatus !in MissingOf(MediumValueFields, mapped)
    ensures Assignee !in MissingOf(HighValueFields, mapped) && Assignee !in MissingOf(MediumValueFields, mapped)
  {
    MissingOfMembers(HighValueFields, mapped);
    MissingOfMembers(MediumValueFields, mapped);
  }

  /** The header checks each format's validator runs once it has the header row. */
  method CheckColumns(headers: seq<string>, result: ValidationResult)
    requires result.Consistent()
    modifies result
    ensures result.Consistent()
    ensures result.columnsFound == headers && result.columnsMapped == MappedOf(headers)
    ensures result.valid <==> old(result.valid) && MissingOf(RequiredFields, MappedOf(headers).Keys) == []
    ensures var missing := MissingOf(RequiredFields, MappedOf(headers).Keys);
            result.errors == old(result.errors) + When(missing != [], RequiredError(missing))
    ensures var high := MissingOf(HighValueFields, MappedOf(headers).Keys);
            var medium := MissingOf(MediumValueFields, MappedOf(headers).Keys);
            result.warnings == old(result.warnings) + When(high != [], HighWarning(high)) + When(medium != [], MediumWarning(medium))
    ensures result.fileType == old(result.fileType) && result.rowCount == old(result.rowCount)
  {
    result.columnsFound := headers;
    var colMap := MapColumns(headers);
    result.columnsMapped := colMap;
    result.CheckRequired(colMap);
    result.CheckOptional(colMap);
  }
}
