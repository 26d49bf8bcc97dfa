/**
 * The format-independent half of the export parser: recognising column
 * headers through the alias table, reading one field of a row, splitting a
 * sprint history, turning raw cell values into text, flattening nested JSON
 * projects into rows, and grouping rows into sorted `Project`s.
 *
 * A Python `dict` that is filled in a loop keeps its keys in insertion
 * order, and `{v: k for k, v in d.items()}` depends on that order. The
 * header-to-field dictionary is therefore an association list (`Pairs`)
 * with distinct keys in insertion order; dictionaries whose order never
 * matters are Dafny `map`s.
 */
module Ingestion {
  import opened Wrappers
  import opened Text
  import opened Portfolio

  /** The parser's internal field names, a closed set. */
  datatype Field =
    | ProjectName | ProjectStatus | StartDate | EndDate | Budget | ActualSpend
    | TaskName | TaskStatus | Priority | Assignee | Sprint | PreviousSprints | Comments

  /** The field's name as the source spells it (`"task_name"`, ...). */
  function FieldName(f: Field): string {
    match f
    case ProjectName => "project"
    case ProjectStatus => "project_status"
    case StartDate => "start_date"
    case EndDate => "end_date"
    case Budget => "budget"
    case ActualSpend => "actual_spend"
    case TaskName => "task_name"
    case TaskStatus => "task_status"
    case Priority => "priority"
    case Assignee => "assignee"
    case Sprint => "sprint"
    case PreviousSprints => "previous_sprints"
    case Comments => "comments"
  }

  /** `COLUMN_ALIASES`: normalised header -> internal field. */
  const ColumnAliases: map<string, Field> := map[
    "project" := ProjectName, "project name" := ProjectName, "project_name" := ProjectName,
    "projectname" := ProjectName,
    "project status" := ProjectStatus, "project_status" := ProjectStatus, "projectstatus" := ProjectStatus,
    "start date" := StartDate, "start_date" := StartDate, "startdate" := StartDate,
    "created" := StartDate, "created date" := StartDate,
    "end date" := EndDate, "end_date" := EndDate, "enddate" := EndDate,
    "due date" := EndDate, "due_date" := EndDate, "duedate" := EndDate, "target date" := EndDate,
    "budget" := Budget, "planned cost" := Budget, "planned_cost" := Budget, "estimated cost" := Budget,
    "actual spend" := ActualSpend, "actual_spend" := ActualSpend, "actualspend" := ActualSpend,
    "actual cost" := ActualSpend, "actual_cost" := ActualSpend, "cost" := ActualSpend,
    "task name" := TaskName, "task_name" := TaskName, "taskname" := TaskName,
    "summary" := TaskName, "issue" := TaskName, "title" := TaskName, "work item" := TaskName,
    "task status" := TaskStatus, "task_status" := TaskStatus, "taskstatus" := TaskStatus,
    "status" := TaskStatus, "state" := TaskStatus,
    "priority" := Priority, "severity" := Priority,
    "assignee" := Assignee, "assigned to" := Assignee, "assigned_to" := Assignee, "owner" := Assignee,
    "sprint" := Sprint, "iteration" := Sprint, "iteration path" := Sprint,
    "previous sprints" := PreviousSprints, "previous_sprints" := PreviousSprints,
    "sprint history" := PreviousSprints,
    "comments" := Comments, "comment" := Comments, "notes" := Comments, "description" := Comments]

  // ---------------------------------------------------------------------
  // Column mapping
  // ---------------------------------------------------------------------

  /** `header.strip().lower()` */
  function Normalise(header: string): string {
    Lower(Strip(header))
  }

  /** The header `h` is an alias of the internal field `f` (in the alias table, by default `COLUMN_ALIASES`). */
  predicate Aliased(h: string, f: Field, aliases: map<string, Field> := ColumnAliases) {
    Normalise(h) in aliases && aliases[Normalise(h)] == f
  }

  /** An insertion-ordered dictionary from headers to fields. */
  type Pairs = seq<(string, Field)>

  function KeysOf(d: Pairs): set<string> {
    set p | p in d :: p.0
  }

  predicate DistinctKeys(d: Pairs) {
    forall i, j :: 0 <= i < j < |d| ==> d[i].0 != d[j].0
  }

  /**
   * `d[k] = v` on an insertion-ordered dictionary: an existing key keeps its
   * place and takes the new value, a new key goes at the end.
   */
  function Put(d: Pairs, k: string, v: Field): (r: Pairs)
  {
    if k in KeysOf(d) then seq(|d|, i requires 0 <= i < |d| => if d[i].0 == k then (k, v) else d[i])
    else d + [(k, v)]
  }

  /** After `d[k] = v`, `k` maps to `v`, every other key keeps its value and place. */
  lemma PutSpec(d: Pairs, k: string, v: Field)
    requires DistinctKeys(d)
    ensures DistinctKeys(Put(d, k, v))
    ensures KeysOf(Put(d, k, v)) == KeysOf(d) + {k}
    ensures k in KeysOf(d) ==> |Put(d, k, v)| == |d|
    ensures k in KeysOf(d) ==>
              forall i :: 0 <= i < |d| ==> Put(d, k, v)[i] == (if d[i].0 == k then (k, v) else d[i])
    ensures k !in KeysOf(d) ==> Put(d, k, v) == d + [(k, v)]
  {
    var r := Put(d, k, v);
    if k in KeysOf(d) {
      var p :| p in d && p.0 == k;
      forall x | x in KeysOf(d) + {k} ensures x in KeysOf(r) {
        if x != k {
          var q :| q in d && q.0 == x;
          var i :| 0 <= i < |d| && d[i] == q;
          assert r[i] == q;
        } else {
          var i :| 0 <= i < |d| && d[i] == p;
          assert r[i] == (k, v);
        }
      }
      forall x | x in KeysOf(r) ensures x in KeysOf(d) + {k} {
        var q :| q in r && q.0 == x;
        var i :| 0 <= i < |r| && r[i] == q;
        assert d[i] in d;
      }
    } else {
      forall i, j | 0 <= i < j < |r| ensures r[i].0 != r[j].0 {
        if j == |d| {
          assert d[i] in d;
        }
      }
    }
  }

  /** The dictionary `_build_column_map` fills, one header at a time. */
  function ColumnMapOf(headers: seq<string>, aliases: map<string, Field> := ColumnAliases): Pairs
    decreases |headers|
  {
    if headers == [] then []
    else
      var before := ColumnMapOf(headers[..|headers| - 1], aliases);
      var h := headers[|headers| - 1];
      if Normalise(h) in aliases then Put(before, h, aliases[Normalise(h)]) else before
  }

  /**
   * The header map holds a header exactly when its normalised form is an
   * alias, maps it to that alias's field, and lists each header once.
   */
  lemma {:induction false} ColumnMapSpec(headers: seq<string>, aliases: map<string, Field> := ColumnAliases)
    ensures DistinctKeys(ColumnMapOf(headers, aliases))
    ensures forall h :: h in KeysOf(ColumnMapOf(headers, aliases)) <==> h in headers && Normalise(h) in aliases
    ensures forall i :: 0 <= i < |ColumnMapOf(headers, aliases)| ==>
              Aliased(ColumnMapOf(headers, aliases)[i].0, ColumnMapOf(headers, aliases)[i].1, aliases)
    decreases |headers|
  {
    if headers != [] {
      var front := headers[..|headers| - 1];
      var h := headers[|headers| - 1];
      ColumnMapSpec(front, aliases);
      assert headers == front + [h];
      if Normalise(h) in aliases {
        PutSpec(ColumnMapOf(front, aliases), h, aliases[Normalise(h)]);
      }
    }
  }

  /** `_build_column_map` */
  method BuildColumnMap(headers: seq<string>) returns (colMap: Pairs)
    ensures colMap == ColumnMapOf(headers)
  {
    colMap := [];
    for k := 0 to |headers|
      invariant colMap == ColumnMapOf(headers[..k])
    {
      assert headers[..k + 1][..k] == headers[..k];
      var normalised := Normalise(headers[k]);
      if normalised in ColumnAliases {
        colMap := Put(colMap, headers[k], ColumnAliases[normalised]);
      }
    }
    assert headers[..|headers|] == headers;
  }

  /** `{v: k for k, v in col_map.items()}`: a later pair overwrites an earlier one. */
  function ReverseOf(d: Pairs): map<Field, string>
    decreases |d|
  {
    if d == [] then map[]
    else ReverseOf(d[..|d| - 1])[d[|d| - 1].1 := d[|d| - 1].0]
  }

  /** The index of the last pair whose value is `f`, or -1. */
  function LastWith(d: Pairs, f: Field): (r: int)
    ensures -1 <= r < |d|
    decreases |d|
  {
    if d == [] then -1
    else if d[|d| - 1].1 == f then |d| - 1
    else LastWith(d[..|d| - 1], f)
  }

  lemma {:induction false} LastWithSpec(d: Pairs, f: Field)
    ensures LastWith(d, f) >= 0 ==> d[LastWith(d, f)].1 == f
    ensures forall j :: LastWith(d, f) < j < |d| ==> d[j].1 != f
    decreases |d|
  {
    if d != [] && d[|d| - 1].1 != f {
      LastWithSpec(d[..|d| - 1], f);
    }
  }

  /** The reversed dictionary sends each value of `d` to the key of the LAST pair carrying it. */
  lemma {:induction false} ReverseOfSpec(d: Pairs, f: Field)
    ensures f in ReverseOf(d) <==> LastWith(d, f) >= 0
    ensures f in ReverseOf(d) ==> ReverseOf(d)[f] == d[LastWith(d, f)].0
    decreases |d|
  {
    if d != [] && d[|d| - 1].1 != f {
      ReverseOfSpec(d[..|d| - 1], f);
    }
  }

  /** The `field_to_col` loop. */
  method ReverseMap(d: Pairs) returns (fieldToCol: map<Field, string>)
    ensures fieldToCol == ReverseOf(d)
  {
    fieldToCol := map[];
    for k := 0 to |d|
      invariant fieldToCol == ReverseOf(d[..k])
    {
      assert d[..k + 1][..k] == d[..k];
      fieldToCol := fieldToCol[d[k].1 := d[k].0];
    }
    assert d[..|d|] == d;
  }

  /** `field_to_col` as the parser builds it from a header row. */
  function FieldToCol(headers: seq<string>): map<Field, string> {
    ReverseOf(ColumnMapOf(headers))
  }

  predicate DistinctHeaders(headers: seq<string>) {
    forall i, j :: 0 <= i < j < |headers| ==> headers[i] != headers[j]
  }

  /** The index of the last header that aliases `f`, or -1. */
  function LastAliasing(headers: seq<string>, f: Field, aliases: map<string, Field> := ColumnAliases): (r: int)
    ensures -1 <= r < |headers|
    decreases |headers|
  {
    if headers == [] then -1
    else if Aliased(headers[|headers| - 1], f, aliases) then |headers| - 1
    else LastAliasing(headers[..|headers| - 1], f, aliases)
  }

  lemma {:induction false} LastAliasingSpec(headers: seq<string>, f: Field, aliases: map<string, Field> := ColumnAliases)
    ensures LastAliasing(headers, f, aliases) >= 0 ==> Aliased(headers[LastAliasing(headers, f, aliases)], f, aliases)
    ensures forall j :: LastAliasing(headers, f, aliases) < j < |headers| ==> !Aliased(headers[j], f, aliases)
    decreases |headers|
  {
    if headers != [] && !Aliased(headers[|headers| - 1], f, aliases) {
      LastAliasingSpec(headers[..|headers| - 1], f, aliases);
    }
  }

  /** Without repeats, the last header does not occur before it, and the others have no repeats either. */
  lemma DistinctFront(headers: seq<string>)
    requires headers != [] && DistinctHeaders(headers)
    ensures headers[|headers| - 1] !in headers[..|headers| - 1]
    ensures DistinctHeaders(headers[..|headers| - 1])
  {
    var n := |headers| - 1;
    forall i | 0 <= i < n ensures headers[..n][i] != headers[n] {
      assert headers[..n][i] == headers[i];
    }
  }

  /** A header that is not in the row is not a key of its header map. */
  lemma ColumnMapKeys(headers: seq<string>, h: string, aliases: map<string, Field>)
    requires h !in headers
    ensures h !in KeysOf(ColumnMapOf(headers, aliases))
  {
    ColumnMapSpec(headers, aliases);
  }

  lemma LastWithSnoc(d: Pairs, k: string, v: Field, f: Field)
    ensures LastWith(d + [(k, v)], f) == (if v == f then |d| else LastWith(d, f))
  {
    assert (d + [(k, v)])[..|d|] == d;
  }

  /** With distinct headers every aliased header is appended, so the last pair for `f` is the last header for `f`. */
  lemma {:induction false} ColumnMapLast(headers: seq<string>, f: Field, aliases: map<string, Field> := ColumnAliases)
    requires DistinctHeaders(headers)
    ensures LastAliasing(headers, f, aliases) >= 0 <==> LastWith(ColumnMapOf(headers, aliases), f) >= 0
    ensures LastAliasing(headers, f, aliases) >= 0 ==>
              ColumnMapOf(headers, aliases)[LastWith(ColumnMapOf(headers, aliases), f)].0
                == headers[LastAliasing(headers, f, aliases)]
    decreases |headers|
  {
    if headers != [] {
      var n := |headers| - 1;
      var front, h := headers[..n], headers[n];
      DistinctFront(headers);
      ColumnMapLast(front, f, aliases);
      var before, all := ColumnMapOf(front, aliases), ColumnMapOf(headers, aliases);
      if Normalise(h) in aliases {
        var g := aliases[Normalise(h)];
        ColumnMapKeys(front, h, aliases);
        assert all == before + [(h, g)];
        LastWithSnoc(before, h, g, f);
      } else {
        assert all == before;
      }
    }
  }

  /**
   * For a header row without repeats, the parser knows a field exactly when
   * some header aliases it, and reads it from the LAST such header.
   */
  lemma LastHeaderWins(headers: seq<string>, f: Field)
    requires DistinctHeaders(headers)
    ensures f in FieldToCol(headers) <==> LastAliasing(headers, f) >= 0
    ensures f in FieldToCol(headers) ==> FieldToCol(headers)[f] == headers[LastAliasing(headers, f)]
  {
    ColumnMapLast(headers, f);
    ReverseOfSpec(ColumnMapOf(headers), f);
  }

  // ---------------------------------------------------------------------
  // Reading one field
  // ---------------------------------------------------------------------

  type Row = map<string, string>

  /**
   * `_get_field`: the stripped value of the field's column, or `default`
   * when the field has no column or the value is blank.
   */
  function GetField(row: Row, fieldToCol: map<Field, string>, field: Field, default: string): (r: string)
    ensures field !in fieldToCol ==> r == default
  {
    if field !in fieldToCol then default
    else
      var value := Strip(if fieldToCol[field] in row then row[fieldToCol[field]] else "");
      if value != "" then value else default
  }

  /**
   * The field reads as the stripped cell when that is non-blank and as the
   * default otherwise; either way it is the default or a non-empty stripped
   * text.
   */
  lemma GetFieldSpec(row: Row, fieldToCol: map<Field, string>, field: Field, default: string)
    ensures var r := GetField(row, fieldToCol, field, default);
            r == default || (r != "" && Strip(r) == r)
    ensures field in fieldToCol && fieldToCol[field] in row && Strip(row[fieldToCol[field]]) != "" ==>
              GetField(row, fieldToCol, field, default) == Strip(row[fieldToCol[field]])
    ensures field in fieldToCol && (fieldToCol[field] !in row || Strip(row[fieldToCol[field]]) == "") ==>
              GetField(row, fieldToCol, field, default) == default
  {
    if field in fieldToCol && fieldToCol[field] in row {
      StripOfStripped(row[fieldToCol[field]]);
    }
  }

  // ---------------------------------------------------------------------
  // Sprint history
  // ---------------------------------------------------------------------

  /** The stripped, non-blank pieces, in order. */
  function NonBlankPieces(parts: seq<string>): (r: seq<string>)
    ensures |r| <= |parts|
  {
    if parts == [] then []
    else (if Strip(parts[0]) != "" then [Strip(parts[0])] else []) + NonBlankPieces(parts[1..])
  }

  /** `_parse_sprint_history` */
  function ParseSprintHistory(value: string): (r: seq<string>)
  {
    if IsBlank(value) then [] else NonBlankPieces(Split(value, ';'))
  }

  /** Stripping keeps only characters of the original text. */
  lemma StripChars(s: string)
    ensures forall c :: c in Strip(s) ==> c in s
  {
    var n := LeadCount(s, Whitespace);
    var l := s[n..];
    var m := TrailCount(l, Whitespace);
    assert Strip(s) == s[n..n + (|l| - m)];
  }

  lemma {:induction false} NonBlankPiecesShape(parts: seq<string>)
    requires forall p :: p in parts ==> ';' !in p
    ensures forall s :: s in NonBlankPieces(parts) ==> s != "" && Strip(s) == s && ';' !in s
  {
    if parts != [] {
      NonBlankPiecesShape(parts[1..]);
      StripOfStripped(parts[0]);
      StripChars(parts[0]);
    }
  }

  /**
   * Every sprint in a parsed history is non-empty, has no surrounding blanks
   * and holds no separator; blank text has no history.
   */
  lemma SprintHistoryShape(value: string)
    ensures IsBlank(value) ==> ParseSprintHistory(value) == []
    ensures forall s :: s in ParseSprintHistory(value) ==> s != "" && Strip(s) == s && ';' !in s
  {
    if !IsBlank(value) {
      NonBlankPiecesShape(Split(value, ';'));
    }
  }

  /** A piece that is already clean: non-empty, stripped and free of `;`. */
  predicate CleanSprint(s: string) {
    |s| > 0 && !IsSpace(s[0]) && !IsSpace(s[|s| - 1]) && ';' !in s
  }

  lemma {:induction false} SplitJoin(parts: seq<string>)
    requires |parts| >= 1
    requires forall p :: p in parts ==> ';' !in p
    ensures Split(Join(parts, ";"), ';') == parts
  {
    assert parts[0] in parts;
    if |parts| > 1 {
      var rest := parts[1..];
      assert forall p :: p in rest ==> p in parts;
      JoinCons(parts[0], rest, ";");
      var s := Join(parts, ";");
      assert s == parts[0] + ";" + Join(rest, ";");
      assert s[|parts[0]|] == ';';
      assert ';' in s;
      assert s[..|parts[0]|] == parts[0];
      assert IndexOf(s, ';') == |parts[0]|;
      assert s[|parts[0]| + 1..] == Join(rest, ";");
      SplitJoin(rest);
    }
  }

  lemma {:induction false} NonBlankPiecesOfClean(parts: seq<string>)
    requires forall p :: p in parts ==> CleanSprint(p)
    ensures NonBlankPieces(parts) == parts
  {
    if parts != [] {
      assert parts[0] in parts;
      assert forall p :: p in parts[1..] ==> p in parts;
      StripUnchanged(parts[0]);
      NonBlankPiecesOfClean(parts[1..]);
    }
  }

  lemma {:induction false} JoinEnds(parts: seq<string>)
    requires |parts| >= 1
    requires forall p :: p in parts ==> CleanSprint(p)
    ensures |Join(parts, ";")| > 0
    ensures !IsSpace(Join(parts, ";")[0]) && !IsSpace(Join(parts, ";")[|Join(parts, ";")| - 1])
  {
    assert parts[0] in parts && parts[|parts| - 1] in parts;
    if |parts| > 1 {
      JoinCons(parts[0], parts[1..], ";");
      assert forall p :: p in parts[1..] ==> p in parts;
      JoinEnds(parts[1..]);
    }
  }

  /**
   * A history written out as `";".join(...)` of clean sprint names reads
   * back as the same list.
   */
  lemma SprintHistoryRoundTrip(sprints: seq<string>)
    requires forall s :: s in sprints ==> CleanSprint(s)
    ensures ParseSprintHistory(Join(sprints, ";")) == sprints
  {
    if sprints != [] {
      var text := Join(sprints, ";");
      JoinEnds(sprints);
      assert sprints[0] in sprints;
      SplitJoin(sprints);
      NonBlankPiecesOfClean(sprints);
    }
  }

  // ---------------------------------------------------------------------
  // Raw cell values
  // ---------------------------------------------------------------------

  /**
   * A value read from a JSON export: `None`, a list (whose items are taken
   * as their `str()` renderings), or any other value (taken as its `str()`).
   */
  datatype Cell = Null | Items(texts: seq<string>) | Scalar(text: string)

  function CellText(c: Cell): string {
    match c
    case Null => ""
    case Items(texts) => Join(texts, ";")
    case Scalar(text) => text
  }

  /** `_stringify_row` */
  method StringifyRow(row: map<string, Cell>) returns (r: Row)
    ensures r.Keys == row.Keys
    ensures forall k :: k in r ==> r[k] == CellText(row[k])
  {
    r := map[];
    var todo := row.Keys;
    while todo != {}
      invariant todo <= row.Keys
      invariant r.Keys == row.Keys - todo
      invariant forall k :: k in r ==> r[k] == CellText(row[k])
      decreases todo
    {
      var key :| key in todo;
      var value := row[key];
      if value == Null {
        r := r[key := ""];
      } else if value.Items? {
        r := r[key := Join(value.texts, ";")];
      } else {
        r := r[key := value.text];
      }
      todo := todo - {key};
    }
  }

  /**
   * A sprint list stored in a JSON export, once stringified and read back
   * as a field, is the same list.
   */
  lemma StringifiedHistoryRoundTrip(row: Row, fieldToCol: map<Field, string>, sprints: seq<string>)
    requires forall s :: s in sprints ==> CleanSprint(s)
    requires PreviousSprints in fieldToCol && fieldToCol[PreviousSprints] in row
    requires row[fieldToCol[PreviousSprints]] == CellText(Items(sprints))
    ensures ParseSprintHistory(GetField(row, fieldToCol, PreviousSprints, "")) == sprints
  {
    var text := Join(sprints, ";");
    if sprints != [] {
      JoinEnds(sprints);
      assert sprints[0] in sprints && sprints[|sprints| - 1] in sprints;
      StripUnchanged(text);
    }
    SprintHistoryRoundTrip(sprints);
  }

  // ---------------------------------------------------------------------
  // Nested JSON projects
  // ---------------------------------------------------------------------

  /**
   * One object of a JSON export's project list: its own entries, and the
   * task objects of its `tasks` entry (empty when that entry is missing,
   * `null` or an empty list).
   */
  datatype NestedProject = NestedProject(fields: map<string, Cell>, tasks: seq<map<string, Cell>>)

  /**
   * `{**project_fields, **task}` with the project name copied under
   * `project` when neither side has that key.
   */
  function MergedRow(projectFields: map<string, Cell>, task: map<string, Cell>): (row: map<string, Cell>)
    ensures forall k :: k in task ==> k in row && row[k] == task[k]
    ensures forall k :: k in projectFields && k !in task ==> k in row && row[k] == projectFields[k]
    ensures "project" !in projectFields && "project" !in task && "name" in projectFields ==>
              "project" in row && row["project"] == projectFields["name"]
    ensures forall k :: k in row ==> k in projectFields || k in task || k == "project"
  {
    var row := projectFields + task;
    if "project" !in row && "name" in projectFields then row["project" := projectFields["name"]] else row
  }

  /** The rows of one project: one per task, none for a project without tasks. */
  function RowsOfProject(p: NestedProject): (rows: seq<map<string, Cell>>)
    ensures |rows| == |p.tasks|
    ensures forall j :: 0 <= j < |rows| ==> rows[j] == MergedRow(p.fields - {"tasks"}, p.tasks[j])
  {
    if p.tasks == [] then []
    else seq(|p.tasks|, j requires 0 <= j < |p.tasks| => MergedRow(p.fields - {"tasks"}, p.tasks[j]))
  }

  /** All rows, project by project and task by task. */
  function FlatRows(projects: seq<NestedProject>): seq<map<string, Cell>> {
    if projects == [] then [] else RowsOfProject(projects[0]) + FlatRows(projects[1..])
  }

  function TaskTotal(projects: seq<NestedProject>): nat {
    if projects == [] then 0 else |projects[0].tasks| + TaskTotal(projects[1..])
  }

  /** Flattening yields exactly one row per task, and no row for a task-less project. */
  lemma {:induction false} FlatRowsCount(projects: seq<NestedProject>)
    ensures |FlatRows(projects)| == TaskTotal(projects)
  {
    if projects != [] {
      FlatRowsCount(projects[1..]);
    }
  }

  /** Every flat row is some project's entries overlaid by one of its tasks. */
  lemma {:induction false} FlatRowOrigin(projects: seq<NestedProject>, row: map<string, Cell>)
    requires row in FlatRows(projects)
    ensures exists i, j :: 0 <= i < |projects| && 0 <= j < |projects[i].tasks| &&
              row == MergedRow(projects[i].fields - {"tasks"}, projects[i].tasks[j])
  {
    var head := RowsOfProject(projects[0]);
    if row in head {
      var j :| 0 <= j < |head| && head[j] == row;
      assert row == MergedRow(projects[0].fields - {"tasks"}, projects[0].tasks[j]);
    } else {
      FlatRowOrigin(projects[1..], row);
      var i, j :| 0 <= i < |projects[1..]| && 0 <= j < |projects[1..][i].tasks| &&
                  row == MergedRow(projects[1..][i].fields - {"tasks"}, projects[1..][i].tasks[j]);
      assert projects[1..][i] == projects[i + 1];
    }
  }

  lemma FlatRowsSnoc(projects: seq<NestedProject>, p: NestedProject)
    ensures FlatRows(projects + [p]) == FlatRows(projects) + RowsOfProject(p)
    decreases |projects|
  {
    if projects == [] {
      assert [p][1..] == [];
    } else {
      var head, rest := RowsOfProject(projects[0]), projects[1..];
      assert (projects + [p])[0] == projects[0];
      assert (projects + [p])[1..] == rest + [p];
      FlatRowsSnoc(rest, p);
      assert head + (FlatRows(rest) + RowsOfProject(p)) == (head + FlatRows(rest)) + RowsOfProject(p);
    }
  }

  lemma FlatRowsPrefix(projects: seq<NestedProject>, i: nat)
    requires i < |projects|
    ensures FlatRows(projects[..i + 1]) == FlatRows(projects[..i]) + RowsOfProject(projects[i])
    ensures projects[i].tasks == [] ==> FlatRows(projects[..i + 1]) == FlatRows(projects[..i])
  {
    assert projects[..i + 1] == projects[..i] + [projects[i]];
    FlatRowsSnoc(projects[..i], projects[i]);
    assert projects[i].tasks == [] ==> RowsOfProject(projects[i]) == [];
  }

  /** The inner loop of `_flatten_nested_projects`: one merged row per task of the project. */
  method ProjectRows(proj: NestedProject) returns (prows: seq<map<string, Cell>>)
    ensures prows == RowsOfProject(proj)
  {
    var projectFields := proj.fields - {"tasks"};
    prows := [];
    for j := 0 to |proj.tasks|
      invariant |prows| == j
      invariant forall t :: 0 <= t < j ==> prows[t] == MergedRow(projectFields, proj.tasks[t])
    {
      var row := projectFields + proj.tasks[j];
      if "project" !in row && "name" in projectFields {
        row := row["project" := projectFields["name"]];
      }
      prows := prows + [row];
    }
  }

  /** `_flatten_nested_projects` */
  method FlattenNestedProjects(projects: seq<NestedProject>) returns (rows: seq<map<string, Cell>>)
    ensures rows == FlatRows(projects)
  {
    rows := [];
    for i := 0 to |projects|
      invariant rows == FlatRows(projects[..i])
    {
      var proj := projects[i];
      FlatRowsPrefix(projects, i);
      if proj.tasks == [] {
        continue;
      }
      var prows := ProjectRows(proj);
      rows := rows + prows;
    }
    assert projects[..|projects|] == projects;
  }

  // ---------------------------------------------------------------------
  // Rows to projects
  // ---------------------------------------------------------------------

  /** The project a row belongs to: its stripped `project` field, "" if none. */
  function NameOf(row: Row, fieldToCol: map<Field, string>): string {
    Strip(GetField(row, fieldToCol, ProjectName, ""))
  }

  /** `NameOf` as a key function for grouping. */
  function ProjectKey(fieldToCol: map<Field, string>): Row -> string {
    row => NameOf(row, fieldToCol)
  }

  /** The keys the rows carry; rows with an empty key are dropped. */
  function NamesIn(rows: seq<Row>, key: Row -> string): set<string> {
    set r | r in rows && key(r) != "" :: key(r)
  }

  /** The rows with key `n`, in file order. */
  function RowsNamed(rows: seq<Row>, key: Row -> string, n: string): (r: seq<Row>)
    ensures forall x :: x in r <==> x in rows && key(x) == n
  {
    if rows == [] then []
    else (if key(rows[0]) == n then [rows[0]] else []) + RowsNamed(rows[1..], key, n)
  }

  lemma {:induction false} RowsNamedAppend(a: seq<Row>, b: seq<Row>, key: Row -> string, n: string)
    ensures RowsNamed(a + b, key, n) == RowsNamed(a, key, n) + RowsNamed(b, key, n)
  {
    if a == [] {
      assert a + b == b;
    } else {
      assert (a + b)[1..] == a[1..] + b;
      RowsNamedAppend(a[1..], b, key, n);
    }
  }

  /** The `project_rows` dictionary, one row at a time. */
  function GroupMapOf(rows: seq<Row>, key: Row -> string): map<string, seq<Row>>
    decreases |rows|
  {
    if rows == [] then map[]
    else
      var m := GroupMapOf(rows[..|rows| - 1], key);
      var row := rows[|rows| - 1];
      var n := key(row);
      if n == "" then m else m[n := (if n in m then m[n] else []) + [row]]
  }

  lemma NamesInSnoc(rows: seq<Row>, row: Row, key: Row -> string)
    ensures NamesIn(rows + [row], key) == NamesIn(rows, key) + (if key(row) != "" then {key(row)} else {})
  {
  }

  lemma RowsNamedSnoc(rows: seq<Row>, row: Row, key: Row -> string)
    ensures forall x :: RowsNamed(rows + [row], key, x) == RowsNamed(rows, key, x) + (if key(row) == x then [row] else [])
  {
    forall x ensures RowsNamed(rows + [row], key, x) == RowsNamed(rows, key, x) + (if key(row) == x then [row] else []) {
      RowsNamedAppend(rows, [row], key, x);
    }
  }

  /** The dictionary after one more row: `project_rows[key(row)].append(row)` for a non-empty key. */
  function AddRow(m: map<string, seq<Row>>, row: Row, key: Row -> string): map<string, seq<Row>> {
    var n := key(row);
    if n == "" then m else m[n := (if n in m then m[n] else []) + [row]]
  }

  lemma GroupStepKeys(front: seq<Row>, row: Row, key: Row -> string, before: map<string, seq<Row>>)
    requires before.Keys == NamesIn(front, key)
    ensures AddRow(before, row, key).Keys == NamesIn(front + [row], key)
  {
    NamesInSnoc(front, row, key);
  }

  /** A key no row carries has no rows. */
  lemma {:induction false} RowsNamedAbsent(rows: seq<Row>, key: Row -> string, n: string)
    requires n != "" && n !in NamesIn(rows, key)
    ensures RowsNamed(rows, key, n) == []
  {
    if rows != [] {
      assert rows[0] in rows;
      assert NamesIn(rows[1..], key) <= NamesIn(rows, key);
      RowsNamedAbsent(rows[1..], key, n);
    }
  }

  lemma GroupStepValue(front: seq<Row>, row: Row, key: Row -> string, before: map<string, seq<Row>>, x: string)
    requires before.Keys == NamesIn(front, key)
    requires x in before ==> before[x] == RowsNamed(front, key, x)
    requires x in AddRow(before, row, key)
    ensures AddRow(before, row, key)[x] == RowsNamed(front + [row], key, x)
  {
    RowsNamedAppend(front, [row], key, x);
    if x == key(row) && x !in before {
      RowsNamedAbsent(front, key, x);
    }
  }

  lemma GroupStepValues(front: seq<Row>, row: Row, key: Row -> string, before: map<string, seq<Row>>)
    requires before.Keys == NamesIn(front, key)
    requires forall n :: n in before ==> before[n] == RowsNamed(front, key, n)
    ensures forall x :: x in AddRow(before, row, key) ==> AddRow(before, row, key)[x] == RowsNamed(front + [row], key, x)
  {
    forall x | x in AddRow(before, row, key) ensures AddRow(before, row, key)[x] == RowsNamed(front + [row], key, x) {
      GroupStepValue(front, row, key, before, x);
    }
  }

  /** The grouping dictionary has one entry per non-empty key, holding its rows in file order. */
  lemma {:induction false} GroupMapSpec(rows: seq<Row>, key: Row -> string)
    ensures GroupMapOf(rows, key).Keys == NamesIn(rows, key)
    ensures forall n :: n in GroupMapOf(rows, key) ==> GroupMapOf(rows, key)[n] == RowsNamed(rows, key, n)
    decreases |rows|
  {
    if rows != [] {
      var k := |rows| - 1;
      var front := rows[..k];
      assert rows == front + [rows[k]];
      GroupMapSpec(front, key);
      assert GroupMapOf(rows, key) == AddRow(GroupMapOf(front, key), rows[k], key);
      GroupStepKeys(front, rows[k], key, GroupMapOf(front, key));
      GroupStepValues(front, rows[k], key, GroupMapOf(front, key));
    }
  }

  /** The `project_rows[project_name].append(row)` loop. */
  method GroupRows(rows: seq<Row>, fieldToCol: map<Field, string>) returns (groups: map<string, seq<Row>>)
    ensures groups.Keys == NamesIn(rows, ProjectKey(fieldToCol))
    ensures forall n :: n in groups ==> groups[n] == RowsNamed(rows, ProjectKey(fieldToCol), n)
  {
    groups := map[];
    for k := 0 to |rows|
      invariant groups == GroupMapOf(rows[..k], ProjectKey(fieldToCol))
    {
      var row := rows[k];
      assert rows[..k + 1][..k] == rows[..k] && rows[..k + 1][k] == row;
      var projectName := NameOf(row, fieldToCol);
      if projectName != "" {
        var group := if projectName in groups then groups[projectName] else [];
        groups := groups[projectName := group + [row]];
      }
    }
    assert rows[..|rows|] == rows;
    GroupMapSpec(rows, ProjectKey(fieldToCol));
  }

  /** The task one row describes. */
  function TaskOf(row: Row, fieldToCol: map<Field, string>): Task {
    Task(
      GetField(row, fieldToCol, TaskName, ""),
      GetField(row, fieldToCol, TaskStatus, ""),
      GetField(row, fieldToCol, Priority, "Medium"),
      GetField(row, fieldToCol, Assignee, ""),
      GetField(row, fieldToCol, Sprint, ""),
      ParseSprintHistory(GetField(row, fieldToCol, PreviousSprints, "")),
      GetField(row, fieldToCol, Comments, ""))
  }

  /** `TaskOf` as a function value, so the task lemmas need not unfold it. */
  function TaskBuilder(fieldToCol: map<Field, string>): Row -> Task {
    row => TaskOf(row, fieldToCol)
  }

  /** The tasks of a project's rows, in row order, skipping rows without a task name. */
  function TasksOf(rows: seq<Row>, build: Row -> Task): (ts: seq<Task>)
    ensures |ts| <= |rows|
  {
    if rows == [] then []
    else
      var t := build(rows[0]);
      (if t.name != "" then [t] else []) + TasksOf(rows[1..], build)
  }

  /**
   * The project a group of rows describes: metadata from the first row, with
   * `_parse_date` and `_parse_float` taken as given functions.
   */
  function ProjectOf(
    name: string, group: seq<Row>, fieldToCol: map<Field, string>,
    parseDate: string -> Option<int>, parseFloat: string -> real): Project
    requires group != []
  {
    var first := group[0];
    Project(
      name,
      GetField(first, fieldToCol, ProjectStatus, "Unknown"),
      parseDate(GetField(first, fieldToCol, StartDate, "")),
      parseDate(GetField(first, fieldToCol, EndDate, "")),
      parseFloat(GetField(first, fieldToCol, Budget, "0")),
      parseFloat(GetField(first, fieldToCol, ActualSpend, "0")),
      TasksOf(group, TaskBuilder(fieldToCol)))
  }

  /** The task list holds exactly the named tasks the rows build. */
  lemma {:induction false} TasksOfMembers(rows: seq<Row>, build: Row -> Task)
    ensures forall t: Task :: t in TasksOf(rows, build) <==> t.name != "" && exists r :: r in rows && build(r) == t
  {
    if rows != [] {
      TasksOfMembers(rows[1..], build);
      forall t: Task | t.name != "" && (exists r :: r in rows && build(r) == t)
        ensures t in TasksOf(rows, build)
      {
        var r :| r in rows && build(r) == t;
        if r != rows[0] {
          assert r in rows[1..];
        }
      }
    }
  }

  /**
   * A built project's status is never blank ("Unknown" by default), and its
   * tasks are exactly the named tasks of its rows, each with a priority
   * ("Medium" by default) and a clean sprint history.
   */
  lemma ProjectOfShape(
    name: string, group: seq<Row>, fieldToCol: map<Field, string>,
    parseDate: string -> Option<int>, parseFloat: string -> real)
    requires group != []
    ensures ProjectOf(name, group, fieldToCol, parseDate, parseFloat).name == name
    ensures ProjectOf(name, group, fieldToCol, parseDate, parseFloat).status != ""
    ensures forall t :: t in ProjectOf(name, group, fieldToCol, parseDate, parseFloat).tasks <==>
              t.name != "" && exists r :: r in group && TaskOf(r, fieldToCol) == t
    ensures forall t :: t in ProjectOf(name, group, fieldToCol, parseDate, parseFloat).tasks ==>
              t.priority != "" && forall s :: s in t.previousSprints ==> s != "" && Strip(s) == s
  {
    TasksOfMembers(group, TaskBuilder(fieldToCol));
    forall r | r in group {
      SprintHistoryShape(GetField(r, fieldToCol, PreviousSprints, ""));
    }
  }

  lemma TasksOfSnoc(rows: seq<Row>, row: Row, build: Row -> Task)
    ensures TasksOf(rows + [row], build) == TasksOf(rows, build) + (if build(row).name != "" then [build(row)] else [])
    decreases |rows|
  {
    if rows == [] {
      assert [row][1..] == [];
    } else {
      assert (rows + [row])[1..] == rows[1..] + [row];
      TasksOfSnoc(rows[1..], row, build);
    }
  }

  /** Building one `Project`: the metadata, then `project.tasks.append(task)` per row. */
  method BuildProject(
    name: string, group: seq<Row>, fieldToCol: map<Field, string>,
    parseDate: string -> Option<int>, parseFloat: string -> real) returns (project: Project)
    requires group != []
    ensures project == ProjectOf(name, group, fieldToCol, parseDate, parseFloat)
  {
    var first := group[0];
    project := Project(
      name,
      GetField(first, fieldToCol, ProjectStatus, "Unknown"),
      parseDate(GetField(first, fieldToCol, StartDate, "")),
      parseDate(GetField(first, fieldToCol, EndDate, "")),
      parseFloat(GetField(first, fieldToCol, Budget, "0")),
      parseFloat(GetField(first, fieldToCol, ActualSpend, "0")),
      []);
    var tasks := CollectTasks(group, TaskBuilder(fieldToCol));
    project := project.(tasks := tasks);
  }

  /** The row loop of a project: `project.tasks.append(task)` for each row naming a task. */
  method CollectTasks(group: seq<Row>, build: Row -> Task) returns (tasks: seq<Task>)
    ensures tasks == TasksOf(group, build)
  {
    tasks := [];
    for k := 0 to |group|
      invariant tasks == TasksOf(group[..k], build)
    {
      var task := build(group[k]);
      assert group[..k + 1] == group[..k] + [group[k]];
      TasksOfSnoc(group[..k], group[k], build);
      if task.name != "" {
        tasks := tasks + [task];
      }
    }
    assert group[..|group|] == group;
  }

  function ProjectNamesOf(projects: seq<Project>): (r: seq<string>)
    ensures |r| == |projects| && forall i :: 0 <= i < |projects| ==> r[i] == projects[i].name
  {
    seq(|projects|, i requires 0 <= i < |projects| => projects[i].name)
  }

  /** The project-building loop, over the names in the order given. */
  method ProjectsFor(
    names: seq<string>, groups: map<string, seq<Row>>, rows: seq<Row>, fieldToCol: map<Field, string>,
    parseDate: string -> Option<int>, parseFloat: string -> real) returns (projects: seq<Project>)
    requires forall i :: 0 <= i < |names| ==>
               names[i] in groups && groups[names[i]] != [] && groups[names[i]] == RowsNamed(rows, ProjectKey(fieldToCol), names[i])
    ensures ProjectNamesOf(projects) == names
    ensures forall i :: 0 <= i < |projects| ==>
              RowsNamed(rows, ProjectKey(fieldToCol), names[i]) != [] &&
              projects[i] == ProjectOf(names[i], RowsNamed(rows, ProjectKey(fieldToCol), names[i]), fieldToCol, parseDate, parseFloat)
  {
    projects := [];
    for k := 0 to |names|
      invariant |projects| == k
      invariant forall i :: 0 <= i < k ==>
                  RowsNamed(rows, ProjectKey(fieldToCol), names[i]) != [] &&
                  projects[i] == ProjectOf(names[i], RowsNamed(rows, ProjectKey(fieldToCol), names[i]), fieldToCol, parseDate, parseFloat)
    {
      var project := BuildProject(names[k], groups[names[k]], fieldToCol, parseDate, parseFloat);
      projects := projects + [project];
    }
  }

  /**
   * `_rows_to_projects`: one project per distinct non-blank project name,
   * in name order, each built from its own rows in file order.
   */
  method RowsToProjects(
    rows: seq<Row>, colMap: Pairs,
    parseDate: string -> Option<int>, parseFloat: string -> real) returns (projects: seq<Project>)
    ensures StrictlySorted(ProjectNamesOf(projects))
    ensures Elements(ProjectNamesOf(projects)) == NamesIn(rows, ProjectKey(ReverseOf(colMap)))
    ensures forall i :: 0 <= i < |projects| ==>
              RowsNamed(rows, ProjectKey(ReverseOf(colMap)), projects[i].name) != [] &&
              projects[i] == ProjectOf(projects[i].name, RowsNamed(rows, ProjectKey(ReverseOf(colMap)), projects[i].name),
                                       ReverseOf(colMap), parseDate, parseFloat)
  {
    if rows == [] {
      assert NamesIn(rows, ProjectKey(ReverseOf(colMap))) == {};
      return [];
    }
    var fieldToCol := ReverseMap(colMap);
    var groups := GroupRows(rows, fieldToCol);
    var names := SortStrings(groups.Keys);
    forall i | 0 <= i < |names|
      ensures names[i] in groups && groups[names[i]] != [] && groups[names[i]] == RowsNamed(rows, ProjectKey(fieldToCol), names[i])
    {
      assert names[i] in Elements(names);
      var r :| r in rows && ProjectKey(fieldToCol)(r) != "" && ProjectKey(fieldToCol)(r) == names[i];
      assert r in groups[names[i]];
    }
    projects := ProjectsFor(names, groups, rows, fieldToCol, parseDate, parseFloat);
  }
}
