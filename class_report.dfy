/**
 * The class report page (Reports/ClassReport.jsx): the students of one
 * chosen class, server-paginated like the other lists, with an export of the
 * loaded page to CSV.
 */
module ClassReport {
  import opened Js
  import opened Url
  import ListPages

  /**
   * `handleChange`: `setSelectedGrade(e.target.value || null)`. The grade
   * starts out `undefined`; choosing "Select Class" (value '') stores null.
   */
  function HandleChange(targetValue: string): (grade: Value)
    ensures Truthy(grade) <==> targetValue != ""
    ensures targetValue != "" ==> grade == Str(targetValue)
    ensures targetValue == "" ==> grade == Null
  {
    if targetValue != "" then Str(targetValue) else Null
  }

  /** The effect on `selectedGrade`: refetch only once a class is chosen. */
  predicate RefetchOnGradeChange(grade: Value) { Truthy(grade) }

  /** The path of one class's students, below the API base. */
  function ClassPath(grade: Value): string {
    "/class/" + Render(grade) + "/students"
  }

  /**
   * The report's `queryFn` as written: the grade is interpolated into the
   * path whatever it is, and the search text travels as a parameter.
   */
  function ReportRequest(env: Env, grade: Value, st: ListPages.TableState): (r: Request)
    ensures r.path == env.basePath + ClassPath(grade)
    ensures r.params == [
      ("page", Text(IntToString(st.pagination.pageIndex + 1))),
      ("size", Text(IntToString(st.pagination.pageSize))),
      ("filters", FiltersJson(st.columnFilters.GetOr([]))),
      ("globalFilter", Text(st.globalFilter.GetOr(""))),
      ("sorting", SortingJson(st.sorting.GetOr([])))]
  {
    Request(env.origin, env.basePath + ClassPath(grade), [
      ("page", Text(IntToString(st.pagination.pageIndex + 1))),
      ("size", Text(IntToString(st.pagination.pageSize))),
      ("filters", FiltersJson(st.columnFilters.GetOr([]))),
      ("globalFilter", Text(st.globalFilter.GetOr(""))),
      ("sorting", SortingJson(st.sorting.GetOr([])))])
  }

  /** Setting the five report parameters on an empty query lists them in the order they were set. */
  lemma ReportParamsInOrder(page: Param, size: Param, filters: Param, search: Param, sorting: Param)
    ensures SetParam(SetParam(SetParam(SetParam(SetParam([], "page", page), "size", size),
      "filters", filters), "globalFilter", search), "sorting", sorting) ==
      [("page", page), ("size", size), ("filters", filters), ("globalFilter", search), ("sorting", sorting)]
  {
    var p1 := SetParam([], "page", page);
    assert p1 == [("page", page)];
    SetFreshAppends(p1, "size", size);
    var p2 := p1 + [("size", size)];
    SetFreshAppends(p2, "filters", filters);
    var p3 := p2 + [("filters", filters)];
    SetFreshAppends(p3, "globalFilter", search);
    var p4 := p3 + [("globalFilter", search)];
    SetFreshAppends(p4, "sorting", sorting);
  }

  /** The `queryFn`, step by step. */
  method BuildReportUrl(env: Env, grade: Value, st: ListPages.TableState) returns (u: FetchUrl)
    ensures fresh(u)
    ensures u.Href() == ReportRequest(env, grade, st)
  {
    var page := Text(IntToString(st.pagination.pageIndex + 1));
    var size := Text(IntToString(st.pagination.pageSize));
    var filters := FiltersJson(st.columnFilters.GetOr([]));
    var search := Text(st.globalFilter.GetOr(""));
    var sorting := SortingJson(st.sorting.GetOr([]));
    u := new FetchUrl(env, ClassPath(grade));
    u.Set("page", page);
    u.Set("size", size);
    u.Set("filters", filters);
    u.Set("globalFilter", search);
    u.Set("sorting", sorting);
    ReportParamsInOrder(page, size, filters, search, sorting);
  }

  /** Unlike the other lists, a search never changes the path: the report stays on the chosen class. */
  lemma SearchStaysInClass(env: Env, grade: Value, st: ListPages.TableState, term: string)
    ensures ReportRequest(env, grade, st.(globalFilter := Some(term))).path == ReportRequest(env, grade, st).path
    ensures Lookup(ReportRequest(env, grade, st.(globalFilter := Some(term))).params, "globalFilter") == Some(Text(term))
  {
    var ps := ReportRequest(env, grade, st.(globalFilter := Some(term))).params;
    var g := "globalFilter";
    assert Lookup(ps, g) == Lookup(ps[1..], g);
    assert Lookup(ps[1..], g) == Lookup(ps[2..], g) by { assert ps[1..][1..] == ps[2..]; }
    assert Lookup(ps[2..], g) == Lookup(ps[3..], g) by { assert ps[2..][1..] == ps[3..]; }
    assert ps[3..][0] == (g, Text(term));
  }

  // ---------------------------------------------------------------------------
  // The query key (finding: the key leaves out the grade)

  /** As written: the report's key is the list key; the chosen grade plays no part in it. */
  function KeyAsWritten(grade: Value, st: ListPages.TableState): (k: ListPages.QueryKey)
    ensures k.name == "class-data" && ListPages.StateOf(k) == st
  {
    ListPages.KeyOf("class-data", st)
  }

  /**
   * Two classes share one cache entry: the same key stands for two
   * different requests, so a page cached for one class can be shown while
   * another is chosen.
   */
  lemma KeyAsWrittenCollides(env: Env, st: ListPages.TableState)
    ensures KeyAsWritten(Str("1"), st) == KeyAsWritten(Str("2"), st)
    ensures ReportRequest(env, Str("1"), st) != ReportRequest(env, Str("2"), st)
  {
    var p1 := ReportRequest(env, Str("1"), st).path;
    var p2 := ReportRequest(env, Str("2"), st).path;
    var k := |env.basePath + "/class/"|;
    assert p1[k] == '1' && p2[k] == '2';
  }

  /** Corrected: the key also holds the chosen grade. */
  datatype ReportKey = ReportKey(list: ListPages.QueryKey, grade: Value)

  function KeyOf(grade: Value, st: ListPages.TableState): (k: ReportKey)
    ensures k.grade == grade && k.list.name == "class-data" && ListPages.StateOf(k.list) == st
  {
    ReportKey(ListPages.KeyOf("class-data", st), grade)
  }

  /**
   * With the grade in the key, two states share a key exactly when they
   * have the same grade and table state, and equal keys always mean equal
   * requests.
   */
  lemma KeyDeterminesRequest(env: Env, ga: Value, a: ListPages.TableState, gb: Value, b: ListPages.TableState)
    ensures KeyOf(ga, a) == KeyOf(gb, b) <==> ga == gb && a == b
    ensures KeyOf(ga, a) == KeyOf(gb, b) ==> ReportRequest(env, ga, a) == ReportRequest(env, gb, b)
  {
  }

  // ---------------------------------------------------------------------------
  // Fetching before a class is chosen (finding: `/class/undefined/students`)

  /**
   * As written, the query runs on mount, before any class is chosen. After
   * the empty option the grade is null: that choice fetches nothing by
   * itself, but the query's next fetch (a key change, the refresh button,
   * a refocus) names class null.
   */
  lemma FetchesUndefinedClass(env: Env, st: ListPages.TableState)
    ensures ReportRequest(env, Undefined, st).path == env.basePath + "/class/undefined/students"
    ensures ReportRequest(env, HandleChange(""), st).path == env.basePath + "/class/null/students"
  {
  }

  /** Corrected: the query is enabled only when a class is chosen, as the refetch effect already assumes. */
  function GatedReportRequest(env: Env, grade: Value, st: ListPages.TableState): (r: Option<Request>)
    ensures r.Some? <==> RefetchOnGradeChange(grade)
    ensures r.Some? ==> r.value == ReportRequest(env, grade, st)
  {
    if Truthy(grade) then Some(ReportRequest(env, grade, st)) else None
  }

  /** Every request the gated query sends names the class the user chose in the select. */
  lemma GatedFetchNamesChosenClass(env: Env, targetValue: string, st: ListPages.TableState)
    ensures GatedReportRequest(env, HandleChange(targetValue), st).Some? <==> targetValue != ""
    ensures GatedReportRequest(env, HandleChange(targetValue), st).Some? ==>
      GatedReportRequest(env, HandleChange(targetValue), st).value.path ==
        env.basePath + "/class/" + targetValue + "/students"
  {
  }

  /** The report page's state. */
  class ReportPage {
    var selectedGrade: Value
    var table: ListPages.TableState

    constructor ()
      ensures selectedGrade == Undefined && table == ListPages.InitialState
    {
      selectedGrade := Undefined;
      table := ListPages.InitialState;
    }

    /** The class select's `onChange`; returns whether the effect refetches. */
    method ChooseClass(targetValue: string) returns (refetch: bool)
      modifies this
      ensures selectedGrade == HandleChange(targetValue) && table == old(table)
      ensures refetch <==> targetValue != ""
    {
      selectedGrade := HandleChange(targetValue);
      refetch := RefetchOnGradeChange(selectedGrade);
    }

    /** The request the (corrected) query sends for the current state, if any. */
    function Query(env: Env): (r: Option<Request>)
      reads this
      ensures r.Some? <==> Truthy(selectedGrade)
      ensures r.Some? ==> r.value.path == env.basePath + ClassPath(selectedGrade)
    {
      GatedReportRequest(env, selectedGrade, table)
    }

    /** The (corrected) cache key of the current state. */
    function Key(): (k: ReportKey)
      reads this
      ensures k.grade == selectedGrade && ListPages.StateOf(k.list) == table
    {
      KeyOf(selectedGrade, table)
    }
  }

  // ---------------------------------------------------------------------------
  // CSV export

  /** The table's column headers, which the exporter writes as the label row. */
  const ColumnHeaders: seq<string> :=
    ["Id", "Student Name", "Guardian Name", "Guardian Phone", "Class", "Total Fee", "Fee Balance"]

  /** The keys of the objects `transformDataForCsv` builds, in order. */
  const ExportKeys: seq<string> :=
    ["Id", "Student Name", "Guardian Name", "Guardian Phone", "Grade", "Fee Total", "Fee Balance"]

  /** `${first_name} ${last_name}`, as both the name cell and the export write it. */
  function StudentName(item: Value): (s: string)
    ensures s == Render(Get(item, "first_name")) + " " + Render(Get(item, "last_name"))
  {
    Render(Get(item, "first_name")) + " " + Render(Get(item, "last_name"))
  }

  type CsvRow = seq<(string, Value)>

  /** One exported row; `item.Class.name` throws when the student has no class object. */
  function TransformItem(item: Value): (r: Outcome<CsvRow>)
    ensures r.Throws? <==> Nullish(Get(item, "Class"))
    ensures r.Ok? ==> |r.value| == |ExportKeys| && forall i :: 0 <= i < |r.value| ==> r.value[i].0 == ExportKeys[i]
    ensures r.Ok? ==> r.value[1].1 == Str(StudentName(item)) && r.value[4].1 == Get(Get(item, "Class"), "name")
    ensures r.Ok? ==>
      && r.value[0].1 == Get(item, "id")
      && r.value[2].1 == Get(item, "guardianName")
      && r.value[3].1 == Get(item, "guardianPhone")
      && r.value[5].1 == Get(item, "feeAmount")
      && r.value[6].1 == Get(item, "feeBalance")
  {
    if Nullish(Get(item, "Class")) then Throws
    else Ok([
      ("Id", Get(item, "id")),
      ("Student Name", Str(StudentName(item))),
      ("Guardian Name", Get(item, "guardianName")),
      ("Guardian Phone", Get(item, "guardianPhone")),
      ("Grade", Get(Get(item, "Class"), "name")),
      ("Fee Total", Get(item, "feeAmount")),
      ("Fee Balance", Get(item, "feeBalance"))])
  }

  /** `items.map(transform)`: the rows in order, or the first throw. */
  function TransformAll(items: seq<Value>): (r: Outcome<seq<CsvRow>>)
    ensures r.Ok? <==> forall i :: 0 <= i < |items| ==> !Nullish(Get(items[i], "Class"))
    ensures r.Ok? ==> |r.value| == |items| && forall i :: 0 <= i < |items| ==> TransformItem(items[i]) == Ok(r.value[i])
  {
    if items == [] then Ok([])
    else
      var head := TransformItem(items[0]);
      var tail := TransformAll(items[1..]);
      assert forall i :: 1 <= i < |items| ==> items[i] == items[1..][i - 1];
      if head.Throws? || tail.Throws? then Throws
      else Ok([head.value] + tail.value)
  }

  /** `transformDataForCsv(items)`: `items?.map(...)`. */
  function TransformDataForCsv(items: Option<seq<Value>>): (r: Outcome<Option<seq<CsvRow>>>)
    ensures items.None? ==> r == Ok(None)
    ensures r.Throws? <==> items.Some? && exists i :: 0 <= i < |items.value| && Nullish(Get(items.value[i], "Class"))
    ensures r.Ok? && items.Some? ==>
      && r.value.Some?
      && |r.value.value| == |items.value|
      && forall i :: 0 <= i < |items.value| ==> TransformItem(items.value[i]) == Ok(r.value.value[i])
  {
    match items
    case None => Ok(None)
    case Some(list) =>
      match TransformAll(list)
      case Ok(rows) => Ok(Some(rows))
      case Throws => Throws
  }

  datatype Export =
    | Csv(headers: seq<string>, rows: Option<seq<CsvRow>>)
    | NoData          // `console.error('Data is undefined.')`
    | ExportThrew

  /** `handleExportData()` */
  function HandleExportData(data: Option<ListPages.Envelope>): (e: Export)
    ensures data.None? <==> e.NoData?
    ensures e.Csv? ==> e.headers == ColumnHeaders
  {
    match data
    case None => NoData
    case Some(env) =>
      match TransformDataForCsv(env.items)
      case Ok(rows) => Csv(ColumnHeaders, rows)
      case Throws => ExportThrew
  }

  /**
   * The label row and the data columns line up: every exported row has one
   * value per header, in the same order, though two labels ("Class",
   * "Total Fee") differ from the keys they head ("Grade", "Fee Total").
   */
  lemma ExportColumnsAlign(data: Option<ListPages.Envelope>)
    ensures var e := HandleExportData(data);
      e.Csv? && e.rows.Some? ==>
        forall r :: r in e.rows.value ==> |r| == |e.headers|
    ensures ColumnHeaders[4] == "Class" && ExportKeys[4] == "Grade"
  {
    var e := HandleExportData(data);
    if e.Csv? && e.rows.Some? {
      var items := data.value.items.value;
      forall r | r in e.rows.value ensures |r| == |e.headers| {
        var i :| 0 <= i < |e.rows.value| && e.rows.value[i] == r;
        assert TransformItem(items[i]) == Ok(r);
      }
    }
  }

  /** One student without a class object makes the whole export throw, however many others there are. */
  lemma ExportThrowsOnClasslessStudent(data: ListPages.Envelope, i: nat)
    requires data.items.Some? && i < |data.items.value| && Nullish(Get(data.items.value[i], "Class"))
    ensures HandleExportData(Some(data)) == ExportThrew
  {
  }
}
