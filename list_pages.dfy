/**
 * The three server-paginated list pages: payments (Payment.jsx), students
 * (Student.jsx) and users (User.jsx). Each keeps the table state, turns it
 * into a fetch address, binds the response's `items` to the rows it shows,
 * and deletes a row after a confirmation dialog.
 *
 * The pages differ only in their paths and in how they send the page:
 * payments and users send the offset of the first row (`start`), students
 * the one-based page number (`page`).
 */
module ListPages {
  import opened Js
  import opened Url

  datatype Paging = StartOffset | OneBasedPage

  datatype Page = Page(
    listPath: string,       // appended to the base URL
    searchPrefix: string,   // replaces the whole pathname while searching
    paging: Paging,
    deletePrefix: string)   // DELETE `${base}<deletePrefix><id>`

  const Payments := Page("/feepayments", "/api/payments/search/", StartOffset, "/fee-payments/")
  const Students := Page("/students", "/api/students/search/", OneBasedPage, "/student/")
  const Users := Page("/users", "/api/users/search/", StartOffset, "/user/")

  datatype Pagination = Pagination(pageIndex: int, pageSize: int)

  /**
   * The table state the query depends on. `None` stands for a state the table
   * cleared to `undefined`.
   */
  datatype TableState = TableState(
    columnFilters: Option<seq<ColumnFilter>>,
    globalFilter: Option<string>,
    pagination: Pagination,
    sorting: Option<seq<SortRule>>)

  const InitialState := TableState(Some([]), Some(""), Pagination(0, 10), Some([]))

  /** `if (globalFilter)`: searching needs a non-empty string. */
  predicate Searching(st: TableState) {
    st.globalFilter.Some? && st.globalFilter.value != ""
  }

  /** The name and value of the page parameter. */
  function PageParam(p: Paging, pg: Pagination): (string, Param) {
    match p
    case StartOffset => ("start", Text(IntToString(pg.pageIndex * pg.pageSize)))
    case OneBasedPage => ("page", Text(IntToString(pg.pageIndex + 1)))
  }

  /** The address the page's `queryFn` fetches, as a function of the table state. */
  function ListRequest(env: Env, page: Page, st: TableState): (r: Request)
    ensures r.origin == env.origin
    ensures Searching(st) ==> r.path == page.searchPrefix + st.globalFilter.value
    ensures !Searching(st) ==> r.path == env.basePath + page.listPath
    ensures r.params == [
      PageParam(page.paging, st.pagination),
      ("size", Text(IntToString(st.pagination.pageSize))),
      ("filters", FiltersJson(st.columnFilters.GetOr([]))),
      ("sorting", SortingJson(st.sorting.GetOr([])))]
  {
    Request(
      env.origin,
      if Searching(st) then page.searchPrefix + st.globalFilter.value else env.basePath + page.listPath,
      [PageParam(page.paging, st.pagination),
       ("size", Text(IntToString(st.pagination.pageSize))),
       ("filters", FiltersJson(st.columnFilters.GetOr([]))),
       ("sorting", SortingJson(st.sorting.GetOr([])))])
  }

  /** The `queryFn` of a list page, step by step. */
  method BuildListUrl(env: Env, page: Page, st: TableState) returns (u: FetchUrl)
    ensures fresh(u)
    ensures u.Href() == ListRequest(env, page, st)
  {
    u := new FetchUrl(env, page.listPath);
    var (pageName, pageValue) := PageParam(page.paging, st.pagination);
    var size := Text(IntToString(st.pagination.pageSize));
    u.Set(pageName, pageValue);
    assert u.search == [(pageName, pageValue)];
    SetFreshAppends(u.search, "size", size);
    u.Set("size", size);
    assert u.search == [(pageName, pageValue), ("size", size)];
    var filters := FiltersJson(st.columnFilters.GetOr([]));
    SetFreshAppends(u.search, "filters", filters);
    u.Set("filters", filters);
    assert u.search == [(pageName, pageValue), ("size", size), ("filters", filters)];
    if Searching(st) {
      u.SetPathname(page.searchPrefix + st.globalFilter.value);
    }
    var sorting := SortingJson(st.sorting.GetOr([]));
    SetFreshAppends(u.search, "sorting", sorting);
    u.Set("sorting", sorting);
  }

  /**
   * A search sends the same paging, filters and sorting as the plain list:
   * only the path changes.
   */
  lemma SearchKeepsQuery(env: Env, page: Page, st: TableState, term: string)
    requires term != ""
    ensures var searched := st.(globalFilter := Some(term));
      ListRequest(env, page, searched).params == ListRequest(env, page, st).params &&
      ListRequest(env, page, searched).path == page.searchPrefix + term
  {
  }

  /** An empty or cleared search box fetches the plain list. */
  lemma ClearedSearchListsAll(env: Env, page: Page, st: TableState)
    requires st.globalFilter == None || st.globalFilter == Some("")
    ensures ListRequest(env, page, st).path == env.basePath + page.listPath
  {
  }

  /**
   * The page parameter tells the server which rows to send: the offset of
   * the first row for payments and users, the one-based page for students,
   * and it reads back as that number.
   */
  lemma PageParamReadsBack(page: Page, pg: Pagination)
    ensures var (name, v) := PageParam(page.paging, pg);
      v.Text? &&
      (page.paging == StartOffset ==> name == "start" && StringToNumber(v.s) == Fin(pg.pageIndex * pg.pageSize)) &&
      (page.paging == OneBasedPage ==> name == "page" && StringToNumber(v.s) == Fin(pg.pageIndex + 1))
  {
    StringToNumberOfIntToString(pg.pageIndex * pg.pageSize);
    StringToNumberOfIntToString(pg.pageIndex + 1);
  }

  /** The query key: the page's name and every piece of table state the fetch reads. */
  datatype QueryKey = QueryKey(
    name: string,
    columnFilters: Option<seq<ColumnFilter>>,
    globalFilter: Option<string>,
    pageIndex: int,
    pageSize: int,
    sorting: Option<seq<SortRule>>)

  /** The table state a key was built from. */
  function StateOf(k: QueryKey): TableState {
    TableState(k.columnFilters, k.globalFilter, Pagination(k.pageIndex, k.pageSize), k.sorting)
  }

  /** The `queryKey`: the list's name and every part of the table state, from which the state can be read back. */
  function KeyOf(name: string, st: TableState): (k: QueryKey)
    ensures k.name == name && StateOf(k) == st
  {
    QueryKey(name, st.columnFilters, st.globalFilter, st.pagination.pageIndex, st.pagination.pageSize, st.sorting)
  }

  /**
   * The key covers everything the fetch depends on: two table states share
   * a key exactly when they are equal, so a cached response is never shown
   * for a different query.
   */
  lemma KeyDeterminesRequest(env: Env, page: Page, name: string, a: TableState, b: TableState)
    ensures KeyOf(name, a) == KeyOf(name, b) <==> a == b
    ensures KeyOf(name, a) == KeyOf(name, b) ==> ListRequest(env, page, a) == ListRequest(env, page, b)
  {
  }

  // ---------------------------------------------------------------------------
  // Response binding and pagination display

  /**
   * The fields of the parsed JSON response the page reads; a missing field
   * is `undefined`.
   */
  datatype Envelope = Envelope(items: Option<seq<Value>>, totalPages: Value, itemsPerPage: Value)

  /** `rowCount={data?.itemsPerPage ?? 0}` */
  function RowCount(data: Option<Envelope>): (r: Value)
    ensures !Nullish(r)
    ensures data.Some? && !Nullish(data.value.itemsPerPage) ==> r == data.value.itemsPerPage
    ensures data.None? || Nullish(data.value.itemsPerPage) ==> r == Int(0)
  {
    if data.None? then Int(0) else Coalesce(data.value.itemsPerPage, Int(0))
  }

  /** `count={data?.totalPages ?? 0}` of the pager. */
  function PageCount(data: Option<Envelope>): (r: Value)
    ensures !Nullish(r)
    ensures data.Some? && !Nullish(data.value.totalPages) ==> r == data.value.totalPages
    ensures data.None? || Nullish(data.value.totalPages) ==> r == Int(0)
  {
    if data.None? then Int(0) else Coalesce(data.value.totalPages, Int(0))
  }

  /** The pager shows `pageIndex + 1`. */
  function DisplayedPage(pg: Pagination): int { pg.pageIndex + 1 }

  /** The pager's `onChange(event, value)`: `{ ...prev, pageIndex: value - 1 }`. */
  function OnPagerChange(pg: Pagination, value: int): (r: Pagination)
    ensures DisplayedPage(r) == value
    ensures r.pageSize == pg.pageSize
  {
    pg.(pageIndex := value - 1)
  }

  /** Clicking the page already shown leaves the pagination as it was. */
  lemma PagerIdempotent(pg: Pagination)
    ensures OnPagerChange(pg, DisplayedPage(pg)) == pg
  {
  }

  /** The users table's status cell. */
  function StatusLabel(activeStatus: Value): (text: string)
    ensures text == "Active" <==> Truthy(activeStatus)
    ensures text == "Out Of Office" <==> !Truthy(activeStatus)
  {
    if Truthy(activeStatus) then "Active" else "Out Of Office"
  }

  // ---------------------------------------------------------------------------
  // Deleting a row

  /** `arr.splice(i, 1)` on the rows: remove the element at `i`; past the end, nothing. */
  function RemoveAt(s: seq<Value>, i: nat): (r: seq<Value>)
    ensures i < |s| ==> |r| == |s| - 1 && multiset(r) + multiset{s[i]} == multiset(s)
    ensures i < |s| ==> (forall j :: 0 <= j < i ==> r[j] == s[j]) && (forall j :: i <= j < |r| ==> r[j] == s[j + 1])
    ensures i >= |s| ==> r == s
  {
    if i < |s| then
      assert s == s[..i] + [s[i]] + s[i + 1..];
      s[..i] + s[i + 1..]
    else s
  }

  /** The row the delete button was pressed on: its position in the table and its id. */
  datatype Row = Row(index: nat, id: Value)

  /** What confirming a deletion does besides changing the page's state. */
  datatype DeleteEffects = DeleteEffects(
    deleteRequest: Option<string>,  // the path of the DELETE sent
    threw: bool,                    // the handler stopped with a TypeError
    refetched: bool)

  /** The state of a list page. */
  class ListPage {
    const page: Page
    var table: TableState
    var tableData: Option<seq<Value>>   // None: `undefined`
    var openConfirmDialog: bool
    var rowToDelete: Option<Row>

    constructor (page: Page)
      ensures this.page == page && table == InitialState && tableData == Some([])
      ensures !openConfirmDialog && rowToDelete.None?
    {
      this.page := page;
      table := InitialState;
      tableData := Some([]);
      openConfirmDialog := false;
      rowToDelete := None;
    }

    /** `data={tableData ?? []}`: the rows the table shows. */
    function Rows(): seq<Value>
      reads this
    {
      tableData.GetOr([])
    }

    /** The effect `data && setTableData(data.items)`, run when a response arrives. */
    method OnData(data: Option<Envelope>)
      modifies this
      ensures data.Some? ==> tableData == data.value.items
      ensures data.None? ==> tableData == old(tableData)
      ensures table == old(table) && openConfirmDialog == old(openConfirmDialog) && rowToDelete == old(rowToDelete)
    {
      if data.Some? {
        tableData := data.value.items;
      }
    }

    /** The pager's `onChange`. */
    method ChangePage(value: int)
      modifies this
      ensures table == old(table).(pagination := OnPagerChange(old(table).pagination, value))
      ensures tableData == old(tableData) && openConfirmDialog == old(openConfirmDialog) && rowToDelete == old(rowToDelete)
    {
      table := table.(pagination := OnPagerChange(table.pagination, value));
    }

    /** `handleDeleteRow(row)`: open the dialog and remember the row. */
    method HandleDeleteRow(row: Row)
      modifies this
      ensures openConfirmDialog && rowToDelete == Some(row)
      ensures table == old(table) && tableData == old(tableData)
    {
      openConfirmDialog := true;
      rowToDelete := Some(row);
    }

    /** `handleCloseConfirmDialog()` */
    method HandleCloseConfirmDialog()
      modifies this
      ensures !openConfirmDialog
      ensures table == old(table) && tableData == old(tableData) && rowToDelete == old(rowToDelete)
    {
      openConfirmDialog := false;
    }

    /**
     * `handleConfirmDelete()`: with a remembered row, send the DELETE and
     * splice the row out of the table data, then close the dialog and
     * refetch. When the table data is `undefined` the splice throws after the
     * DELETE has been sent, and the dialog stays open.
     */
    method HandleConfirmDelete() returns (fx: DeleteEffects)
      modifies this
      ensures old(rowToDelete).None? ==>
        fx == DeleteEffects(None, false, true) && !openConfirmDialog && tableData == old(tableData)
      ensures old(rowToDelete).Some? ==>
        fx.deleteRequest == Some(page.deletePrefix + Render(old(rowToDelete).value.id))
      ensures old(rowToDelete).Some? && old(tableData).None? ==>
        fx.threw && !fx.refetched && openConfirmDialog == old(openConfirmDialog) && tableData.None?
      ensures old(rowToDelete).Some? && old(tableData).Some? ==>
        !fx.threw && fx.refetched && !openConfirmDialog &&
        tableData == Some(RemoveAt(old(tableData).value, old(rowToDelete).value.index))
      ensures table == old(table) && rowToDelete == old(rowToDelete)
    {
      if rowToDelete.Some? {
        var request := page.deletePrefix + Render(rowToDelete.value.id);
        if tableData.None? {
          return DeleteEffects(Some(request), true, false);
        }
        tableData := Some(RemoveAt(tableData.value, rowToDelete.value.index));
        fx := DeleteEffects(Some(request), false, true);
      } else {
        fx := DeleteEffects(None, false, true);
      }
      openConfirmDialog := false;
    }
  }
}
