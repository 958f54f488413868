/**
  The client-mode table controller (`useDataTable`): it owns the whole table state
  for rows already in memory. State is seeded from an optional initial state;
  a column-filter change sends the table back to its first page and keeps the
  page size; a sorting change leaves pagination alone.
 */
module ClientTable {
  import opened Js
  import opened TableState

  /** The `data` prop: absent, something that is not an array, or an array of rows. */
  datatype DataInput<T> = Missing | NotAnArray | Rows(rows: seq<T>)

  /** What the table is given: the one shared empty array `ARRAY`, or the caller's rows. */
  datatype TableData<T> = SharedEmpty | Data(rows: seq<T>)

  /** `memoData`: falsy, non-array and empty data all become the shared empty array. */
  function NormalizeData<T>(d: DataInput<T>): (r: TableData<T>)
    ensures r.SharedEmpty? <==> d.Missing? || d.NotAnArray? || d == Rows([])
    ensures r.Data? ==> d == Rows(r.rows) && r.rows != []
  {
    match d
    case Rows(rows) => if rows == [] then SharedEmpty else Data(rows)
    case _ => SharedEmpty
  }

  /** The optional pagination of an initial state, each half optional. */
  datatype PartialPagination = PartialPagination(pageIndex: Option<int>, pageSize: Option<int>)

  /** The `initialState` prop; every slice optional. Supplied column filters are ignored. */
  datatype InitialState = InitialState(
    rowSelection: Option<Selection>,
    columnVisibility: Option<Visibility>,
    pagination: Option<PartialPagination>,
    sorting: Option<seq<SortEntry>>,
    columnFilters: Option<seq<ColumnFilter>>)

  /** The five `useState` slices. */
  datatype ClientState = ClientState(
    rowSelection: Selection,
    columnVisibility: Visibility,
    pagination: Pagination,
    sorting: seq<SortEntry>,
    columnFilters: seq<ColumnFilter>)

  /** `initialState?.pagination?.pageIndex ?? 0` and `... ?.pageSize ?? 10` */
  function InitialPagination(init: Option<InitialState>): (p: Pagination)
    ensures (init.None? || init.value.pagination.None?) ==> p == Pagination(0, 10)
    ensures init.Some? && init.value.pagination.Some? ==>
      p.pageIndex == init.value.pagination.value.pageIndex.GetOr(0) &&
      p.pageSize == init.value.pagination.value.pageSize.GetOr(10)
  {
    if init.Some? && init.value.pagination.Some? then
      Pagination(init.value.pagination.value.pageIndex.GetOr(0), init.value.pagination.value.pageSize.GetOr(10))
    else
      Pagination(0, 10)
  }

  /** The state a freshly mounted table starts in. */
  function InitialTableState(init: Option<InitialState>): (s: ClientState)
    ensures s.columnFilters == []
    ensures s.pagination == InitialPagination(init)
    ensures init.None? ==> s == ClientState(map[], map[], Pagination(0, 10), [], [])
    ensures init.Some? ==>
      s.rowSelection == init.value.rowSelection.GetOr(map[]) &&
      s.columnVisibility == init.value.columnVisibility.GetOr(map[]) &&
      s.sorting == init.value.sorting.GetOr([])
  {
    if init.None? then ClientState(map[], map[], InitialPagination(init), [], [])
    else
      ClientState(init.value.rowSelection.GetOr(map[]), init.value.columnVisibility.GetOr(map[]),
                  InitialPagination(init), init.value.sorting.GetOr([]), [])
  }

  /** `onColumnFiltersChange`: the filters change and pagination returns to page 0. */
  function AfterColumnFilters(s: ClientState, u: Updater<seq<ColumnFilter>>): (r: ClientState)
    ensures r.pagination.pageIndex == 0 && r.pagination.pageSize == s.pagination.pageSize
    ensures r.columnFilters == Apply(u, s.columnFilters)
    ensures r.sorting == s.sorting && r.rowSelection == s.rowSelection && r.columnVisibility == s.columnVisibility
  {
    s.(columnFilters := Apply(u, s.columnFilters), pagination := Pagination(0, s.pagination.pageSize))
  }

  /** `onSortingChange`: only the sorting changes. */
  function AfterSorting(s: ClientState, u: Updater<seq<SortEntry>>): (r: ClientState)
    ensures r.pagination == s.pagination
    ensures r.sorting == Apply(u, s.sorting)
    ensures r.columnFilters == s.columnFilters && r.rowSelection == s.rowSelection && r.columnVisibility == s.columnVisibility
  {
    s.(sorting := Apply(u, s.sorting))
  }

  /** `onPaginationChange`: an updater is applied to the current pagination, a value replaces it. */
  function AfterPagination(s: ClientState, u: Updater<Pagination>): (r: ClientState)
    ensures u.Replace? ==> r.pagination == u.value
    ensures u.Update? ==> r.pagination == u.f(s.pagination)
    ensures r.sorting == s.sorting && r.columnFilters == s.columnFilters
    ensures r.rowSelection == s.rowSelection && r.columnVisibility == s.columnVisibility
  {
    s.(pagination := Apply(u, s.pagination))
  }

  /** Changing the filters twice in a row still lands on page 0 with the original page size. */
  lemma FilterChangesKeepPageSize(s: ClientState, u1: Updater<seq<ColumnFilter>>, u2: Updater<seq<ColumnFilter>>)
    ensures AfterColumnFilters(AfterColumnFilters(s, u1), u2).pagination == Pagination(0, s.pagination.pageSize)
  {
  }

  class ClientTableController<T> {
    var data: TableData<T>
    const enableRowSelection: bool
    var rowSelection: Selection
    var columnVisibility: Visibility
    var pagination: Pagination
    var sorting: seq<SortEntry>
    var columnFilters: seq<ColumnFilter>

    function State(): ClientState
      reads this
    {
      ClientState(rowSelection, columnVisibility, pagination, sorting, columnFilters)
    }

    /** Mount: seed the state; row selection is enabled whatever the caller asked for. */
    constructor (data: DataInput<T>, init: Option<InitialState>, callerEnableRowSelection: Option<bool>)
      ensures this.data == NormalizeData(data)
      ensures State() == InitialTableState(init)
      ensures enableRowSelection
    {
      this.data := NormalizeData(data);
      enableRowSelection := true;
      var s := InitialTableState(init);
      rowSelection := s.rowSelection;
      columnVisibility := s.columnVisibility;
      pagination := s.pagination;
      sorting := s.sorting;
      columnFilters := s.columnFilters;
    }

    /** A re-render with new data; the state survives. */
    method ReceiveData(d: DataInput<T>)
      modifies this`data
      ensures data == NormalizeData(d)
    {
      data := NormalizeData(d);
    }

    method PaginationChange(u: Updater<Pagination>)
      modifies this`pagination
      ensures State() == AfterPagination(old(State()), u)
    {
      pagination := Apply(u, pagination);
    }

    method SortingChange(u: Updater<seq<SortEntry>>)
      modifies this`sorting
      ensures State() == AfterSorting(old(State()), u)
    {
      sorting := Apply(u, sorting);
    }

    method ColumnFiltersChange(u: Updater<seq<ColumnFilter>>)
      modifies this`columnFilters, this`pagination
      ensures State() == AfterColumnFilters(old(State()), u)
    {
      var next := Apply(u, columnFilters);
      pagination := Pagination(0, pagination.pageSize);
      columnFilters := next;
    }

    method RowSelectionChange(u: Updater<Selection>)
      modifies this`rowSelection
      ensures rowSelection == Apply(u, old(rowSelection))
    {
      rowSelection := Apply(u, rowSelection);
    }

    method ColumnVisibilityChange(u: Updater<Visibility>)
      modifies this`columnVisibility
      ensures columnVisibility == Apply(u, old(columnVisibility))
    {
      columnVisibility := Apply(u, columnVisibility);
    }
  }
}
