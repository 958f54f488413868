/**
  The interactive state of one table instance, shared by the client-mode and the
  server-mode controller: sorting, column filters, pagination, selection and
  column visibility, and the updater convention of the table library
  (a setter receives either a new value or a function of the current one).
 */
module TableState {
  import opened Js

  /** One entry of the sorting state; the first entry is the primary sort. */
  datatype SortEntry = SortEntry(id: string, desc: bool)

  /** One entry of the column-filter state: a column id and an opaque filter value. */
  datatype ColumnFilter = ColumnFilter(id: string, value: Val)

  /** 0-based page index and page size. */
  datatype Pagination = Pagination(pageIndex: int, pageSize: int)

  /** Row id to selected flag. */
  type Selection = map<string, bool>

  /** Column id to visible flag; an absent column is visible. */
  type Visibility = map<string, bool>

  /** `Updater<T>`: a plain new value, or a function applied to the current value. */
  datatype Updater<!T> = Replace(value: T) | Update(f: T -> T)

  /** `typeof updater === "function" ? updater(current) : updater` */
  function Apply<T>(u: Updater<T>, current: T): T {
    match u
    case Replace(v) => v
    case Update(f) => f(current)
  }

  /** The state a controller hands to the table library on each render. */
  datatype Snapshot = Snapshot(
    sorting: seq<SortEntry>,
    columnFilters: seq<ColumnFilter>,
    columnVisibility: Visibility,
    rowSelection: Selection,
    pagination: Pagination,
    globalFilter: string)
}
