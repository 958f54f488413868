/**
  The stateless server table view (`ServerDataTable` and its pagination bar):
  the "has filters" test and the clear-filters button, the skeleton, empty and
  data bodies, the column-visibility menu, the row-range caption, the page-size
  selector and the four page-navigation buttons.
 */
module ServerTableView {
  import opened Js
  import opened TableState
  import opened ServerTable

  /** `columnFilters.length > 0 || globalFilter` */
  predicate HasFilters(s: Snapshot) {
    |s.columnFilters| > 0 || s.globalFilter != ""
  }

  /**
    The clear-filters button: `resetColumnFilters()` reaches the controller's
    column-filter handler with an empty list, `setGlobalFilter("")` its search handler.
   */
  method ClearFilters(t: ServerTableController)
    modifies t`columnFilters, t`emitted, t`globalFilter, t`pendingSearch
    ensures !HasFilters(t.State())
    ensures t.columnFilters == [] && t.globalFilter == "" && t.pendingSearch == Some("")
    ensures t.emitted == old(t.emitted) + Delivered(t.listening, ColumnFiltersEmission(t.initialFilters, []))
  {
    t.ColumnFiltersChange(Replace([]));
    t.GlobalFilterChange("");
  }

  /** The clear button shows exactly when some column filter is set or the search box is truthy. */
  lemma ClearButtonShown(s: Snapshot)
    ensures HasFilters(s) <==> s.columnFilters != [] || Truthy(Str(s.globalFilter))
    ensures !HasFilters(s) ==> s.columnFilters == [] && s.globalFilter == ""
  {
  }

  /** The three numbers of the caption "Hiển thị {startRow} - {endRow} trong tổng số {totalRows}". */
  datatype RowRange = RowRange(currentPage: int, startRow: int, endRow: int)

  function Min(a: int, b: int): int { if a <= b then a else b }

  function PageRange(p: Pagination, totalRows: int): (r: RowRange)
    ensures r.currentPage == p.pageIndex + 1
    ensures r.startRow == p.pageIndex * p.pageSize + 1
    ensures r.endRow == Min(r.currentPage * p.pageSize, totalRows)
    ensures r.endRow <= totalRows
    ensures r.endRow - r.startRow + 1 <= p.pageSize
    ensures totalRows >= r.currentPage * p.pageSize ==> r.endRow - r.startRow + 1 == p.pageSize
  {
    var currentPage := p.pageIndex + 1;
    assert currentPage * p.pageSize == p.pageIndex * p.pageSize + p.pageSize;
    RowRange(currentPage, p.pageIndex * p.pageSize + 1, Min(currentPage * p.pageSize, totalRows))
  }

  /** The start of the range is not clamped: an empty result reads "1 - 0". */
  lemma EmptyResultRange(p: Pagination)
    requires p.pageIndex >= 0 && p.pageSize >= 0
    ensures PageRange(p, 0).endRow == 0
    ensures PageRange(p, 0).startRow >= 1
    ensures PageRange(p, 0).startRow > PageRange(p, 0).endRow
  {
    var cp := p.pageIndex + 1;
    assert cp * p.pageSize >= 0 by {
      assert cp >= 0;
    }
    assert p.pageIndex * p.pageSize >= 0;
  }

  /** What a navigation button asks the table to do. */
  datatype NavAction = SetPageIndex(index: int) | PreviousPage | NextPage

  datatype NavButton = NavButton(action: NavAction, enabled: bool)

  /**
    First, previous, next and last, left to right. Whether the table can move back
    or forward is decided by the table library and given here.
   */
  function NavButtons(canPrevious: bool, canNext: bool, pageCount: int): (r: seq<NavButton>)
    ensures |r| == 4
    ensures r[0].action == SetPageIndex(0) && r[1].action == PreviousPage
    ensures r[2].action == NextPage && r[3].action == SetPageIndex(pageCount - 1)
    ensures r[0].enabled == r[1].enabled == canPrevious
    ensures r[3].enabled == r[2].enabled == canNext
  {
    [NavButton(SetPageIndex(0), canPrevious), NavButton(PreviousPage, canPrevious),
     NavButton(NextPage, canNext), NavButton(SetPageIndex(pageCount - 1), canNext)]
  }

  const PageSizeChoices: seq<nat> := [10, 20, 30, 40, 50]

  /** The select items: each choice rendered as the string `${size}`. */
  function PageSizeItems(): (items: seq<string>)
    ensures |items| == |PageSizeChoices|
    ensures forall i :: 0 <= i < |items| ==> items[i] == NatToString(PageSizeChoices[i])
  {
    seq(|PageSizeChoices|, i requires 0 <= i < |PageSizeChoices| => NatToString(PageSizeChoices[i]))
  }

  /** `onValueChange`: `table.setPageSize(Number(value))`; a non-numeric value gives `None`. */
  function PageSizeRequest(value: string): Option<int> {
    var n := ParseNat(value);
    if n.Some? then Some(n.value) else None
  }

  /** Any decimal rendering of a size is read back as that size. */
  lemma PageSizeRequestOfDecimal(n: nat)
    ensures PageSizeRequest(NatToString(n)) == Some(n)
  {
    ParseNatOfNatToString(n);
  }

  /** Choosing any of the five items asks for exactly that page size. */
  lemma {:induction false} PageSizeItemRoundTrip(i: nat)
    requires i < |PageSizeChoices|
    ensures PageSizeRequest(PageSizeItems()[i]) == Some(PageSizeChoices[i])
  {
    ParseNatOfNatToString(PageSizeChoices[i]);
  }

  /** One row of the table body. */
  datatype BodyRow =
    | SkeletonRow(cells: nat)
    | DataRow(index: nat)
    | EmptyRow(colSpan: nat, message: string)

  const SkeletonRowCount := 5
  const DefaultEmptyMessage := "Không có dữ liệu"

  /** The table body for the loading flag, the number of rows and of columns. */
  function Body(isLoading: bool, rowCount: nat, columnCount: nat, emptyMessage: Option<string>): (rows: seq<BodyRow>)
    ensures isLoading ==> |rows| == SkeletonRowCount && forall i :: 0 <= i < |rows| ==> rows[i] == SkeletonRow(columnCount)
    ensures !isLoading && rowCount == 0 ==> rows == [EmptyRow(columnCount, emptyMessage.GetOr(DefaultEmptyMessage))]
    ensures !isLoading && rowCount > 0 ==> |rows| == rowCount && forall i :: 0 <= i < |rows| ==> rows[i] == DataRow(i)
  {
    if isLoading then seq(SkeletonRowCount, _ => SkeletonRow(columnCount))
    else if rowCount > 0 then seq(rowCount, (i: nat) => DataRow(i))
    else [EmptyRow(columnCount, emptyMessage.GetOr(DefaultEmptyMessage))]
  }

  /** What the visibility menu needs to know of a column. */
  datatype ColumnInfo = ColumnInfo(id: string, hasAccessor: bool, canHide: bool)

  predicate Listed(c: ColumnInfo) { c.hasAccessor && c.canHide }

  /** The columns the visibility menu offers, in column order (see `VisibilityMenuAppend`). */
  function VisibilityMenu(columns: seq<ColumnInfo>): (r: seq<ColumnInfo>)
    ensures forall c :: c in r <==> c in columns && Listed(c)
    ensures |r| <= |columns|
  {
    if columns == [] then []
    else
      var rest := VisibilityMenu(columns[1..]);
      if Listed(columns[0]) then [columns[0]] + rest else rest
  }

  /** The menu keeps column order: the menu of two runs of columns is the first's followed by the second's. */
  lemma {:induction false} VisibilityMenuAppend(a: seq<ColumnInfo>, b: seq<ColumnInfo>)
    ensures VisibilityMenu(a + b) == VisibilityMenu(a) + VisibilityMenu(b)
    decreases |a|
  {
    if a == [] {
      assert a + b == b;
    } else {
      assert (a + b)[0] == a[0] && (a + b)[1..] == a[1..] + b;
      VisibilityMenuAppend(a[1..], b);
    }
  }

  /** A single column is listed on its own exactly when it can be hidden. */
  lemma VisibilityMenuSingle(c: ColumnInfo)
    ensures VisibilityMenu([c]) == if Listed(c) then [c] else []
  {
    assert [c][1..] == [];
  }

  /** `column.toggleVisibility(!!checked)`: the column's flag becomes the checked value. */
  function ToggleColumn(v: Visibility, id: string, checked: bool): (r: Visibility)
    ensures id in r && r[id] == checked
    ensures forall k :: k in v && k != id ==> k in r && r[k] == v[k]
    ensures r.Keys == v.Keys + {id}
  {
    v[id := checked]
  }

  /** Ticking a menu item on a server table changes that column only and emits nothing. */
  method ToggleVisibilityItem(t: ServerTableController, id: string, checked: bool)
    modifies t`columnVisibility
    ensures t.columnVisibility == ToggleColumn(old(t.columnVisibility), id, checked)
  {
    t.ColumnVisibilityChange(Update(v => ToggleColumn(v, id, checked)));
  }
}
