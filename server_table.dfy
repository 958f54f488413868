/**
  The server-mode table controller (`useServerDataTable`). Sorting, filtering and
  pagination have no local effect on the rows; every interaction is turned into
  an outbound ServerTableFilters record handed to `onFiltersChange`. The record
  is always built over the `initialFilters` prop, and a search, sort or
  column-filter change resets its `page` to 1.
 */
module ServerTable {
  import opened Js
  import opened TableState

  /** A ServerTableFilters record: a JavaScript object, so spreading is map union. */
  type Filters = map<string, Val>

  /** The `initialFilters` default `{ page: 1, limit: 10 }`. */
  const DefaultFilters: Filters := map["page" := Num(1), "limit" := Num(10)]

  /** `filters.page || 1` (a non-number page is read as absent). */
  function PageNumber(f: Filters): int {
    if "page" in f && f["page"].Num? && f["page"].n != 0 then f["page"].n else 1
  }

  /** `filters.limit || 10` (a non-number limit is read as absent). */
  function PageSize(f: Filters): int {
    if "limit" in f && f["limit"].Num? && f["limit"].n != 0 then f["limit"].n else 10
  }

  /** The pagination shown to the table: derived from the filters, never stored. */
  function DisplayedPagination(f: Filters): (p: Pagination)
    ensures p.pageSize != 0
    ensures "page" in f && f["page"].Num? && f["page"].n != 0 ==> p.pageIndex == f["page"].n - 1
    ensures !("page" in f && f["page"].Num? && f["page"].n != 0) ==> p.pageIndex == 0
    ensures "limit" in f && f["limit"].Num? && f["limit"].n != 0 ==> p.pageSize == f["limit"].n
    ensures !("limit" in f && f["limit"].Num? && f["limit"].n != 0) ==> p.pageSize == 10
  {
    Pagination(PageNumber(f) - 1, PageSize(f))
  }

  /** `{ ...initialFilters, page: pageIndex + 1, limit: pageSize }` */
  function PaginationEmission(base: Filters, p: Pagination): (r: Filters)
    ensures r.Keys == base.Keys + {"page", "limit"}
    ensures r["page"] == Num(p.pageIndex + 1) && r["limit"] == Num(p.pageSize)
    ensures forall k :: k in base && k != "page" && k != "limit" ==> r[k] == base[k]
  {
    base["page" := Num(p.pageIndex + 1)]["limit" := Num(p.pageSize)]
  }

  /** The order a sort entry is sent as. */
  function OrderOf(e: SortEntry): (v: Val)
    ensures v == Str("desc") <==> e.desc
    ensures v == Str("asc") <==> !e.desc
  {
    if e.desc then Str("desc") else Str("asc")
  }

  /** The record a sorting change emits: only the primary sort entry is sent. */
  function SortingEmission(base: Filters, sorting: seq<SortEntry>): (r: Filters)
    ensures r.Keys == base.Keys + {"sort", "order", "page"}
    ensures r["page"] == Num(1)
    ensures |sorting| > 0 ==>
      r["sort"] == Str(sorting[0].id) && (r["order"] == Str("desc") <==> sorting[0].desc)
    ensures |sorting| > 0 ==> (r["order"] == Str("asc") <==> !sorting[0].desc)
    ensures |sorting| == 0 ==> r["sort"] == Undefined && r["order"] == Undefined
    ensures forall k :: k in base && k != "sort" && k != "order" && k != "page" ==> r[k] == base[k]
  {
    if |sorting| > 0 then
      base["sort" := Str(sorting[0].id)]["order" := OrderOf(sorting[0])]["page" := Num(1)]
    else
      base["sort" := Undefined]["order" := Undefined]["page" := Num(1)]
  }

  /** The column ids that occur in a column-filter state. */
  function FilterIds(cfs: seq<ColumnFilter>): set<string> {
    set i | 0 <= i < |cfs| :: cfs[i].id
  }

  /** `columnFilters.reduce((acc, f) => { acc[f.id] = f.value; return acc }, {})` */
  function ColumnFilterMap(cfs: seq<ColumnFilter>): (m: map<string, Val>)
    ensures m.Keys == FilterIds(cfs)
  {
    if cfs == [] then map[]
    else
      var prefix := cfs[..|cfs| - 1];
      var last := cfs[|cfs| - 1];
      assert FilterIds(cfs) == FilterIds(prefix) + {last.id} by {
        forall k | k in FilterIds(cfs) ensures k in FilterIds(prefix) + {last.id} {
          var i :| 0 <= i < |cfs| && cfs[i].id == k;
          if i < |prefix| { assert prefix[i] == cfs[i]; }
        }
        forall k | k in FilterIds(prefix) ensures k in FilterIds(cfs) {
          var i :| 0 <= i < |prefix| && prefix[i].id == k;
          assert cfs[i] == prefix[i];
        }
      }
      ColumnFilterMap(prefix)[last.id := last.value]
  }

  /** When a column id occurs several times, the last occurrence's value is the one sent. */
  lemma {:induction false} ColumnFilterMapLastWins(cfs: seq<ColumnFilter>, i: nat)
    requires i < |cfs|
    requires forall j :: i < j < |cfs| ==> cfs[j].id != cfs[i].id
    ensures cfs[i].id in ColumnFilterMap(cfs) && ColumnFilterMap(cfs)[cfs[i].id] == cfs[i].value
    decreases |cfs|
  {
    if i < |cfs| - 1 {
      var prefix := cfs[..|cfs| - 1];
      assert prefix[i] == cfs[i];
      forall j | i < j < |prefix| ensures prefix[j].id != prefix[i].id {
        assert prefix[j] == cfs[j];
      }
      ColumnFilterMapLastWins(prefix, i);
    }
  }

  /** `{ ...initialFilters, ...serverColumnFilters, page: 1 }` */
  function ColumnFiltersEmission(base: Filters, cfs: seq<ColumnFilter>): (r: Filters)
    ensures r.Keys == base.Keys + FilterIds(cfs) + {"page"}
    ensures r["page"] == Num(1)
    ensures forall k :: k in ColumnFilterMap(cfs) && k != "page" ==> r[k] == ColumnFilterMap(cfs)[k]
    ensures forall k :: k in base && k !in ColumnFilterMap(cfs) && k != "page" ==> r[k] == base[k]
  {
    (base + ColumnFilterMap(cfs))["page" := Num(1)]
  }

  /** `{ ...initialFilters, search: value, page: 1 }`, the debounced search record. */
  function SearchEmission(base: Filters, value: string): (r: Filters)
    ensures r.Keys == base.Keys + {"search", "page"}
    ensures r["search"] == Str(value) && r["page"] == Num(1)
    ensures forall k :: k in base && k != "search" && k != "page" ==> r[k] == base[k]
  {
    base["search" := Str(value)]["page" := Num(1)]
  }

  /** `{ ...initialFilters, ...partial }`: no page reset is forced. */
  function UpdateEmission(base: Filters, partial: Filters): (r: Filters)
    ensures r.Keys == base.Keys + partial.Keys
    ensures forall k :: k in partial ==> r[k] == partial[k]
    ensures forall k :: k in base && k !in partial ==> r[k] == base[k]
    ensures "page" !in partial ==> PageNumber(r) == PageNumber(base)
  {
    base + partial
  }

  /** What a call `onFiltersChange?.(f)` delivers: nothing when no listener was supplied. */
  function Delivered(listening: bool, f: Filters): (sent: seq<Filters>)
    ensures |sent| == if listening then 1 else 0
    ensures listening ==> sent[0] == f
  {
    if listening then [f] else []
  }

  /** The `pagination` summary the hook returns. */
  datatype PaginationSummary = PaginationSummary(
    currentPage: int,
    pageSize: int,
    totalCount: int,
    pageCount: int,
    hasNextPage: bool,
    hasPreviousPage: bool)

  function Summary(f: Filters, totalCount: int, pageCount: int): (s: PaginationSummary)
    ensures s.currentPage == DisplayedPagination(f).pageIndex + 1
    ensures s.pageSize == DisplayedPagination(f).pageSize
    ensures s.hasNextPage <==> s.currentPage < pageCount
    ensures s.hasPreviousPage <==> s.currentPage > 1
    ensures s.totalCount == totalCount && s.pageCount == pageCount
  {
    var page := PageNumber(f);
    PaginationSummary(page, PageSize(f), totalCount, pageCount, page < pageCount, page > 1)
  }

  /**
    Emitting a page request and reading the displayed pagination back from it gives
    the requested pagination, except for page index -1 (page 0 is falsy and reads as
    page 1) and page size 0 (limit 0 is falsy and reads as 10).
   */
  lemma PaginationRoundTrip(base: Filters, p: Pagination)
    ensures DisplayedPagination(PaginationEmission(base, p)) == p <==> p.pageIndex != -1 && p.pageSize != 0
  {
  }

  /** With the default props (page 1, page count 0) neither next nor previous is offered. */
  lemma DefaultSummaryHasNoNeighbours()
    ensures !Summary(DefaultFilters, 0, 0).hasNextPage && !Summary(DefaultFilters, 0, 0).hasPreviousPage
  {
  }

  /** Every emission except a pagination change or a partial update lands on page index 0. */
  lemma ResetsLandOnFirstPage(base: Filters, sorting: seq<SortEntry>, cfs: seq<ColumnFilter>, search: string)
    ensures DisplayedPagination(SortingEmission(base, sorting)).pageIndex == 0
    ensures DisplayedPagination(ColumnFiltersEmission(base, cfs)).pageIndex == 0
    ensures DisplayedPagination(SearchEmission(base, search)).pageIndex == 0
  {
  }

  /** The hook's state: props it is rendered with, local UI state, and what it emitted. */
  class ServerTableController {
    // props, replaced by the parent on every render
    var initialFilters: Filters
    var totalCount: int
    var pageCount: int
    var listening: bool
    const enableRowSelection: bool

    // local UI state (`useState` slices)
    var sorting: seq<SortEntry>
    var columnFilters: seq<ColumnFilter>
    var columnVisibility: Visibility
    var rowSelection: Selection
    var globalFilter: string

    // the search value the debounced callback will deliver when its window elapses
    var pendingSearch: Option<string>

    // every record handed to `onFiltersChange`, oldest first
    var emitted: seq<Filters>

    constructor (initialFilters: Option<Filters>, totalCount: Option<int>, pageCount: Option<int>,
                 listening: bool, enableRowSelection: Option<bool>)
      ensures this.initialFilters == initialFilters.GetOr(DefaultFilters)
      ensures this.totalCount == totalCount.GetOr(0) && this.pageCount == pageCount.GetOr(0)
      ensures this.listening == listening && this.enableRowSelection == enableRowSelection.GetOr(true)
      ensures sorting == [] && columnFilters == [] && columnVisibility == map[] && rowSelection == map[]
      ensures globalFilter == "" && pendingSearch == None && emitted == []
    {
      this.initialFilters := initialFilters.GetOr(DefaultFilters);
      this.totalCount := totalCount.GetOr(0);
      this.pageCount := pageCount.GetOr(0);
      this.listening := listening;
      this.enableRowSelection := enableRowSelection.GetOr(true);
      sorting := [];
      columnFilters := [];
      columnVisibility := map[];
      rowSelection := map[];
      globalFilter := "";
      pendingSearch := None;
      emitted := [];
    }

    /** The state handed to the table library. */
    function State(): Snapshot
      reads this
    {
      Snapshot(sorting, columnFilters, columnVisibility, rowSelection,
               DisplayedPagination(initialFilters), globalFilter)
    }

    /** The `pagination` field of the hook's result. */
    function PaginationInfo(): (r: PaginationSummary)
      reads this
      ensures r.currentPage == State().pagination.pageIndex + 1 && r.pageSize == State().pagination.pageSize
      ensures r.hasNextPage <==> r.currentPage < pageCount
      ensures r.hasPreviousPage <==> r.currentPage > 1
      ensures r.totalCount == totalCount && r.pageCount == pageCount
    {
      Summary(initialFilters, totalCount, pageCount)
    }

    /** A re-render with new props; local state survives. */
    method Rerender(initialFilters: Option<Filters>, totalCount: Option<int>, pageCount: Option<int>, listening: bool)
      modifies this`initialFilters, this`totalCount, this`pageCount, this`listening
      ensures this.initialFilters == initialFilters.GetOr(DefaultFilters)
      ensures this.totalCount == totalCount.GetOr(0) && this.pageCount == pageCount.GetOr(0)
      ensures this.listening == listening
      ensures State().pagination == DisplayedPagination(initialFilters.GetOr(DefaultFilters))
      ensures State().(pagination := old(State()).pagination) == old(State())
    {
      this.initialFilters := initialFilters.GetOr(DefaultFilters);
      this.totalCount := totalCount.GetOr(0);
      this.pageCount := pageCount.GetOr(0);
      this.listening := listening;
    }

    method Emit(f: Filters)
      modifies this`emitted
      ensures emitted == old(emitted) + Delivered(listening, f)
    {
      if listening {
        emitted := emitted + [f];
      }
    }

    /** `setPagination`: the updater sees the pagination derived from the props. */
    method SetPagination(u: Updater<Pagination>)
      modifies this`emitted
      ensures emitted == old(emitted) +
        Delivered(listening, PaginationEmission(initialFilters, Apply(u, DisplayedPagination(initialFilters))))
      ensures State() == old(State())
    {
      var next := Apply(u, DisplayedPagination(initialFilters));
      Emit(PaginationEmission(initialFilters, next));
    }

    /** `handleSortingChange` */
    method SortingChange(u: Updater<seq<SortEntry>>)
      modifies this`sorting, this`emitted
      ensures sorting == Apply(u, old(sorting))
      ensures emitted == old(emitted) + Delivered(listening, SortingEmission(initialFilters, sorting))
    {
      sorting := Apply(u, sorting);
      Emit(SortingEmission(initialFilters, sorting));
    }

    /** `handleGlobalFilterChange`: the value is shown at once, its emission is deferred. */
    method GlobalFilterChange(value: string)
      modifies this`globalFilter, this`pendingSearch
      ensures globalFilter == value && pendingSearch == Some(value)
    {
      globalFilter := value;
      pendingSearch := Some(value);
    }

    /** The debounce window elapses without a further keystroke. */
    method DebounceElapsed()
      modifies this`pendingSearch, this`emitted
      ensures pendingSearch == None
      ensures emitted == old(emitted) +
        (if old(pendingSearch).Some? then Delivered(listening, SearchEmission(initialFilters, old(pendingSearch).value)) else [])
    {
      if pendingSearch.Some? {
        Emit(SearchEmission(initialFilters, pendingSearch.value));
        pendingSearch := None;
      }
    }

    /** `handleColumnFiltersChange` */
    method ColumnFiltersChange(u: Updater<seq<ColumnFilter>>)
      modifies this`columnFilters, this`emitted
      ensures columnFilters == Apply(u, old(columnFilters))
      ensures emitted == old(emitted) + Delivered(listening, ColumnFiltersEmission(initialFilters, columnFilters))
    {
      columnFilters := Apply(u, columnFilters);
      Emit(ColumnFiltersEmission(initialFilters, columnFilters));
    }

    /** `onColumnVisibilityChange: setColumnVisibility` */
    method ColumnVisibilityChange(u: Updater<Visibility>)
      modifies this`columnVisibility
      ensures columnVisibility == Apply(u, old(columnVisibility))
    {
      columnVisibility := Apply(u, columnVisibility);
    }

    /** `onRowSelectionChange: setRowSelection` */
    method RowSelectionChange(u: Updater<Selection>)
      modifies this`rowSelection
      ensures rowSelection == Apply(u, old(rowSelection))
    {
      rowSelection := Apply(u, rowSelection);
    }

    /** `resetFilters`: local only; a search already scheduled still fires. */
    method ResetFilters()
      modifies this`globalFilter, this`columnFilters, this`sorting
      ensures globalFilter == "" && columnFilters == [] && sorting == []
    {
      globalFilter := "";
      columnFilters := [];
      sorting := [];
    }

    /** `clearSelection` */
    method ClearSelection()
      modifies this`rowSelection
      ensures rowSelection == map[]
    {
      rowSelection := map[];
    }

    /** `updateServerFilters` */
    method UpdateServerFilters(partial: Filters)
      modifies this`emitted
      ensures emitted == old(emitted) + Delivered(listening, UpdateEmission(initialFilters, partial))
    {
      Emit(UpdateEmission(initialFilters, partial));
    }

    /**
      Keystrokes typed within one debounce window, then the window elapses: exactly
      one record is emitted (when a listener exists), carrying the last value typed.
     */
    method TypeWithinWindow(keys: seq<string>)
      requires |keys| > 0
      modifies this`globalFilter, this`pendingSearch, this`emitted
      ensures globalFilter == keys[|keys| - 1] && pendingSearch == None
      ensures emitted == old(emitted) + Delivered(listening, SearchEmission(initialFilters, keys[|keys| - 1]))
    {
      var i := 0;
      while i < |keys|
        invariant 0 <= i <= |keys|
        invariant emitted == old(emitted)
        invariant i > 0 ==> globalFilter == keys[i - 1] && pendingSearch == Some(keys[i - 1])
      {
        GlobalFilterChange(keys[i]);
        i := i + 1;
      }
      DebounceElapsed();
    }
  }

  /**
    With initial filters `{ page: 1, limit: 10 }`, typing "f", "fo", "foo" in one window
    makes exactly one call, with `{ page: 1, limit: 10, search: "foo" }`.
   */
  method SearchScenario() returns (calls: seq<Filters>)
    ensures calls == [map["page" := Num(1), "limit" := Num(10), "search" := Str("foo")]]
  {
    var t := new ServerTableController(None, None, None, true, None);
    t.TypeWithinWindow(["f", "fo", "foo"]);
    calls := t.emitted;
    assert SearchEmission(DefaultFilters, "foo") == map["page" := Num(1), "limit" := Num(10), "search" := Str("foo")];
  }
}
