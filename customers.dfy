/** The customer list's view state: page, search text, status filter and sort, the handlers
    that change them, and the query the list is fetched with. */
module Customers {
  import opened Wrappers

  const DefaultPage := 1
  const DefaultLimit := 10
  const AllStatuses := "all"
  const DefaultSortBy := "createdAt"

  datatype SortOrder = Asc | Desc {
    /** The other direction: `sortOrder === 'asc' ? 'desc' : 'asc'`. */
    function Flipped(): (r: SortOrder)
      ensures r != this
    {
      if Asc? then Desc else Asc
    }
  }

  /** The column the list is sorted by and in which direction. */
  datatype Sort = Sort(field: string, order: SortOrder)

  /** `handleSortChange(field)`: clicking the sorted column flips its direction; clicking
      another column sorts by it, newest (descending) first. */
  function SortAfterClick(current: Sort, field: string): (r: Sort)
    ensures r.field == field
    ensures current.field == field ==> r.order != current.order
    ensures current.field != field ==> r.order == Desc
  {
    if current.field == field then Sort(current.field, current.order.Flipped()) else Sort(field, Desc)
  }

  /** Clicking the same column twice restores the sort; clicking a new column and then the
      same one again sorts it ascending. */
  lemma SortClicks(current: Sort, field: string)
    ensures SortAfterClick(SortAfterClick(current, current.field), current.field) == current
    ensures field != current.field ==> SortAfterClick(SortAfterClick(current, field), field) == Sort(field, Asc)
  {
  }

  /** The parameters `getCustomers` is called with. */
  datatype CustomerQuery = CustomerQuery(
    page: int, limit: int, search: Option<string>, status: Option<string>, sortBy: string, sortOrder: SortOrder)

  /** The view state a list can be in. */
  datatype ListState = ListState(page: int, search: string, statusFilter: string, sort: Sort)

  /** The query for a state: an empty search and the `'all'` status are left out. */
  function QueryFor(st: ListState): (q: CustomerQuery)
    ensures q.limit == DefaultLimit && q.page == st.page
    ensures q.search.None? <==> st.search == ""
    ensures q.status.None? <==> st.statusFilter == AllStatuses
  {
    CustomerQuery(
      st.page, DefaultLimit,
      if st.search != "" then Some(st.search) else None,
      if st.statusFilter != AllStatuses then Some(st.statusFilter) else None,
      st.sort.field, st.sort.order)
  }

  /** Reads the state back from a query, putting the defaults in for what was left out. */
  function StateOf(q: CustomerQuery): ListState {
    ListState(q.page, q.search.GetOr(""), q.status.GetOr(AllStatuses), Sort(q.sortBy, q.sortOrder))
  }

  /** The query loses nothing: the state can be read back from it, so two different states
      are never fetched with the same query. */
  lemma QueryDeterminesState(st: ListState, other: ListState)
    ensures StateOf(QueryFor(st)) == st
    ensures QueryFor(st) == QueryFor(other) ==> st == other
  {
    assert StateOf(QueryFor(other)) == other;
  }

  /** `useCustomers`: the state fields and their handlers. */
  class CustomerList {
    var page: int
    var search: string
    var statusFilter: string
    var sortBy: string
    var sortOrder: SortOrder

    function State(): ListState
      reads this
    {
      ListState(page, search, statusFilter, Sort(sortBy, sortOrder))
    }

    /** The query the list is fetched with in the current state. */
    function Query(): CustomerQuery
      reads this
    {
      QueryFor(State())
    }

    /** First page, no search, every status, newest first. */
    constructor ()
      ensures State() == ListState(DefaultPage, "", AllStatuses, Sort(DefaultSortBy, Desc))
      ensures Query() == CustomerQuery(DefaultPage, DefaultLimit, None, None, DefaultSortBy, Desc)
    {
      page := DefaultPage;
      search := "";
      statusFilter := AllStatuses;
      sortBy := DefaultSortBy;
      sortOrder := Desc;
    }

    /** `handlePageChange`: only the page changes. */
    method HandlePageChange(newPage: int)
      modifies this
      ensures State() == old(State()).(page := newPage)
    {
      page := newPage;
    }

    /** `handleSearchChange`: new search, back to the first page. */
    method HandleSearchChange(value: string)
      modifies this
      ensures State() == old(State()).(search := value, page := DefaultPage)
    {
      search := value;
      page := DefaultPage;
    }

    /** `handleStatusFilterChange`: new status filter, back to the first page. */
    method HandleStatusFilterChange(value: string)
      modifies this
      ensures State() == old(State()).(statusFilter := value, page := DefaultPage)
    {
      statusFilter := value;
      page := DefaultPage;
    }

    /** `handleSortChange`: the sort changes as `SortAfterClick` says; page, search and
        filter stay. */
    method HandleSortChange(field: string)
      modifies this
      ensures State() == old(State()).(sort := SortAfterClick(old(State()).sort, field))
    {
      if sortBy == field {
        sortOrder := if sortOrder == Asc then Desc else Asc;
      } else {
        sortBy := field;
        sortOrder := Desc;
      }
    }
  }
}
