/** The transaction list's view state: page, type filter and date range, the handlers that
    change them, and the query the list is fetched with. */
module Transactions {
  import opened Wrappers

  const DefaultPage := 1
  const DefaultLimit := 10
  const AllTypes := "all"

  /** The parameters `getTransactions` is called with. */
  datatype TransactionQuery = TransactionQuery(
    page: int, limit: int, txType: Option<string>, startDate: string, endDate: string)

  /** The view state a list can be in. */
  datatype ListState = ListState(page: int, typeFilter: string, startDate: string, endDate: string)

  /** The query for a state: the `'all'` type is left out. */
  function QueryFor(st: ListState): (q: TransactionQuery)
    ensures q.limit == DefaultLimit && q.page == st.page
    ensures q.txType.None? <==> st.typeFilter == AllTypes
  {
    TransactionQuery(
      st.page, DefaultLimit,
      if st.typeFilter != AllTypes then Some(st.typeFilter) else None,
      st.startDate, st.endDate)
  }

  /** Reads the state back from a query. */
  function StateOf(q: TransactionQuery): ListState {
    ListState(q.page, q.txType.GetOr(AllTypes), q.startDate, q.endDate)
  }

  /** The query loses nothing: the state can be read back from it. */
  lemma QueryDeterminesState(st: ListState, other: ListState)
    ensures StateOf(QueryFor(st)) == st
    ensures QueryFor(st) == QueryFor(other) ==> st == other
  {
    assert StateOf(QueryFor(other)) == other;
  }

  /** `useTransactions`: the state fields and their handlers. */
  class TransactionList {
    var page: int
    var typeFilter: string
    var startDate: string
    var endDate: string

    function State(): ListState
      reads this
    {
      ListState(page, typeFilter, startDate, endDate)
    }

    /** The query the list is fetched with in the current state. */
    function Query(): TransactionQuery
      reads this
    {
      QueryFor(State())
    }

    /** First page, every type, and the default date range (computed from the clock by the
        caller, and passed in here). */
    constructor (defaultStart: string, defaultEnd: string)
      ensures State() == ListState(DefaultPage, AllTypes, defaultStart, defaultEnd)
      ensures Query().txType == None
    {
      page := DefaultPage;
      typeFilter := AllTypes;
      startDate := defaultStart;
      endDate := defaultEnd;
    }

    /** `handlePageChange`: only the page changes. */
    method HandlePageChange(newPage: int)
      modifies this
      ensures State() == old(State()).(page := newPage)
    {
      page := newPage;
    }

    /** `handleTypeFilterChange`: new type filter, back to the first page. */
    method HandleTypeFilterChange(value: string)
      modifies this
      ensures State() == old(State()).(typeFilter := value, page := DefaultPage)
    {
      typeFilter := value;
      page := DefaultPage;
    }

    /** `handleStartDateChange`: new start date, back to the first page. */
    method HandleStartDateChange(value: string)
      modifies this
      ensures State() == old(State()).(startDate := value, page := DefaultPage)
    {
      startDate := value;
      page := DefaultPage;
    }

    /** `handleEndDateChange`: new end date, back to the first page. */
    method HandleEndDateChange(value: string)
      modifies this
      ensures State() == old(State()).(endDate := value, page := DefaultPage)
    {
      endDate := value;
      page := DefaultPage;
    }
  }
}
