/**
 * `useTable` (app/hooks/useTable.ts): pagination and search state of a data
 * grid, with configurable initial page and page size.
 */
module AppTable {
  import opened Common

  /** The data grid's pagination model. */
  datatype PaginationModel = PaginationModel(page: int, pageSize: int)

  /** Everything a table hook holds. */
  datatype TableState = TableState(
    paginationModel: PaginationModel,
    searchQuery: string,
    loading: bool,
    totalRows: int)

  const DefaultPageSize := 10
  const DefaultPage := 0

  /** The state a table starts in, for the given first page and page size. */
  function Initial(page: int, pageSize: int): TableState {
    TableState(PaginationModel(page, pageSize), "", false, 0)
  }

  /** `handlePaginationModelChange(m)`: the grid's new model replaces the old one. */
  function PaginationChanged(s: TableState, m: PaginationModel): TableState {
    s.(paginationModel := m)
  }

  /** `handleSearchChange(q)`: new query, back to the first page, page size kept. */
  function SearchChanged(s: TableState, q: string): TableState {
    s.(searchQuery := q, paginationModel := s.paginationModel.(page := 0))
  }

  /** Searching twice for the same text is the same as searching once. */
  lemma SearchIdempotent(s: TableState, q: string)
    ensures SearchChanged(SearchChanged(s, q), q) == SearchChanged(s, q)
  {
  }

  /** A search right after a page-size change keeps the new page size. */
  lemma SearchKeepsNewPageSize(s: TableState, m: PaginationModel, q: string)
    ensures SearchChanged(PaginationChanged(s, m), q).paginationModel == PaginationModel(0, m.pageSize)
    ensures SearchChanged(PaginationChanged(s, m), q).searchQuery == q
  {
  }

  class UseTable {
    var paginationModel: PaginationModel
    var searchQuery: string
    var loading: bool
    var totalRows: int

    function State(): TableState
      reads this
    {
      TableState(paginationModel, searchQuery, loading, totalRows)
    }

    /**
     * `useTable({defaultPageSize = 10, defaultPage = 0} = {})`: each option
     * that is given overrides its own default.
     */
    constructor (defaultPageSize: Option<int>, defaultPage: Option<int>)
      ensures paginationModel.pageSize == if defaultPageSize.Some? then defaultPageSize.value else 10
      ensures paginationModel.page == if defaultPage.Some? then defaultPage.value else 0
      ensures searchQuery == "" && !loading && totalRows == 0
      ensures State() == Initial(defaultPage.GetOr(DefaultPage), defaultPageSize.GetOr(DefaultPageSize))
    {
      paginationModel := PaginationModel(defaultPage.GetOr(DefaultPage), defaultPageSize.GetOr(DefaultPageSize));
      searchQuery := "";
      loading := false;
      totalRows := 0;
    }

    method HandlePaginationModelChange(newModel: PaginationModel)
      modifies this
      ensures paginationModel == newModel
      ensures searchQuery == old(searchQuery) && loading == old(loading) && totalRows == old(totalRows)
      ensures State() == PaginationChanged(old(State()), newModel)
    {
      paginationModel := newModel;
    }

    method HandleSearchChange(query: string)
      modifies this
      ensures searchQuery == query
      ensures paginationModel == PaginationModel(0, old(paginationModel.pageSize))
      ensures loading == old(loading) && totalRows == old(totalRows)
      ensures State() == SearchChanged(old(State()), query)
    {
      searchQuery := query;
      paginationModel := paginationModel.(page := 0);
    }

    /** The `setLoading` setter the hook hands out: only `loading` changes. */
    method SetLoading(value: bool)
      modifies this
      ensures loading == value
      ensures paginationModel == old(paginationModel) && searchQuery == old(searchQuery) && totalRows == old(totalRows)
    {
      loading := value;
    }

    /** The `setTotalRows` setter the hook hands out: only `totalRows` changes. */
    method SetTotalRows(value: int)
      modifies this
      ensures totalRows == value
      ensures paginationModel == old(paginationModel) && searchQuery == old(searchQuery) && loading == old(loading)
    {
      totalRows := value;
    }
  }
}
