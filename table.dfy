/**
 * `useTable` (hooks/useTable.ts): the same pagination and search state as
 * app/hooks/useTable.ts, but always starting at page 0 with 10 rows a page.
 */
module Table {
  import opened AppTable

  class UseTable {
    var paginationModel: PaginationModel
    var searchQuery: string
    var loading: bool
    var totalRows: int

    function State(): TableState
      reads this
    {
      TableState(paginationModel, searchQuery, loading, totalRows)
    }

    /** `useTable()`: takes no options. */
    constructor ()
      ensures paginationModel == PaginationModel(0, 10)
      ensures searchQuery == "" && !loading && totalRows == 0
      ensures State() == Initial(0, 10)
    {
      paginationModel := PaginationModel(0, 10);
      searchQuery := "";
      loading := false;
      totalRows := 0;
    }

    method HandlePaginationModelChange(newModel: PaginationModel)
      modifies this
      ensures paginationModel == newModel
      ensures searchQuery == old(searchQuery) && loading == old(loading) && totalRows == old(totalRows)
      ensures State() == PaginationChanged(old(State()), newModel)
    {
      paginationModel := newModel;
    }

    /** `setPaginationModel({...paginationModel, page: 0})` on the current model. */
    method HandleSearchChange(value: string)
      modifies this
      ensures searchQuery == value
      ensures paginationModel == PaginationModel(0, old(paginationModel.pageSize))
      ensures loading == old(loading) && totalRows == old(totalRows)
      ensures State() == SearchChanged(old(State()), value)
    {
      searchQuery := value;
      paginationModel := PaginationModel(0, paginationModel.pageSize);
    }

    method SetLoading(value: bool)
      modifies this
      ensures loading == value
      ensures paginationModel == old(paginationModel) && searchQuery == old(searchQuery) && totalRows == old(totalRows)
    {
      loading := value;
    }

    method SetTotalRows(value: int)
      modifies this
      ensures totalRows == value
      ensures paginationModel == old(paginationModel) && searchQuery == old(searchQuery) && loading == old(loading)
    {
      totalRows := value;
    }
  }

  /**
   * A page-size change followed by a search, run one after the other on a
   * table, ends on page 0 with the new page size.
   */
  method PageSizeThenSearch(t: UseTable, m: PaginationModel, q: string)
    modifies t
    ensures t.paginationModel == PaginationModel(0, m.pageSize) && t.searchQuery == q
  {
    t.HandlePaginationModelChange(m);
    t.HandleSearchChange(q);
  }
}
