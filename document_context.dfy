/**
 * The client's document-list state: the records shown, the loading flag, the
 * pagination the server reported and the query options sent with each fetch.
 * Changing the filter, search or sort always goes back to the first page; a
 * page jump is taken only when it lands on an existing page.
 */
module DocumentContext {
  import opened Wrappers
  import opened DocumentModel

  /** The query parameters of a fetch. */
  datatype QueryOptions = QueryOptions(page: int, filter: string, search: string, sortBy: string, sortOrder: string)

  /** The fields an options update supplies; absent ones are kept. */
  datatype OptionsChange = OptionsChange(filter: Option<string>, search: Option<string>, sortBy: Option<string>, sortOrder: Option<string>)

  /** The page the list is on and how many there are, as the server reported them. */
  datatype PageInfo = PageInfo(page: int, totalPages: int)

  /** A fetch's completion: the server's reply, or a failed request. */
  datatype Reply = Listed(documents: seq<Document>, page: int, totalPages: int) | RequestFailed

  const InitialOptions: QueryOptions := QueryOptions(1, "all", "", "createdAt", "desc")
  const InitialPageInfo: PageInfo := PageInfo(1, 1)

  /** `{...prev, ...newOptions, page: 1}`. */
  function MergeOptions(prev: QueryOptions, change: OptionsChange): (r: QueryOptions)
    ensures r.page == 1
    ensures r.filter == (if change.filter.Some? then change.filter.value else prev.filter)
    ensures r.search == (if change.search.Some? then change.search.value else prev.search)
    ensures r.sortBy == (if change.sortBy.Some? then change.sortBy.value else prev.sortBy)
    ensures r.sortOrder == (if change.sortOrder.Some? then change.sortOrder.value else prev.sortOrder)
  {
    QueryOptions(
      page := 1,
      filter := if change.filter.Some? then change.filter.value else prev.filter,
      search := if change.search.Some? then change.search.value else prev.search,
      sortBy := if change.sortBy.Some? then change.sortBy.value else prev.sortBy,
      sortOrder := if change.sortOrder.Some? then change.sortOrder.value else prev.sortOrder)
  }

  /** Applying the same change twice is applying it once, and an empty change
      only returns to the first page. */
  lemma MergeOptionsIdempotent(prev: QueryOptions, change: OptionsChange)
    ensures MergeOptions(MergeOptions(prev, change), change) == MergeOptions(prev, change)
    ensures MergeOptions(prev, OptionsChange(None, None, None, None)) == prev.(page := 1)
  {
  }

  /** A later change that supplies every field the earlier one did overrides
      it: only the later change and the unsupplied fields show. */
  lemma LaterChangeWins(prev: QueryOptions, first: OptionsChange, second: OptionsChange)
    requires first.filter.Some? ==> second.filter.Some?
    requires first.search.Some? ==> second.search.Some?
    requires first.sortBy.Some? ==> second.sortBy.Some?
    requires first.sortOrder.Some? ==> second.sortOrder.Some?
    ensures MergeOptions(MergeOptions(prev, first), second) == MergeOptions(prev, second)
  {
  }

  /** `goToPage`'s guard: the page exists. */
  predicate PageExists(p: int, totalPages: int) {
    p > 0 && p <= totalPages
  }

  /** The options after `goToPage(p)`. */
  function JumpTo(prev: QueryOptions, p: int, totalPages: int): (r: QueryOptions)
    ensures r.(page := prev.page) == prev
    ensures PageExists(p, totalPages) ==> r.page == p
    ensures !PageExists(p, totalPages) ==> r == prev
  {
    if PageExists(p, totalPages) then prev.(page := p) else prev
  }

  /** A page jump never leaves the existing pages once on one. */
  lemma JumpStaysOnExistingPages(prev: QueryOptions, p: int, totalPages: int)
    requires PageExists(prev.page, totalPages)
    ensures PageExists(JumpTo(prev, p, totalPages).page, totalPages)
  {
  }

  /** The provider's state and its transitions. */
  class DocumentProvider {
    var documents: seq<Document>
    var loading: bool
    var pagination: PageInfo
    var queryOptions: QueryOptions

    constructor ()
      ensures documents == [] && loading && pagination == InitialPageInfo && queryOptions == InitialOptions
    {
      documents, loading, pagination, queryOptions := [], true, InitialPageInfo, InitialOptions;
    }

    /** `updateQueryOptions`. */
    method UpdateQueryOptions(change: OptionsChange)
      modifies this
      ensures queryOptions == MergeOptions(old(queryOptions), change)
      ensures documents == old(documents) && loading == old(loading) && pagination == old(pagination)
    {
      queryOptions := MergeOptions(queryOptions, change);
    }

    /** `goToPage`: checked against the total the server last reported. */
    method GoToPage(p: int)
      modifies this
      ensures queryOptions == JumpTo(old(queryOptions), p, old(pagination.totalPages))
      ensures documents == old(documents) && loading == old(loading) && pagination == old(pagination)
    {
      if p > 0 && p <= pagination.totalPages {
        queryOptions := queryOptions.(page := p);
      }
    }

    /** `fetchDocuments` and its completion. Without a user the list is
        emptied and loading ends with no request; otherwise `reply` is what the
        request came back with: a listing replaces the records and the
        pagination, a failure empties the records and keeps the pagination. */
    method FetchDocuments(signedIn: bool, reply: Reply)
      modifies this
      ensures !loading && queryOptions == old(queryOptions)
      ensures !signedIn ==> documents == [] && pagination == old(pagination)
      ensures signedIn && reply.Listed? ==> documents == reply.documents && pagination == PageInfo(reply.page, reply.totalPages)
      ensures signedIn && reply.RequestFailed? ==> documents == [] && pagination == old(pagination)
    {
      if !signedIn {
        documents := [];
        loading := false;
        return;
      }
      loading := true;
      match reply {
        case Listed(docs, page, totalPages) =>
          documents := docs;
          pagination := PageInfo(page, totalPages);
        case RequestFailed =>
          documents := [];
      }
      loading := false;
    }
  }
}
