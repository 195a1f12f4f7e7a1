/**
 * The list page's controls: a sort header that flips the order when clicked
 * again, and the pagination bar with its two guarded buttons.
 */
module DocumentsPage {
  import opened Wrappers
  import opened DocumentContext

  /** `handleSort`'s order: descending only on a second click of the field
      sorted ascending. */
  function NextSortOrder(opts: QueryOptions, sortBy: string): (r: string)
    ensures r == "desc" <==> opts.sortBy == sortBy && opts.sortOrder == "asc"
    ensures r == "asc" || r == "desc"
  {
    if opts.sortBy == sortBy && opts.sortOrder == "asc" then "desc" else "asc"
  }

  /** The options update `handleSort` sends. */
  function SortChange(opts: QueryOptions, sortBy: string): OptionsChange {
    OptionsChange(None, None, Some(sortBy), Some(NextSortOrder(opts, sortBy)))
  }

  /** A click on a sort field sorts by it, from the first page, keeping the
      filter and the search; clicking the same field again reverses the order
      whenever the first click chose ascending. */
  lemma SortClicks(opts: QueryOptions, sortBy: string)
    ensures var once := MergeOptions(opts, SortChange(opts, sortBy));
      && once.sortBy == sortBy && once.page == 1
      && once.filter == opts.filter && once.search == opts.search
      && (once.sortOrder == "asc" ==> MergeOptions(once, SortChange(once, sortBy)).sortOrder == "desc")
      && (once.sortOrder == "desc" ==> MergeOptions(once, SortChange(once, sortBy)).sortOrder == "asc")
  {
  }

  /** What `Pagination` renders: nothing, or the two buttons with their
      disabled flags. */
  datatype PaginationView = Hidden | Controls(previousDisabled: bool, nextDisabled: bool)

  function PaginationBar(p: PageInfo, loading: bool): (r: PaginationView)
    ensures r.Hidden? <==> p.totalPages <= 1
    ensures r.Controls? ==> (r.previousDisabled <==> p.page <= 1 || loading)
    ensures r.Controls? ==> (r.nextDisabled <==> p.page >= p.totalPages || loading)
  {
    if p.totalPages <= 1 then Hidden
    else Controls(p.page <= 1 || loading, p.page >= p.totalPages || loading)
  }

  /** On an existing page, an enabled button leads to an existing page, which
      `goToPage` therefore takes. */
  lemma EnabledButtonsMove(opts: QueryOptions, p: PageInfo, loading: bool)
    requires PageExists(p.page, p.totalPages)
    ensures var v := PaginationBar(p, loading);
      && (v.Controls? && !v.previousDisabled ==> JumpTo(opts, p.page - 1, p.totalPages).page == p.page - 1)
      && (v.Controls? && !v.nextDisabled ==> JumpTo(opts, p.page + 1, p.totalPages).page == p.page + 1)
  {
  }
}
