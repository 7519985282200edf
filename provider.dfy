/**
 * What the list view reads from its data provider, as plain values: the
 * number of models on the current page, the total number of models, the
 * pagination (absent when the provider returns `false`) and the sort (likewise).
 */
module Provider {
  import opened Wrappers

  /** A pagination as the view reads it: `getPage()`, `pageSize` and `pageCount`. */
  datatype Pagination = Pagination(page: int, pageSize: int, pageCount: int)

  /** A sort definition; only whether its attribute list is empty matters here. */
  datatype Sort = Sort(attributes: set<string>)

  datatype DataProvider = DataProvider(
    count: int,
    totalCount: int,
    pagination: Option<Pagination>,
    sort: Option<Sort>)

  /**
   * What a well-behaved provider reports: a 0-based page, no larger a page
   * than the page size, no more models shown than exist from the page's first
   * row on, and, when the page has rows, a page inside the page count (a
   * provider without results may report a page count of 0). Nothing in the
   * view checks this.
   */
  predicate Consistent(dp: DataProvider) {
    && 0 <= dp.count
    && match dp.pagination
       case None => true
       case Some(p) =>
         && 0 < p.pageSize
         && 0 <= p.page
         && (dp.count > 0 ==> p.page < p.pageCount)
         && dp.count <= p.pageSize
         && p.page * p.pageSize + dp.count <= dp.totalCount
  }
}
