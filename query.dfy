/** The parameters `fetchRecords` chooses for one request to the listing endpoint. */
module Query {
  import opened Wrappers

  /** The fixed page size sent as `limit`. */
  const PageSize: int := 10

  /**
   * What a caller passes as `colors`. Only an array (`Array.isArray`) becomes
   * a filter; a single string or an unset value does not.
   */
  datatype ColorsArg = ColorList(items: seq<string>) | ColorText(text: string) | ColorsUnset

  /** The query values: `offset`, `limit` and the repeated `color[]` filter, absent when `None`. */
  datatype Query = Query(offset: int, limit: int, colors: Option<seq<string>>)

  /** JavaScript's `x || d` for an integer `x`: `d` exactly when `x` is zero. */
  function OrInt(x: int, d: int): (r: int)
    ensures x != 0 ==> r == x
    ensures x == 0 ==> r == d
  {
    if x == 0 then d else x
  }

  /**
   * The query for `page`: offset `10 * (page - 1 || 0)`, limit 10, and the
   * colors as the filter only when they form an array. The page is not clamped.
   */
  function BuildQuery(page: int, colors: ColorsArg): (q: Query)
    ensures q.limit == 10
    ensures q.offset == 10 * (page - 1)
    ensures page == 1 ==> q.offset == 0
    ensures page >= 1 ==> q.offset >= 0 && q.offset % 10 == 0
    ensures q.colors.Some? <==> colors.ColorList?
    ensures colors.ColorList? ==> q.colors.value == colors.items
  {
    Query(10 * OrInt(page - 1, 0), PageSize, if colors.ColorList? then Some(colors.items) else None)
  }

  /** Consecutive pages ask for adjacent windows of the listing. */
  lemma NextQueryFollows(page: int, colors: ColorsArg)
    ensures BuildQuery(page + 1, colors).offset == BuildQuery(page, colors).offset + BuildQuery(page, colors).limit
    ensures BuildQuery(page + 1, colors).colors == BuildQuery(page, colors).colors
  {
  }
}
