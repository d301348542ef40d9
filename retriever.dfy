/**
 * `fetchRecords`, `isNextPage` and `retrieve`: one page is fetched, a
 * lookahead fetch of the following page decides whether a next page exists,
 * and the fetched page is classified and summarised.
 */
module Retriever {
  import opened Wrappers
  import opened Records
  import opened Query
  import opened Classifier
  import opened Aggregator

  /**
   * What the endpoint does with one query. `Delivered` is a success response
   * whose body is an array of records; `NotOk` a response with a failure
   * status; `NetworkError` a request that never got a response;
   * `UnreadableBody` a success response whose body cannot be parsed.
   */
  datatype Transport = Delivered(records: seq<Record>) | NotOk | NetworkError | UnreadableBody

  /** The error that escapes `fetchRecords`: the rejected, un-awaited `response.json()`. */
  datatype RetrieveError = BodyRejected

  /**
   * The arguments of `retrieve`; an unset page defaults to 1. A call with no
   * argument at all gets `{ page: 1 }`, that is `Options(Some(1), ColorsUnset)`.
   */
  datatype Options = Options(page: Option<int>, colors: ColorsArg)

  /** What `retrieve` resolves to when nothing escapes. */
  datatype PageResult = PageResult(
    previousPage: Option<int>,
    nextPage: Option<int>,
    ids: seq<string>,
    open: seq<Classified>,
    closedPrimaryCount: int)

  /**
   * How `fetchRecords` treats a response: a bad status and a failed request
   * are both caught and become the empty page; an unparsable body escapes.
   */
  function Normalise(t: Transport): (r: Result<seq<Record>, RetrieveError>)
    ensures r.Failure? <==> t.UnreadableBody?
    ensures t.Delivered? ==> r == Success(t.records)
    ensures t.NotOk? || t.NetworkError? ==> r == Success([])
  {
    match t
    case Delivered(records) => Success(records)
    case NotOk => Success([])
    case NetworkError => Success([])
    case UnreadableBody => Failure(BodyRejected)
  }

  /** `fetchRecords({ page, colors })`: one request for the query of that page. */
  method FetchRecords(server: Query -> Transport, page: int, colors: ColorsArg)
    returns (r: Result<seq<Record>, RetrieveError>)
    ensures r == Normalise(server(BuildQuery(page, colors)))
  {
    var query := BuildQuery(page, colors);
    var response := server(query);
    // a failure status throws "Bad Response"; that and a failed request are
    // caught by `fetchRecords`' own catch, which returns []
    r := Normalise(response);
  }

  /** The lookahead rule: the next page exists when its fetch yields at least one record. */
  function HasNext(server: Query -> Transport, page: int, colors: ColorsArg): (b: bool)
    ensures b <==> server(BuildQuery(page + 1, colors)).Delivered? && server(BuildQuery(page + 1, colors)).records != []
  {
    var fetched := Normalise(server(BuildQuery(page + 1, colors)));
    fetched.Success? && |fetched.value| > 0
  }

  /**
   * `isNextPage({ page, colors })`: fetches `page + 1` with the same colors;
   * a fetch that escapes is caught and counts as no next page.
   */
  method IsNextPage(server: Query -> Transport, page: int, colors: ColorsArg) returns (b: bool)
    ensures b <==> HasNext(server, page, colors)
    ensures b ==> server(BuildQuery(page + 1, colors)).Delivered?
  {
    var fetched := FetchRecords(server, page + 1, colors);
    match fetched {
      case Success(records) =>
        b := |records| > 0;
      case Failure(_) =>
        b := false;
    }
  }

  /** `page - 1 || null`: no previous page exactly when `page - 1` is zero. */
  function PreviousPage(page: int): (r: Option<int>)
    ensures r.None? <==> page == 1
    ensures r.Some? ==> r.value == page - 1
    ensures page >= 2 ==> r == Some(page - 1) && r.value >= 1
  {
    var p := page - 1;
    if p == 0 then None else Some(p)
  }

  /** `hasNextPage ? page + 1 : null` */
  function NextPage(page: int, hasNext: bool): (r: Option<int>)
    ensures r.Some? <==> hasNext
    ensures r.Some? ==> r.value == page + 1 && r.value > page
  {
    if hasNext then Some(page + 1) else None
  }

  /**
   * `retrieve({ page = 1, colors })`. The two fetches are made one after the
   * other; the result depends on the requested page's response for its
   * contents and only on the following page's response for `nextPage`.
   */
  method Retrieve(server: Query -> Transport, options: Options) returns (r: Result<PageResult, RetrieveError>)
    ensures var page := options.page.GetOr(1);
      r.Failure? <==> server(BuildQuery(page, options.colors)).UnreadableBody?
    ensures var page := options.page.GetOr(1);
      r.Success? ==>
        r.value.previousPage == PreviousPage(page) &&
        (r.value.nextPage.Some? <==> HasNext(server, page, options.colors)) &&
        (r.value.nextPage.Some? ==> r.value.nextPage.value == page + 1)
    ensures var page := options.page.GetOr(1);
      var records := Normalise(server(BuildQuery(page, options.colors)));
      r.Success? ==>
        var classified := ClassifyAll(records.value);
        |r.value.ids| == |records.value| &&
        (forall i :: 0 <= i < |records.value| ==> r.value.ids[i] == records.value[i].id) &&
        r.value.open == Open(classified) &&
        r.value.closedPrimaryCount == ClosedPrimaryCount(classified) &&
        r.value.closedPrimaryCount + |r.value.open| <= |records.value|
  {
    var page := options.page.GetOr(1);
    var fetched := FetchRecords(server, page, options.colors);
    var hasNextPage := IsNextPage(server, page, options.colors);
    match fetched {
      case Failure(e) =>
        r := Failure(e);
      case Success(records) =>
        var classified := PrimaryCheck(Some(records));
        var summary := Breakdown(Some(classified));
        CountBound(classified);
        r := Success(PageResult(PreviousPage(page), NextPage(page, hasNextPage),
                                summary.ids, summary.open, summary.closedPrimaryCount));
    }
  }

  /**
   * A page of exactly ten records followed by an empty page has no next
   * page: a full page alone never implies that more records exist.
   */
  method RetrieveFullLastPage(server: Query -> Transport, page: int, colors: ColorsArg) returns (r: Result<PageResult, RetrieveError>)
    requires server(BuildQuery(page, colors)).Delivered? && |server(BuildQuery(page, colors)).records| == PageSize
    requires server(BuildQuery(page + 1, colors)) == Delivered([])
    ensures r.Success? && r.value.nextPage.None? && |r.value.ids| == 10
  {
    r := Retrieve(server, Options(Some(page), colors));
  }

  /**
   * A requested page that comes back empty, with a failure status or as a
   * failed request summarises to nothing, while its next page is
   * still decided by the lookahead fetch alone.
   */
  method RetrieveEmptyPage(server: Query -> Transport, page: int, colors: ColorsArg) returns (r: Result<PageResult, RetrieveError>)
    requires Normalise(server(BuildQuery(page, colors))) == Success([])
    ensures r.Success? && r.value.ids == [] && r.value.open == [] && r.value.closedPrimaryCount == 0
    ensures r.value.nextPage.Some? <==> HasNext(server, page, colors)
  {
    r := Retrieve(server, Options(Some(page), colors));
  }
}
