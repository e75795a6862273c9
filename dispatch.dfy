/** The search page's dispatcher: which of its five handlers serves a request,
    decided by the request method, the presence of a saved-search id in the
    route and whether the query dictionary is empty. */
module Dispatch {
  import opened Records

  /** The inputs the search page sees. A route that captures `search_id`
      captures a non-empty string of digits, which Python treats as true, so
      the id decides the dispatch by its presence alone. */
  datatype Request = Request(httpMethod: string, searchId: Option<nat>,
                             query: QueryDict, post: QueryDict, user: Requester)

  datatype Handler = UpdateSearch | CreateSearch | ReadSearch | FilterAds | Home {
    /** The handlers that serve a form submission. */
    predicate IsWrite() {
      this == UpdateSearch || this == CreateSearch
    }

    /** The handlers that work on a stored search named by the route. */
    predicate UsesSavedSearch() {
      this == UpdateSearch || this == ReadSearch
    }
  }

  /** `AdSearchView.dispatch`: a POST writes, updating the named search or
      creating one; any other method reads, the named search when there is
      one, else a filter over a non-empty query, else the home page. */
  function Route(req: Request): (h: Handler)
    ensures h.IsWrite() <==> req.httpMethod == "POST"
    ensures h.UsesSavedSearch() <==> req.searchId.Some?
    ensures h == FilterAds <==> !h.IsWrite() && !h.UsesSavedSearch() && req.query != map[]
  {
    if req.httpMethod == "POST" then
      if req.searchId.Some? then UpdateSearch else CreateSearch
    else if req.searchId.Some? then ReadSearch
    else if req.query != map[] then FilterAds
    else Home
  }

  /** One row of the dispatch table; a `query` of None matches any query. */
  datatype Row = Row(post: bool, hasSearchId: bool, query: Option<bool>, handler: Handler)

  /** The five cases of `dispatch`, row by row. */
  const DispatchTable: seq<Row> := [
    Row(true, true, None, UpdateSearch),
    Row(true, false, None, CreateSearch),
    Row(false, true, None, ReadSearch),
    Row(false, false, Some(true), FilterAds),
    Row(false, false, Some(false), Home)
  ]

  predicate RowMatches(row: Row, req: Request) {
    && row.post == (req.httpMethod == "POST")
    && row.hasSearchId == req.searchId.Some?
    && (row.query.Some? ==> row.query.value == (req.query != map[]))
  }

  /** Every request matches exactly one row of the table, and the dispatcher
      picks that row's handler. */
  lemma RouteFollowsTable(req: Request)
    ensures exists i :: 0 <= i < |DispatchTable| && RowMatches(DispatchTable[i], req)
                        && Route(req) == DispatchTable[i].handler
                        && forall j :: 0 <= j < |DispatchTable| && j != i ==> !RowMatches(DispatchTable[j], req)
  {
    var post, hasId, hasQuery := req.httpMethod == "POST", req.searchId.Some?, req.query != map[];
    var i :=
      if post then (if hasId then 0 else 1)
      else if hasId then 2
      else if hasQuery then 3 else 4;
    assert RowMatches(DispatchTable[i], req) && Route(req) == DispatchTable[i].handler;
  }

  /** The query is consulted only for a read without a saved-search id:
      otherwise two requests that differ only in their query go to the same
      handler. */
  lemma RouteIgnoresQuery(req: Request, query: QueryDict)
    requires req.httpMethod == "POST" || req.searchId.Some?
    ensures Route(req.(query := query)) == Route(req)
  {
  }
}
