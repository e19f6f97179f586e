/**
 * The cursor protocol of catalog search, as the doc comments of the two
 * Cursor properties fix it: the first request leaves the cursor unset;
 * each later request is the previous one with the cursor of the previous
 * response and nothing else changed; a response without a cursor is the
 * final page. The server is a parameter, and the caller bounds the number
 * of pages it is willing to fetch.
 */
module CatalogPagination {
  import opened Json
  import Nested
  import Req = SearchCatalogObjectsRequest
  import Resp = SearchCatalogObjectsResponse

  type Request = Req.SearchCatalogObjectsRequest
  type Response = Resp.SearchCatalogObjectsResponse

  /** What the server answers to each request. */
  type Server = Request -> Response

  /** One request sent, and the page it drew. */
  datatype Exchange = Exchange(request: Request, response: Response)

  /**
   * The exchanges of a run that starts with req and fetches at most budget
   * pages: it stops after the first response without a cursor.
   */
  function Exchanges(server: Server, req: Request, budget: nat): seq<Exchange>
    decreases budget
  {
    if budget == 0 then []
    else
      var resp := server(req);
      match resp.cursor
      case None => [Exchange(req, resp)]
      case Some(_) => [Exchange(req, resp)] + Exchanges(server, req.(cursor := resp.cursor), budget - 1)
  }

  /** The initial request: Cursor is never called, so no cursor key is written. */
  method FirstRequest(query: Option<Nested.CatalogQuery>, limit: Option<Int32>) returns (req: Request)
    ensures req.cursor == None
    ensures "cursor" !in req.WireKeys()
    ensures req.query == query && req.limit == limit
  {
    var b := new Req.Builder();
    b := b.Query(query);
    b := b.Limit(limit);
    req := b.Build();
    Req.WireKeysExact(req);
  }

  /**
   * The next-page request req.ToBuilder().Cursor(cursor).Build(): the cursor
   * is the one given, unmodified, and every filter and the limit are kept.
   */
  method NextRequest(req: Request, cursor: string) returns (next: Request)
    ensures next == req.(cursor := Some(cursor))
  {
    var b := req.ToBuilder();
    b := b.Cursor(Some(cursor));
    next := b.Build();
  }

  /** The client loop: fetch, and follow the cursor while there is one and the budget allows. */
  method Paginate(server: Server, first: Request, maxPages: nat) returns (pages: seq<Exchange>)
    ensures pages == Exchanges(server, first, maxPages)
  {
    pages := [];
    var req := first;
    var fetched := 0;
    var done := false;
    while !done && fetched < maxPages
      invariant fetched <= maxPages
      invariant !done ==> pages + Exchanges(server, req, maxPages - fetched) == Exchanges(server, first, maxPages)
      invariant done ==> pages == Exchanges(server, first, maxPages)
      decreases maxPages - fetched, !done
    {
      var resp := server(req);
      pages := pages + [Exchange(req, resp)];
      fetched := fetched + 1;
      match resp.cursor
      case None =>
        done := true;
      case Some(c) =>
        req := NextRequest(req, c);
    }
  }

  /**
   * The shape of every run: it starts with the given request, each response
   * is the server's answer to its request, each page but the last has a
   * cursor that the next request carries, and a run that stops before its
   * budget stops at a page without a cursor.
   */
  lemma {:induction false} ExchangesChain(server: Server, req: Request, budget: nat)
    ensures var xs := Exchanges(server, req, budget);
      && |xs| <= budget
      && (budget > 0 ==> |xs| > 0 && xs[0].request == req)
      && (forall i :: 0 <= i < |xs| ==> xs[i].response == server(xs[i].request))
      && (forall i :: 0 <= i < |xs| - 1 ==>
            xs[i].response.cursor.Some? && xs[i + 1].request == xs[i].request.(cursor := xs[i].response.cursor))
      && (0 < |xs| < budget ==> xs[|xs| - 1].response.cursor.None?)
    decreases budget
  {
    if budget > 0 {
      var resp := server(req);
      if resp.cursor.Some? {
        var next := req.(cursor := resp.cursor);
        ExchangesChain(server, next, budget - 1);
        var rest := Exchanges(server, next, budget - 1);
        var xs := Exchanges(server, req, budget);
        assert xs == [Exchange(req, resp)] + rest;
        forall i | 0 < i < |xs| ensures xs[i] == rest[i - 1] { }
      }
    }
  }

  /**
   * Every request of a run is the first request with another cursor: the
   * object types, flags, begin time, query and limit never change.
   */
  lemma {:induction false} FiltersKept(server: Server, req: Request, budget: nat)
    ensures forall x :: x in Exchanges(server, req, budget) ==> x.request == req.(cursor := x.request.cursor)
    decreases budget
  {
    if budget > 0 {
      var resp := server(req);
      if resp.cursor.Some? {
        var next := req.(cursor := resp.cursor);
        FiltersKept(server, next, budget - 1);
      }
    }
  }

  /** A server whose pages carry the cursors "A", "B" and then none. */
  function ThreePageServer(req: Request): Response
  {
    match req.cursor
    case None => Resp.New(cursor := Some("A"))
    case Some(c) => if c == "A" then Resp.New(cursor := Some("B")) else Resp.New()
  }

  /** Fed each cursor back, a run over the pages "A", "B", none visits exactly three pages. */
  lemma ThreePages(budget: nat)
    requires budget >= 3
    ensures var xs := Exchanges(ThreePageServer, Req.New(), budget);
      && |xs| == 3
      && xs[0].request.cursor == None
      && xs[1].request.cursor == Some("A")
      && xs[2].request.cursor == Some("B")
      && xs[2].response.cursor == None
  {
    var r0 := Req.New();
    var r1 := r0.(cursor := Some("A"));
    var r2 := r0.(cursor := Some("B"));
    assert r1.(cursor := Some("B")) == r2;
    var last := Exchanges(ThreePageServer, r2, budget - 2);
    assert last == [Exchange(r2, Resp.New())];
    var second := Exchanges(ThreePageServer, r1, budget - 1);
    assert second == [Exchange(r1, Resp.New(cursor := Some("B")))] + last;
    assert Exchanges(ThreePageServer, r0, budget) == [Exchange(r0, Resp.New(cursor := Some("A")))] + second;
  }
}
