/**
 * The update route as a client sees it: the CORS middleware runs first, and
 * a request it does not end reaches the handler (server.js lines 14-85).
 */
module Server {
  import opened Wrappers
  import opened Metafields
  import opened Handler
  import opened Cors

  /** Status, headers, JSON body (None for an empty 204), and the upstream calls made. */
  datatype HttpResponse<P> = HttpResponse(status: int, headers: seq<Header>, body: Option<Body<P>>, calls: seq<Call>)

  /**
   * A request to `/mycopet-customer-update` with the two methods that reach
   * this code path: a preflight OPTIONS, which the middleware answers, and a
   * POST, which goes on to the handler.
   */
  function UpdateRoute<P>(shop: string, b: Builtins, up: Upstream<P>,
                          verb: string, origin: Option<string>, req: Request): (r: HttpResponse<P>)
    requires verb == "POST" || verb == "OPTIONS"
    ensures verb == "OPTIONS" ==> r.status == 204 && r.body.None? && r.calls == []
    ensures verb == "POST" ==> r.status == 200 && r.body.Some?
    ensures verb == "POST" ==> (r.body.value.ok <==> !Handle(b, up, req).outcome.Failed?)
    ensures verb == "POST" ==> r.body == Some(ToBody(Handle(b, up, req).outcome))
    ensures verb == "POST" ==> r.calls == Handle(b, up, req).calls
    ensures r.headers == if origin == Some(AllowedOrigin(shop)) then CorsHeaders(shop) else []
  {
    var d := Middleware(shop, verb, origin);
    if d.endsWith204 then
      HttpResponse(204, d.headers, None, [])
    else
      var resp := Handle(b, up, req);
      HttpResponse(resp.status, d.headers, Some(ToBody(resp.outcome)), resp.calls)
  }

  /**
   * No POST or OPTIONS request whose JSON body the body parser accepted gets
   * an error status from this route.
   */
  lemma NeverAnErrorStatus<P>(shop: string, b: Builtins, up: Upstream<P>,
                              verb: string, origin: Option<string>, req: Request)
    requires verb == "POST" || verb == "OPTIONS"
    ensures 200 <= UpdateRoute(shop, b, up, verb, origin, req).status < 300
  {
  }
}
