/**
 * The CORS middleware that runs before every route (server.js lines 12-25):
 * the permissive headers are set only for the shop's own origin, and a
 * preflight OPTIONS request ends there with 204 whatever its origin.
 */
module Cors {
  import opened Wrappers
  import opened JsValues

  /** A response header, name and value. */
  type Header = (string, string)

  /** The configured shop origin, `https://${SHOP}`. */
  function AllowedOrigin(shop: string): (o: string)
    ensures |o| == 8 + |shop| && o[..8] == "https://" && o[8..] == shop
  {
    "https://" + shop
  }

  /** The five headers set for an allowed origin, in the order they are set. */
  function CorsHeaders(shop: string): (h: seq<Header>)
    ensures |h| == 5 && h[0] == ("Access-Control-Allow-Origin", AllowedOrigin(shop))
    ensures forall i, j :: 0 <= i < j < |h| ==> h[i].0 != h[j].0
    ensures ("Access-Control-Allow-Methods", "POST,OPTIONS") in h
  {
    [ ("Access-Control-Allow-Origin", AllowedOrigin(shop)),
      ("Vary", "Origin"),
      ("Access-Control-Allow-Methods", "POST,OPTIONS"),
      ("Access-Control-Allow-Headers", "Content-Type"),
      ("Access-Control-Max-Age", "86400") ]
  }

  /** What the middleware does: the headers it sets, and whether it ends the request with 204. */
  datatype Decision = Decision(headers: seq<Header>, endsWith204: bool)

  /**
   * The middleware on one request. `origin` is the Origin header (None when
   * absent). The origin test `origin && origin === ALLOWED_ORIGIN` is kept
   * as written; the truthiness half never matters, since the allowed origin
   * is never empty.
   */
  function Middleware(shop: string, verb: string, origin: Option<string>): (d: Decision)
    ensures d.endsWith204 <==> verb == "OPTIONS"
    ensures d.headers != [] <==> origin == Some(AllowedOrigin(shop))
    ensures d.headers != [] ==> d.headers == CorsHeaders(shop)
    ensures d.headers != [] ==> d.headers[0] == ("Access-Control-Allow-Origin", origin.value)
  {
    var allowed := Truthy(origin) && origin.value == AllowedOrigin(shop);
    Decision(if allowed then CorsHeaders(shop) else [], verb == "OPTIONS")
  }

  /** A preflight ends with 204 whether or not its origin is allowed. */
  lemma PreflightAlways204(shop: string, origin: Option<string>)
    ensures Middleware(shop, "OPTIONS", origin).endsWith204
    ensures origin != Some(AllowedOrigin(shop)) ==> Middleware(shop, "OPTIONS", origin).headers == []
  {
  }

  /**
   * The match is exact: an origin for another shop, the shop's plain-http
   * origin, or no Origin header at all gets no CORS header.
   */
  lemma OnlyExactOriginGetsHeaders(shop: string, other: string, verb: string)
    requires other != shop
    ensures Middleware(shop, verb, Some(AllowedOrigin(other))).headers == []
    ensures Middleware(shop, verb, Some("http://" + shop)).headers == []
    ensures Middleware(shop, verb, None).headers == []
  {
    assert AllowedOrigin(other)[8..] != AllowedOrigin(shop)[8..];
  }
}
