/**
 * The Access-Control headers that CORS-enabled views put on every response:
 * which origin is allowed, which methods and headers, and credentials.
 */
module Cors {
  import opened JsonValues
  import opened Strings
  import opened Requests

  /** Methods for which any origin's AJAX request is answered with its own origin. */
  const SafeCorsMethods: set<string> := {"GET", "HEAD", "TRACE"}

  const AllowOriginHeader := "Access-Control-Allow-Origin"
  const AllowMethodsHeader := "Access-Control-Allow-Methods"
  const AllowHeadersHeader := "Access-Control-Allow-Headers"
  const AllowCredentialsHeader := "Access-Control-Allow-Credentials"

  /** `request.META.get(name)`: None when the header is absent. */
  function MetaGet(meta: map<string, string>, name: string): (r: Option<string>)
    ensures r.Some? <==> name in meta
    ensures r.Some? ==> r.value == meta[name]
  {
    if name in meta then Some(meta[name]) else None
  }

  /** The request is trusted for unsafe methods: it came through an origin client or a logged-in user. */
  predicate Trusted(req: Request)
  {
    req.client.OriginClient? || req.user.isAuthenticated
  }

  /**
   * The Access-Control-Allow-Origin value: the request's Origin header for
   * GET/HEAD/TRACE, for OPTIONS when the view always allows it, and for a
   * trusted request; "*" otherwise.
   */
  function AllowOrigin(req: Request, alwaysAllowOptions: bool): (r: Option<string>)
    ensures req.verb in SafeCorsMethods ==> r == MetaGet(req.meta, "HTTP_ORIGIN")
    ensures alwaysAllowOptions && req.verb == "OPTIONS" ==> r == MetaGet(req.meta, "HTTP_ORIGIN")
    ensures Trusted(req) ==> r == MetaGet(req.meta, "HTTP_ORIGIN")
    ensures r != MetaGet(req.meta, "HTTP_ORIGIN") ==> r == Some("*")
    ensures req.verb !in SafeCorsMethods && !(alwaysAllowOptions && req.verb == "OPTIONS") && !Trusted(req) ==>
      r == Some("*")
  {
    if req.verb in SafeCorsMethods then MetaGet(req.meta, "HTTP_ORIGIN")
    else if alwaysAllowOptions && req.verb == "OPTIONS" then MetaGet(req.meta, "HTTP_ORIGIN")
    else if req.client.OriginClient? || req.user.isAuthenticated then MetaGet(req.meta, "HTTP_ORIGIN")
    else Some("*")
  }

  /** An anonymous unsafe request without an origin client is answered with the wildcard. */
  lemma AnonymousWriteGetsWildcard(req: Request)
    requires req.verb == "POST" && !req.user.isAuthenticated && !req.client.OriginClient?
    ensures AllowOrigin(req, true) == Some("*")
    ensures AllowOrigin(req.(verb := "GET"), true) == MetaGet(req.meta, "HTTP_ORIGIN")
  {
  }

  /** A response and its headers (None is a header set from an absent request header). */
  class Response {
    var headers: map<string, Option<string>>

    constructor (headers: map<string, Option<string>>)
      ensures this.headers == headers
    {
      this.headers := headers;
    }
  }

  /** The four Access-Control headers for a request. */
  function CorsHeaders(req: Request, alwaysAllowOptions: bool, allowedMethods: seq<string>)
    : (h: map<string, Option<string>>)
    ensures h.Keys == {AllowOriginHeader, AllowMethodsHeader, AllowHeadersHeader, AllowCredentialsHeader}
    ensures h[AllowOriginHeader] == AllowOrigin(req, alwaysAllowOptions)
    ensures h[AllowMethodsHeader] == Some(Join(", ", allowedMethods))
    ensures h[AllowHeadersHeader] ==
      Some(if "HTTP_ACCESS_CONTROL_REQUEST_HEADERS" in req.meta then req.meta["HTTP_ACCESS_CONTROL_REQUEST_HEADERS"] else "")
    ensures h[AllowCredentialsHeader] == Some("true")
  {
    map[AllowOriginHeader := AllowOrigin(req, alwaysAllowOptions),
        AllowMethodsHeader := Some(Join(", ", allowedMethods)),
        AllowHeadersHeader := Some(if "HTTP_ACCESS_CONTROL_REQUEST_HEADERS" in req.meta
                                   then req.meta["HTTP_ACCESS_CONTROL_REQUEST_HEADERS"] else ""),
        AllowCredentialsHeader := Some("true")]
  }

  /** CorsEnabledMixin.finalize_response: writes the four headers and keeps the others. */
  method FinalizeResponse(req: Request, response: Response, alwaysAllowOptions: bool,
                          allowedMethods: seq<string>)
    modifies response
    ensures response.headers == old(response.headers) + CorsHeaders(req, alwaysAllowOptions, allowedMethods)
  {
    var origin;
    if req.verb in SafeCorsMethods {
      origin := MetaGet(req.meta, "HTTP_ORIGIN");
    } else if alwaysAllowOptions && req.verb == "OPTIONS" {
      origin := MetaGet(req.meta, "HTTP_ORIGIN");
    } else if req.client.OriginClient? || req.user.isAuthenticated {
      origin := MetaGet(req.meta, "HTTP_ORIGIN");
    } else {
      origin := Some("*");
    }
    var methods := Some(Join(", ", allowedMethods));
    var requested := Some(if "HTTP_ACCESS_CONTROL_REQUEST_HEADERS" in req.meta
                          then req.meta["HTTP_ACCESS_CONTROL_REQUEST_HEADERS"] else "");
    var credentials := Some("true");
    assert CorsHeaders(req, alwaysAllowOptions, allowedMethods) ==
      map[AllowOriginHeader := origin, AllowMethodsHeader := methods,
          AllowHeadersHeader := requested, AllowCredentialsHeader := credentials];
    UpdatesAreUnion(response.headers, origin, methods, requested, credentials);
    response.headers := response.headers[AllowOriginHeader := origin][AllowMethodsHeader := methods]
                                        [AllowHeadersHeader := requested][AllowCredentialsHeader := credentials];
  }

  /** Writing the four headers one by one is the union with the four of them. */
  lemma UpdatesAreUnion(h: map<string, Option<string>>, origin: Option<string>, methods: Option<string>,
                        requested: Option<string>, credentials: Option<string>)
    ensures h[AllowOriginHeader := origin][AllowMethodsHeader := methods]
             [AllowHeadersHeader := requested][AllowCredentialsHeader := credentials] ==
      h + map[AllowOriginHeader := origin, AllowMethodsHeader := methods,
              AllowHeadersHeader := requested, AllowCredentialsHeader := credentials]
  {
  }

  /** For example: GET and POST give the methods header "GET, POST". */
  lemma MethodsHeaderExample()
    ensures Join(", ", ["GET", "POST"]) == "GET, POST"
  {
  }
}
