/** backend/src/middleware/cors.js: the CORS response headers and the preflight short-cut. */
module Cors {
  import opened Wrappers

  const AllowMethods := "GET,POST,PUT,PATCH,DELETE,OPTIONS"
  const AllowHeaders := "Content-Type, Authorization, X-Requested-With, Accept"

  /** The four headers every response carries. */
  datatype CorsHeaders = CorsHeaders(
    allowOrigin: string, allowMethods: string, allowHeaders: string, allowCredentials: string)

  /** Whether the request's `Origin` header may be echoed back. */
  function IsOriginAllowed(allowed: seq<string>, origin: Option<string>): (ok: bool)
    ensures ok <==> origin.None? || origin.value == "" || "*" in allowed || origin.value in allowed
  {
    if origin.None? || origin.value == "" then true
    else if "*" in allowed then true
    else exists i :: 0 <= i < |allowed| && allowed[i] == origin.value
  }

  /** `allowedOrigins[0] || "*"`. */
  function FirstOrigin(allowed: seq<string>): string {
    if |allowed| > 0 && allowed[0] != "" then allowed[0] else "*"
  }

  /** `applyCors`: the headers set on a response to a request with the given `Origin`. */
  function ApplyCors(allowed: seq<string>, origin: Option<string>): (h: CorsHeaders)
    ensures h.allowMethods == AllowMethods && h.allowHeaders == AllowHeaders && h.allowCredentials == "true"
    ensures IsOriginAllowed(allowed, origin) && origin.Some? && origin.value != "" ==> h.allowOrigin == origin.value
    ensures origin.None? || origin == Some("") ==> h.allowOrigin == "*"
    ensures !IsOriginAllowed(allowed, origin) ==> h.allowOrigin == FirstOrigin(allowed)
  {
    var value :=
      if IsOriginAllowed(allowed, origin) then (if origin.Some? && origin.value != "" then origin.value else "*")
      else FirstOrigin(allowed);
    CorsHeaders(value, AllowMethods, AllowHeaders, "true")
  }

  /**
   * An origin outside the allowed list is never echoed back (the wildcard
   * itself is not an origin a browser sends).
   */
  lemma DisallowedOriginNotEchoed(allowed: seq<string>, origin: string)
    requires origin != "*"
    requires !IsOriginAllowed(allowed, Some(origin))
    ensures ApplyCors(allowed, Some(origin)).allowOrigin != origin
  {
    if |allowed| > 0 && allowed[0] != "" {
      assert allowed[0] in allowed;
    }
  }

  /** With the default list `["*"]` every non-empty origin is echoed back. */
  lemma WildcardEchoesOrigin(origin: string)
    requires origin != ""
    ensures ApplyCors(["*"], Some(origin)).allowOrigin == origin
  {
    assert "*" in ["*"];
  }

  /** What `handlePreflight` did: whether it answered the request, and with which status and headers. */
  datatype Preflight = NotPreflight | Answered(status: int, headers: CorsHeaders)

  /** `handlePreflight`: an OPTIONS request is answered at once with 204 and the CORS headers. */
  function HandlePreflight(httpMethod: string, allowed: seq<string>, origin: Option<string>): (p: Preflight)
    ensures p.Answered? <==> httpMethod == "OPTIONS"
    ensures p.Answered? ==> p.status == 204 && p.headers == ApplyCors(allowed, origin)
  {
    if httpMethod == "OPTIONS" then Answered(204, ApplyCors(allowed, origin)) else NotPreflight
  }
}
