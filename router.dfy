/**
 * The request router of backend/src/router.js: route paths compiled into
 * segment patterns, the route table, first-match selection, path
 * parameters, the body read, the sign-in gate and the mapping of thrown
 * errors to responses.
 *
 * A compiled path is the regular expression `^p1/p2/…/pn$`, where a
 * `:name` piece becomes `([^/]+)` and any other piece stands for itself.
 * No literal piece contains '/', and a capture cannot contain one either,
 * so the expression matches a pathname exactly when the pathname has as
 * many '/'-separated pieces as the pattern and each piece matches its
 * segment, a literal one by equality and a parameter one by being
 * non-empty. The model states matching in that form.
 */
module Router {
  import opened Wrappers
  import opened Strings
  import Http
  import Seqs
  import Requests
  import Responses

  /** One '/'-separated piece of a route path: literal text, or a `:name` parameter. */
  datatype Segment = Literal(text: string) | Param(name: string)

  function SegmentOf(piece: string): (seg: Segment)
    ensures seg.Param? <==> StartsWith(piece, ":")
    ensures seg.Param? ==> piece == ":" + seg.name
    ensures seg.Literal? ==> seg.text == piece
  {
    if StartsWith(piece, ":") then Param(piece[1..]) else Literal(piece)
  }

  /** The pattern `compilePath` builds for `path`, one segment per piece. */
  function Compiled(path: string): seq<Segment> {
    var pieces := Split(path, '/');
    seq(|pieces|, i requires 0 <= i < |pieces| => SegmentOf(pieces[i]))
  }

  /** The parameter names of a pattern, in order. */
  function ParamNames(pattern: seq<Segment>): (names: seq<string>)
    ensures |names| <= |pattern|
  {
    if pattern == [] then []
    else (if pattern[0].Param? then [pattern[0].name] else []) + ParamNames(pattern[1..])
  }

  lemma {:induction false} ParamNamesAppend(pattern: seq<Segment>, seg: Segment)
    ensures ParamNames(pattern + [seg]) == ParamNames(pattern) + (if seg.Param? then [seg.name] else [])
  {
    if pattern != [] {
      assert (pattern + [seg])[1..] == pattern[1..] + [seg];
      ParamNamesAppend(pattern[1..], seg);
    } else {
      assert ParamNames([seg]) == (if seg.Param? then [seg.name] else []) + ParamNames([]);
    }
  }

  /**
   * `compilePath(path)`: one segment per '/'-separated piece, and the names
   * of the `:name` pieces, in the order they appear.
   */
  method CompilePath(path: string) returns (pattern: seq<Segment>, keys: seq<string>)
    ensures pattern == Compiled(path)
    ensures keys == ParamNames(pattern)
  {
    var pieces := Split(path, '/');
    pattern, keys := [], [];
    var i := 0;
    while i < |pieces|
      invariant 0 <= i <= |pieces|
      invariant |pattern| == i
      invariant forall j :: 0 <= j < i ==> pattern[j] == SegmentOf(pieces[j])
      invariant keys == ParamNames(pattern)
    {
      var seg := SegmentOf(pieces[i]);
      ParamNamesAppend(pattern, seg);
      if seg.Param? {
        keys := keys + [seg.name];
      }
      pattern := pattern + [seg];
      i := i + 1;
    }
  }

  predicate SegmentMatches(seg: Segment, piece: string) {
    match seg
    case Literal(text) => piece == text
    case Param(_) => piece != ""
  }

  /**
   * The captures of the anchored pattern against the pieces of a pathname:
   * defined exactly when every piece matches its segment, and then one
   * capture per parameter.
   */
  function MatchPieces(pattern: seq<Segment>, pieces: seq<string>): (captures: Option<seq<string>>)
    ensures captures.Some? <==>
      |pieces| == |pattern| && forall i :: 0 <= i < |pattern| ==> SegmentMatches(pattern[i], pieces[i])
    ensures captures.Some? ==> |captures.value| == |ParamNames(pattern)|
  {
    if |pattern| != |pieces| then None
    else if pattern == [] then Some([])
    else if !SegmentMatches(pattern[0], pieces[0]) then None
    else
      match MatchPieces(pattern[1..], pieces[1..])
      case None => None
      case Some(rest) => Some((if pattern[0].Param? then [pieces[0]] else []) + rest)
  }

  /** `regex.exec(pathname)`, keeping only the captures. */
  function MatchPath(pattern: seq<Segment>, pathname: string): Option<seq<string>> {
    MatchPieces(pattern, Split(pathname, '/'))
  }

  /**
   * The capture for the parameter at position `i` is the piece at position
   * `i`, and it pairs with that parameter's name in `ParamNames`.
   */
  lemma {:induction false} CaptureAt(pattern: seq<Segment>, pieces: seq<string>, i: nat)
    requires MatchPieces(pattern, pieces).Some?
    requires i < |pattern| && pattern[i].Param?
    ensures |ParamNames(pattern[..i])| < |ParamNames(pattern)|
    ensures ParamNames(pattern)[|ParamNames(pattern[..i])|] == pattern[i].name
    ensures MatchPieces(pattern, pieces).value[|ParamNames(pattern[..i])|] == pieces[i]
  {
    if i == 0 {
      assert pattern[..0] == [];
    } else {
      CaptureAt(pattern[1..], pieces[1..], i - 1);
      assert pattern[1..][..i - 1] == pattern[1..i];
      assert pattern[..i][1..] == pattern[1..i];
      assert pattern[..i][0] == pattern[0];
    }
  }

  /** `params` after `keys.forEach((key, index) => params[key] = captures[index])`. */
  function ParamsMap(keys: seq<string>, captures: seq<string>): (params: map<string, string>)
    requires |keys| <= |captures|
    ensures params.Keys == set k | k in keys
  {
    if keys == [] then map[]
    else ParamsMap(keys[..|keys| - 1], captures)[keys[|keys| - 1] := captures[|keys| - 1]]
  }

  predicate Distinct(keys: seq<string>) {
    forall a, b :: 0 <= a < b < |keys| ==> keys[a] != keys[b]
  }

  /** With distinct names, each key maps to the capture at its own position. */
  lemma {:induction false} ParamsByPosition(keys: seq<string>, captures: seq<string>, k: nat)
    requires |keys| <= |captures| && Distinct(keys) && k < |keys|
    ensures ParamsMap(keys, captures)[keys[k]] == captures[k]
  {
    if k < |keys| - 1 {
      var init := keys[..|keys| - 1];
      assert init[k] == keys[k];
      ParamsByPosition(init, captures, k);
    }
  }

  /** Fills `params` key by key, later keys overwriting earlier ones. */
  method FillParams(keys: seq<string>, captures: seq<string>) returns (params: map<string, string>)
    requires |keys| <= |captures|
    ensures params == ParamsMap(keys, captures)
  {
    params := map[];
    var i := 0;
    while i < |keys|
      invariant 0 <= i <= |keys|
      invariant params == ParamsMap(keys[..i], captures)
    {
      assert keys[..i + 1][..i] == keys[..i];
      params := params[keys[i] := captures[i]];
      i := i + 1;
    }
    assert keys[..i] == keys;
  }

  /**
   * The path parameters of a matched pathname: each `:name` segment of the
   * route maps to the piece of the pathname in its position.
   */
  lemma RouteParam(path: string, pathname: string, i: nat)
    requires MatchPath(Compiled(path), pathname).Some?
    requires Distinct(ParamNames(Compiled(path)))
    requires i < |Compiled(path)| && Compiled(path)[i].Param?
    ensures var params := ParamsMap(ParamNames(Compiled(path)), MatchPath(Compiled(path), pathname).value);
      Compiled(path)[i].name in params && params[Compiled(path)[i].name] == Split(pathname, '/')[i]
  {
    var pattern := Compiled(path);
    CaptureAt(pattern, Split(pathname, '/'), i);
    ParamsByPosition(ParamNames(pattern), MatchPath(pattern, pathname).value, |ParamNames(pattern[..i])|);
  }

  /** A registered route. */
  datatype Route<H> = Route(verb: string, path: string, handler: H, pattern: seq<Segment>,
                            keys: seq<string>, requireAuth: bool)

  /** The route carries the pattern and keys its path compiles to. */
  ghost predicate Compiles<H>(route: Route<H>) {
    route.pattern == Compiled(route.path) && route.keys == ParamNames(route.pattern)
  }

  /** Every route of the table compiles, stated from the last route back. */
  ghost predicate WellFormed<H>(routes: seq<Route<H>>) {
    |routes| == 0 || (Compiles(routes[|routes| - 1]) && WellFormed(routes[..|routes| - 1]))
  }

  /** Appending a route that compiles keeps the table well formed: what every `registerRoute` call appends. */
  lemma WellFormedAppend<H>(routes: seq<Route<H>>, route: Route<H>)
    requires WellFormed(routes) && Compiles(route)
    ensures WellFormed(routes + [route])
  {
    assert (routes + [route])[..|routes|] == routes;
  }

  lemma {:induction false} WellFormedAt<H>(routes: seq<Route<H>>, i: nat)
    requires WellFormed(routes) && i < |routes|
    ensures Compiles(routes[i])
    decreases |routes|
  {
    if i < |routes| - 1 {
      WellFormedAt(routes[..|routes| - 1], i);
    }
  }

  /** The module-level `routes` array. */
  class RouteTable<H> {
    var routes: seq<Route<H>>

    constructor()
      ensures routes == []
    {
      routes := [];
    }

    /**
     * `registerRoute(method, path, handler, { requireAuth })`: appends the
     * route with the method upper-cased and `requireAuth` false unless given.
     */
    method RegisterRoute(verb: string, path: string, handler: H, requireAuth: Option<bool>)
      modifies this
      ensures |routes| == |old(routes)| + 1
      ensures forall i :: 0 <= i < |old(routes)| ==> routes[i] == old(routes)[i]
      ensures routes[|old(routes)|] == RouteFor(verb, path, handler, requireAuth)
    {
      var pattern, keys := CompilePath(path);
      routes := routes + [Route(ToUpper(verb), path, handler, pattern, keys, requireAuth.GetOr(false))];
    }
  }

  /** The route `registerRoute(verb, path, handler, { requireAuth })` appends. */
  function RouteFor<H>(verb: string, path: string, handler: H, requireAuth: Option<bool>): Route<H> {
    Route(ToUpper(verb), path, handler, Compiled(path), ParamNames(Compiled(path)), requireAuth.GetOr(false))
  }

  predicate Serves<H>(route: Route<H>, verb: string, pathname: string) {
    route.verb == verb && MatchPath(route.pattern, pathname).Some?
  }

  /** `routes.find(…)`: the first registered route with this method whose pattern matches. */
  function SelectRoute<H>(routes: seq<Route<H>>, verb: string, pathname: string): (r: Option<nat>)
    ensures r.Some? ==> r.value < |routes| && Serves(routes[r.value], verb, pathname)
    ensures r.Some? ==> forall j :: 0 <= j < r.value ==> !Serves(routes[j], verb, pathname)
    ensures r.None? <==> forall j :: 0 <= j < |routes| ==> !Serves(routes[j], verb, pathname)
  {
    Seqs.Find(routes, (route: Route<H>) => Serves(route, verb, pathname))
  }

  /** The request body as `readJsonBody` finds it: blank after trimming, not JSON, or a JSON object. */
  datatype RawBody = EmptyBody | NotJson | JsonObject(fields: Requests.Body)

  const InvalidJson := Http.HttpError(400, "Invalid JSON body")

  predicate ReadsBody(verb: string) {
    verb in ["POST", "PUT", "PATCH", "DELETE"]
  }

  /** The body handed to the handler, or None when `readJsonBody` throws. */
  function RequestBody(verb: string, raw: RawBody): (body: Option<Requests.Body>)
    ensures !ReadsBody(verb) ==> body == Some(map[])
    ensures ReadsBody(verb) ==> (body.None? <==> raw.NotJson?)
    ensures ReadsBody(verb) && raw.JsonObject? ==> body == Some(raw.fields)
  {
    if !ReadsBody(verb) then Some(map[])
    else match raw
      case EmptyBody => Some(map[])
      case NotJson => None
      case JsonObject(fields) => Some(fields)
  }

  datatype Response = Response(status: int, payload: Responses.Payload)

  const NotFound := Response(404, Responses.ErrorBody("Not Found"))
  const Unauthorized := Response(401, Responses.ErrorBody("Unauthorized"))
  const InternalError := Response(500, Responses.ErrorBody("Internal Server Error"))

  /** The handler's `catch`: an `HttpError` answers with its own status and message, anything else with 500. */
  function Respond(outcome: Responses.Outcome): (r: Response)
    ensures outcome.Reply? ==> r == Response(outcome.status, outcome.payload)
    ensures outcome.Throw? && outcome.thrown.Raised? ==>
      r == Response(outcome.thrown.error.statusCode, Responses.ErrorBody(outcome.thrown.error.message))
    ensures outcome.Throw? && outcome.thrown.Crashed? ==> r == InternalError
  {
    match outcome
    case Reply(status, payload) => Response(status, payload)
    case Throw(Raised(e)) => Response(e.statusCode, Responses.ErrorBody(e.message))
    case Throw(Crashed(_)) => InternalError
  }

  /** How `handleRequest` proceeds before the handler runs. */
  datatype Admission<H> = Finished(response: Response) | Escaped(error: Http.HttpError) | Invoke(route: Route<H>, body: Requests.Body)

  /**
   * `handleRequest` up to the handler call, as written: no route gives 404,
   * then the body is read, and an invalid JSON body throws out of
   * `handleRequest` before the handler's `try`; then a sign-in route
   * without a current seller gives 401.
   */
  function AdmitAsWritten<H>(routes: seq<Route<H>>, verb: string, pathname: string, raw: RawBody, signedIn: bool): (a: Admission<H>)
    ensures SelectRoute(routes, verb, pathname).None? <==> a == Finished(NotFound)
    ensures a.Escaped? <==> SelectRoute(routes, verb, pathname).Some? && RequestBody(verb, raw).None?
    ensures a.Escaped? ==> a.error == InvalidJson
  {
    match SelectRoute(routes, verb, pathname)
    case None => Finished(NotFound)
    case Some(i) =>
      match RequestBody(verb, raw)
      case None => Escaped(InvalidJson)
      case Some(body) =>
        if routes[i].requireAuth && !signedIn then Finished(Unauthorized) else Invoke(routes[i], body)
  }

  /**
   * `handleRequest` up to the handler call, with the invalid-body error
   * answered like every other `HttpError`: 400 "Invalid JSON body".
   */
  function Admit<H>(routes: seq<Route<H>>, verb: string, pathname: string, raw: RawBody, signedIn: bool): (a: Admission<H>)
    ensures !a.Escaped?
    ensures SelectRoute(routes, verb, pathname).None? <==> a == Finished(NotFound)
    ensures SelectRoute(routes, verb, pathname).Some? && RequestBody(verb, raw).None? <==>
      a == Finished(Respond(Responses.Throw(Responses.Raised(InvalidJson))))
    ensures a == Finished(Unauthorized) <==>
      SelectRoute(routes, verb, pathname).Some? && RequestBody(verb, raw).Some? &&
      routes[SelectRoute(routes, verb, pathname).value].requireAuth && !signedIn
    ensures a.Invoke? <==>
      SelectRoute(routes, verb, pathname).Some? && RequestBody(verb, raw).Some? &&
      (routes[SelectRoute(routes, verb, pathname).value].requireAuth ==> signedIn)
    ensures a.Invoke? ==>
      a.route == routes[SelectRoute(routes, verb, pathname).value] && Some(a.body) == RequestBody(verb, raw)
  {
    match AdmitAsWritten(routes, verb, pathname, raw, signedIn)
    case Escaped(e) => Finished(Respond(Responses.Throw(Responses.Raised(e))))
    case other => other
  }

  /** The two agree on every request but the one with an invalid body. */
  lemma AdmitDiffersOnlyOnInvalidBody<H>(routes: seq<Route<H>>, verb: string, pathname: string, raw: RawBody, signedIn: bool)
    requires RequestBody(verb, raw).Some?
    ensures Admit(routes, verb, pathname, raw, signedIn) == AdmitAsWritten(routes, verb, pathname, raw, signedIn)
  {
  }

  /** As written, a POST with a body that is not JSON never reaches a response inside `handleRequest`. */
  lemma InvalidBodyEscapes<H>(routes: seq<Route<H>>, pathname: string, signedIn: bool)
    requires SelectRoute(routes, "POST", pathname).Some?
    ensures AdmitAsWritten(routes, "POST", pathname, NotJson, signedIn) == Escaped(InvalidJson)
  {
  }

  /** Corrected, the same request is answered 400 with the error's message. */
  lemma InvalidBodyAnswered400<H>(routes: seq<Route<H>>, pathname: string, signedIn: bool)
    requires SelectRoute(routes, "POST", pathname).Some?
    ensures Admit(routes, "POST", pathname, NotJson, signedIn) == Finished(Response(400, Responses.ErrorBody("Invalid JSON body")))
  {
  }
}
