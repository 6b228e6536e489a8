/** The webhook a connector exposes to the catalog (the `BBKWebhook` class of
    bbk-webhook.js): an express application whose middleware stack parses a
    JSON body, answers CORS preflights, routes `GET /entity/:et/:eid` and
    `GET /timeseries/:et/:eid/:tsid?` to the connector's handlers, and ends in
    a catch-all 404 and an error handler.

    The stack is built by the constructor, one `use` at a time, and `Handle`
    runs a request through it with express's rules (a pending error skips the
    ordinary layers and selects the error handler). `Dispatch` states the same
    behaviour directly as a decision table; `ConstructedWebhookDispatches`
    proves the two agree. */
module Webhook {
  import opened Js
  import opened Text
  import opened Http

  /** Why the JSON body parser rejected a body: malformed JSON raises a
      `SyntaxError`; any other rejection (size, charset) another error. */
  datatype BodyFault = MalformedJson | OtherBodyError

  /** An incoming request. The path is already percent-decoded; query
      parameters appear once each. */
  datatype Request = Request(httpMethod: string, path: string, query: map<string, string>,
                             bodyFault: Option<BodyFault>)

  /** What a handler does with its callback: calls it with a value (None is
      `undefined`) or throws before calling it. */
  datatype Answer = Answered(value: Option<Json>) | Threw(syntaxError: bool)

  /** The two handlers a connector overrides: `entity(eid, cb)` and
      `timeseries(eid, tsid, start, end, limit, cb)`. */
  datatype Handlers = Handlers(
    entity: string -> Answer,
    timeseries: (string, Option<string>, Option<string>, Option<string>, Option<string>) -> Answer)

  datatype Body = TextBody(text: string) | JsonBody(json: Json) | NoBody

  datatype Response = Response(status: nat, contentType: Option<string>, body: Body)

  const TEXT_PLAIN := "text/plain"
  const APPLICATION_JSON := "application/json; charset=utf-8"

  /** `_http_std_response(res, code, msg)`: a plain-text `"<code>: <msg>"`. */
  function StdResponse(code: nat, msg: string): (r: Response)
    ensures r.status == code && r.contentType == Some(TEXT_PLAIN)
    ensures r.body == TextBody(NatToString(code) + ": " + msg)
  {
    Response(code, Some(TEXT_PLAIN), TextBody(NatToString(code) + ": " + msg))
  }

  function BadRequest(): Response { StdResponse(BAD_REQUEST, "Bad Request") }
  function NotFound(): Response { StdResponse(NOT_FOUND, "Not Found") }
  function ServerError(): Response { StdResponse(INTERNAL_SERVER_ERROR, "Internal Server Error") }

  lemma StatusDigits()
    ensures NatToString(400) == "400" && NatToString(404) == "404" && NatToString(500) == "500"
  {
    assert NatToString(4) == "4" && NatToString(5) == "5";
    assert NatToString(40) == "40" && NatToString(50) == "50";
  }

  /** A standard response's text is its code, a colon and the RFC 9110
      reason phrase of the code. */
  predicate UsesReasonPhrase(r: Response) {
    ReasonPhrase(r.status).Some? && r.body == TextBody(NatToString(r.status) + ": " + ReasonPhrase(r.status).value)
  }

  /** The three standard responses are 400, 404 and 500, each with its
      reason phrase: `"400: Bad Request"`, `"404: Not Found"` and
      `"500: Internal Server Error"`. */
  lemma StdResponsesUseReasonPhrases()
    ensures BadRequest().status == 400 && UsesReasonPhrase(BadRequest())
    ensures NotFound().status == 404 && UsesReasonPhrase(NotFound())
    ensures ServerError().status == 500 && UsesReasonPhrase(ServerError())
    ensures NatToString(400) == "400" && NatToString(404) == "404" && NatToString(500) == "500"
  {
    StatusDigits();
  }

  /** The reply of a preflight: `cors()` ends an OPTIONS request with 204. */
  function Preflight(): Response { Response(NO_CONTENT, None, NoBody) }

  /** The error handler: a `SyntaxError` is a bad request, anything else a
      server error. */
  function ErrorResponse(syntaxError: bool): (r: Response)
    ensures r.status == (if syntaxError then BAD_REQUEST else INTERNAL_SERVER_ERROR)
  {
    if syntaxError then BadRequest() else ServerError()
  }

  /** `cb(value)` from a route: `value ? res.json(value) : 404`. */
  function Reply(a: Answer): (r: Response)
    ensures a.Answered? ==> (r.status == OK <==> Truthy(a.value))
    ensures a.Answered? && Truthy(a.value) ==> r.body == JsonBody(a.value.value)
    ensures a.Answered? && !Truthy(a.value) ==> r == NotFound()
    ensures a.Threw? ==> r == ErrorResponse(a.syntaxError)
  {
    match a
    case Answered(v) => if Truthy(v) then Response(OK, Some(APPLICATION_JSON), JsonBody(v.value)) else NotFound()
    case Threw(syntax) => ErrorResponse(syntax)
  }

  /** Express matches a path with or without one trailing slash: one
      trailing empty segment is dropped. */
  function DropTrailingEmpty(parts: seq<string>): seq<string> {
    if |parts| > 1 && parts[|parts| - 1] == "" then parts[..|parts| - 1] else parts
  }

  /** The path after its leading `/`, split on `/`. */
  function Segments(path: string): Option<seq<string>> {
    if path == [] || path[0] != '/' then None
    else Some(DropTrailingEmpty(Split(path[1..], '/')))
  }

  datatype Route = EntityGet | TimeseriesGet

  /** The parameters a route extracts: `et`, `eid` and the optional `tsid`. */
  datatype Params = Params(et: string, eid: string, tsid: Option<string>)

  /** Express route matching: literal segments compare case-insensitively,
      parameters must be non-empty, and `router.get` also answers HEAD. */
  function MatchRoute(route: Route, req: Request): Option<Params> {
    var segs := Segments(req.path);
    if !(req.httpMethod == "GET" || req.httpMethod == "HEAD") || segs.None? then None
    else
      var s := segs.value;
      match route
      case EntityGet =>
        if |s| == 3 && Lower(s[0]) == "entity" && s[1] != "" && s[2] != ""
        then Some(Params(s[1], s[2], None)) else None
      case TimeseriesGet =>
        if (|s| == 3 || |s| == 4) && Lower(s[0]) == "timeseries" && s[1] != "" && s[2] != ""
           && (|s| == 4 ==> s[3] != "")
        then Some(Params(s[1], s[2], if |s| == 4 then Some(s[3]) else None)) else None
  }

  /** What a route handler does with its parameters: the entity route passes
      only `eid`, the timeseries route `eid`, `tsid` and the `start`, `end`
      and `limit` query parameters. */
  function RunRoute(route: Route, p: Params, req: Request, h: Handlers): Response {
    match route
    case EntityGet => Reply(h.entity(p.eid))
    case TimeseriesGet =>
      Reply(h.timeseries(p.eid, p.tsid, Get(req.query, "start"), Get(req.query, "end"), Get(req.query, "limit")))
  }

  /** The first route of a router that matches, run; None when none does. */
  function RunRouter(routes: seq<Route>, req: Request, h: Handlers): Option<Response> {
    if routes == [] then None
    else
      match MatchRoute(routes[0], req)
      case Some(p) => Some(RunRoute(routes[0], p, req, h))
      case None => RunRouter(routes[1..], req, h)
  }

  /** The middleware the constructor installs, in `app.use` order. */
  datatype Layer =
    | ParseJsonBody      // bodyParser.json()
    | Cors               // cors(): answers preflights, passes everything else on
    | Mount              // app.use('/', router)
    | OptionsCors        // app.options('*', cors())
    | NotFoundHandler    // catch-all 404
    | ErrorHandler       // (err, req, res, next)

  /** A request through a middleware stack. A pending error skips ordinary
      layers until an error handler; the end of the stack is express's final
      handler (404 without an error, 500 with one). */
  function Handle(layers: seq<Layer>, routes: seq<Route>, req: Request, h: Handlers,
                  pending: Option<bool>): Response
    decreases |layers|
  {
    if layers == [] then
      if pending.Some? then ServerError() else NotFound()
    else
      var layer := layers[0];
      var rest := layers[1..];
      if layer == ErrorHandler then
        if pending.Some? then ErrorResponse(pending.value) else Handle(rest, routes, req, h, None)
      else if pending.Some? then Handle(rest, routes, req, h, pending)
      else if layer == ParseJsonBody then
        if req.bodyFault.Some? then Handle(rest, routes, req, h, Some(req.bodyFault.value == MalformedJson))
        else Handle(rest, routes, req, h, None)
      else if layer == Cors || layer == OptionsCors then
        if req.httpMethod == "OPTIONS" then Preflight() else Handle(rest, routes, req, h, None)
      else if layer == Mount then
        (match RunRouter(routes, req, h)
         case Some(r) => r
         case None => Handle(rest, routes, req, h, None))
      else NotFound()
  }

  /** The webhook's behaviour as a decision table: a rejected body first,
      then preflights, then the two routes, and 404 for everything else. */
  function Dispatch(req: Request, h: Handlers): Response {
    if req.bodyFault.Some? then ErrorResponse(req.bodyFault.value == MalformedJson)
    else if req.httpMethod == "OPTIONS" then Preflight()
    else match MatchRoute(EntityGet, req)
      case Some(p) => Reply(h.entity(p.eid))
      case None =>
        match MatchRoute(TimeseriesGet, req)
        case Some(p) =>
          Reply(h.timeseries(p.eid, p.tsid, Get(req.query, "start"), Get(req.query, "end"), Get(req.query, "limit")))
        case None => NotFound()
  }

  const StandardLayers := [ParseJsonBody, Cors, Mount, OptionsCors, NotFoundHandler, ErrorHandler]
  const StandardRoutes := [EntityGet, TimeseriesGet]

  class BBKWebhook {
    /** `this.app`'s middleware stack. */
    var layers: seq<Layer>
    /** `this.router`'s routes, shared with the mounted router. */
    var routes: seq<Route>

    constructor ()
      ensures layers == StandardLayers && routes == StandardRoutes
    {
      layers := [];
      routes := [];
      layers := layers + [ParseJsonBody];
      layers := layers + [Cors];
      layers := layers + [Mount];
      layers := layers + [OptionsCors];
      layers := layers + [NotFoundHandler];
      layers := layers + [ErrorHandler];
      routes := routes + [EntityGet];
      routes := routes + [TimeseriesGet];
    }

    /** How the application answers a request. */
    function Respond(req: Request, h: Handlers): Response
      reads this
    {
      Handle(layers, routes, req, h, None)
    }
  }

  /** A constructed webhook answers every request as the decision table says. */
  lemma ConstructedWebhookDispatches(w: BBKWebhook, req: Request, h: Handlers)
    requires w.layers == StandardLayers && w.routes == StandardRoutes
    ensures w.Respond(req, h) == Dispatch(req, h)
  {
    if req.bodyFault.Some? {
      FaultThroughStandardLayers(req, h);
    } else if req.httpMethod == "OPTIONS" {
      assert StandardLayers[1..][0] == Cors;
    } else {
      RouteThroughStandardLayers(req, h);
    }
  }

  lemma FaultThroughStandardLayers(req: Request, h: Handlers)
    requires req.bodyFault.Some?
    ensures Handle(StandardLayers, StandardRoutes, req, h, None) == ErrorResponse(req.bodyFault.value == MalformedJson)
  {
    var L1 := [Cors, Mount, OptionsCors, NotFoundHandler, ErrorHandler];
    var L2 := [Mount, OptionsCors, NotFoundHandler, ErrorHandler];
    var L3 := [OptionsCors, NotFoundHandler, ErrorHandler];
    var L4 := [NotFoundHandler, ErrorHandler];
    var L5 := [ErrorHandler];
    var rs := StandardRoutes;
    var e := req.bodyFault.value == MalformedJson;
    assert StandardLayers[1..] == L1;
    FaultStep(StandardLayers, rs, req, h);
    assert L1[1..] == L2;
    PendingStep(L1, rs, req, h, e);
    assert L2[1..] == L3;
    PendingStep(L2, rs, req, h, e);
    assert L3[1..] == L4;
    PendingStep(L3, rs, req, h, e);
    assert L4[1..] == L5;
    PendingStep(L4, rs, req, h, e);
    ErrorStep(L5, rs, req, h, e);
  }

  // One layer at a time.

  lemma FaultStep(layers: seq<Layer>, rs: seq<Route>, req: Request, h: Handlers)
    requires layers != [] && layers[0] == ParseJsonBody && req.bodyFault.Some?
    ensures Handle(layers, rs, req, h, None) == Handle(layers[1..], rs, req, h, Some(req.bodyFault.value == MalformedJson))
  {
  }

  lemma PendingStep(layers: seq<Layer>, rs: seq<Route>, req: Request, h: Handlers, e: bool)
    requires layers != [] && layers[0] != ErrorHandler
    ensures Handle(layers, rs, req, h, Some(e)) == Handle(layers[1..], rs, req, h, Some(e))
  {
  }

  lemma ErrorStep(layers: seq<Layer>, rs: seq<Route>, req: Request, h: Handlers, e: bool)
    requires layers != [] && layers[0] == ErrorHandler
    ensures Handle(layers, rs, req, h, Some(e)) == ErrorResponse(e)
  {
  }

  lemma PassStep(layers: seq<Layer>, rs: seq<Route>, req: Request, h: Handlers)
    requires layers != [] && (layers[0] == ParseJsonBody || layers[0] == Cors || layers[0] == OptionsCors)
    requires req.bodyFault.None? && req.httpMethod != "OPTIONS"
    ensures Handle(layers, rs, req, h, None) == Handle(layers[1..], rs, req, h, None)
  {
  }

  lemma MountStep(layers: seq<Layer>, rs: seq<Route>, req: Request, h: Handlers)
    requires layers != [] && layers[0] == Mount
    ensures Handle(layers, rs, req, h, None)
         == match RunRouter(rs, req, h) case Some(r) => r case None => Handle(layers[1..], rs, req, h, None)
  {
  }

  lemma NotFoundStep(layers: seq<Layer>, rs: seq<Route>, req: Request, h: Handlers)
    requires layers != [] && layers[0] == NotFoundHandler
    ensures Handle(layers, rs, req, h, None) == NotFound()
  {
  }

  lemma RouteThroughStandardLayers(req: Request, h: Handlers)
    requires req.bodyFault.None? && req.httpMethod != "OPTIONS"
    ensures Handle(StandardLayers, StandardRoutes, req, h, None) == Dispatch(req, h)
  {
    StandardLayersRoute(req, h);
    StandardRouter(req, h);
  }

  lemma StandardLayersRoute(req: Request, h: Handlers)
    requires req.bodyFault.None? && req.httpMethod != "OPTIONS"
    ensures Handle(StandardLayers, StandardRoutes, req, h, None)
         == match RunRouter(StandardRoutes, req, h) case Some(r) => r case None => NotFound()
  {
    var L1 := [Cors, Mount, OptionsCors, NotFoundHandler, ErrorHandler];
    var L2 := [Mount, OptionsCors, NotFoundHandler, ErrorHandler];
    var L3 := [OptionsCors, NotFoundHandler, ErrorHandler];
    var L4 := [NotFoundHandler, ErrorHandler];
    var rs := StandardRoutes;
    assert StandardLayers[1..] == L1;
    PassStep(StandardLayers, rs, req, h);
    assert L1[1..] == L2;
    PassStep(L1, rs, req, h);
    MountStep(L2, rs, req, h);
    if RunRouter(rs, req, h).None? {
      assert L2[1..] == L3;
      PassStep(L3, rs, req, h);
      assert L3[1..] == L4;
      NotFoundStep(L4, rs, req, h);
    }
  }

  lemma StandardRouter(req: Request, h: Handlers)
    requires req.bodyFault.None? && req.httpMethod != "OPTIONS"
    ensures Dispatch(req, h) == match RunRouter(StandardRoutes, req, h) case Some(r) => r case None => NotFound()
  {
    var rs := StandardRoutes;
    assert rs[1..] == [TimeseriesGet] && [TimeseriesGet][1..] == [];
    assert RunRouter([], req, h) == None;
  }

  /** Every status the webhook can answer with. */
  lemma DispatchStatuses(req: Request, h: Handlers)
    ensures Dispatch(req, h).status in {OK, NO_CONTENT, BAD_REQUEST, NOT_FOUND, INTERNAL_SERVER_ERROR}
  {
    var r := Dispatch(req, h);
    if req.bodyFault.None? && req.httpMethod != "OPTIONS" {
      match MatchRoute(EntityGet, req)
      case Some(p) => ReplyStatus(h.entity(p.eid));
      case None =>
        match MatchRoute(TimeseriesGet, req)
        case Some(p) =>
          ReplyStatus(h.timeseries(p.eid, p.tsid, Get(req.query, "start"), Get(req.query, "end"),
                                   Get(req.query, "limit")));
        case None =>
    }
  }

  lemma ReplyStatus(a: Answer)
    ensures Reply(a).status in {OK, BAD_REQUEST, NOT_FOUND, INTERNAL_SERVER_ERROR}
  {
  }

  /** A body the JSON parser rejects decides the answer before any route:
      400 for malformed JSON, 500 for any other rejection, for every method. */
  lemma BodyFaultWins(req: Request, h: Handlers)
    requires req.bodyFault.Some?
    ensures Dispatch(req, h).status == (if req.bodyFault.value == MalformedJson then 400 else 500)
    ensures Dispatch(req, h).contentType == Some(TEXT_PLAIN)
  {
  }

  /** The entity route reads only `eid`: two entity requests with the same
      `eid` and different `et` get the same answer. */
  lemma EntityRouteIgnoresType(r1: Request, r2: Request, h: Handlers)
    requires r1.bodyFault.None? && r2.bodyFault.None?
    requires MatchRoute(EntityGet, r1).Some? && MatchRoute(EntityGet, r2).Some?
    requires MatchRoute(EntityGet, r1).value.eid == MatchRoute(EntityGet, r2).value.eid
    ensures Dispatch(r1, h) == Dispatch(r2, h)
    ensures Dispatch(r1, h) == Reply(h.entity(MatchRoute(EntityGet, r1).value.eid))
  {
    EntityRouteDispatch(r1, h);
    EntityRouteDispatch(r2, h);
  }

  /** A request the entity route matches is answered from `entity(eid)`. */
  lemma EntityRouteDispatch(req: Request, h: Handlers)
    requires req.bodyFault.None? && MatchRoute(EntityGet, req).Some?
    ensures Dispatch(req, h) == Reply(h.entity(MatchRoute(EntityGet, req).value.eid))
  {
    assert req.httpMethod == "GET" || req.httpMethod == "HEAD";
  }

  /** A request the timeseries route matches is answered from
      `timeseries(eid, tsid, start, end, limit)`. */
  lemma TimeseriesRouteDispatch(req: Request, h: Handlers)
    requires req.bodyFault.None? && MatchRoute(EntityGet, req).None? && MatchRoute(TimeseriesGet, req).Some?
    ensures var p := MatchRoute(TimeseriesGet, req).value;
            Dispatch(req, h)
            == Reply(h.timeseries(p.eid, p.tsid, Get(req.query, "start"), Get(req.query, "end"),
                                  Get(req.query, "limit")))
  {
    assert req.httpMethod == "GET" || req.httpMethod == "HEAD";
  }

  /** A path built from slash-free segments, the last non-empty, splits back
      into those segments. */
  lemma SegmentsOfJoin(parts: seq<string>)
    requires |parts| >= 1 && parts[|parts| - 1] != ""
    requires forall i | 0 <= i < |parts| :: '/' !in parts[i]
    ensures Segments("/" + Join(parts, '/')) == Some(parts)
  {
    assert ("/" + Join(parts, '/'))[1..] == Join(parts, '/');
    SplitJoin(parts, '/');
  }

  lemma JoinThree(a: string, b: string, c: string)
    ensures Join([a, b, c], '/') == a + "/" + b + "/" + c
  {
    var ps := [a, b, c];
    assert ps[1..] == [b, c] && ps[1..][1..] == [c];
    assert Join([c], '/') == c;
    assert Join([b, c], '/') == b + "/" + c;
  }

  lemma JoinFour(a: string, b: string, c: string, d: string)
    ensures Join([a, b, c, d], '/') == a + "/" + b + "/" + c + "/" + d
  {
    var ps := [a, b, c, d];
    assert ps[1..] == [b, c, d];
    JoinThree(b, c, d);
  }

  lemma RouteLiterals()
    ensures Lower("entity") == "entity" && Lower("timeseries") == "timeseries"
  {
  }

  /** The path the catalog calls for an entity is routed to the entity
      handler with its `eid`. */
  lemma EntityPathRoutes(et: string, eid: string, query: map<string, string>, h: Handlers)
    requires et != "" && eid != "" && '/' !in et && '/' !in eid
    ensures var req := Request("GET", "/entity/" + et + "/" + eid, query, None);
            && MatchRoute(EntityGet, req) == Some(Params(et, eid, None))
            && Dispatch(req, h) == Reply(h.entity(eid))
  {
    var req := Request("GET", "/entity/" + et + "/" + eid, query, None);
    assert Segments(req.path) == Some(["entity", et, eid]) by {
      assert "/entity/" == "/" + "entity" + "/";
      ThreeSegments("entity", et, eid);
    }
    RouteLiterals();
    assert MatchRoute(EntityGet, req) == Some(Params(et, eid, None));
    EntityRouteDispatch(req, h);
  }

  /** `/a/b/c` has the segments a, b and c. */
  lemma ThreeSegments(a: string, b: string, c: string)
    requires c != "" && '/' !in a && '/' !in b && '/' !in c
    ensures Segments("/" + a + "/" + b + "/" + c) == Some([a, b, c])
  {
    JoinThree(a, b, c);
    assert "/" + a + "/" + b + "/" + c == "/" + Join([a, b, c], '/');
    SegmentsOfJoin([a, b, c]);
  }

  /** `/a/b/c/d` has the segments a, b, c and d. */
  lemma FourSegments(a: string, b: string, c: string, d: string)
    requires d != "" && '/' !in a && '/' !in b && '/' !in c && '/' !in d
    ensures Segments("/" + a + "/" + b + "/" + c + "/" + d) == Some([a, b, c, d])
  {
    JoinFour(a, b, c, d);
    assert "/" + a + "/" + b + "/" + c + "/" + d == "/" + Join([a, b, c, d], '/');
    SegmentsOfJoin([a, b, c, d]);
  }

  /** The path the catalog calls for a timeseries is routed to the timeseries
      handler with `eid`, `tsid` and the `start`, `end` and `limit` query
      parameters. */
  lemma TimeseriesPathRoutes(et: string, eid: string, tsid: string, query: map<string, string>, h: Handlers)
    requires et != "" && eid != "" && tsid != "" && '/' !in et && '/' !in eid && '/' !in tsid
    ensures var req := Request("GET", "/timeseries/" + et + "/" + eid + "/" + tsid, query, None);
            && MatchRoute(EntityGet, req).None?
            && MatchRoute(TimeseriesGet, req) == Some(Params(et, eid, Some(tsid)))
            && Dispatch(req, h)
               == Reply(h.timeseries(eid, Some(tsid), Get(query, "start"), Get(query, "end"), Get(query, "limit")))
  {
    TimeseriesPathMatches(et, eid, tsid, query);
    TimeseriesRouteDispatch(Request("GET", "/timeseries/" + et + "/" + eid + "/" + tsid, query, None), h);
  }

  lemma TimeseriesPathMatches(et: string, eid: string, tsid: string, query: map<string, string>)
    requires et != "" && eid != "" && tsid != "" && '/' !in et && '/' !in eid && '/' !in tsid
    ensures var req := Request("GET", "/timeseries/" + et + "/" + eid + "/" + tsid, query, None);
            && MatchRoute(EntityGet, req).None?
            && MatchRoute(TimeseriesGet, req) == Some(Params(et, eid, Some(tsid)))
  {
    var req := Request("GET", "/timeseries/" + et + "/" + eid + "/" + tsid, query, None);
    assert Segments(req.path) == Some(["timeseries", et, eid, tsid]) by {
      assert "/timeseries/" == "/" + "timeseries" + "/";
      FourSegments("timeseries", et, eid, tsid);
    }
    RouteLiterals();
  }

  /** The timeseries id may be left out. */
  lemma TimeseriesWithoutIdRoutes(et: string, eid: string, query: map<string, string>, h: Handlers)
    requires et != "" && eid != "" && '/' !in et && '/' !in eid
    ensures var req := Request("GET", "/timeseries/" + et + "/" + eid, query, None);
            && MatchRoute(EntityGet, req).None?
            && MatchRoute(TimeseriesGet, req) == Some(Params(et, eid, None))
            && Dispatch(req, h)
               == Reply(h.timeseries(eid, None, Get(query, "start"), Get(query, "end"), Get(query, "limit")))
  {
    var req := Request("GET", "/timeseries/" + et + "/" + eid, query, None);
    TimeseriesWithoutIdMatches(et, eid, query);
    TimeseriesRouteDispatch(req, h);
  }

  lemma TimeseriesWithoutIdMatches(et: string, eid: string, query: map<string, string>)
    requires et != "" && eid != "" && '/' !in et && '/' !in eid
    ensures var req := Request("GET", "/timeseries/" + et + "/" + eid, query, None);
            && MatchRoute(EntityGet, req).None?
            && MatchRoute(TimeseriesGet, req) == Some(Params(et, eid, None))
  {
    var req := Request("GET", "/timeseries/" + et + "/" + eid, query, None);
    assert Segments(req.path) == Some(["timeseries", et, eid]) by {
      assert "/timeseries/" == "/" + "timeseries" + "/";
      ThreeSegments("timeseries", et, eid);
    }
    RouteLiterals();
    assert |Lower("timeseries")| != |"entity"|;
  }

  /** An empty array is truthy (200 with `[]`); `null` and `undefined` are
      not (404). */
  lemma TruthinessOfAnswers()
    ensures Reply(Answered(Some(JArr([])))) == Response(OK, Some(APPLICATION_JSON), JsonBody(JArr([])))
    ensures Reply(Answered(Some(JNull))) == NotFound()
    ensures Reply(Answered(None)) == NotFound()
    ensures Reply(Answered(Some(JObj(map[])))).status == OK
  {
  }

  /** A request that neither route matches is answered 404 (once the body was
      accepted and it is not a preflight). */
  lemma UnmatchedIsNotFound(req: Request, h: Handlers)
    requires req.bodyFault.None? && req.httpMethod != "OPTIONS"
    requires MatchRoute(EntityGet, req).None? && MatchRoute(TimeseriesGet, req).None?
    ensures Dispatch(req, h) == NotFound()
  {
  }

  /** The handlers of the base class call back with `null`. */
  function BaseHandlers(): Handlers {
    Handlers(eid => Answered(Some(JNull)), (eid, tsid, start, end, limit) => Answered(Some(JNull)))
  }

  /** So with them every routed request is answered 404. */
  lemma BaseHandlersAlwaysNotFound(req: Request)
    requires req.bodyFault.None? && req.httpMethod != "OPTIONS"
    ensures Dispatch(req, BaseHandlers()) == NotFound()
  {
  }
}
