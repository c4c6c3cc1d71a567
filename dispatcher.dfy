/**
 * The exported `handler`: set the three CORS headers, answer a preflight,
 * answer the health check, hand a POST on a proof route to its handler,
 * answer any other GET with the endpoint catalog, and everything else 404.
 */
module Dispatcher {
  import opened Wrappers
  import opened Text
  import opened JsValues
  import opened ProofTypes
  import opened Http
  import opened ProofHandler

  /** Which branch of the handler a request takes. */
  datatype Route = Preflight | Health | Prove(t: ProofType) | Catalog | NotFound

  const VERSION := "3.6.0"

  /** The headers set on every response, before anything else happens. */
  const CORS_HEADERS: map<string, string> := map[
    "Access-Control-Allow-Origin" := "*",
    "Access-Control-Allow-Methods" := "GET, POST, PUT, DELETE, OPTIONS",
    "Access-Control-Allow-Headers" := "Content-Type, Authorization"]

  /** The health check's feature list. */
  const FEATURES: seq<Value> := [
    Str("GLEIF Verification"),
    Str("Corporate Registration"),
    Str("EXIM License Verification"),
    Str("Risk & Liquidity Assessment"),
    Str("Business Process Integrity"),
    Str("Business Data Integrity"),
    Str("Supply Chain Finance"),
    Str("Composed Proofs")]

  /** How a proof route's catalog line begins: "POST <prefix> ". */
  function RouteHead(t: ProofType): string {
    "POST " + RoutePrefix(t) + " "
  }

  /** The catalog line of a proof route: its head, then a dash and a summary. */
  function EndpointLine(t: ProofType): string {
    RouteHead(t) + EndpointTail(t)
  }

  function EndpointTail(t: ProofType): string {
    match t
    case Gleif => "- GLEIF verification with ZK proof"
    case Corporate => "- Corporate registration verification"
    case Exim => "- EXIM license verification"
    case Risk => "- Risk & liquidity assessment"
    case ProcessIntegrity => "- Business process integrity"
    case DataIntegrity => "- Business data integrity"
    case Scf => "- Supply chain finance verification"
    case Composed => "- Composed compliance proofs"
  }

  /** The catalog's endpoint list: the eight proof routes in dispatch order, then the health check. */
  const ENDPOINTS: seq<Value> := [
    Str(EndpointLine(Gleif)), Str(EndpointLine(Corporate)), Str(EndpointLine(Exim)), Str(EndpointLine(Risk)),
    Str(EndpointLine(ProcessIntegrity)), Str(EndpointLine(DataIntegrity)), Str(EndpointLine(Scf)),
    Str(EndpointLine(Composed)), Str("GET /api/health - Service health check")]

  /** The health check matches the whole url, query string included. */
  predicate IsHealthPath(url: string) {
    url == "/api/health" || url == "/health"
  }

  function HealthBody(timestamp: string): Value {
    Obj(map[
      "status" := Str("healthy"),
      "service" := Str("zk-pret-core-engine"),
      "timestamp" := Str(timestamp),
      "version" := Str(VERSION),
      "features" := Arr(FEATURES)])
  }

  function CatalogBody(timestamp: string): Value {
    Obj(map[
      "message" := Str("ZK-PRET Core Engine API"),
      "version" := Str(VERSION),
      "service" := Str("zkpretcore"),
      "timestamp" := Str(timestamp),
      "endpoints" := Arr(ENDPOINTS),
      "note" := Str("Core ZK proof generation engine with production-grade implementations")])
  }

  const NOT_FOUND_BODY := Obj(map["error" := Str("Endpoint not found")])

  /**
   * The chain of `url.startsWith(prefix)` tests, in the source's order:
   * the first route prefix the url starts with.
   */
  function MatchProofRoute(url: string): (r: Option<ProofType>)
    ensures r.Some? ==> StartsWith(url, RoutePrefix(r.value))
    ensures r.None? <==> forall t: ProofType :: !StartsWith(url, RoutePrefix(t))
  {
    if StartsWith(url, RoutePrefix(Gleif)) then Some(Gleif)
    else if StartsWith(url, RoutePrefix(Corporate)) then Some(Corporate)
    else if StartsWith(url, RoutePrefix(Exim)) then Some(Exim)
    else if StartsWith(url, RoutePrefix(Risk)) then Some(Risk)
    else if StartsWith(url, RoutePrefix(ProcessIntegrity)) then Some(ProcessIntegrity)
    else if StartsWith(url, RoutePrefix(DataIntegrity)) then Some(DataIntegrity)
    else if StartsWith(url, RoutePrefix(Scf)) then Some(Scf)
    else if StartsWith(url, RoutePrefix(Composed)) then Some(Composed)
    else None
  }

  /** The branch the handler takes for a method and a url. */
  function RouteOf(verb: string, url: string): Route {
    if verb == "OPTIONS" then Preflight
    else if IsHealthPath(url) then Health
    else if verb == "POST" && MatchProofRoute(url).Some? then Prove(MatchProofRoute(url).value)
    else if verb == "GET" then Catalog
    else NotFound
  }

  /** What the handler answers for a request. */
  function Dispatch(req: Request, env: Env): Reply {
    match RouteOf(req.verb, req.url)
    case Preflight => Reply(200, None)
    case Health => Reply(200, Some(HealthBody(env.isoNow)))
    case Prove(t) => ProofReply(t, req.body, env)
    case Catalog => Reply(200, Some(CatalogBody(env.isoNow)))
    case NotFound => Reply(404, Some(NOT_FOUND_BODY))
  }

  /**
   * Because no route prefix extends another, the first match is the only
   * match: the order of the tests does not matter.
   */
  lemma MatchExact(url: string, t: ProofType)
    ensures MatchProofRoute(url) == Some(t) <==> StartsWith(url, RoutePrefix(t))
  {
    var r := MatchProofRoute(url);
    if StartsWith(url, RoutePrefix(t)) {
      MatchingPrefixesAgree(url, r.value, t);
    }
  }

  /** The three `res.setHeader` calls every request starts with. */
  method SetCorsHeaders(res: Response)
    modifies res
    ensures res.headers == old(res.headers) + CORS_HEADERS
    ensures res.statusCode == old(res.statusCode) && res.payload == old(res.payload) && res.finished == old(res.finished)
  {
    res.SetHeader("Access-Control-Allow-Origin", "*");
    res.SetHeader("Access-Control-Allow-Methods", "GET, POST, PUT, DELETE, OPTIONS");
    res.SetHeader("Access-Control-Allow-Headers", "Content-Type, Authorization");
  }

  /**
   * The handler: sets the CORS headers, then tries the branches in the
   * order the source lists them, and answers exactly what Dispatch says.
   */
  method Handler(req: Request, res: Response, env: Env)
    modifies res
    ensures res.headers == old(res.headers) + CORS_HEADERS
    ensures res.Sent() == Dispatch(req, env) && res.finished
  {
    SetCorsHeaders(res);
    Answer(req, res, env);
  }

  /** Everything after the headers: one branch answers, the rest are skipped. */
  method Answer(req: Request, res: Response, env: Env)
    modifies res
    ensures res.headers == old(res.headers)
    ensures res.Sent() == Dispatch(req, env) && res.finished
  {
    if req.verb == "OPTIONS" {
      res.Status(200);
      res.End();
      return;
    }
    var verb, url := req.verb, req.url;
    if url == "/api/health" || url == "/health" {
      res.Status(200);
      res.Json(HealthBody(env.isoNow));
      return;
    }
    var route := if verb == "POST" then MatchProofRoute(url) else None;
    if route.Some? {
      ProofDelegation(req, env, route.value);
      HandleProof(route.value, req.body, res, env);
      return;
    }
    if verb == "GET" {
      res.Status(200);
      res.Json(CatalogBody(env.isoNow));
      return;
    }
    res.Status(404);
    res.Json(NOT_FOUND_BODY);
  }

  // ---------------------------------------------------------------------
  // What the dispatcher promises.

  /** A preflight is answered 200 with an empty body, whatever its url. */
  lemma PreflightReply(req: Request, env: Env)
    requires req.verb == "OPTIONS"
    ensures Dispatch(req, env) == Reply(200, None)
  {
  }

  /** Every reply but the preflight's carries a JSON body. */
  lemma BodyUnlessPreflight(req: Request, env: Env)
    ensures Dispatch(req, env).body.None? <==> req.verb == "OPTIONS"
  {
    match RouteOf(req.verb, req.url)
    case Prove(t) => Outcomes(t, req.body, env);
    case _ =>
  }

  /** The handler only ever answers 200, 400, 404 or 500. */
  lemma StatusCodes(req: Request, env: Env)
    ensures Dispatch(req, env).status in {200, 400, 404, 500}
  {
    match RouteOf(req.verb, req.url)
    case Prove(t) => Outcomes(t, req.body, env);
    case _ =>
  }

  /** The health check answers for every method but OPTIONS, before any proof route is tried. */
  lemma HealthReply(req: Request, env: Env)
    requires req.verb != "OPTIONS" && IsHealthPath(req.url)
    ensures Dispatch(req, env) == Reply(200, Some(HealthBody(env.isoNow)))
    ensures Get(HealthBody(env.isoNow), "status") == Str("healthy")
    ensures Get(HealthBody(env.isoNow), "version") == Str("3.6.0")
    ensures Get(HealthBody(env.isoNow), "timestamp") == Str(env.isoNow)
    ensures Get(HealthBody(env.isoNow), "features") == Arr(FEATURES) && |FEATURES| == 8
  {
  }

  /** A POST under a route prefix gets exactly the reply of that type's handler. */
  lemma ProofDelegation(req: Request, env: Env, t: ProofType)
    requires req.verb == "POST" && StartsWith(req.url, RoutePrefix(t))
    ensures Dispatch(req, env) == ProofReply(t, req.body, env)
  {
    assert !IsHealthPath(req.url) by {
      RouteLetters(t);
    }
    MatchExact(req.url, t);
  }

  /** The handlers are reached by POST under their prefix, and in no other way. */
  lemma RouteClassification(verb: string, url: string, t: ProofType)
    ensures RouteOf(verb, url) == Prove(t) <==> verb == "POST" && StartsWith(url, RoutePrefix(t))
  {
    MatchExact(url, t);
    if StartsWith(url, RoutePrefix(t)) {
      RouteLetters(t);
    }
  }

  /** Any GET that is not the health check, a proof route's prefix included, gets the catalog. */
  lemma CatalogReply(req: Request, env: Env)
    requires req.verb == "GET" && !IsHealthPath(req.url)
    ensures Dispatch(req, env) == Reply(200, Some(CatalogBody(env.isoNow)))
  {
  }

  /** The catalog: version 3.6.0, the request's timestamp and nine endpoint lines. */
  lemma CatalogShape(timestamp: string)
    ensures Get(CatalogBody(timestamp), "version") == Str("3.6.0")
    ensures Get(CatalogBody(timestamp), "timestamp") == Str(timestamp)
    ensures Get(CatalogBody(timestamp), "endpoints") == Arr(ENDPOINTS) && |ENDPOINTS| == 9
  {
  }

  /**
   * 404 is left for exactly the requests no branch takes: neither OPTIONS
   * nor GET, not the health check, and not a POST under a route prefix.
   */
  lemma NotFoundExactly(req: Request, env: Env)
    ensures Dispatch(req, env).status == 404 <==>
      req.verb != "OPTIONS" && req.verb != "GET" && !IsHealthPath(req.url) &&
      (req.verb == "POST" ==> forall t: ProofType :: !StartsWith(req.url, RoutePrefix(t)))
  {
    match RouteOf(req.verb, req.url)
    case Prove(t) => Outcomes(t, req.body, env);
    case _ =>
  }

  /** A method other than OPTIONS, GET and POST is 404 on every url but the health check. */
  lemma OtherMethodsNotFound(req: Request, env: Env)
    requires req.verb !in {"OPTIONS", "GET", "POST"} && !IsHealthPath(req.url)
    ensures Dispatch(req, env) == Reply(404, Some(NOT_FOUND_BODY))
  {
  }

  /** A POST under none of the prefixes is 404. */
  lemma UnknownPostNotFound(req: Request, env: Env)
    requires req.verb == "POST" && !IsHealthPath(req.url)
    requires forall t: ProofType :: !StartsWith(req.url, RoutePrefix(t))
    ensures Dispatch(req, env) == Reply(404, Some(NOT_FOUND_BODY))
  {
  }

  /** The catalog lists a line for every proof route. */
  lemma CatalogListsRoutes(t: ProofType)
    ensures Str(EndpointLine(t)) in ENDPOINTS
  {
    match t
    case Gleif => assert ENDPOINTS[0] == Str(EndpointLine(Gleif));
    case Corporate => assert ENDPOINTS[1] == Str(EndpointLine(Corporate));
    case Exim => assert ENDPOINTS[2] == Str(EndpointLine(Exim));
    case Risk => assert ENDPOINTS[3] == Str(EndpointLine(Risk));
    case ProcessIntegrity => assert ENDPOINTS[4] == Str(EndpointLine(ProcessIntegrity));
    case DataIntegrity => assert ENDPOINTS[5] == Str(EndpointLine(DataIntegrity));
    case Scf => assert ENDPOINTS[6] == Str(EndpointLine(Scf));
    case Composed => assert ENDPOINTS[7] == Str(EndpointLine(Composed));
  }

  /** A proof route's catalog line advertises a POST under the route's own prefix. */
  lemma EndpointAdvertisesRoute(t: ProofType)
    ensures StartsWith(EndpointLine(t), "POST " + RoutePrefix(t) + " ")
  {
    assert (RouteHead(t) + EndpointTail(t))[..|RouteHead(t)|] == RouteHead(t);
  }
}
