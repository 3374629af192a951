/**
 * main.go: the monolithic server. Its own query matcher (stricter on an empty
 * condition), its own handler (405 when no route has the method), and the
 * global configuration and ServeMux that a reload replaces.
 */
module MainServer {
  import opened Wrappers
  import opened Config
  import opened Query
  import opened RouteTable
  import opened Selection

  const MethodNotAllowed := "Method not allowed"

  /**
   * matchQueryParams of main.go: an empty condition matches only a request
   * with no query parameters at all; otherwise every expected key must be
   * present with a first value equal to the expected one.
   */
  function MatchQueryParams(requestParams: QueryValues, expectedParams: QueryMatch): bool
  {
    if |expectedParams| == 0 then |requestParams| == 0
    else FirstValuesMatch(requestParams, expectedParams)
  }

  /** The variant test of this copy. */
  function Accepts(query: QueryValues): ResponseConfig -> bool
  {
    (v: ResponseConfig) => MatchQueryParams(query, v.query)
  }

  /**
   * createHandler's closure: the first route with the request method answers;
   * with none, 405 "Method not allowed".
   */
  function CreateHandler(routeConfigs: seq<RouteConfig>, r: Request): (out: Outcome)
    ensures out.HttpError? ==>
              out == HttpError(StatusMethodNotAllowed, MethodNotAllowed)
              || out == HttpError(StatusNotFound, NoMatchingResponse)
  {
    match FirstIndex(routeConfigs, HasMethod(r.httpMethod))
    case None => HttpError(StatusMethodNotAllowed, MethodNotAllowed)
    case Some(i) => Answer(routeConfigs[i], Accepts(r.query))
  }

  /** The global ServeMux after registerRoutes: exact path lookup, then createHandler. */
  function Serve(table: Table, r: Request): Outcome
  {
    ServeMux(table, r, CreateHandler)
  }

  /** The globals `currentConfig` (nil until loaded) and `mux` (empty until registered). */
  class Server {
    var currentConfig: Option<Config>
    var mux: Table

    constructor ()
      ensures currentConfig == None && mux == map[]
    {
      currentConfig := None;
      mux := map[];
    }

    /**
     * registerRoutes: a fresh ServeMux with one handler per path of the current
     * configuration, each over that path's routes in declaration order.
     * The current configuration must be set (it is dereferenced).
     */
    method RegisterRoutes()
      requires currentConfig.Some?
      modifies this
      ensures currentConfig == old(currentConfig)
      ensures mux == GroupByPath(currentConfig.value.routes)
    {
      var routeMap := BuildRouteMap(currentConfig.value.routes);
      mux := routeMap;
    }

    /**
     * reloadConfig: a failed load changes nothing (the old configuration and
     * its routes keep serving); a successful one replaces the configuration and
     * rebuilds the routes from it.
     */
    method ReloadConfig(file: ReadOutcome, parse: Bytes -> ParseOutcome)
      modifies this
      ensures LoadConfig(file, parse).LoadFailed? ==>
                currentConfig == old(currentConfig) && mux == old(mux)
      ensures LoadConfig(file, parse).Loaded? ==>
                currentConfig == Some(LoadConfig(file, parse).config)
                && mux == GroupByPath(LoadConfig(file, parse).config.routes)
    {
      var loaded := LoadConfig(file, parse);
      if loaded.LoadFailed? {
        return;
      }
      currentConfig := Some(loaded.config);
      RegisterRoutes();
    }

    /** The top-level handler: serve the request with the current ServeMux. */
    method ServeHTTP(r: Request) returns (out: Outcome)
      ensures out == Serve(mux, r)
    {
      out := Serve(mux, r);
    }
  }

  // ----- Properties of matchQueryParams --------------------------------------

  /** An empty condition matches exactly the requests without query parameters. */
  lemma EmptyConditionIffNoParameters(requestParams: QueryValues, key: string, values: seq<string>)
    ensures MatchQueryParams(requestParams, map[]) <==> requestParams == map[]
    ensures !MatchQueryParams(requestParams[key := values], map[])
  {
    assert key in requestParams[key := values];
    if |requestParams| == 0 {
      assert requestParams == map[] by {
        if k :| k in requestParams {
          assert false;
        }
      }
    }
  }

  /**
   * A non-empty condition matches exactly when every expected key has a first
   * value equal to the expected one; extra parameters and later values do not matter.
   */
  lemma NonEmptyConditionChecksFirstValues(requestParams: QueryValues, expectedParams: QueryMatch,
                                           key: string, values: seq<string>)
    requires |expectedParams| > 0
    ensures MatchQueryParams(requestParams, expectedParams)
        <==> forall k :: k in expectedParams ==>
               k in requestParams && |requestParams[k]| > 0 && requestParams[k][0] == expectedParams[k]
    ensures key !in expectedParams ==>
              MatchQueryParams(requestParams[key := values], expectedParams)
                == MatchQueryParams(requestParams, expectedParams)
    ensures key in requestParams && |requestParams[key]| > 0 ==>
              MatchQueryParams(requestParams[key := [requestParams[key][0]] + values], expectedParams)
                == MatchQueryParams(requestParams, expectedParams)
  {
    if key in requestParams && |requestParams[key]| > 0 {
      FirstValueOnly(requestParams, expectedParams, key, values);
    }
  }

  // ----- Properties of createHandler -----------------------------------------

  /** 405 "Method not allowed" is answered exactly when no route has the request method. */
  lemma MethodNotAllowedIffNoRoute(routeConfigs: seq<RouteConfig>, r: Request)
    ensures CreateHandler(routeConfigs, r) == HttpError(StatusMethodNotAllowed, MethodNotAllowed)
        <==> forall k :: 0 <= k < |routeConfigs| ==> routeConfigs[k].httpMethod != r.httpMethod
  {
  }

  /**
   * The first route with the request method decides the answer; routes after
   * it are never consulted, whatever they are.
   */
  lemma FirstMethodRouteDecides(routeConfigs: seq<RouteConfig>, r: Request, i: nat, rest: seq<RouteConfig>)
    requires i < |routeConfigs| && routeConfigs[i].httpMethod == r.httpMethod
    requires forall k :: 0 <= k < i ==> routeConfigs[k].httpMethod != r.httpMethod
    ensures CreateHandler(routeConfigs, r) == Answer(routeConfigs[i], Accepts(r.query))
    ensures CreateHandler(routeConfigs[..i + 1] + rest, r) == Answer(routeConfigs[i], Accepts(r.query))
  {
    FirstIndexIs(routeConfigs, HasMethod(r.httpMethod), i);
    FirstIndexIgnoresSuffix(routeConfigs, HasMethod(r.httpMethod), i, rest);
  }

  /**
   * End to end: the ServeMux registered from `routes` answers by the first
   * declared route with the request's path and method, 405 when the path is
   * declared but not for that method, and ServeMux's 404 page otherwise.
   */
  lemma RegisteredMuxServesFirstDeclared(routes: seq<RouteConfig>, r: Request)
    ensures r.path !in Paths(routes) ==>
              Serve(GroupByPath(routes), r) == HttpError(StatusNotFound, PageNotFound)
    ensures r.path in Paths(routes) && FirstIndex(routes, HasPathAndMethod(r.path, r.httpMethod)).None? ==>
              Serve(GroupByPath(routes), r) == HttpError(StatusMethodNotAllowed, MethodNotAllowed)
    ensures FirstIndex(routes, HasPathAndMethod(r.path, r.httpMethod)).Some? ==>
              Serve(GroupByPath(routes), r)
                == Answer(routes[FirstIndex(routes, HasPathAndMethod(r.path, r.httpMethod)).value], Accepts(r.query))
  {
    FirstInGroupIsFirstDeclared(routes, r.path, r.httpMethod);
  }

  /** GET and POST declared for one path: a PUT request is answered 405. */
  lemma UnsupportedMethodScenario(path: string, get: RouteConfig, post: RouteConfig, query: QueryValues)
    requires get.httpMethod == "GET" && post.httpMethod == "POST"
    ensures CreateHandler([get, post], Request("PUT", path, query))
         == HttpError(StatusMethodNotAllowed, MethodNotAllowed)
  {
    MethodNotAllowedIffNoRoute([get, post], Request("PUT", path, query));
  }
}
