/**
 * server/router.go: the current-router reference, the dynamic handler that
 * reads it on every request, registration that builds a whole new table and
 * publishes it with one assignment, and CreateHandler's selection.
 */
module Router {
  import opened Wrappers
  import opened Config
  import opened RouteTable
  import opened Selection
  import Helpers

  const NoMatchingRoute := "No matching route found"
  const NoRouterConfigured := "No router configured"

  /** The variant test of this copy: utils.MatchQueryParams on the request's query. */
  function Accepts(query: QueryValues): ResponseConfig -> bool
  {
    (v: ResponseConfig) => Helpers.MatchQueryParams(query, v.query)
  }

  /**
   * CreateHandler's closure: skip routes with another method, answer with the
   * first route that has the request's method, else 404 "No matching route found".
   * Every error this copy answers is a 404.
   */
  function CreateHandler(routeConfigs: seq<RouteConfig>, r: Request): (out: Outcome)
    ensures out.HttpError? ==> out.status == StatusNotFound
    ensures out.HttpError? ==> out.message == NoMatchingRoute || out.message == NoMatchingResponse
  {
    match FirstIndex(routeConfigs, HasMethod(r.httpMethod))
    case None => HttpError(StatusNotFound, NoMatchingRoute)
    case Some(i) => Answer(routeConfigs[i], Accepts(r.query))
  }

  /** A router built by RegisterRoutes: ServeMux over handlers made by CreateHandler. */
  function Serve(table: Table, r: Request): Outcome
  {
    ServeMux(table, r, CreateHandler)
  }

  /** The package-level `mux` reference; None is the nil router. */
  class RouterState {
    var mux: Option<Table>

    constructor ()
      ensures mux == None
    {
      mux := None;
    }

    /** GetRouter: the current router. */
    method GetRouter() returns (m: Option<Table>)
      ensures m == mux
    {
      m := mux;
    }

    /** SetRouter: replace the current router; nothing else changes. */
    method SetRouter(newMux: Option<Table>)
      modifies this
      ensures mux == newMux
    {
      mux := newMux;
    }

    /**
     * DynamicHandler.ServeHTTP: read the current router once and delegate to it;
     * with no router, answer 500 "No router configured".
     */
    method ServeHTTP(r: Request) returns (out: Outcome)
      ensures mux.None? ==> out == HttpError(StatusInternalServerError, NoRouterConfigured)
      ensures mux.Some? ==> out == Serve(mux.value, r)
    {
      var router := GetRouter();
      if router.Some? {
        out := Serve(router.value, r);
      } else {
        out := HttpError(StatusInternalServerError, NoRouterConfigured);
      }
    }

    /**
     * RegisterRoutes: build the complete table first, then publish it with a
     * single SetRouter; the old router stays current until that call.
     */
    method RegisterRoutes(cfg: Config)
      modifies this
      ensures mux == Some(GroupByPath(cfg.routes))
    {
      var routeMap := BuildRouteMap(cfg.routes);
      assert mux == old(mux);
      SetRouter(Some(routeMap));
    }
  }

  // ----- Properties of CreateHandler -----------------------------------------

  /** 404 "No matching route found" is answered exactly when no route has the request method. */
  lemma NoRouteForMethod(routeConfigs: seq<RouteConfig>, r: Request)
    ensures CreateHandler(routeConfigs, r) == HttpError(StatusNotFound, NoMatchingRoute)
        <==> forall k :: 0 <= k < |routeConfigs| ==> routeConfigs[k].httpMethod != r.httpMethod
  {
    match FirstIndex(routeConfigs, HasMethod(r.httpMethod))
    case None =>
    case Some(i) =>
      var route := routeConfigs[i];
      if |route.responses| > 0 {
        match FirstIndex(route.responses, Accepts(r.query))
        case None =>
          assert NoMatchingResponse != NoMatchingRoute by {
            assert |NoMatchingResponse| != |NoMatchingRoute|;
          }
        case Some(j) =>
      }
  }

  /**
   * The first route with the request method decides the answer; routes after
   * it are never consulted, whatever they are.
   */
  lemma FirstMethodRouteDecides(routeConfigs: seq<RouteConfig>, r: Request, i: nat, rest: seq<RouteConfig>)
    requires i < |routeConfigs| && routeConfigs[i].httpMethod == r.httpMethod
    requires forall k :: 0 <= k < i ==> routeConfigs[k].httpMethod != r.httpMethod
    ensures CreateHandler(routeConfigs, r) == Answer(routeConfigs[i], Accepts(r.query))
    ensures CreateHandler(routeConfigs[..i + 1] + rest, r) == Answer(routeConfigs[i], Accepts(r.query))
  {
    FirstIndexIs(routeConfigs, HasMethod(r.httpMethod), i);
    FirstIndexIgnoresSuffix(routeConfigs, HasMethod(r.httpMethod), i, rest);
  }

  /**
   * End to end: a router registered from `routes` answers a request by the
   * first declared route with the request's path and method; a path nobody
   * declares gets ServeMux's 404 page.
   */
  lemma RegisteredRouterServesFirstDeclared(routes: seq<RouteConfig>, r: Request)
    ensures r.path !in Paths(routes) ==>
              Serve(GroupByPath(routes), r) == HttpError(StatusNotFound, PageNotFound)
    ensures r.path in Paths(routes) && FirstIndex(routes, HasPathAndMethod(r.path, r.httpMethod)).None? ==>
              Serve(GroupByPath(routes), r) == HttpError(StatusNotFound, NoMatchingRoute)
    ensures FirstIndex(routes, HasPathAndMethod(r.path, r.httpMethod)).Some? ==>
              Serve(GroupByPath(routes), r)
                == Answer(routes[FirstIndex(routes, HasPathAndMethod(r.path, r.httpMethod)).value], Accepts(r.query))
  {
    FirstInGroupIsFirstDeclared(routes, r.path, r.httpMethod);
    var first := FirstIndex(routes, HasPathAndMethod(r.path, r.httpMethod));
    if first.Some? {
      assert routes[first.value] in routes;
    }
  }
}
