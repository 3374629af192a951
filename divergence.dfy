/**
 * Where the two copies of request dispatch (main.go and server/router.go with
 * utils/helpers.go) disagree, and where they provably agree.
 */
module Divergence {
  import opened Config
  import opened Selection
  import Helpers
  import MainServer
  import Router

  /**
   * The matchers disagree exactly on an empty condition with a non-empty
   * query: main.go rejects it, utils/helpers.go accepts it.
   */
  lemma MatchersDisagreeOnlyOnEmptyCondition(requestParams: QueryValues, expectedParams: QueryMatch)
    ensures MainServer.MatchQueryParams(requestParams, expectedParams)
              != Helpers.MatchQueryParams(requestParams, expectedParams)
        <==> |expectedParams| == 0 && |requestParams| > 0
    ensures MainServer.MatchQueryParams(requestParams, expectedParams) ==>
              Helpers.MatchQueryParams(requestParams, expectedParams)
  {
  }

  /** With no route for the method, main.go answers 405 and the router answers 404. */
  lemma NoRouteForMethodAnswers(routeConfigs: seq<RouteConfig>, r: Request)
    requires forall k :: 0 <= k < |routeConfigs| ==> routeConfigs[k].httpMethod != r.httpMethod
    ensures MainServer.CreateHandler(routeConfigs, r) == HttpError(StatusMethodNotAllowed, MainServer.MethodNotAllowed)
    ensures Router.CreateHandler(routeConfigs, r) == HttpError(StatusNotFound, Router.NoMatchingRoute)
  {
    MainServer.MethodNotAllowedIffNoRoute(routeConfigs, r);
    Router.NoRouteForMethod(routeConfigs, r);
  }

  /**
   * When some route has the request method and the chosen route has no
   * variant with an empty condition (or the request has no query), both
   * handlers give the same answer.
   */
  lemma HandlersAgreeOtherwise(routeConfigs: seq<RouteConfig>, r: Request, i: nat)
    requires i < |routeConfigs| && routeConfigs[i].httpMethod == r.httpMethod
    requires forall k :: 0 <= k < i ==> routeConfigs[k].httpMethod != r.httpMethod
    requires |r.query| == 0 || forall j :: 0 <= j < |routeConfigs[i].responses| ==> |routeConfigs[i].responses[j].query| > 0
    ensures MainServer.CreateHandler(routeConfigs, r) == Router.CreateHandler(routeConfigs, r)
  {
    var route := routeConfigs[i];
    MainServer.FirstMethodRouteDecides(routeConfigs, r, i, []);
    Router.FirstMethodRouteDecides(routeConfigs, r, i, []);
    forall j | 0 <= j < |route.responses|
      ensures MainServer.Accepts(r.query)(route.responses[j]) == Router.Accepts(r.query)(route.responses[j])
    {
      MatchersDisagreeOnlyOnEmptyCondition(r.query, route.responses[j].query);
    }
    FirstIndexAgrees(route.responses, MainServer.Accepts(r.query), Router.Accepts(r.query));
  }

  /**
   * A variant with an empty condition placed before others: the router always
   * answers it, main.go only for a request without query parameters.
   */
  lemma CatchAllVariantFirst(routeConfigs: seq<RouteConfig>, r: Request, i: nat)
    requires i < |routeConfigs| && routeConfigs[i].httpMethod == r.httpMethod
    requires forall k :: 0 <= k < i ==> routeConfigs[k].httpMethod != r.httpMethod
    requires |routeConfigs[i].responses| > 0 && |routeConfigs[i].responses[0].query| == 0
    ensures Router.CreateHandler(routeConfigs, r) == Resolve(routeConfigs[i], routeConfigs[i].responses[0])
    ensures MainServer.Accepts(r.query)(routeConfigs[i].responses[0]) <==> |r.query| == 0
    ensures |r.query| == 0 ==>
              MainServer.CreateHandler(routeConfigs, r) == Resolve(routeConfigs[i], routeConfigs[i].responses[0])
  {
    var route := routeConfigs[i];
    MainServer.FirstMethodRouteDecides(routeConfigs, r, i, []);
    Router.FirstMethodRouteDecides(routeConfigs, r, i, []);
    FirstVariantWins(route, Router.Accepts(r.query), 0);
    if |r.query| == 0 {
      FirstVariantWins(route, MainServer.Accepts(r.query), 0);
    }
  }
}
