/**
 * Response selection shared by createHandler (main.go) and CreateHandler
 * (server/router.go): a first-match-wins search for the route, then for the
 * variant, and the independent per-field overrides of the chosen variant.
 * What differs between the two copies (the query matcher and the answer when
 * no route has the method) lives in their own modules.
 */
module Selection {
  import opened Wrappers
  import opened Config
  import opened RouteTable
  import Helpers

  /** An HTTP request as the handlers see it. */
  datatype Request = Request(httpMethod: string, path: string, query: QueryValues)

  /**
   * What a handler writes: a response with the delay actually slept before it,
   * or an error written by http.Error (which adds a trailing newline and a
   * plain-text content type).
   */
  datatype Outcome =
    | Response(status: int, contentType: string, body: string, delayMs: nat)
    | HttpError(status: int, message: string)

  const StatusNotFound := 404
  const StatusMethodNotAllowed := 405
  const StatusInternalServerError := 500

  const NoMatchingResponse := "No matching response found"
  /** The body of http.NotFound, which ServeMux answers for an unregistered path. */
  const PageNotFound := "404 page not found"

  /** First-match-wins: the index of the first element `accept` holds of, if any. */
  function FirstIndex<T>(s: seq<T>, accept: T -> bool): (r: Option<nat>)
    ensures r.Some? ==> r.value < |s| && accept(s[r.value])
    ensures r.Some? ==> forall j :: 0 <= j < r.value ==> !accept(s[j])
    ensures r.None? <==> forall j :: 0 <= j < |s| ==> !accept(s[j])
  {
    if |s| == 0 then None
    else if accept(s[0]) then Some(0)
    else match FirstIndex(s[1..], accept)
      case None => None
      case Some(k) => Some(k + 1)
  }

  /** The route test of both handlers: the request method equals the route's, case-sensitively. */
  function HasMethod(httpMethod: string): RouteConfig -> bool
  {
    (route: RouteConfig) => route.httpMethod == httpMethod
  }

  /** Whole-configuration version of the route test: path and method both equal. */
  function HasPathAndMethod(path: string, httpMethod: string): RouteConfig -> bool
  {
    (route: RouteConfig) => route.path == path && route.httpMethod == httpMethod
  }

  /** The answer of a route without variants: its own fields, slept only for a positive delay. */
  function RouteDefault(route: RouteConfig): Outcome
  {
    Response(route.statusCode, route.contentType, route.responseBody, Helpers.EffectiveDelay(route.delayMs))
  }

  /**
   * The answer of a chosen variant: status, content type and delay each come
   * from the variant when it sets them, else from the route; the body is
   * always the variant's own.
   */
  function Resolve(route: RouteConfig, variant: ResponseConfig): Outcome
  {
    var delayMs := variant.delayMs.GetOr(route.delayMs);
    var statusCode := variant.statusCode.GetOr(route.statusCode);
    var contentType := variant.contentType.GetOr(route.contentType);
    Response(statusCode, contentType, variant.responseBody, Helpers.EffectiveDelay(delayMs))
  }

  /** What a handler answers once it has chosen `route`, given its query matcher `accept`. */
  function Answer(route: RouteConfig, accept: ResponseConfig -> bool): Outcome
  {
    if |route.responses| == 0 then RouteDefault(route)
    else match FirstIndex(route.responses, accept)
      case None => HttpError(StatusNotFound, NoMatchingResponse)
      case Some(j) => Resolve(route, route.responses[j])
  }

  /** ServeMux: exact-key path lookup, then the handler built for that path's routes. */
  function ServeMux(table: Table, r: Request, handler: (seq<RouteConfig>, Request) -> Outcome): Outcome
  {
    if r.path in table then handler(table[r.path], r) else HttpError(StatusNotFound, PageNotFound)
  }

  // ----- Properties of the search -------------------------------------------

  /** The first accepted index is determined by the first-match conditions alone. */
  lemma FirstIndexIs<T>(s: seq<T>, accept: T -> bool, i: nat)
    requires i < |s| && accept(s[i])
    requires forall j :: 0 <= j < i ==> !accept(s[j])
    ensures FirstIndex(s, accept) == Some(i)
  {
  }

  /** Two tests that agree on every element find the same first index. */
  lemma FirstIndexAgrees<T>(s: seq<T>, a: T -> bool, b: T -> bool)
    requires forall j :: 0 <= j < |s| ==> a(s[j]) == b(s[j])
    ensures FirstIndex(s, a) == FirstIndex(s, b)
  {
  }

  /** Elements after the first accepted one are never consulted. */
  lemma FirstIndexIgnoresSuffix<T>(s: seq<T>, accept: T -> bool, i: nat, rest: seq<T>)
    requires i < |s| && FirstIndex(s, accept) == Some(i)
    ensures FirstIndex(s[..i + 1] + rest, accept) == Some(i)
  {
    var t := s[..i + 1] + rest;
    assert t[i] == s[i];
    forall j | 0 <= j < i ensures !accept(t[j]) {
      assert t[j] == s[j];
    }
    FirstIndexIs(t, accept, i);
  }

  /**
   * Declaration order survives from configuration to lookup: the route a
   * handler picks from the group of `path` is the first route of the whole
   * configuration with that path and method.
   */
  lemma FirstInGroupIsFirstDeclared(routes: seq<RouteConfig>, path: string, httpMethod: string)
    ensures FirstIndex(RoutesFor(routes, path), HasMethod(httpMethod)).Some?
        <==> FirstIndex(routes, HasPathAndMethod(path, httpMethod)).Some?
    ensures FirstIndex(routes, HasPathAndMethod(path, httpMethod)).Some? ==>
              var group := RoutesFor(routes, path);
              group[FirstIndex(group, HasMethod(httpMethod)).value]
                == routes[FirstIndex(routes, HasPathAndMethod(path, httpMethod)).value]
  {
    match FirstIndex(routes, HasPathAndMethod(path, httpMethod))
    case None => UndeclaredMethodNotInGroup(routes, path, httpMethod);
    case Some(i) => FirstDeclaredLeadsGroup(routes, path, httpMethod, i);
  }

  /** No route with the path and method: the path's group has no route with the method. */
  lemma UndeclaredMethodNotInGroup(routes: seq<RouteConfig>, path: string, httpMethod: string)
    requires forall j :: 0 <= j < |routes| ==> !HasPathAndMethod(path, httpMethod)(routes[j])
    ensures FirstIndex(RoutesFor(routes, path), HasMethod(httpMethod)).None?
  {
    var group := RoutesFor(routes, path);
    forall k | 0 <= k < |group| ensures !HasMethod(httpMethod)(group[k]) {
      var j :| 0 <= j < |routes| && routes[j] == group[k];
      assert !HasPathAndMethod(path, httpMethod)(routes[j]);
    }
  }

  /**
   * The first route with the path and method sits in the group right after
   * the group of the routes declared before it, none of which has the method.
   */
  lemma FirstDeclaredLeadsGroup(routes: seq<RouteConfig>, path: string, httpMethod: string, i: nat)
    requires FirstIndex(routes, HasPathAndMethod(path, httpMethod)) == Some(i)
    ensures FirstIndex(RoutesFor(routes, path), HasMethod(httpMethod)) == Some(|RoutesFor(routes[..i], path)|)
    ensures RoutesFor(routes, path)[|RoutesFor(routes[..i], path)|] == routes[i]
  {
    var group := RoutesFor(routes, path);
    var before := RoutesFor(routes[..i], path);
    assert routes == routes[..i] + [routes[i]] + routes[i + 1..];
    RoutesForAppend(routes[..i] + [routes[i]], routes[i + 1..], path);
    RoutesForSnoc(routes[..i], routes[i], path);
    assert group == before + [routes[i]] + RoutesFor(routes[i + 1..], path);
    forall k | 0 <= k < |before| ensures !HasMethod(httpMethod)(group[k]) {
      assert group[k] == before[k];
      var j :| 0 <= j < i && routes[..i][j] == before[k];
      assert !HasPathAndMethod(path, httpMethod)(routes[j]);
    }
    FirstIndexIs(group, HasMethod(httpMethod), |before|);
  }

  // ----- Properties of the answer for a chosen route -------------------------

  /** A route without variants answers exactly its own status, content type and body. */
  lemma RouteWithoutVariants(route: RouteConfig, accept: ResponseConfig -> bool)
    requires |route.responses| == 0
    ensures Answer(route, accept).Response?
    ensures Answer(route, accept).status == route.statusCode
    ensures Answer(route, accept).contentType == route.contentType
    ensures Answer(route, accept).body == route.responseBody
    ensures Answer(route, accept).delayMs > 0 <==> route.delayMs > 0
    ensures Answer(route, accept).delayMs > 0 ==> Answer(route, accept).delayMs == route.delayMs
  {
  }

  /**
   * The first accepted variant is the one answered, whatever follows it; a
   * later variant that would also be accepted is never used.
   */
  lemma FirstVariantWins(route: RouteConfig, accept: ResponseConfig -> bool, j: nat)
    requires j < |route.responses| && accept(route.responses[j])
    requires forall k :: 0 <= k < j ==> !accept(route.responses[k])
    ensures Answer(route, accept) == Resolve(route, route.responses[j])
  {
    FirstIndexIs(route.responses, accept, j);
  }

  /** With variants but none accepted, the answer is 404 "No matching response found". */
  lemma NoVariantAccepted(route: RouteConfig, accept: ResponseConfig -> bool)
    requires |route.responses| > 0
    requires forall k :: 0 <= k < |route.responses| ==> !accept(route.responses[k])
    ensures Answer(route, accept) == HttpError(StatusNotFound, NoMatchingResponse)
  {
  }

  /**
   * Overrides are independent: each field of the answer depends only on the
   * variant's own setting of that field (and the route), so two variants that
   * agree on one field give answers that agree on it.
   */
  lemma OverridesIndependent(route: RouteConfig, v: ResponseConfig, w: ResponseConfig)
    ensures v.statusCode == w.statusCode ==> Resolve(route, v).status == Resolve(route, w).status
    ensures v.contentType == w.contentType ==> Resolve(route, v).contentType == Resolve(route, w).contentType
    ensures v.delayMs == w.delayMs ==> Resolve(route, v).delayMs == Resolve(route, w).delayMs
    ensures v.responseBody == w.responseBody ==> Resolve(route, v).body == Resolve(route, w).body
  {
  }

  /**
   * A variant setting only its status inherits content type and delay from
   * the route, but its body is its own, even when empty.
   */
  lemma StatusOnlyVariant(route: RouteConfig, query: QueryMatch, status: int, body: string)
    ensures Resolve(route, ResponseConfig(query, Some(status), None, body, None))
         == Response(status, route.contentType, body, Helpers.EffectiveDelay(route.delayMs))
    ensures Resolve(route, ResponseConfig(query, Some(status), None, "", None)).body == ""
  {
  }

  /** A variant that sets every optional field takes nothing from the route. */
  lemma FullVariantIgnoresRoute(route: RouteConfig, other: RouteConfig, v: ResponseConfig)
    requires v.statusCode.Some? && v.contentType.Some? && v.delayMs.Some?
    ensures Resolve(route, v) == Resolve(other, v)
  {
  }
}
