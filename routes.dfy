/**
 * The route compiler shared by main.go (registerRoutes) and server/router.go
 * (RegisterRoutes): the flat route list becomes a table from path to the
 * routes declared for that path, in declaration order. Path lookup in the
 * table is an exact-key map lookup.
 */
module RouteTable {
  import opened Config

  /** A compiled routing table: each registered path with the routes its handler closes over. */
  type Table = map<string, seq<RouteConfig>>

  /** The routes declared for `path`, in declaration order. */
  function RoutesFor(routes: seq<RouteConfig>, path: string): (group: seq<RouteConfig>)
    ensures |group| <= |routes|
    ensures forall k :: 0 <= k < |group| ==> group[k].path == path && group[k] in routes
    ensures forall k :: 0 <= k < |routes| && routes[k].path == path ==> routes[k] in group
  {
    if |routes| == 0 then []
    else (if routes[0].path == path then [routes[0]] else []) + RoutesFor(routes[1..], path)
  }

  /** Every path some route declares. */
  function Paths(routes: seq<RouteConfig>): set<string>
  {
    set route | route in routes :: route.path
  }

  /** The table the registration loop builds: one group per declared path. */
  function GroupByPath(routes: seq<RouteConfig>): (table: Table)
    ensures table.Keys == Paths(routes)
    ensures forall path :: path in table ==> table[path] == RoutesFor(routes, path)
  {
    map path | path in Paths(routes) :: RoutesFor(routes, path)
  }

  /**
   * One iteration of the registration loop: append `route` to the slice for
   * its path, a missing entry reading as the empty slice.
   */
  function AppendRoute(routeMap: Table, route: RouteConfig): Table
  {
    routeMap[route.path := (if route.path in routeMap then routeMap[route.path] else []) + [route]]
  }

  /** The loop of registerRoutes / RegisterRoutes, over the routes in declaration order. */
  method BuildRouteMap(routes: seq<RouteConfig>) returns (routeMap: Table)
    ensures routeMap == GroupByPath(routes)
  {
    routeMap := map[];
    assert routes[..0] == [];
    for i := 0 to |routes|
      invariant routeMap == GroupByPath(routes[..i])
    {
      AppendStep(routes, i);
      routeMap := AppendRoute(routeMap, routes[i]);
    }
    assert routes[..|routes|] == routes;
  }

  /** One step of the loop, stated on prefixes of the configuration. */
  lemma AppendStep(routes: seq<RouteConfig>, i: nat)
    requires i < |routes|
    ensures GroupByPath(routes[..i + 1]) == AppendRoute(GroupByPath(routes[..i]), routes[i])
  {
    assert routes[..i + 1] == routes[..i] + [routes[i]];
    GroupByPathSnoc(routes[..i], routes[i]);
  }

  // ----- Properties of the grouping -----------------------------------------

  /** Grouping distributes over concatenation of route lists. */
  lemma {:induction false} RoutesForAppend(a: seq<RouteConfig>, b: seq<RouteConfig>, path: string)
    ensures RoutesFor(a + b, path) == RoutesFor(a, path) + RoutesFor(b, path)
  {
    if |a| == 0 {
      assert a + b == b;
    } else {
      assert (a + b)[1..] == a[1..] + b;
      RoutesForAppend(a[1..], b, path);
    }
  }

  /** A path nobody declares has an empty group. */
  lemma RoutesForUndeclared(routes: seq<RouteConfig>, path: string)
    requires path !in Paths(routes)
    ensures RoutesFor(routes, path) == []
  {
  }

  /** Registering one more route extends only its own path's group, by that route. */
  lemma RoutesForSnoc(routes: seq<RouteConfig>, route: RouteConfig, path: string)
    ensures RoutesFor(routes + [route], path)
         == RoutesFor(routes, path) + (if route.path == path then [route] else [])
  {
    RoutesForAppend(routes, [route], path);
    assert [route][1..] == [];
  }

  /** Registering one more route adds at most its own path. */
  lemma PathsSnoc(routes: seq<RouteConfig>, route: RouteConfig)
    ensures Paths(routes + [route]) == Paths(routes) + {route.path}
  {
    forall r | r in routes + [route] ensures r in routes || r == route { }
  }

  /** Registering one more route appends it to its own path's group and touches no other. */
  lemma GroupByPathSnoc(routes: seq<RouteConfig>, route: RouteConfig)
    ensures GroupByPath(routes + [route]) == AppendRoute(GroupByPath(routes), route)
  {
    var before := GroupByPath(routes);
    var after := GroupByPath(routes + [route]);
    var expected := before[route.path := (if route.path in before then before[route.path] else []) + [route]];
    PathsSnoc(routes, route);
    assert after.Keys == expected.Keys;
    forall path | path in after
      ensures after[path] == expected[path]
    {
      RoutesForSnoc(routes, route, path);
      if path == route.path && path !in before {
        RoutesForUndeclared(routes, path);
      }
    }
    assert after == expected;
  }

  /**
   * Every route lands in the group for its own path, and a group holds only
   * routes of its path.
   */
  lemma GroupingPlacesEveryRoute(routes: seq<RouteConfig>)
    ensures forall k :: 0 <= k < |routes| ==>
              routes[k].path in GroupByPath(routes) && routes[k] in GroupByPath(routes)[routes[k].path]
    ensures forall path, k :: path in GroupByPath(routes) && 0 <= k < |GroupByPath(routes)[path]| ==>
              GroupByPath(routes)[path][k].path == path
  {
  }

  /**
   * Declaration order survives grouping: the group of any prefix of the
   * configuration is a prefix of the group of the whole configuration.
   */
  lemma GroupOfPrefixIsPrefix(routes: seq<RouteConfig>, n: nat, path: string)
    requires n <= |routes|
    ensures RoutesFor(routes[..n], path) <= RoutesFor(routes, path)
  {
    assert routes == routes[..n] + routes[n..];
    RoutesForAppend(routes[..n], routes[n..], path);
  }
}
