# dserver request dispatch, modelled in Dafny

dserver is a mock HTTP server driven by a TOML file. Each declared route has a
path, a method, default status / content type / delay / body, and an ordered
list of response variants selected by query parameters. The file is reloaded
when it changes. The request-dispatch core exists twice in the repository:
once in the monolithic `main.go`, and once split over `server/router.go`,
`utils/helpers.go` and `config/config.go`. This project models both copies
and proves what each one does:

- **Grouping** (`RouteTable`): the flat route list becomes a table from path
  to that path's routes in declaration order. `BuildRouteMap` is the append
  loop shared by both copies. It is proved equal to `GroupByPath`, and
  declaration order is proved to survive up to the route a handler picks.
- **Selection** (`Selection`, `Router`, `MainServer`): a first-match-wins
  search for the first route whose method equals the request's. If that
  route has variants, a second search picks the first variant whose query
  condition holds. Status, content type and delay are each overridden
  independently by the variant. The body is always the variant's own.
- **Query matching** (`Helpers.MatchQueryParams` for the split server,
  `MainServer.MatchQueryParams` for `main.go`).
- **Reload** (`Config.ConfigStore.ReloadConfig`, `MainServer.Server.ReloadConfig`,
  `Router.RouterState.RegisterRoutes`): a failed load leaves the current
  configuration and routes untouched. A successful one replaces them
  wholesale, and the new router is published by a single assignment.
- **Environment lookup** with a fallback, and the positive-only delay rule.

The two copies disagree, and each is modelled as written (`Divergence`):

- With an empty condition, `main.go` matches only a request without query
  parameters. `utils/helpers.go` matches every request.
- When no route has the request method, `main.go` answers 405
  "Method not allowed" and `server/router.go` answers 404
  "No matching route found".

A variant's body never falls back to the route's body: an absent
`response_body` decodes to the empty string, and the handler writes that
string. The route-level body is used only by a route with no variants.

Inputs that come from outside the core are parameters: the file read
(`ReadOutcome`), the TOML decoder (`Bytes -> ParseOutcome`) and the
environment (`map<string, string>`). A handler's output is an `Outcome`
value. It carries the delay the handler would sleep instead of sleeping, and
the status, content type and body it would write.

## Model

| member | source | states |
|---|---|---|
| `Query.FirstValueOnly` | main.go:219-225 | Replacing the values after the first of a present parameter never changes whether the expected first values match. |
| `Query.ExtraKeyIgnored` | utils/helpers.go:29-35 | Adding or replacing a parameter the condition does not name never changes the match. |
| `Wrappers.Option.GetOr` | main.go:122-125 | A set optional field gives its own value. A nil one gives the fallback. |
| `Config.LoadClassifiesFailures` | config/config.go:40-52 | A load succeeds iff the read and the decode both succeed, and then it yields the decoded config unchanged. A failed read is a read error, and a failed decode of a read file is a parse error. |
| `Config.ReadFailureIgnoresParser` | config/config.go:41-44 | The read is checked first: when it fails, the result is the same failure whatever the decoder would do. |
| `Config.MessageNamesFailedStep` | config/config.go:43-48 | The error text starts with "failed to read config file: " exactly for read errors, and with "failed to parse config file: " exactly for parse errors. |
| `Config.ConfigStore.ReloadConfig` | config/config.go:54-64 | On a failed load it returns that error and the current config is unchanged. On success it returns no error and the current config is exactly the loaded one. |
| `Helpers.EffectiveDelay` | utils/helpers.go:10-14 | A delay is slept iff it is positive, and then for exactly that many milliseconds. Zero or negative means no sleep. |
| `Helpers.EmptyConditionMatchesEveryRequest` | utils/helpers.go:24-27 | An empty condition matches every request, including one with no parameters. |
| `Helpers.MatchIsFirstValuesMatch` | utils/helpers.go:23-36 | The matcher holds iff every expected key is present with a non-empty value list whose first value equals the expected one. The early return for an empty condition agrees with this. |
| `Helpers.NonEmptyConditionRejectsEmptyRequest` | utils/helpers.go:29-32 | A non-empty condition never matches a request without query parameters. |
| `Helpers.OnlyFirstValueConsulted` | utils/helpers.go:30 | Values after the first of a repeated parameter never affect the result. |
| `Helpers.UnnamedParameterIgnored` | utils/helpers.go:29-30 | A parameter absent from the condition never affects the result. |
| `Helpers.WeakerConditionStillMatches` | utils/helpers.go:29-35 | A request matching a condition also matches any condition made of some of its keys. |
| `Helpers.GetEnvSetAndUnset` | utils/helpers.go:38-43 | A set variable is returned as set, even when it is empty. An unset variable yields the fallback. |
| `Helpers.GetEnvOtherKeys` | utils/helpers.go:38-43 | Setting one variable never changes the lookup of another. |
| `RouteTable.RoutesFor` | server/router.go:47-49 | A path's group has only routes of that path taken from the config, and it has every config route of that path. |
| `RouteTable.GroupByPath` | main.go:83-86 | The table's keys are exactly the declared paths, and each path maps to its group. |
| `RouteTable.BuildRouteMap` | server/router.go:45-49 | The append loop builds exactly `GroupByPath` of the config's routes. |
| `RouteTable.AppendStep` | main.go:85 | One loop iteration turns the table of the first i routes into the table of the first i+1 routes. |
| `RouteTable.RoutesForAppend` | server/router.go:47-49 | Grouping a concatenation gives the concatenation of the groups, so appending keeps earlier order. |
| `RouteTable.RoutesForSnoc` | main.go:84-85 | Appending one route extends only its own path's group, by that route at the end. |
| `RouteTable.RoutesForUndeclared` | server/router.go:45-49 | A path that no route declares has an empty group. |
| `RouteTable.PathsSnoc` | server/router.go:48 | Appending one route adds its own path to the set of declared paths, and no other path. |
| `RouteTable.GroupByPathSnoc` | main.go:84-85 | One loop step puts the route at the end of its own path's slice (a missing slice counts as empty) and leaves every other path alone. |
| `RouteTable.GroupingPlacesEveryRoute` | main.go:83-86 | Every route is in the group for its own path, and each group holds only routes of that path. |
| `RouteTable.GroupOfPrefixIsPrefix` | server/router.go:47-49 | The group built from any prefix of the config is a prefix of the final group, so declaration order is preserved. |
| `Selection.FirstIndex` | server/router.go:63-66 | The first-match search returns the least index the test accepts, or none iff the test accepts no element. |
| `Selection.FirstIndexIs` | main.go:102-103 | The search returns exactly the index that the test accepts when it rejects every earlier one. |
| `Selection.FirstIndexIgnoresSuffix` | main.go:102-103 | Elements after the first accepted one are never consulted. |
| `Selection.FirstIndexAgrees` | server/router.go:75-78 | Two tests that agree on every element pick the same element. |
| `Selection.FirstInGroupIsFirstDeclared` | main.go:83-103 | The route a handler picks from a path's group is the first route of the whole config with that path and method, and one exists iff such a route is declared. |
| `Selection.UndeclaredMethodNotInGroup` | main.go:102-103 | If no route has both the path and the method, the path's group has no route with the method. |
| `Selection.FirstDeclaredLeadsGroup` | server/router.go:63-66 | The first route declared with the path and method is the first route in its path's group with that method. All routes of the path declared before it come earlier in the group and have another method. |
| `Selection.RouteWithoutVariants` | main.go:105-116 | A route without variants answers exactly its status, content type and body. It sleeps iff its delay is positive, and then for that delay. |
| `Selection.FirstVariantWins` | main.go:120-121 | The first variant whose condition holds is answered. Later variants are never used. |
| `Selection.NoVariantAccepted` | main.go:151 | A route with variants, none of which matches, is answered with 404 "No matching response found". |
| `Selection.OverridesIndependent` | server/router.go:80-96 | Each of status, content type, delay and body depends only on the variant's own setting of that field and on the route. |
| `Selection.StatusOnlyVariant` | main.go:122-143 | A variant that sets only a status inherits the route's content type and delay. Its body is its own, even when empty. |
| `Selection.FullVariantIgnoresRoute` | server/router.go:80-94 | A variant that sets status, content type and delay answers the same whatever the route's defaults are. |
| `Router.CreateHandler` | server/router.go:61-104 | Every error this handler answers is a 404, with "No matching route found" or "No matching response found". |
| `Router.NoRouteForMethod` | server/router.go:102 | 404 "No matching route found" is answered iff no route has the request method. |
| `Router.FirstMethodRouteDecides` | server/router.go:63-66 | The first route with the request method decides the answer. Routes after it are never consulted. |
| `Router.RegisteredRouterServesFirstDeclared` | server/router.go:43-59 | A router registered from a config answers by the first declared route with the request's path and method. A declared path with no route for the method gets 404 "No matching route found", and an undeclared path gets ServeMux's 404 page. |
| `Router.RouterState.GetRouter` | server/router.go:18-22 | Returns the current router reference. |
| `Router.RouterState.SetRouter` | server/router.go:25-29 | After the call, the current router is the given one. |
| `Router.RouterState.ServeHTTP` | server/router.go:34-41 | With no router it answers 500 "No router configured". Otherwise it delegates to the current router. |
| `Router.RouterState.RegisterRoutes` | server/router.go:43-59 | Publishes, with one `SetRouter`, exactly the table grouped from the config. |
| `MainServer.CreateHandler` | main.go:97-157 | Every error this handler answers is 405 "Method not allowed" or 404 "No matching response found". |
| `MainServer.EmptyConditionIffNoParameters` | main.go:215-217 | An empty condition matches a request iff it has no query parameters. Any added parameter makes it fail. |
| `MainServer.NonEmptyConditionChecksFirstValues` | main.go:219-225 | A non-empty condition holds iff every expected key has a non-empty value list whose first value is the expected one. Unnamed parameters and later values are ignored. |
| `MainServer.MethodNotAllowedIffNoRoute` | main.go:155 | 405 "Method not allowed" is answered iff no route has the request method. |
| `MainServer.FirstMethodRouteDecides` | main.go:102-103 | The first route with the request method decides the answer. Routes after it are never consulted. |
| `MainServer.RegisteredMuxServesFirstDeclared` | main.go:80-95 | The ServeMux registered from a config answers by the first declared route with the request's path and method. A declared path with no route for the method gets 405, and an undeclared path gets the 404 page. |
| `MainServer.UnsupportedMethodScenario` | main_test.go:99-113 | With GET and POST declared for a path, a PUT request is answered 405. |
| `MainServer.Server.RegisterRoutes` | main.go:80-95 | Replaces the mux with the table grouped from the current config. The config itself is unchanged. |
| `MainServer.Server.ReloadConfig` | main.go:63-78 | A failed load leaves both the current config and the mux unchanged. A successful one sets the config to the loaded one and the mux to its grouping. |
| `MainServer.Server.ServeHTTP` | main.go:254-258 | Serves every request with the current mux. |
| `Divergence.MatchersDisagreeOnlyOnEmptyCondition` | main.go:214-217 | The two matchers differ iff the condition is empty and the request has parameters. Whatever main.go's matcher accepts, the split server's also accepts. |
| `Divergence.NoRouteForMethodAnswers` | server/router.go:102 | With no route for the method, main.go answers 405 and the router answers 404. |
| `Divergence.HandlersAgreeOtherwise` | server/router.go:61-104 | When a route has the method, and either the request has no query or none of that route's variants has an empty condition, both handlers give the same answer. |
| `Divergence.CatchAllVariantFirst` | utils/helpers.go:24-27 | A leading variant with an empty condition always answers in the router. In main.go it matches only a request without query parameters. |


The rows above name the members whose contracts state each property. The
functions that define the behaviour have no contract of their own and so no
row; each one is traced through the lemmas about it:
`Helpers.MatchQueryParams` (utils/helpers.go:23-36) and
`MainServer.MatchQueryParams` (main.go:214-226), `Query.FirstValuesMatch`
(the loop both share), `Config.LoadConfig` (config/config.go:40-52),
`Helpers.GetEnv` (utils/helpers.go:38-43, and main.go:207-212),
`Selection.Answer`, `Selection.Resolve` and `Selection.RouteDefault`
(main.go:105-151, server/router.go:68-100), `RouteTable.AppendRoute`
(main.go:85, server/router.go:48) and `Selection.ServeMux`. The constructors
`Config.ConfigStore`, `MainServer.Server` and `Router.RouterState` model the
initial globals: a nil `CurrentConfig`, a nil `currentConfig` with an empty
`mux`, and a nil router.

## Left out

- The file watcher (`server/watcher.go`, `watchConfigFile` and `addFileToWatcher` in `main.go`) is an event loop over file-system notifications with sleeps. It is concurrency and I/O plumbing, so a reload is modelled as a call made with the load's inputs.
- The read/write mutexes are left out. Publication is modelled as one field assignment, and atomicity under concurrent readers is not modelled.
- Reading the file and decoding TOML are foreign code. They enter as a `ReadOutcome` value and a decoder function. `main.go`'s `loadConfig` returns the unwrapped error, which only goes to the log; its read/parse classification is the same as `Config.LoadConfig`'s.
- `http.ServeMux` pattern matching (subtrees, trailing slashes, host patterns) is modelled as an exact-key map lookup. An unregistered path gets `http.NotFound`'s 404 "404 page not found".
- `http.Error` adds a trailing newline to its message and sets a plain-text content type. `HttpError` carries the status and the message only.
- `net/http` rejects status codes outside 100-999 when writing the header. Status codes are left unconstrained here.
- Sleeping and writing bytes are not performed. The `Outcome` carries the delay that would be slept and what would be written. The conversion of a delay to a `time.Duration`, which can overflow for huge values, is not modelled.
- Logging, the verbose switch, flag parsing and `main()`'s startup, including the fatal first load, are left out.
- Go's randomised map iteration order during handler registration is left out. Paths are distinct keys, so the order does not matter.
- `main.go`'s `getEnv` is the same function as `Helpers.GetEnv` and is modelled by it. The types that `main.go` declares again are the `Config` module's types.
- `utils.WriteResponse` is not modelled separately. Its effect is the `Response` case of `Outcome`.
- MainServer.Server.RegisterRoutes, MainServer.Server.ReloadConfig, Router.RouterState.RegisterRoutes: `ServeMux.HandleFunc` panics on a pattern it refuses, such as the empty path of a route without a `path` key, or a malformed or conflicting pattern. The model takes every path as a valid key. So a configuration that loads but cannot be registered is modelled as published, whereas the server crashes: in `main.go` after `currentConfig` is already replaced, in `server/router.go` before `SetRouter`.
- Router.RouterState.SetRouter: a router is modelled as a route table served by `Router.CreateHandler`. So the reference cannot hold an arbitrary hand-built ServeMux with other handlers; only routers built from a configuration are modelled.
