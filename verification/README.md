# RPC router — a Dafny model

This project models the request router of the Pitaya RPC layer
(`router/router.go`). The router keeps a dispatch table from a service type
(a string) to a custom routing function, plus an optional service-discovery
handle. `Route` picks the backend server for one RPC:

1. with no discovery handle bound it fails with `ServiceDiscoveryNotInitialized`;
2. it asks discovery for the servers of the type and returns discovery's error unchanged;
3. `User` RPCs always go through the default policy (a random candidate);
4. other RPCs use the routing function registered for the type, verbatim, or
   fall back to the default policy when none is registered.

Files:

- `wrappers.dfy` — `Option`, `Result` and a map lookup (`Wrappers`).
- `router.dfy` — the router state and its operations `New`,
  `SetServiceDiscovery`, `AddRoute`, `DefaultRoute` and `Route` (`Router`).
- `router_lemmas.dfy` — properties relating several calls, a model of a
  whole configuration phase (a sequence of `SetServiceDiscovery`/`AddRoute`
  calls) with its last-write-wins lemmas, and two concrete scenarios
  (`RouterLemmas`).

The model is functional: a router is an immutable value, each operation
returns a new router, and the collaborators are values passed in.

- Sessions, routes and servers are opaque type parameters.
- The discovery handle is `Option<ServiceDiscovery>`. A `ServiceDiscovery`
  wraps the one method the router calls, `getServersByType`, as a function
  value. `None` stands for Go's nil interface.
- Routing functions are function values `(Session, Rt, seq<Server>) -> Result<Server, Error>`.
- The time-seeded random source is a caller-supplied `draw: nat`. The
  default policy picks index `draw % |servers|`, so every in-range index is
  reachable (`DefaultRouteReachesEveryCandidate`).
- Go's `(value, error)` pairs are `Result` values, and Go's `error` is one
  datatype `Error`. Errors coming from discovery or from a routing function
  are `External(message)` or any other `Error` value; `Route` hands them back
  untouched.
- In Go, `defaultRoute` on an empty candidate list panics in `rand.Intn(0)`.
  The model keeps non-emptiness as the precondition of `DefaultRoute`.
  `Route` turns that case into the explicit error `NoServers` through
  `PickDefault`, so that the panic is visible in the result instead of being
  excluded by a precondition on discovery.

## Model

| member | source | states |
|---|---|---|
| Router.New | router/router.go:48-56 | a new router has no discovery handle and no registered routing function for any type |
| Router.SetServiceDiscovery | router/router.go:59-61 | the handle becomes exactly the one given (nil included) and the dispatch table is unchanged |
| Router.AddRoute | router/router.go:100-111 | the type maps to the new function (last write wins), the key set grows by exactly that type, every other entry keeps its value, the discovery handle is unchanged, and there is no error outcome even when an entry is overridden |
| Router.DefaultRoute | router/router.go:63-71 | on a non-empty candidate list the default policy returns a member of that list |
| Router.PickDefault | router/router.go:63-71 | the default policy succeeds exactly when the candidate list is non-empty, its server is a candidate, and the empty list (a panic in Go) yields `NoServers` |
| Router.Route | router/router.go:74-96 | unbound discovery gives `ServiceDiscoveryNotInitialized` for every kind and type; a discovery error comes back unchanged; a `User` RPC gets the default policy over the discovered servers; another RPC gets exactly the registered function's result on (session, route, servers), with no membership check, or the default policy when nothing is registered |
| RouterLemmas.NewRouterCannotRoute | router/router.go:80-82 | routing on a fresh router fails with `ServiceDiscoveryNotInitialized` |
| RouterLemmas.UnbindCannotRoute | router/router.go:59-61 | after binding nil, every call fails with `ServiceDiscoveryNotInitialized` whatever the table holds |
| RouterLemmas.UserIgnoresRoutesMap | router/router.go:87-89 | the routing of a `User` RPC is the same under any dispatch table, so no custom function is consulted |
| RouterLemmas.DiscoveryFailureSkipsSelection | router/router.go:83-86 | when discovery fails, the result is its error whatever the RPC kind, table, session, route or draw |
| RouterLemmas.DefaultRouteReachesEveryCandidate | router/router.go:67-69 | every candidate of a non-empty list is chosen by the default policy for some draw |
| RouterLemmas.DefaultRoutingReachesEveryCandidate | router/router.go:87-94 | for a `User` RPC, or a type with no registered function, each discovered server is the routing result for some draw |
| RouterLemmas.SecondRegistrationWins | router/router.go:108-111 | after two registrations for one type, a non-`User` call returns the second function's result |
| RouterLemmas.AddRouteKeepsOtherTypes | router/router.go:111 | registering for one type leaves the routing of every other type unchanged |
| RouterLemmas.Configure | router/router.go:98-111 | after a sequence of configuration calls, the registered types are the earlier ones plus every type some step registers, and the discovery handle is untouched when no step binds one |
| RouterLemmas.ConfigureLastRegistrationWins | router/router.go:108-111 | after a sequence of configuration calls, a type maps to the function of its last registration |
| RouterLemmas.ConfigureKeepsUnregistered | router/router.go:111 | a type that no configuration step registers keeps its previous entry, or stays absent |
| RouterLemmas.ConfigureLastBindWins | router/router.go:59-61 | after a sequence of configuration calls, the discovery handle is the one of the last binding step |
| RouterLemmas.RouteAfterConfigure | router/router.go:90-95 | after configuring a fresh router, a non-`User` call is decided by the last binding's discovery and the last registration for its type |
| RouterLemmas.PinnedStrategyScenario | router/router.go:90-95 | with a "match" function that always answers "B", every system call to "match" returns "B" |
| RouterLemmas.DefaultPolicyScenario | router/router.go:90-94 | with no function for "room" and candidates A, B, C, a system call returns one of them and each is reachable |

## Left out

- Uniformity of the default policy and the `time.Now()` seeding
  (router/router.go:67-68): randomness is the `draw` parameter, and only
  "some candidate, each one reachable" is modelled; equal frequencies are a
  statistical property.
- Router.PickDefault: the Go code panics on an empty candidate list; the
  model returns `NoServers` instead of modelling a crash.
- Router.DefaultRoute: does not take the unused `svType` argument of the Go
  function.
- Logging (`log.Debugf` when falling back to the default policy,
  `log.Warnf` when a registration overrides another): diagnostics that do not
  change control flow.
- Concurrency: the unsynchronised access to the dispatch table (the TODO at
  router/router.go:99) is not modelled; the model is single-threaded and
  configuration is a sequence of calls (`RouterLemmas.Configure`).
- The internals of `cluster.ServiceDiscovery`, `cluster.Server`,
  `session.Session`, `route.Route` and `protos.RPCType`: these packages are
  not part of this model. Discovery is reduced to `getServersByType`, and
  every RPC kind other than `User` is represented by `Sys`.
- Go pointers: a routing function returning a nil server with a nil error,
  or a server together with an error, has no counterpart; a `Result` holds
  one or the other.
