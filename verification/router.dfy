/** The RPC router: a dispatch table from service type to a server-selection
    function, an optional service-discovery handle, and the decision procedure
    that picks the backend server for one call.

    Sessions, routes and servers belong to other packages and are opaque here:
    they are the type parameters `Session`, `Rt` and `Server`. The random
    source of the default policy is replaced by a caller-supplied `draw`. */
module Router {
  import opened Wrappers

  /** The errors a call to `Route` can end with. */
  datatype Error =
    | ServiceDiscoveryNotInitialized
      // `Route` was called before a discovery handle was bound
    | NoServers
      // the default policy was asked to pick from an empty candidate list,
      // where the Go code panics inside `rand.Intn(0)`
    | External(message: string)
      // an error produced by service discovery or by a routing function

  /** The kind of an RPC; only `User` is distinguished by the router. */
  datatype RpcType = Sys | User

  /** The one operation of the service-discovery collaborator the router uses:
      the live servers of a service type, or an error. */
  datatype ServiceDiscovery<!Server> =
    ServiceDiscovery(getServersByType: string -> Result<seq<Server>, Error>)

  /** A custom selection strategy registered for a service type. */
  type RoutingFunction<!Session, !Rt, !Server> =
    (Session, Rt, seq<Server>) -> Result<Server, Error>

  /** The router state: the (possibly unbound) discovery handle and the
      dispatch table keyed by service type. */
  datatype Router<!Session, !Rt, !Server> = Router(
    serviceDiscovery: Option<ServiceDiscovery<Server>>,
    routesMap: map<string, RoutingFunction<Session, Rt, Server>>
  )

  /** A fresh router: nothing registered, no discovery bound. */
  function New<Session, Rt, Server>(): (r: Router<Session, Rt, Server>)
    ensures r.serviceDiscovery.None?
    ensures forall t :: t !in r.routesMap
  {
    Router(None, map[])
  }

  /** Binds or rebinds the discovery handle; `None` stands for binding nil. */
  function SetServiceDiscovery<Session, Rt, Server>(
    r: Router<Session, Rt, Server>, sd: Option<ServiceDiscovery<Server>>
  ): (r': Router<Session, Rt, Server>)
    ensures r'.serviceDiscovery == sd
    ensures r'.routesMap == r.routesMap
  {
    r.(serviceDiscovery := sd)
  }

  /** Registers `routingFunction` for `serverType`, replacing any earlier
      registration for that type (the Go code only logs a warning then). */
  function AddRoute<Session, Rt, Server>(
    r: Router<Session, Rt, Server>,
    serverType: string,
    routingFunction: RoutingFunction<Session, Rt, Server>
  ): (r': Router<Session, Rt, Server>)
    ensures serverType in r'.routesMap && r'.routesMap[serverType] == routingFunction
    ensures r'.routesMap.Keys == r.routesMap.Keys + {serverType}
    ensures forall t :: t in r.routesMap && t != serverType ==> r'.routesMap[t] == r.routesMap[t]
    ensures r'.serviceDiscovery == r.serviceDiscovery
  {
    r.(routesMap := r.routesMap[serverType := routingFunction])
  }

  /** The default policy: some element of a non-empty candidate list. `draw`
      stands for the output of the time-seeded random source; reducing it
      modulo the list length yields an index in range. */
  function DefaultRoute<Server>(servers: seq<Server>, draw: nat): (s: Server)
    requires |servers| > 0
    ensures s in servers
  {
    servers[draw % |servers|]
  }

  /** The default policy as seen by `Route`: an empty candidate list, where
      the Go code panics, becomes the explicit error `NoServers`. */
  function PickDefault<Server>(servers: seq<Server>, draw: nat): (res: Result<Server, Error>)
    ensures res.Success? <==> |servers| > 0
    ensures res.Success? ==> res.value in servers
    ensures res.Failure? ==> res.error == NoServers
  {
    if |servers| == 0 then Failure(NoServers) else Success(DefaultRoute(servers, draw))
  }

  /** Picks the server that should receive one RPC of kind `rpcType` for
      service type `svType`. */
  function Route<Session, Rt, Server>(
    r: Router<Session, Rt, Server>,
    rpcType: RpcType,
    svType: string,
    session: Session,
    route: Rt,
    draw: nat
  ): (res: Result<Server, Error>)
    // no discovery bound: a fixed error, whatever the kind and type
    ensures r.serviceDiscovery.None? ==> res == Failure(ServiceDiscoveryNotInitialized)
    // discovery failed: its error, unchanged
    ensures r.serviceDiscovery.Some? ==>
      var found := r.serviceDiscovery.value.getServersByType(svType);
      found.Failure? ==> res == Failure(found.error)
    // user RPCs: the default policy, whatever the table holds
    ensures r.serviceDiscovery.Some? && rpcType == User ==>
      var found := r.serviceDiscovery.value.getServersByType(svType);
      found.Success? ==> res == PickDefault(found.value, draw)
    // other RPCs with a registered strategy: that strategy's verdict, verbatim
    ensures r.serviceDiscovery.Some? && rpcType != User && svType in r.routesMap ==>
      var found := r.serviceDiscovery.value.getServersByType(svType);
      found.Success? ==> res == r.routesMap[svType](session, route, found.value)
    // other RPCs without one: the default policy
    ensures r.serviceDiscovery.Some? && rpcType != User && svType !in r.routesMap ==>
      var found := r.serviceDiscovery.value.getServersByType(svType);
      found.Success? ==> res == PickDefault(found.value, draw)
  {
    match r.serviceDiscovery
    case None => Failure(ServiceDiscoveryNotInitialized)
    case Some(sd) =>
      match sd.getServersByType(svType)
      case Failure(err) => Failure(err)
      case Success(serversOfType) =>
        if rpcType == User then
          PickDefault(serversOfType, draw)
        else
          match Lookup(r.routesMap, svType)
          case None => PickDefault(serversOfType, draw)
          case Some(routeFunc) => routeFunc(session, route, serversOfType)
  }
}
