/** Properties of the router that relate several calls: what registration
    and rebinding do to later routing decisions, and the last-write-wins
    behaviour of a whole configuration phase. */
module RouterLemmas {
  import opened Wrappers
  import opened Router

  /** A fresh router refuses to route anything until discovery is bound. */
  lemma NewRouterCannotRoute<Session, Rt, Server>(
    rpcType: RpcType, svType: string, session: Session, route: Rt, draw: nat
  )
    ensures Route(New<Session, Rt, Server>(), rpcType, svType, session, route, draw)
         == Failure(ServiceDiscoveryNotInitialized)
  {
  }

  /** Binding nil makes every later call fail with the fixed error,
      whatever strategies are registered. */
  lemma UnbindCannotRoute<Session, Rt, Server>(
    r: Router<Session, Rt, Server>,
    rpcType: RpcType, svType: string, session: Session, route: Rt, draw: nat
  )
    ensures Route(SetServiceDiscovery(r, None), rpcType, svType, session, route, draw)
         == Failure(ServiceDiscoveryNotInitialized)
  {
  }

  /** User RPCs never reach a custom strategy: replacing the whole dispatch
      table does not change their routing. */
  lemma UserIgnoresRoutesMap<Session, Rt, Server>(
    r: Router<Session, Rt, Server>,
    routesMap: map<string, RoutingFunction<Session, Rt, Server>>,
    svType: string, session: Session, route: Rt, draw: nat
  )
    ensures Route(r, User, svType, session, route, draw)
         == Route(r.(routesMap := routesMap), User, svType, session, route, draw)
  {
  }

  /** When discovery fails, no selection happens: the outcome depends on
      neither the RPC kind, the table, the call context nor the draw. */
  lemma DiscoveryFailureSkipsSelection<Session, Rt, Server>(
    r: Router<Session, Rt, Server>,
    routesMap: map<string, RoutingFunction<Session, Rt, Server>>,
    svType: string,
    rpcType1: RpcType, session1: Session, route1: Rt, draw1: nat,
    rpcType2: RpcType, session2: Session, route2: Rt, draw2: nat
  )
    requires r.serviceDiscovery.Some?
    requires r.serviceDiscovery.value.getServersByType(svType).Failure?
    ensures Route(r, rpcType1, svType, session1, route1, draw1)
         == Route(r.(routesMap := routesMap), rpcType2, svType, session2, route2, draw2)
         == Failure(r.serviceDiscovery.value.getServersByType(svType).error)
  {
  }

  /** Every candidate of a non-empty list is picked by the default policy
      for some draw of the random source, so the abstraction loses no choice. */
  lemma DefaultRouteReachesEveryCandidate<Server>(servers: seq<Server>, i: nat)
    requires i < |servers|
    ensures exists draw: nat :: DefaultRoute(servers, draw) == servers[i]
  {
    assert DefaultRoute(servers, i) == servers[i];
  }

  /** Routing through the default policy (a User RPC, or a type without a
      strategy) can land on any discovered server, and on nothing else. */
  lemma DefaultRoutingReachesEveryCandidate<Session, Rt, Server>(
    r: Router<Session, Rt, Server>,
    rpcType: RpcType, svType: string, session: Session, route: Rt, i: nat
  )
    requires r.serviceDiscovery.Some?
    requires r.serviceDiscovery.value.getServersByType(svType).Success?
    requires rpcType == User || svType !in r.routesMap
    requires i < |r.serviceDiscovery.value.getServersByType(svType).value|
    ensures exists draw: nat ::
      Route(r, rpcType, svType, session, route, draw)
        == Success(r.serviceDiscovery.value.getServersByType(svType).value[i])
  {
    var servers := r.serviceDiscovery.value.getServersByType(svType).value;
    assert Route(r, rpcType, svType, session, route, i) == Success(servers[i]);
  }

  /** Registering twice for the same type: only the second strategy is used. */
  lemma SecondRegistrationWins<Session, Rt, Server>(
    r: Router<Session, Rt, Server>,
    svType: string,
    first: RoutingFunction<Session, Rt, Server>,
    second: RoutingFunction<Session, Rt, Server>,
    session: Session, route: Rt, draw: nat
  )
    requires r.serviceDiscovery.Some?
    requires r.serviceDiscovery.value.getServersByType(svType).Success?
    ensures Route(AddRoute(AddRoute(r, svType, first), svType, second), Sys, svType, session, route, draw)
         == second(session, route, r.serviceDiscovery.value.getServersByType(svType).value)
  {
  }

  /** Registering a strategy for one type leaves the routing of every other
      type exactly as it was. */
  lemma AddRouteKeepsOtherTypes<Session, Rt, Server>(
    r: Router<Session, Rt, Server>,
    serverType: string,
    routingFunction: RoutingFunction<Session, Rt, Server>,
    rpcType: RpcType, svType: string, session: Session, route: Rt, draw: nat
  )
    requires svType != serverType
    ensures Route(AddRoute(r, serverType, routingFunction), rpcType, svType, session, route, draw)
         == Route(r, rpcType, svType, session, route, draw)
  {
  }

  // ---------------------------------------------------------------------
  // The configuration phase: a sequence of bindings and registrations
  // applied to a router before it serves calls.
  // ---------------------------------------------------------------------

  /** One configuration call on a router. */
  datatype Step<!Session, !Rt, !Server> =
    | Bind(sd: Option<ServiceDiscovery<Server>>)
    | Register(serverType: string, routingFunction: RoutingFunction<Session, Rt, Server>)

  /** True when `step` registers a strategy for `t`. */
  predicate RegistersType<Session, Rt, Server>(step: Step<Session, Rt, Server>, t: string) {
    step.Register? && step.serverType == t
  }

  /** The service types some step of `steps` registers. */
  function RegisteredTypes<Session, Rt, Server>(steps: seq<Step<Session, Rt, Server>>): set<string> {
    set i | 0 <= i < |steps| && steps[i].Register? :: steps[i].serverType
  }

  /** Performs one configuration call. */
  function Apply<Session, Rt, Server>(
    r: Router<Session, Rt, Server>, step: Step<Session, Rt, Server>
  ): Router<Session, Rt, Server> {
    match step
    case Bind(sd) => SetServiceDiscovery(r, sd)
    case Register(t, f) => AddRoute(r, t, f)
  }

  /** Performs the configuration calls of `steps` in order. */
  function Configure<Session, Rt, Server>(
    r: Router<Session, Rt, Server>, steps: seq<Step<Session, Rt, Server>>
  ): (r': Router<Session, Rt, Server>)
    ensures r'.routesMap.Keys == r.routesMap.Keys + RegisteredTypes(steps)
    ensures (forall i :: 0 <= i < |steps| ==> steps[i].Register?) ==>
      r'.serviceDiscovery == r.serviceDiscovery
    decreases |steps|
  {
    if |steps| == 0 then r
    else
      var init := steps[..|steps| - 1];
      assert RegisteredTypes(steps) == RegisteredTypes(init) +
        (if steps[|steps| - 1].Register? then {steps[|steps| - 1].serverType} else {}) by {
        assert forall i :: 0 <= i < |init| ==> init[i] == steps[i];
      }
      Apply(Configure(r, init), steps[|steps| - 1])
  }

  /** Last write wins: after configuration, a type maps to the strategy of
      its last registration. */
  lemma {:induction false} ConfigureLastRegistrationWins<Session, Rt, Server>(
    r: Router<Session, Rt, Server>, steps: seq<Step<Session, Rt, Server>>, t: string, i: nat
  )
    requires i < |steps| && RegistersType(steps[i], t)
    requires forall j :: i < j < |steps| ==> !RegistersType(steps[j], t)
    ensures t in Configure(r, steps).routesMap
    ensures Configure(r, steps).routesMap[t] == steps[i].routingFunction
    decreases |steps|
  {
    if i < |steps| - 1 {
      var init := steps[..|steps| - 1];
      ConfigureLastRegistrationWins(r, init, t, i);
    }
  }

  /** A type no step registers keeps whatever entry it had before. */
  lemma {:induction false} ConfigureKeepsUnregistered<Session, Rt, Server>(
    r: Router<Session, Rt, Server>, steps: seq<Step<Session, Rt, Server>>, t: string
  )
    requires forall j :: 0 <= j < |steps| ==> !RegistersType(steps[j], t)
    ensures Lookup(Configure(r, steps).routesMap, t) == Lookup(r.routesMap, t)
    decreases |steps|
  {
    if |steps| > 0 {
      ConfigureKeepsUnregistered(r, steps[..|steps| - 1], t);
    }
  }

  /** The discovery handle after configuration is the one of the last
      binding step. */
  lemma {:induction false} ConfigureLastBindWins<Session, Rt, Server>(
    r: Router<Session, Rt, Server>, steps: seq<Step<Session, Rt, Server>>, i: nat
  )
    requires i < |steps| && steps[i].Bind?
    requires forall j :: i < j < |steps| ==> steps[j].Register?
    ensures Configure(r, steps).serviceDiscovery == steps[i].sd
    decreases |steps|
  {
    if i < |steps| - 1 {
      ConfigureLastBindWins(r, steps[..|steps| - 1], i);
    }
  }

  /** Configuration order between types does not matter for routing: a
      non-User call to a type is decided by the last binding and by the last
      registration for that type alone. */
  lemma RouteAfterConfigure<Session, Rt, Server>(
    steps: seq<Step<Session, Rt, Server>>,
    b: nat, i: nat, svType: string, session: Session, route: Rt, draw: nat
  )
    requires b < |steps| && steps[b].Bind? && steps[b].sd.Some?
    requires forall j :: b < j < |steps| ==> steps[j].Register?
    requires i < |steps| && RegistersType(steps[i], svType)
    requires forall j :: i < j < |steps| ==> !RegistersType(steps[j], svType)
    requires steps[b].sd.value.getServersByType(svType).Success?
    ensures Route(Configure(New(), steps), Sys, svType, session, route, draw)
         == steps[i].routingFunction(session, route, steps[b].sd.value.getServersByType(svType).value)
  {
    ConfigureLastBindWins(New(), steps, b);
    ConfigureLastRegistrationWins(New(), steps, svType, i);
  }

  // ---------------------------------------------------------------------
  // Two concrete configurations, with servers named by strings.
  // ---------------------------------------------------------------------

  /** A strategy for "match" that always answers server "B" decides every
      non-User call to "match", whatever the call context and draw. */
  lemma PinnedStrategyScenario<Session, Rt>(
    sd: ServiceDiscovery<string>, session: Session, route: Rt, draw: nat
  )
    requires sd.getServersByType("match") == Success(["A", "B", "C"])
    ensures
      var r := AddRoute(SetServiceDiscovery(New(), Some(sd)), "match",
                        (s: Session, rt: Rt, servers: seq<string>) => Success("B"));
      Route(r, Sys, "match", session, route, draw) == Success("B")
  {
  }

  /** With no strategy for "room", a system call lands on one of the three
      discovered servers, and each of them is chosen by some draw. */
  lemma DefaultPolicyScenario<Session, Rt>(
    sd: ServiceDiscovery<string>, session: Session, route: Rt, draw: nat
  )
    requires sd.getServersByType("room") == Success(["A", "B", "C"])
    ensures
      var r := SetServiceDiscovery(New<Session, Rt, string>(), Some(sd));
      && Route(r, Sys, "room", session, route, draw) in {Success("A"), Success("B"), Success("C")}
      && (forall s :: s in ["A", "B", "C"] ==>
            exists d: nat :: Route(r, Sys, "room", session, route, d) == Success(s))
  {
    var r := SetServiceDiscovery(New<Session, Rt, string>(), Some(sd));
    forall s | s in ["A", "B", "C"]
      ensures exists d: nat :: Route(r, Sys, "room", session, route, d) == Success(s)
    {
      var i :| 0 <= i < 3 && ["A", "B", "C"][i] == s;
      DefaultRoutingReachesEveryCandidate(r, Sys, "room", session, route, i);
    }
  }
}
