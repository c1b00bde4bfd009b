/** Connection validation and endpoint derivation over the resolver's result. */
module Endpoints {
  import opened Ordering
  import opened Model
  import opened Routing
  import opened Exposures
  import opened Peerings
  import opened ChainPeers
  import opened Expansion
  import opened Access

  // ---------------------------------------------------------------- endpoints

  /** A Docker alias, network-qualified in a lab, or an IPv4 address. */
  datatype Host = Alias(service: Id, network: Option<Id>) | Address(address: nat)

  datatype Transport = Docker | OverNetwork

  datatype Endpoint = Endpoint(service: Id, host: Host, port: nat, transport: Transport, network: Option<Id>)

  function ContainerPort(kind: ServiceType): nat {
    match kind
    case BesuRpc => 8545
    case BesuObserver => 8545
    case AdminApi => 8000
    case MinterApi => 8001
    case ResolverApi => 8002
    case StoreApi => 8003
    case Dashboard => 8080
    case Explorer => 80
    case EdgeProxy => 80
    case IpfsKubo => 5001
    case IpfsCluster => 9094
    case MinterPostgres => 5432
    case DashboardMysql => 3306
    case DashboardRedis => 6379
    case _ => 0
  }

  function InternalPort(s: Service): nat {
    if s.kind == EdgeProxy && s.configuration.directTls then 443
    else s.configuration.port.GetOr<nat>(ContainerPort(s.kind))
  }

  /** An advertised port of zero counts as absent. */
  function AdvertisedPort(port: Option<nat>, default: nat): nat {
    if port.Some? && port.value != 0 then port.value else default
  }

  function PrivateEndpoint(service: Id, machine: Machine, network: Id, address: Option<nat>,
                           port: nat): Option<Endpoint> {
    if address.Some? then Some(Endpoint(service, Address(address.value), port, OverNetwork, Some(network)))
    else if network !in machine.addresses then None
    else Some(Endpoint(service, Address(machine.addresses[network]), port, OverNetwork, Some(network)))
  }

  /** `endpoint_for`: how `consumer` reaches `service` on `provider`. */
  function EndpointFor(service: Service, provider: Machine, consumer: Machine, c: Connection): Option<Endpoint> {
    if provider.id == consumer.id then
      Some(Endpoint(service.id, Alias(service.id, None), InternalPort(service), Docker, None))
    else if provider.execution == DockerLab && consumer.execution == DockerLab then
      if c.network.None? then None
      else Some(Endpoint(service.id, Alias(service.id, c.network), InternalPort(service), Docker, c.network))
    else
      var listener := if c.network.None? then None else FirstOn(service.listeners, c.network.value);
      if listener.None? && (service.exposure.None? || service.exposure.value.mode != Private) then None
      else if c.network.None? || (listener.None? && service.exposure.value.network != c.network) then None
      else if listener.Some? then
        var l := listener.value;
        PrivateEndpoint(service.id, provider, c.network.value, l.advertiseAddress,
            AdvertisedPort(l.advertisePort, l.port))
      else
        var e := service.exposure.value;
        PrivateEndpoint(service.id, provider, c.network.value, e.advertiseAddress,
            AdvertisedPort(e.advertisePort, e.port))
  }

  /** The machine index maps each id to the machine of that id, and every service is placed on one of them. */
  ghost predicate Placed(machines: map<Id, Machine>, services: seq<Service>) {
    && (forall id :: id in machines ==> machines[id].id == id)
    && (forall s :: s in services ==> s.machine in machines)
  }

  /** The endpoint of one connection. */
  function ConnectionEndpoint(machines: map<Id, Machine>, g: map<Id, Service>, s: Service,
                              c: Connection): Option<Endpoint> {
    if c.service !in g || s.machine !in machines || g[c.service].machine !in machines then None
    else EndpointFor(g[c.service], machines[g[c.service].machine], machines[s.machine], c)
  }

  /** A connection to the contract job, which is no endpoint. */
  ghost predicate ToJob(g: map<Id, Service>, c: Connection) {
    c.service in g && g[c.service].kind == ContractsDeploy
  }

  // ---------------------------------------------------------------- what an endpoint is

  /**
   * The configured port, or the port the type listens on inside its container; a proxy with its own
   * TLS listens on 443.
   */
  ghost predicate ListensInside(s: Service, port: nat) {
    if s.kind == EdgeProxy && s.configuration.directTls then port == 443
    else if s.configuration.port.Some? then port == s.configuration.port.value
    else
      && (s.kind == BesuRpc || s.kind == BesuObserver <==> port == 8545)
      && (s.kind == AdminApi <==> port == 8000) && (s.kind == MinterApi <==> port == 8001)
      && (s.kind == ResolverApi <==> port == 8002) && (s.kind == StoreApi <==> port == 8003)
      && (s.kind == Dashboard <==> port == 8080) && (s.kind == Explorer || s.kind == EdgeProxy <==> port == 80)
      && (s.kind == IpfsKubo <==> port == 5001) && (s.kind == IpfsCluster <==> port == 9094)
      && (s.kind == MinterPostgres <==> port == 5432) && (s.kind == DashboardMysql <==> port == 3306)
      && (s.kind == DashboardRedis <==> port == 6379)
      && port in {0, 80, 3306, 5001, 5432, 6379, 8000, 8001, 8002, 8003, 8080, 8545, 9094}
  }

  lemma InternalPortIff(s: Service, port: nat)
    ensures InternalPort(s) == port <==> ListensInside(s, port)
  {
  }

  /** The listener at `i` is the first on the network. */
  ghost predicate FirstListener(listeners: seq<Listener>, network: Id, i: nat) {
    i < |listeners| && listeners[i].network == network && forall j :: 0 <= j < i ==> listeners[j].network != network
  }

  lemma {:induction false} FirstOnIff(listeners: seq<Listener>, network: Id, i: nat)
    requires i < |listeners|
    ensures FirstListener(listeners, network, i) ==> FirstOn(listeners, network) == Some(listeners[i])
  {
    if FirstListener(listeners, network, i) && i > 0 {
      assert listeners[0].network != network;
      FirstOnIff(listeners[1..], network, i - 1);
    }
  }

  lemma {:induction false} FirstOnAt(listeners: seq<Listener>, network: Id) returns (i: nat)
    requires exists l :: l in listeners && l.network == network
    ensures FirstListener(listeners, network, i) && FirstOn(listeners, network) == Some(listeners[i])
  {
    if listeners[0].network == network {
      i := 0;
    } else {
      assert listeners == [listeners[0]] + listeners[1..];
      i := FirstOnAt(listeners[1..], network);
      i := i + 1;
    }
  }

  /** The advertised address or else the machine's own there, and the advertised port or else the published one. */
  ghost predicate AnnouncedBy(machine: Machine, network: Id, address: Option<nat>, advertised: Option<nat>, port: nat,
                              e: Endpoint) {
    && (address.Some? ==> e.host == Address(address.value))
    && (address.None? ==> network in machine.addresses && e.host == Address(machine.addresses[network]))
    && e.port == (if advertised == None || advertised == Some(0) then port else advertised.value)
  }

  /** The provider publishes the network by its first listener there, or else by its private exposure. */
  ghost predicate Announced(p: Service, machine: Machine, network: Id, e: Endpoint) {
    || (exists i: nat ::
          && FirstListener(p.listeners, network, i)
          && AnnouncedBy(machine, network, p.listeners[i].advertiseAddress, p.listeners[i].advertisePort,
              p.listeners[i].port, e))
    || ((forall l :: l in p.listeners ==> l.network != network) && p.exposure.Some?
        && p.exposure.value.mode == Private && p.exposure.value.network == Some(network)
        && AnnouncedBy(machine, network, p.exposure.value.advertiseAddress, p.exposure.value.advertisePort,
            p.exposure.value.port, e))
  }

  /**
   * The service by its alias on its own machine, by its alias on the connection's network between two
   * Docker labs, and otherwise by what it announces on that network.
   */
  ghost predicate ReachedAt(p: Service, there: Machine, here: Machine, c: Connection, e: Endpoint) {
    && e.service == p.id
    && (e.transport == Docker <==> there.id == here.id || (there.execution == DockerLab && here.execution == DockerLab))
    && (there.id == here.id ==> e.host == Alias(p.id, None) && e.network == None)
    && (there.id != here.id ==> e.network == c.network && c.network.Some?)
    && (there.id != here.id && e.transport == Docker ==> e.host == Alias(p.id, c.network))
    && (e.transport == Docker ==> ListensInside(p, e.port))
    && (e.transport == OverNetwork ==> c.network.Some? && Announced(p, there, c.network.value, e))
  }

  lemma AnnouncedMatches(p: Service, machine: Machine, network: Id, e: Endpoint)
    ensures Announced(p, machine, network, e) <==>
            var l := FirstOn(p.listeners, network);
            if l.Some? then
              AnnouncedBy(machine, network, l.value.advertiseAddress, l.value.advertisePort, l.value.port, e)
            else
              && p.exposure.Some? && p.exposure.value.mode == Private && p.exposure.value.network == Some(network)
              && AnnouncedBy(machine, network, p.exposure.value.advertiseAddress, p.exposure.value.advertisePort,
                             p.exposure.value.port, e)
  {
    if FirstOn(p.listeners, network).Some? {
      var i := FirstOnAt(p.listeners, network);
      forall j: nat | FirstListener(p.listeners, network, j) ensures j == i {
      }
    }
  }

  lemma PrivateEndpointIff(service: Id, machine: Machine, network: Id, address: Option<nat>, advertised: Option<nat>,
                           port: nat, e: Endpoint)
    ensures PrivateEndpoint(service, machine, network, address, AdvertisedPort(advertised, port)) == Some(e) <==>
            && AnnouncedBy(machine, network, address, advertised, port, e)
            && e.service == service && e.transport == OverNetwork && e.network == Some(network)
  {
  }

  lemma EndpointIff(p: Service, there: Machine, here: Machine, c: Connection, e: Endpoint)
    ensures EndpointFor(p, there, here, c) == Some(e) <==> ReachedAt(p, there, here, c, e)
  {
    InternalPortIff(p, e.port);
    if there.id != here.id && !(there.execution == DockerLab && here.execution == DockerLab) && c.network.Some? {
      AnnouncedMatches(p, there, c.network.value, e);
      var l := FirstOn(p.listeners, c.network.value);
      if l.Some? {
        PrivateEndpointIff(p.id, there, c.network.value, l.value.advertiseAddress, l.value.advertisePort, l.value.port,
            e);
      } else if p.exposure.Some? {
        var x := p.exposure.value;
        PrivateEndpointIff(p.id, there, c.network.value, x.advertiseAddress, x.advertisePort, x.port, e);
      }
    }
  }

  /** The endpoint a connection's consumer dials. */
  ghost predicate Reached(machines: map<Id, Machine>, g: map<Id, Service>, s: Service, c: Connection, e: Endpoint) {
    && c.service in g && s.machine in machines && g[c.service].machine in machines
    && ReachedAt(g[c.service], machines[g[c.service].machine], machines[s.machine], c, e)
  }

  lemma ReachedIff(machines: map<Id, Machine>, g: map<Id, Service>, s: Service, c: Connection, e: Endpoint)
    ensures ConnectionEndpoint(machines, g, s, c) == Some(e) <==> Reached(machines, g, s, c, e)
  {
    if c.service in g && s.machine in machines && g[c.service].machine in machines {
      EndpointIff(g[c.service], machines[g[c.service].machine], machines[s.machine], c, e);
    }
  }

  ghost predicate Reachable(machines: map<Id, Machine>, g: map<Id, Service>, s: Service, c: Connection) {
    exists e :: Reached(machines, g, s, c, e)
  }

  lemma ReachableIff(machines: map<Id, Machine>, g: map<Id, Service>, s: Service, c: Connection)
    ensures ConnectionEndpoint(machines, g, s, c).Some? <==> Reachable(machines, g, s, c)
  {
    var e := ConnectionEndpoint(machines, g, s, c);
    if e.Some? { ReachedIff(machines, g, s, c, e.value); }
    if x :| Reached(machines, g, s, c, x) { ReachedIff(machines, g, s, c, x); }
  }

  // ---------------------------------------------------------------- the table of endpoints

  type EndpointTable = map<Link, Endpoint>

  /**
   * The table holds an endpoint for exactly the pairs joined by the connections seen so far, each
   * the endpoint of one.
   */
  ghost predicate Tabulates(machines: map<Id, Machine>, g: map<Id, Service>, services: seq<Service>,
                            table: EndpointTable) {
    && (forall s, c :: s in services && c in s.connections && !ToJob(g, c) ==> Link(s.id, c.service) in table)
    && (forall l :: l in table ==> Derived(machines, g, services, l, table[l]))
  }

  ghost predicate Derived(machines: map<Id, Machine>, g: map<Id, Service>, services: seq<Service>, l: Link,
                          e: Endpoint) {
    exists s, c :: s in services && c in s.connections && !ToJob(g, c) && l == Link(s.id, c.service)
      && Reached(machines, g, s, c, e)
  }

  /** `derive_endpoints` for one consumer. */
  method DeriveConsumer(machines: map<Id, Machine>, g: map<Id, Service>, s: Service, table: EndpointTable)
    returns (r: Option<EndpointTable>)
    ensures r.Some? <==> forall c :: c in s.connections && !ToJob(g, c) ==>
            Reachable(machines, g, s, c)
    ensures r.Some? ==> forall l :: l in table ==> l in r.value
    ensures r.Some? ==> forall c :: c in s.connections && !ToJob(g, c) ==> Link(s.id, c.service) in r.value
    ensures r.Some? ==> forall l :: l in r.value ==>
            (l in table && r.value[l] == table[l]) || Derived(machines, g, [s], l, r.value[l])
  {
    var after := table;
    for i := 0 to |s.connections|
      invariant forall l :: l in table ==> l in after
      invariant forall j :: 0 <= j < i && !ToJob(g, s.connections[j]) ==>
        Reachable(machines, g, s, s.connections[j]) && Link(s.id, s.connections[j].service) in after
      invariant forall l :: l in after ==>
                (l in table && after[l] == table[l]) || Derived(machines, g, [s], l, after[l])
    {
      var c := s.connections[i];
      assert c in s.connections;
      if c.service !in g || g[c.service].kind != ContractsDeploy {
        var e := ConnectionEndpoint(machines, g, s, c);
        ReachableIff(machines, g, s, c);
        if e.None? {
          return None;
        }
        ReachedIff(machines, g, s, c, e.value);
        assert s in [s] && Derived(machines, g, [s], Link(s.id, c.service), e.value);
        after := after[Link(s.id, c.service) := e.value];
      }
    }
    r := Some(after);
  }

  /** `derive_endpoints`: total exactly when every connection that needs an endpoint has one. */
  method DeriveEndpoints(machines: map<Id, Machine>, services: seq<Service>) returns (r: Option<EndpointTable>)
    requires UniqueServices(services)
    ensures r.Some? <==> forall s, c :: s in services && c in s.connections && !ToJob(ById(services), c) ==>
                            Reachable(machines, ById(services), s, c)
    ensures r.Some? ==> Tabulates(machines, ById(services), services, r.value)
  {
    var g := ById(services);
    var table: EndpointTable := map[];
    for n := 0 to |services|
      invariant forall i :: 0 <= i < n ==> forall c :: c in services[i].connections && !ToJob(g, c) ==>
        Reachable(machines, g, services[i], c)
      invariant Tabulates(machines, g, services[..n], table)
    {
      var s := services[n];
      var next := DeriveConsumer(machines, g, s, table);
      if next.None? {
        assert s in services;
        return None;
      }
      TabulateMore(machines, g, services[..n], s, table, next.value);
      assert services[..n + 1] == services[..n] + [s];
      table := next.value;
    }
    assert services[..|services|] == services;
    r := Some(table);
  }

  lemma TabulateMore(machines: map<Id, Machine>, g: map<Id, Service>, services: seq<Service>, s: Service,
                     table: EndpointTable, next: EndpointTable)
    requires Tabulates(machines, g, services, table)
    requires forall l :: l in table ==> l in next
    requires forall c :: c in s.connections && !ToJob(g, c) ==> Link(s.id, c.service) in next
    requires forall l :: l in next ==> (l in table && next[l] == table[l]) || Derived(machines, g, [s], l, next[l])
    ensures Tabulates(machines, g, services + [s], next)
  {
    var more := services + [s];
    assert forall x :: x in more <==> x in services || x == s;
    forall l | l in next ensures Derived(machines, g, more, l, next[l]) {
      if l in table && next[l] == table[l] {
        assert Derived(machines, g, services, l, table[l]);
      }
    }
  }

  // ---------------------------------------------------------------- validation

  /** The validator's check of one connection. */
  predicate ConnectionAccepted(t: Topology, g: map<Id, Service>, s: Service, c: Connection) {
    c.service in g && (
      || g[c.service].kind == ContractsDeploy
      || (s.machine == g[c.service].machine && c.network.None? && c.protocol.None?)
      || (&& s.machine != g[c.service].machine && c.network.Some? && c.protocol.Some? &&
          c.protocol.value in ["tcp", "udp"]
          && s.machine in t.machines && g[c.service].machine in t.machines
          && Reaches(t, t.machines[s.machine], t.machines[g[c.service].machine], c.network.value)
          && Offers(g[c.service], c.network.value, c.protocol.value)))
  }

  ghost predicate AllAccepted(t: Topology, services: seq<Service>)
    requires UniqueServices(services)
  {
    forall s, c :: s in services && c in s.connections ==> ConnectionAccepted(t, ById(services), s, c)
  }

  /** The first listener there, or without one the private exposure there, speaks the protocol. */
  ghost predicate Speaks(p: Service, network: Id, protocol: string) {
    || (exists i: nat ::
          FirstListener(p.listeners, network, i) && protocol in p.listeners[i].protocols)
    || ((forall l :: l in p.listeners ==> l.network != network)
        && p.exposure.Some? && p.exposure.value.mode == Private && p.exposure.value.network == Some(network)
        && protocol in p.exposure.value.protocols)
  }

  lemma OffersIff(p: Service, network: Id, protocol: string)
    ensures Offers(p, network, protocol) <==> Speaks(p, network, protocol)
  {
    if FirstOn(p.listeners, network).Some? {
      var i := FirstOnAt(p.listeners, network);
      forall j: nat | FirstListener(p.listeners, network, j) ensures j == i {
      }
    }
  }

  /** The validator's complaints about a connection. */
  ghost predicate ConnectionFault(t: Topology, g: map<Id, Service>, s: Service, c: Connection) {
    || c.service !in g
    || (g[c.service].kind != ContractsDeploy && s.machine == g[c.service].machine &&
        (c.network.Some? || c.protocol.Some?))
    || (g[c.service].kind != ContractsDeploy && s.machine != g[c.service].machine
        && (|| c.network.None? || c.protocol.None? || (c.protocol != Some("tcp") && c.protocol != Some("udp"))
            || s.machine !in t.machines || g[c.service].machine !in t.machines
            || !CanSend(t, t.machines[s.machine], t.machines[g[c.service].machine], c.network.value)
            || !Speaks(g[c.service], c.network.value, c.protocol.value)))
  }

  lemma ConnectionFaultIff(t: Topology, g: map<Id, Service>, s: Service, c: Connection)
    ensures ConnectionAccepted(t, g, s, c) <==> !ConnectionFault(t, g, s, c)
  {
    if c.service in g && c.network.Some? {
      if c.protocol.Some? { OffersIff(g[c.service], c.network.value, c.protocol.value); }
      if s.machine in t.machines && g[c.service].machine in t.machines {
        ReachesIff(t, t.machines[s.machine], t.machines[g[c.service].machine], c.network.value);
      }
    }
  }

  /** The validator's loop over all connections. */
  method CheckConnections(t: Topology, services: seq<Service>) returns (ok: bool)
    requires UniqueServices(services)
    ensures ok <==> AllAccepted(t, services)
    ensures ok <==> forall s, c :: s in services && c in s.connections ==> !ConnectionFault(t, ById(services), s, c)
  {
    forall s, c ensures ConnectionAccepted(t, ById(services), s, c) <==> !ConnectionFault(t, ById(services), s, c) {
      ConnectionFaultIff(t, ById(services), s, c);
    }
    var g := ById(services);
    for n := 0 to |services|
      invariant forall i :: 0 <= i < n ==> forall c :: c in services[i].connections ==>
                ConnectionAccepted(t, g, services[i], c)
    {
      var s := services[n];
      for k := 0 to |s.connections|
        invariant forall j :: 0 <= j < k ==> ConnectionAccepted(t, g, s, s.connections[j])
      {
        if !ConnectionAccepted(t, g, s, s.connections[k]) {
          assert s in services && s.connections[k] in s.connections;
          return false;
        }
      }
    }
    ok := true;
  }

  /** An accepted connection has an endpoint, on the connection's own network. */
  lemma AcceptedHasEndpoint(t: Topology, services: seq<Service>, s: Service, c: Connection)
    requires UniqueServices(services) && Placed(t.machines, services) && s in services && c in s.connections
    requires ConnectionAccepted(t, ById(services), s, c) && !ToJob(ById(services), c)
    ensures exists e :: Reached(t.machines, ById(services), s, c, e) && e.network == c.network
  {
    var g := ById(services);
    var p := g[c.service];
    assert p in services;
    var e := ConnectionEndpoint(t.machines, g, s, c).value;
    ReachedIff(t.machines, g, s, c, e);
  }

  /** Validation makes endpoint derivation total. */
  lemma AcceptedIsTotal(t: Topology, services: seq<Service>)
    requires UniqueServices(services) && Placed(t.machines, services) && AllAccepted(t, services)
    ensures forall s, c :: s in services && c in s.connections && !ToJob(ById(services), c) ==>
              Reachable(t.machines, ById(services), s, c)
  {
    forall s, c | s in services && c in s.connections && !ToJob(ById(services), c)
      ensures Reachable(t.machines, ById(services), s, c)
    {
      AcceptedHasEndpoint(t, services, s, c);
    }
  }

  /** With transports from the routing policy, all connections between two services share one endpoint. */
  lemma EndpointIsUnique(t: Topology, services: seq<Service>, s: Service, c: Connection, d: Connection, e: Endpoint)
    requires UniqueServices(services) && Transported(t, services)
    requires s in services && c in s.connections && d in s.connections && c.service == d.service
    requires Reached(t.machines, ById(services), s, c, e)
    ensures forall other :: Reached(t.machines, ById(services), s, d, other) <==> other == e
  {
    var g := ById(services);
    OneTransport(t, g, s, c, d);
    ReachedIff(t.machines, g, s, c, e);
    forall other ensures Reached(t.machines, g, s, d, other) <==> other == e {
      SameNetworkSameEndpoint(t.machines, g, s, c, d, other);
      ReachedIff(t.machines, g, s, c, other);
    }
  }

  lemma SameNetworkSameEndpoint(machines: map<Id, Machine>, g: map<Id, Service>, s: Service, c: Connection,
                                d: Connection, e: Endpoint)
    requires c.service == d.service && c.network == d.network
    ensures Reached(machines, g, s, c, e) <==> Reached(machines, g, s, d, e)
  {
  }

  /** The validator accepts the resolver's transports when every needed network is served. */
  lemma ResolvedIsAccepted(t: Topology, services: seq<Service>)
    requires UniqueServices(services) && Transported(t, services) && Sufficient(services)
    ensures AllAccepted(t, services)
  {
    var g := ById(services);
    forall s, c | s in services && c in s.connections ensures ConnectionAccepted(t, g, s, c) {
      if Remote(g, s, c) {
        var n := c.network.value;
        assert Connected(services, g[c.service].id, n);
        assert Needed(services, g[c.service].id, n);
        assert Serves(g[c.service], n);
      }
    }
  }

  // ---------------------------------------------------------------- the resolver's networking steps

  datatype Networking = Networking(services: seq<Service>, matrix: PeerMatrix)

  /** The services after each of the resolver's networking steps. */
  datatype Trace = Trace(routed: seq<Service>, exposed: seq<Service>, local: seq<Service>, advised: seq<Service>)

  /**
   * The steps in order: routed connections, exposures for the needs, loopback access, overrides;
   * and every peer is reachable.
   */
  ghost predicate Steps(t: Topology, services: seq<Service>, x: Choices, advice: map<Id, Advice>, roles: map<Id, Role>,
                        infra: Infrastructure, trace: Trace)
    requires UniqueServices(services)
  {
    && RoutedTo(t, services, trace.routed) && Exposable(trace.routed) && ExposedForNeeds(trace.routed, trace.exposed)
    && LaterSteps(t, trace.exposed, x, advice, roles, infra, trace.local, trace.advised)
  }

  /** The steps after the exposures. */
  ghost predicate LaterSteps(t: Topology, exposed: seq<Service>, x: Choices, advice: map<Id, Advice>,
                             roles: map<Id, Role>, infra: Infrastructure, local: seq<Service>, advised: seq<Service>)
  {
    && Opened(x, AllLocal(t.machines), exposed, local) && AdvisedTo(advice, local, advised)
    && UniqueServices(advised) && Expandable(t, advised, roles, infra)
  }

  /** Every override names a service and fits it. */
  ghost predicate AdvisedTo(advice: map<Id, Advice>, before: seq<Service>, after: seq<Service>) {
    && (forall id :: id in advice ==> exists s :: s in before && s.id == id)
    && |after| == |before| && forall i :: 0 <= i < |before| ==> Advised(advice, before[i]) == Some(after[i])
  }

  /** The peers are fully meshed, and storage services listen on every network they are used on. */
  ghost predicate Finished(t: Topology, roles: map<Id, Role>, infra: Infrastructure, advised: seq<Service>,
                           r: Networking)
    requires UniqueServices(advised)
  {
    && ExpandedTo(t, advised, roles, infra, r.matrix) && Split(advised, r)
  }

  ghost predicate Split(advised: seq<Service>, r: Networking) {
    |r.services| == |advised| && forall i :: 0 <= i < |advised| ==>
        r.services[i] == SplitService(advised, r.matrix, advised[i])
  }

  // ---------------------------------------------------------------- each step has one result

  lemma RoutedIsUnique(t: Topology, services: seq<Service>, a: seq<Service>, b: seq<Service>)
    requires UniqueServices(services) && RoutedTo(t, services, a) && RoutedTo(t, services, b)
    ensures a == b
  {
    forall i | 0 <= i < |services| ensures a[i] == b[i] {
      SameRoutes(t, ById(services), services[i], a[i], b[i]);
    }
  }

  lemma SameRoutes(t: Topology, g: map<Id, Service>, s: Service, a: Service, b: Service)
    requires RoutedService(t, g, s, a) && RoutedService(t, g, s, b)
    ensures a == b
  {
    forall j | 0 <= j < |s.connections| ensures a.connections[j] == b.connections[j] {
      assert RoutedAs(t, g, s, s.connections[j], a.connections[j]) &&
          RoutedAs(t, g, s, s.connections[j], b.connections[j]);
      OneTransport(t, g, s, a.connections[j], b.connections[j]);
    }
    assert a.connections == b.connections;
  }

  lemma OpenedIsUnique(x: Choices, allLocal: bool, before: seq<Service>, a: seq<Service>, b: seq<Service>)
    requires Opened(x, allLocal, before, a) && Opened(x, allLocal, before, b)
    ensures a == b && forall s :: s in before && Direct(x, s) ==> DefaultPort(s.kind).Some?
  {
    forall i | 0 <= i < |before| ensures a[i] == b[i] && (Direct(x, before[i]) ==> DefaultPort(before[i].kind).Some?) {
      assert OpenLocally(x, allLocal, before[i]) == Some(a[i]) && OpenLocally(x, allLocal, before[i]) == Some(b[i]);
    }
  }

  lemma AdvisedIsUnique(advice: map<Id, Advice>, before: seq<Service>, a: seq<Service>, b: seq<Service>)
    requires AdvisedTo(advice, before, a) && AdvisedTo(advice, before, b)
    ensures a == b && forall s :: s in before ==> Advised(advice, s).Some?
  {
    forall i | 0 <= i < |before| ensures a[i] == b[i] && Advised(advice, before[i]).Some? {
      assert Advised(advice, before[i]) == Some(a[i]) && Advised(advice, before[i]) == Some(b[i]);
    }
  }

  /** The inputs determine every step. */
  lemma StepsAreUnique(t: Topology, services: seq<Service>, x: Choices, advice: map<Id, Advice>, roles: map<Id, Role>,
                       infra: Infrastructure, a: Trace, b: Trace)
    requires UniqueServices(services)
    requires Steps(t, services, x, advice, roles, infra, a) && Steps(t, services, x, advice, roles, infra, b)
    ensures a == b
  {
    RoutedIsUnique(t, services, a.routed, b.routed);
    ExposuresAreUnique(a.routed, a.exposed, b.exposed);
    OpenedIsUnique(x, AllLocal(t.machines), a.exposed, a.local, b.local);
    AdvisedIsUnique(advice, a.local, a.advised, b.advised);
  }

  // ---------------------------------------------------------------- what each step keeps

  lemma AdvisedLinks(advice: map<Id, Advice>, before: seq<Service>, after: seq<Service>)
    requires UniqueServices(before) && AdvisedTo(advice, before, after)
    ensures SameLinks(before, after) && UniqueServices(after)
  {
    forall i | 0 <= i < |before| ensures SameLink(before[i], after[i]) {
      AdvisedLink(advice, before[i], after[i]);
    }
    SameShapeUnique(before, after);
  }

  predicate SameLink(s: Service, r: Service) {
    r.id == s.id && r.kind == s.kind && r.machine == s.machine && r.connections == s.connections
  }

  lemma AdvisedLink(advice: map<Id, Advice>, s: Service, r: Service)
    requires Advised(advice, s) == Some(r)
    ensures SameLink(s, r)
  {
  }

  lemma SplitLinks(services: seq<Service>, r: Networking)
    requires UniqueServices(services) && Split(services, r)
    ensures SameLinks(services, r.services) && UniqueServices(r.services)
  {
    SameShapeUnique(services, r.services);
  }

  lemma RoutedShape(t: Topology, services: seq<Service>, routed: seq<Service>, exposed: seq<Service>)
    requires UniqueServices(services) && RoutedTo(t, services, routed) && SameEdges(routed, exposed)
    ensures SameShape(services, exposed)
  {
  }

  lemma LinksCompose(a: seq<Service>, b: seq<Service>, c: seq<Service>)
    requires SameLinks(a, b) && SameLinks(b, c)
    ensures SameLinks(a, c)
  {
  }

  /** The later steps keep the transports; undisturbed, the validator accepts their result. */
  lemma FinishedIsAccepted(t: Topology, x: Choices, advice: map<Id, Advice>, roles: map<Id, Role>,
                           infra: Infrastructure, exposed: seq<Service>, local: seq<Service>, advised: seq<Service>,
                               r: Networking)
    requires UniqueServices(exposed) && Transported(t, exposed) && Sufficient(exposed) && OneForm(exposed) &&
             Plural(exposed)
    requires LaterSteps(t, exposed, x, advice, roles, infra, local, advised) && Split(advised, r)
    ensures SameLinks(exposed, r.services) && UniqueServices(r.services) && Transported(t, r.services)
    ensures Undisturbed(t, x, exposed) ==> Sufficient(r.services) && OneForm(r.services) && AllAccepted(t, r.services)
  {
    OpenedLinks(x, AllLocal(t.machines), exposed, local);
    AdvisedLinks(advice, local, advised);
    SplitLinks(advised, r);
    LinksCompose(exposed, local, advised);
    LinksCompose(exposed, advised, r.services);
    SameLinksKeep(t, exposed, r.services);
    if Undisturbed(t, x, exposed) {
      LocalAccessIff(t, x, exposed, local);
      AdvertisingKeeps(local, advised, advice);
      SplittingKeeps(advised, r.services, r.matrix);
      ResolvedIsAccepted(t, r.services);
    }
  }

  /** Loopback access, then advertised endpoints. */
  method OpenAndAdvise(t: Topology, exposed: seq<Service>, x: Choices, advice: map<Id, Advice>)
    returns (r: Option<seq<Service>>, ghost local: seq<Service>)
    requires UniqueServices(exposed)
    ensures r.Some? ==> Opened(x, AllLocal(t.machines), exposed, local) && AdvisedTo(advice, local, r.value)
    ensures r.Some? ==> UniqueServices(local) && UniqueServices(r.value)
    ensures r.None? ==> forall l, a :: Opened(x, AllLocal(t.machines), exposed, l) ==> !AdvisedTo(advice, l, a)
  {
    local := [];
    var access := OpenLocalAccess(t, x, exposed);
    if access.None? {
      CannotOpen(x, AllLocal(t.machines), exposed);
      return None, local;
    }
    local := access.value;
    OpenedLinks(x, AllLocal(t.machines), exposed, local);
    r := AdvertiseAll(access.value, advice);
    if r.Some? {
      AdvisedLinks(advice, local, r.value);
    } else {
      CannotAdvise(x, AllLocal(t.machines), advice, exposed, local);
    }
  }

  lemma CannotOpen(x: Choices, allLocal: bool, exposed: seq<Service>)
    requires exists s :: s in exposed && Direct(x, s) && DefaultPort(s.kind).None?
    ensures forall l :: !Opened(x, allLocal, exposed, l)
  {
    forall l ensures !Opened(x, allLocal, exposed, l) {
      if Opened(x, allLocal, exposed, l) { OpenedIsUnique(x, allLocal, exposed, l, l); }
    }
  }

  lemma CannotAdvise(x: Choices, allLocal: bool, advice: map<Id, Advice>, exposed: seq<Service>, local: seq<Service>)
    requires Opened(x, allLocal, exposed, local)
    requires (forall id :: id in advice ==> exists s :: s in local && s.id == id) ==>
             exists s :: s in local && Advised(advice, s).None?
    ensures forall l, a :: Opened(x, allLocal, exposed, l) ==> !AdvisedTo(advice, l, a)
  {
    forall l, a | Opened(x, allLocal, exposed, l) ensures !AdvisedTo(advice, l, a) {
      OpenedIsUnique(x, allLocal, exposed, l, local);
      if AdvisedTo(advice, l, a) { AdvisedIsUnique(advice, l, a, a); }
    }
  }

  /**
   * Loopback access, advertised endpoints, peer matrices and storage listeners: exactly when the
   * steps can be taken.
   */
  method FinishNetworking(t: Topology, exposed: seq<Service>, x: Choices, advice: map<Id, Advice>, roles: map<Id, Role>,
                          infra: Infrastructure)
    returns (r: Option<Networking>, ghost local: seq<Service>, ghost advised: seq<Service>)
    requires UniqueServices(exposed)
    ensures r.Some? <==> exists l, a :: LaterSteps(t, exposed, x, advice, roles, infra, l, a)
    ensures r.Some? ==>
            LaterSteps(t, exposed, x, advice, roles, infra, local, advised) &&
            Finished(t, roles, infra, advised, r.value)
  {
    advised := [];
    var overridden;
    overridden, local := OpenAndAdvise(t, exposed, x, advice);
    if overridden.None? {
      return None, local, advised;
    }
    advised := overridden.value;
    var matrix := Expand(t, overridden.value, roles, infra);
    if matrix.None? {
      NoLaterSteps(t, exposed, x, advice, roles, infra, local, advised);
      return None, local, advised;
    }
    var split := SplitStorage(overridden.value, matrix.value);
    r := Some(Networking(split, matrix.value));
    assert LaterSteps(t, exposed, x, advice, roles, infra, local, advised);
  }

  lemma NoLaterSteps(t: Topology, exposed: seq<Service>, x: Choices, advice: map<Id, Advice>, roles: map<Id, Role>,
                     infra: Infrastructure, local: seq<Service>, advised: seq<Service>)
    requires Opened(x, AllLocal(t.machines), exposed, local) && AdvisedTo(advice, local, advised)
    requires UniqueServices(advised) && !Expandable(t, advised, roles, infra)
    ensures forall l, a :: !LaterSteps(t, exposed, x, advice, roles, infra, l, a)
  {
    forall l, a ensures !LaterSteps(t, exposed, x, advice, roles, infra, l, a) {
      if LaterSteps(t, exposed, x, advice, roles, infra, l, a) {
        OpenedIsUnique(x, AllLocal(t.machines), exposed, l, local);
        AdvisedIsUnique(advice, l, a, advised);
      }
    }
  }

  /**
   * Transports, exposures, loopback access, advertised endpoints, peer matrices and storage listeners, in the
   * resolver's order. It succeeds exactly when every step can be taken. Unless a loopback step disturbs a derived
   * exposure, the validator accepts every connection of the result.
   */
  method ResolveNetworking(t: Topology, services: seq<Service>, x: Choices, advice: map<Id, Advice>,
                           roles: map<Id, Role>, infra: Infrastructure)
    returns (r: Option<Networking>, ghost trace: Trace)
    requires UniqueServices(services) && Fresh(services)
    ensures r.Some? <==> exists steps :: Steps(t, services, x, advice, roles, infra, steps)
    ensures r.Some? ==>
            Steps(t, services, x, advice, roles, infra, trace) && Finished(t, roles, infra, trace.advised, r.value)
    ensures r.Some? ==> UniqueServices(trace.exposed) && SameShape(services, trace.exposed)
    ensures r.Some? ==> Sufficient(trace.exposed) && Least(trace.exposed) && OneForm(trace.exposed)
    ensures r.Some? ==>
            SameLinks(trace.exposed, r.value.services) && UniqueServices(r.value.services) &&
            Transported(t, r.value.services)
    ensures r.Some? && Undisturbed(t, x, trace.exposed) ==>
      Sufficient(r.value.services) && OneForm(r.value.services) && AllAccepted(t, r.value.services)
  {
    var derived;
    ghost var routed;
    derived, routed := ConnectAndExpose(t, services);
    if derived.None? {
      NoSteps(t, services, x, advice, roles, infra, routed);
      return None, Trace(routed, [], [], []);
    }
    RoutedShape(t, services, routed, derived.value);
    ghost var local, advised;
    r, local, advised := FinishNetworking(t, derived.value, x, advice, roles, infra);
    trace := Trace(routed, derived.value, local, advised);
    if r.Some? {
      assert Steps(t, services, x, advice, roles, infra, trace);
      FinishedIsAccepted(t, x, advice, roles, infra, derived.value, local, advised, r.value);
    } else {
      NoMoreSteps(t, services, x, advice, roles, infra, routed, derived.value);
    }
  }

  lemma NoSteps(t: Topology, services: seq<Service>, x: Choices, advice: map<Id, Advice>, roles: map<Id, Role>,
                infra: Infrastructure, routed: seq<Service>)
    requires UniqueServices(services)
    requires (forall s, c :: s in services && c in s.connections ==> Routable(t, ById(services), s, c)) ==>
             RoutedTo(t, services, routed) && !Exposable(routed)
    ensures forall steps :: !Steps(t, services, x, advice, roles, infra, steps)
  {
    forall steps ensures !Steps(t, services, x, advice, roles, infra, steps) {
      if Steps(t, services, x, advice, roles, infra, steps) {
        AllRouted(t, services, steps.routed);
        RoutedIsUnique(t, services, steps.routed, routed);
      }
    }
  }

  lemma NoMoreSteps(t: Topology, services: seq<Service>, x: Choices, advice: map<Id, Advice>, roles: map<Id, Role>,
                    infra: Infrastructure, routed: seq<Service>, exposed: seq<Service>)
    requires UniqueServices(services) && RoutedTo(t, services, routed) && UniqueServices(routed) &&
             ExposedForNeeds(routed, exposed)
    requires forall l, a :: !LaterSteps(t, exposed, x, advice, roles, infra, l, a)
    ensures forall steps :: !Steps(t, services, x, advice, roles, infra, steps)
  {
    forall steps ensures !Steps(t, services, x, advice, roles, infra, steps) {
      if Steps(t, services, x, advice, roles, infra, steps) {
        RoutedIsUnique(t, services, steps.routed, routed);
        ExposuresAreUnique(routed, steps.exposed, exposed);
      }
    }
  }
}
