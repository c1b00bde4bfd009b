/** The resolver's exposure pass: publish exactly what a remote consumer selected. */
module Exposures {
  import opened Ordering
  import opened Model
  import opened Planner
  import opened Routing

  // ---------------------------------------------------------------- what is needed

  /** Some routed connection to `provider` selected `network`. */
  ghost predicate Connected(services: seq<Service>, provider: Id, network: Id) {
    exists s, c :: s in services && c in s.connections && c.service == provider && c.network == Some(network)
  }

  /** The Kubo node behind a Cluster node. */
  function KuboOf(g: map<Id, Service>, cluster: Id): Option<Id> {
    if cluster !in g then None else KuboIn(g[cluster].connections)
  }

  function KuboIn(connections: seq<Connection>): Option<Id> {
    if connections == [] then None
    else if connections[0].name == "kubo" then Some(connections[0].service)
    else KuboIn(connections[1..])
  }

  /**
   * The implied connection from a Store to the Kubo behind one of its Cluster connections: without a
   * network on the same host, on the Cluster connection's network otherwise, nothing when that is missing.
   */
  function StoreEdge(g: map<Id, Service>, store: Service, c: Connection): Option<Connection> {
    var kubo := KuboOf(g, c.service);
    if kubo.None? || kubo.value !in g then None
    else if g[kubo.value].machine == store.machine then Some(Connection(c.name, kubo.value, None, None))
    else if c.network.None? then None
    else Some(Connection(c.name, kubo.value, c.network, c.protocol))
  }

  predicate EdgeTo(edge: Option<Connection>, provider: Id, network: Id) {
    edge.Some? && edge.value.service == provider && edge.value.network == Some(network)
  }

  /** A Store on another host uses this Kubo on `network`. */
  ghost predicate StoreUses(services: seq<Service>, kubo: Id, network: Id)
    requires UniqueServices(services)
  {
    exists s :: s in services && StoreReaches(ById(services), s, kubo, network)
  }

  ghost predicate StoreReaches(g: map<Id, Service>, s: Service, kubo: Id, network: Id) {
    s.kind == StoreApi && exists c :: c in s.connections && EdgeTo(StoreEdge(g, s, c), kubo, network)
  }

  /** The provider must listen privately on `network`. */
  ghost predicate Needed(services: seq<Service>, provider: Id, network: Id)
    requires UniqueServices(services)
  {
    Connected(services, provider, network) || StoreUses(services, provider, network)
  }

  type Required = map<Id, seq<Id>>

  function Networks(required: Required, id: Id): seq<Id> {
    if id in required then required[id] else []
  }

  /** `required_networks.setdefault(id, set()).add(network)` */
  function Require(required: Required, id: Id, network: Id): Required {
    if network in Networks(required, id) then required else required[id := Networks(required, id) + [network]]
  }

  ghost predicate WellKept(required: Required) {
    forall id :: id in required ==> required[id] != [] && NoRepeats(required[id])
  }

  lemma RequireAdds(required: Required, id: Id, network: Id)
    requires WellKept(required)
    ensures WellKept(Require(required, id, network))
    ensures forall p, n :: n in Networks(Require(required, id, network), p) <==>
                             n in Networks(required, p) || (p == id && n == network)
  {
  }

  /** Some connection of the list goes to `provider` on `network`. */
  predicate Uses(connections: seq<Connection>, provider: Id, network: Id) {
    exists c :: c in connections && c.service == provider && c.network == Some(network)
  }

  /** `after` holds what `before` held and the networks of `connections`. */
  ghost predicate Collected(before: Required, after: Required, connections: seq<Connection>) {
    WellKept(after) && forall p, n :: n in Networks(after, p) <==> n in Networks(before, p) || Uses(connections, p, n)
  }

  lemma CollectMore(before: Required, after: Required, connections: seq<Connection>, c: Connection)
    requires WellKept(before) && Collected(before, after, connections)
    ensures Collected(before, if c.network.Some? then Require(after, c.service, c.network.value) else after,
            connections + [c])
  {
    if c.network.Some? { RequireAdds(after, c.service, c.network.value); }
    var more := connections + [c];
    forall p, n ensures Uses(more, p, n) <==> Uses(connections, p, n) || (c.service == p && c.network == Some(n)) {
      assert forall x :: x in more <==> x in connections || x == c;
    }
  }

  // ---------------------------------------------------------------- the connection pass

  /** Every service with the transport of its connections recomputed. */
  ghost predicate RoutedTo(t: Topology, services: seq<Service>, after: seq<Service>)
    requires UniqueServices(services)
  {
    |after| == |services| && forall i :: 0 <= i < |services| ==> RoutedService(t, ById(services), services[i], after[i])
  }

  /** The service with every connection's transport recomputed. */
  ghost predicate RoutedService(t: Topology, g: map<Id, Service>, s: Service, r: Service) {
    && r == s.(connections := r.connections) && |r.connections| == |s.connections|
    && forall j :: 0 <= j < |s.connections| ==> RoutedAs(t, g, s, s.connections[j], r.connections[j])
  }

  /** The same connection, with the transport its provider is reached by. */
  ghost predicate RoutedAs(t: Topology, g: map<Id, Service>, s: Service, c: Connection, r: Connection) {
    r.name == c.name && r.service == c.service && Transports(t, g, s, r)
  }

  /** Recompute one consumer's connections, collecting the networks they need. */
  method RouteConsumer(t: Topology, g: map<Id, Service>, s: Service, required: Required)
    returns (r: Option<Service>, after: Required)
    requires WellKept(required)
    ensures r.Some? <==> forall j :: 0 <= j < |s.connections| ==> Routable(t, g, s, s.connections[j])
    ensures r.Some? ==> RoutedService(t, g, s, r.value) && Collected(required, after, r.value.connections)
  {
    after := required;
    var connections: seq<Connection> := [];
    for j := 0 to |s.connections|
      invariant Collected(required, after, connections) && |connections| == j
      invariant forall i :: 0 <= i < j ==> Routable(t, g, s, s.connections[i])
      invariant forall i :: 0 <= i < j ==> RoutedAs(t, g, s, s.connections[i], connections[i])
    {
      var routed := Route(t, g, s, s.connections[j]);
      RoutableIff(t, g, s, s.connections[j]);
      if routed.None? {
        return None, after;
      }
      var c := routed.value;
      RouteIff(t, g, s, s.connections[j], c);
      CollectMore(required, after, connections, c);
      if c.network.Some? {
        after := Require(after, c.service, c.network.value);
      }
      connections := connections + [c];
    }
    r := Some(s.(connections := connections));
  }

  /** The first loop of the pass: recompute the transport of every connection. */
  method RouteConnections(t: Topology, services: seq<Service>) returns (r: Option<seq<Service>>, required: Required)
    requires UniqueServices(services)
    ensures r.Some? <==> forall s, c :: s in services && c in s.connections ==> Routable(t, ById(services), s, c)
    ensures r.Some? ==> RoutedTo(t, services, r.value) && WellKept(required)
    ensures r.Some? ==> forall p, n :: n in Networks(required, p) <==> Connected(r.value, p, n)
  {
    var g := ById(services);
    required := map[];
    var after: seq<Service> := [];
    for n := 0 to |services|
      invariant |after| == n && WellKept(required)
      invariant forall i :: 0 <= i < n ==> RoutedService(t, g, services[i], after[i])
      invariant forall p, x :: x in Networks(required, p) <==> Connected(after, p, x)
    {
      var routed, more := RouteConsumer(t, g, services[n], required);
      if routed.None? {
        assert services[n] in services;
        return None, required;
      }
      ConnectedSnoc(after, routed.value);
      required := more;
      after := after + [routed.value];
    }
    AllRouted(t, services, after);
    r := Some(after);
  }

  lemma AllRouted(t: Topology, services: seq<Service>, after: seq<Service>)
    requires UniqueServices(services) && RoutedTo(t, services, after)
    ensures forall s, c :: s in services && c in s.connections ==> Routable(t, ById(services), s, c)
  {
    forall s, c | s in services && c in s.connections ensures Routable(t, ById(services), s, c) {
      var i :| 0 <= i < |services| && services[i] == s;
      var j :| 0 <= j < |s.connections| && s.connections[j] == c;
      assert RoutedService(t, ById(services), services[i], after[i]);
    }
  }

  lemma ConnectedSnoc(services: seq<Service>, s: Service)
    ensures forall p, n :: Connected(services + [s], p, n) <==> Connected(services, p, n) || Uses(s.connections, p, n)
  {
    assert forall x :: x in services + [s] <==> x in services || x == s;
    forall p, n ensures Connected(services + [s], p, n) <==> Connected(services, p, n) || Uses(s.connections, p, n) {
      if Uses(s.connections, p, n) { assert s in services + [s]; }
    }
  }

  // ---------------------------------------------------------------- what a Store needs from Kubo

  /** The second loop, for one Store. */
  method StoreConsumer(g: map<Id, Service>, s: Service, required: Required) returns (ok: bool, after: Required)
    requires WellKept(required) && s.kind == StoreApi
    ensures ok <==> forall c :: c in s.connections ==> StoreEdge(g, s, c).Some?
    ensures ok ==> WellKept(after)
    ensures ok ==> forall p, n :: n in Networks(after, p) <==> n in Networks(required, p) || StoreReaches(g, s, p, n)
  {
    after := required;
    ghost var edges: seq<Connection> := [];
    for j := 0 to |s.connections|
      invariant Collected(required, after, edges) && |edges| == j
      invariant forall i :: 0 <= i < j ==> StoreEdge(g, s, s.connections[i]) == Some(edges[i])
    {
      var edge := StoreEdge(g, s, s.connections[j]);
      if edge.None? {
        return false, after;
      }
      CollectMore(required, after, edges, edge.value);
      if edge.value.network.Some? {
        after := Require(after, edge.value.service, edge.value.network.value);
      }
      edges := edges + [edge.value];
    }
    forall p, n ensures Uses(edges, p, n) <==> StoreReaches(g, s, p, n) {
      EdgesReach(g, s, edges, p, n);
    }
    ok := true;
  }

  lemma EdgesReach(g: map<Id, Service>, s: Service, edges: seq<Connection>, p: Id, n: Id)
    requires s.kind == StoreApi && |edges| == |s.connections|
    requires forall i :: 0 <= i < |edges| ==> StoreEdge(g, s, s.connections[i]) == Some(edges[i])
    ensures Uses(edges, p, n) <==> StoreReaches(g, s, p, n)
  {
    if Uses(edges, p, n) {
      var c :| c in edges && c.service == p && c.network == Some(n);
      var i :| 0 <= i < |edges| && edges[i] == c;
      assert s.connections[i] in s.connections;
    }
    if StoreReaches(g, s, p, n) {
      var c :| c in s.connections && EdgeTo(StoreEdge(g, s, c), p, n);
      var i :| 0 <= i < |s.connections| && s.connections[i] == c;
      assert edges[i] in edges;
    }
  }

  /** The second loop: Stores also need the Kubo behind each Cluster connection. */
  method StoreConnections(services: seq<Service>, required: Required) returns (ok: bool, after: Required)
    requires UniqueServices(services) && WellKept(required)
    ensures ok <==> forall s, c :: s in services && s.kind == StoreApi && c in s.connections ==>
            StoreEdge(ById(services), s, c).Some?
    ensures ok ==> WellKept(after)
    ensures ok ==> forall p, n :: n in Networks(after, p) <==> n in Networks(required, p) || StoreUses(services, p, n)
  {
    var g := ById(services);
    after := required;
    for k := 0 to |services|
      invariant WellKept(after)
      invariant forall i :: 0 <= i < k && services[i].kind == StoreApi ==>
        forall c :: c in services[i].connections ==> StoreEdge(g, services[i], c).Some?
      invariant forall p, n :: n in Networks(after, p) <==>
        n in Networks(required, p) || exists i :: 0 <= i < k && StoreReaches(g, services[i], p, n)
    {
      if services[k].kind == StoreApi {
        var more;
        ok, more := StoreConsumer(g, services[k], after);
        if !ok {
          assert services[k] in services;
          return false, after;
        }
        after := more;
      }
    }
    forall p, n
      ensures StoreUses(services, p, n) <==> exists i :: 0 <= i < |services| && StoreReaches(g, services[i], p, n)
    {
      if i :| 0 <= i < |services| && StoreReaches(g, services[i], p, n) { assert services[i] in services; }
    }
    ok := true;
  }

  // ---------------------------------------------------------------- publishing

  /** The service listens privately on `network`. */
  predicate Publishes(s: Service, network: Id) {
    || (s.exposure.Some? && s.exposure.value.mode == Private && s.exposure.value.network == Some(network))
    || exists l :: l in s.listeners && l.network == network
  }

  function FirstOn(listeners: seq<Listener>, network: Id): (r: Option<Listener>)
    ensures r.Some? <==> exists l :: l in listeners && l.network == network
    ensures r.Some? ==> r.value in listeners && r.value.network == network
  {
    if listeners == [] then None
    else if listeners[0].network == network then Some(listeners[0])
    else FirstOn(listeners[1..], network)
  }

  /** The first listener on the network, or else the private exposure there, speaks the protocol. */
  predicate Offers(s: Service, network: Id, protocol: string) {
    match FirstOn(s.listeners, network)
    case Some(l) => protocol in l.protocols
    case None =>
      && s.exposure.Some? && s.exposure.value.mode == Private && s.exposure.value.network == Some(network)
      && protocol in s.exposure.value.protocols
  }

  /** A remote TCP consumer on `network` reaches the service. */
  predicate Serves(s: Service, network: Id) {
    Offers(s, network, "tcp")
  }

  function DefaultPort(kind: ServiceType): Option<nat> {
    match kind
    case BesuRpc => Some(8545)
    case StoreApi => Some(8003)
    case MinterApi => Some(8001)
    case AdminApi => Some(8000)
    case ResolverApi => Some(8002)
    case Dashboard => Some(8081)
    case Explorer => Some(25000)
    case IpfsKubo => Some(5001)
    case IpfsCluster => Some(9094)
    case _ => None
  }

  function PrivatePort(s: Service): Option<nat> {
    if DefaultPort(s.kind).Some? then DefaultPort(s.kind)
    else if s.exposure.Some? then Some(s.exposure.value.port)
    else None
  }

  function ListenersOn(networks: seq<Id>, port: nat, protocols: seq<string>): (r: seq<Listener>)
    ensures |r| == |networks|
    ensures forall i :: 0 <= i < |r| ==> r[i] == Listener(networks[i], port, protocols, None, None)
  {
    seq(|networks|, i requires 0 <= i < |networks| => Listener(networks[i], port, protocols, None, None))
  }

  lemma ListenersCover(networks: seq<Id>, port: nat, protocols: seq<string>)
    ensures forall n :: (exists l :: l in ListenersOn(SortBy(networks, ByName), port, protocols) && l.network == n) <==>
            n in networks
  {
    SortMembers(networks, ByName);
    var sorted := SortBy(networks, ByName);
    var ls := ListenersOn(sorted, port, protocols);
    forall n | n in networks ensures exists l :: l in ls && l.network == n {
      assert n in sorted;
      var i :| 0 <= i < |sorted| && sorted[i] == n;
      assert ls[i] in ls;
    }
  }

  /** One exposure for one required network, a listener for each of several, nothing new for none. */
  function Publish(s: Service, networks: seq<Id>): Option<Service> {
    if networks == [] then Some(s)
    else if PrivatePort(s).None? then None
    else if |networks| == 1 then
      Some(s.(exposure := Some(Exposure(Private, Some(networks[0]), PrivatePort(s).value, ["tcp"], None, None))))
    else
      Some(s.(exposure := None, listeners := ListenersOn(SortBy(networks, ByName), PrivatePort(s).value, ["tcp"])))
  }

  /** A catalogued private exposure nobody needs is withdrawn, except on a proxy. */
  function Withdraw(s: Service, networks: seq<Id>): Service {
    if s.exposure.Some? && s.exposure.value.mode == Private && networks == [] && s.kind != EdgeProxy then
      s.(exposure := None)
    else s
  }

  /** The service after publication and withdrawal. */
  ghost predicate ExposedAs(s: Service, networks: seq<Id>, r: Service) {
    Publish(s, networks).Some? && r == Withdraw(Publish(s, networks).value, networks)
  }

  /** The two exposure loops; services without a known port are an error. */
  method Expose(services: seq<Service>, required: Required) returns (r: Option<seq<Service>>)
    ensures r.Some? <==> forall s :: s in services ==> Publish(s, Networks(required, s.id)).Some?
    ensures r.Some? ==> |r.value| == |services|
    ensures r.Some? ==> forall i :: 0 <= i < |services| ==>
            ExposedAs(services[i], Networks(required, services[i].id), r.value[i])
  {
    var published: seq<Service> := [];
    for n := 0 to |services|
      invariant |published| == n
      invariant forall i :: 0 <= i < n ==>
                Publish(services[i], Networks(required, services[i].id)) == Some(published[i])
    {
      var s := Publish(services[n], Networks(required, services[n].id));
      if s.None? {
        assert services[n] in services;
        return None;
      }
      published := published + [s.value];
    }
    var kept: seq<Service> := [];
    for n := 0 to |published|
      invariant |kept| == n
      invariant forall i :: 0 <= i < n ==> kept[i] == Withdraw(published[i], Networks(required, published[i].id))
    {
      kept := kept + [Withdraw(published[n], Networks(required, published[n].id))];
    }
    assert forall i :: 0 <= i < |services| ==> published[i].id == services[i].id;
    r := Some(kept);
  }

  /**
   * Starting without listeners, a service publishes exactly its required networks, or keeps an
   * exposure nobody needs.
   */
  lemma PublishesRequired(s: Service, networks: seq<Id>, r: Service)
    requires s.listeners == [] && ExposedAs(s, networks, r)
    ensures r.exposure.Some? ==> r.listeners == []
    ensures r.listeners != [] ==> |networks| > 1
    ensures forall n :: n in networks ==> Serves(r, n)
    ensures networks != [] || s.kind != EdgeProxy ==> forall n :: Publishes(r, n) ==> n in networks
    ensures r == s.(exposure := r.exposure, listeners := r.listeners)
  {
    if |networks| > 1 {
      ListenersCover(networks, PrivatePort(s).value, ["tcp"]);
    }
  }

  /** The type's own private port, or for other types the port they are already exposed on. */
  ghost predicate PublishesAt(s: Service, port: nat) {
    || (s.kind == BesuRpc && port == 8545) || (s.kind == StoreApi && port == 8003) ||
        (s.kind == MinterApi && port == 8001)
    || (s.kind == AdminApi && port == 8000) || (s.kind == ResolverApi && port == 8002)
    || (s.kind == Dashboard && port == 8081) || (s.kind == Explorer && port == 25000)
    || (s.kind == IpfsKubo && port == 5001) || (s.kind == IpfsCluster && port == 9094)
    || (s.kind !in {BesuRpc, StoreApi, MinterApi, AdminApi, ResolverApi, Dashboard, Explorer, IpfsKubo, IpfsCluster}
        && s.exposure.Some? && port == s.exposure.value.port)
  }

  lemma PublishesAtIff(s: Service, port: nat)
    ensures PrivatePort(s) == Some(port) <==> PublishesAt(s, port)
  {
  }

  /** One listener for each network, in alphabetical order, all with the same port and protocols. */
  ghost predicate ListensOnEach(listeners: seq<Listener>, networks: seq<Id>, port: nat, protocols: seq<string>) {
    && |listeners| == |networks|
    && (forall n :: n in networks ==> exists l :: l in listeners && l.network == n)
    && (forall l :: l in listeners ==> l.network in networks && l == Listener(l.network, port, protocols, None, None))
    && (forall i, j :: 0 <= i < j < |listeners| ==>
          Alphabetical(listeners[i].network.text, listeners[j].network.text))
  }

  lemma ListenersOnEach(networks: seq<Id>, port: nat, protocols: seq<string>)
    requires NoRepeats(networks)
    ensures ListensOnEach(ListenersOn(SortBy(networks, ByName), port, protocols), networks, port, protocols)
  {
    SortedNames(networks);
    ListenersCover(networks, port, protocols);
    var names := SortBy(networks, ByName);
    forall i, j | 0 <= i < j < |names| ensures Alphabetical(names[i].text, names[j].text) {
      assert KeyLe(ByName(names[i]), ByName(names[j]));
      StrLeIff(names[i].text, names[j].text);
    }
  }

  /**
   * A service nobody needs loses a private exposure unless it is a proxy. One needed on one network is
   * exposed there, one needed on several gets a listener on each instead.
   */
  lemma ExposedMeans(s: Service, networks: seq<Id>, r: Service)
    requires NoRepeats(networks) && ExposedAs(s, networks, r)
    ensures networks == [] && s.exposure.Some? && s.exposure.value.mode == Private && s.kind != EdgeProxy ==>
      r == s.(exposure := None)
    ensures networks == [] && !(s.exposure.Some? && s.exposure.value.mode == Private && s.kind != EdgeProxy) ==> r == s
    ensures |networks| == 1 ==> exists port ::
      && PublishesAt(s, port)
      && r == s.(exposure := Some(Exposure(Private, Some(networks[0]), port, ["tcp"], None, None)))
    ensures |networks| > 1 ==> exists port ::
      && PublishesAt(s, port)
      && r == s.(exposure := None, listeners := r.listeners) && ListensOnEach(r.listeners, networks, port, ["tcp"])
  {
    if networks != [] {
      PublishesAtIff(s, PrivatePort(s).value);
      ListenersOnEach(networks, PrivatePort(s).value, ["tcp"]);
    }
  }

  lemma ExposableIff(s: Service, networks: seq<Id>)
    ensures Publish(s, networks).Some? <==> networks == [] || exists port :: PublishesAt(s, port)
  {
    if PrivatePort(s).Some? { PublishesAtIff(s, PrivatePort(s).value); }
    if port :| PublishesAt(s, port) { PublishesAtIff(s, port); }
  }

  /** The first connection named "kubo" is the one at `i`, and goes to `kubo`. */
  ghost predicate FirstKubo(connections: seq<Connection>, i: nat, kubo: Id) {
    && i < |connections| && connections[i].name == "kubo" && connections[i].service == kubo
    && forall j :: 0 <= j < i ==> connections[j].name != "kubo"
  }

  ghost predicate BehindCluster(g: map<Id, Service>, cluster: Id, kubo: Id) {
    cluster in g && exists i: nat :: FirstKubo(g[cluster].connections, i, kubo)
  }

  lemma {:induction false} KuboInIff(connections: seq<Connection>, kubo: Id)
    ensures KuboIn(connections) == Some(kubo) <==> exists i: nat :: FirstKubo(connections, i, kubo)
  {
    if connections != [] {
      var rest := connections[1..];
      KuboInIff(rest, kubo);
      if connections[0].name == "kubo" {
        assert connections[0].service == kubo ==> FirstKubo(connections, 0, kubo);
      } else {
        if i: nat :| FirstKubo(rest, i, kubo) {
          assert forall j :: 0 < j < i + 1 ==> connections[j] == rest[j - 1];
          assert FirstKubo(connections, i + 1, kubo);
        }
        if i: nat :| FirstKubo(connections, i, kubo) {
          assert forall j :: 0 <= j < i - 1 ==> rest[j] == connections[j + 1];
          assert FirstKubo(rest, i - 1, kubo);
        }
      }
    }
  }

  /**
   * A Store reaches the Kubo behind a Cluster node directly on its own host, and otherwise on the
   * Cluster connection's network.
   */
  lemma StoreEdgeIff(g: map<Id, Service>, store: Service, c: Connection, e: Connection)
    ensures StoreEdge(g, store, c) == Some(e) <==>
            && BehindCluster(g, c.service, e.service) && e.service in g && e.name == c.name
            && (g[e.service].machine == store.machine ==> e.network == None && e.protocol == None)
            && (g[e.service].machine != store.machine ==>
                c.network.Some? && e.network == c.network && e.protocol == c.protocol)
  {
    if c.service in g {
      KuboInIff(g[c.service].connections, e.service);
    }
  }

  // ---------------------------------------------------------------- the whole pass

  /** No template comes with listeners. */
  ghost predicate Fresh(services: seq<Service>) {
    forall s :: s in services ==> s.listeners == []
  }

  /** Every needed network is served: the provider of each cross-host connection, and the Kubo of each remote Store. */
  ghost predicate Sufficient(services: seq<Service>)
    requires UniqueServices(services)
  {
    forall s, n :: s in services && Needed(services, s.id, n) ==> Serves(s, n)
  }

  /** A service has listeners only when two different networks are needed. */
  ghost predicate Plural(services: seq<Service>)
    requires UniqueServices(services)
  {
    forall s :: s in services && s.listeners != [] ==> ManyNeeded(services, s.id)
  }

  ghost predicate ManyNeeded(services: seq<Service>, provider: Id)
    requires UniqueServices(services)
  {
    exists m, n :: m != n && Needed(services, provider, m) && Needed(services, provider, n)
  }

  /** Only needed networks are published, except by proxies. */
  ghost predicate Least(services: seq<Service>)
    requires UniqueServices(services)
  {
    forall s, n :: s in services && s.kind != EdgeProxy && Publishes(s, n) ==> Needed(services, s.id, n)
  }

  /** No service combines a single exposure with listeners. */
  ghost predicate OneForm(services: seq<Service>) {
    forall s :: s in services && s.exposure.Some? ==> s.listeners == []
  }

  /** The transports come from the routing policy and reach their providers. */
  ghost predicate Transported(t: Topology, services: seq<Service>)
    requires UniqueServices(services)
  {
    forall s, c :: s in services && c in s.connections ==> Transports(t, ById(services), s, c)
  }

  /** `after` has the ids, kinds, machines and order of `before`. */
  ghost predicate SameShape(before: seq<Service>, after: seq<Service>) {
    && |before| == |after|
    && forall i :: 0 <= i < |before| ==>
         after[i].id == before[i].id && after[i].kind == before[i].kind && after[i].machine == before[i].machine
  }

  lemma SameShapeUnique(before: seq<Service>, after: seq<Service>)
    requires UniqueServices(before) && SameShape(before, after)
    ensures UniqueServices(after) && ById(after).Keys == ById(before).Keys
    ensures forall id :: id in ById(before) ==>
              ById(after)[id].kind == ById(before)[id].kind && ById(after)[id].machine == ById(before)[id].machine
  {
    forall i, j | 0 <= i < j < |after| ensures after[i].id != after[j].id {
      assert before[i].id != before[j].id;
    }
    var g, h := ById(before), ById(after);
    forall id | id in g ensures id in h && h[id].kind == g[id].kind && h[id].machine == g[id].machine {
      var i :| 0 <= i < |before| && before[i] == g[id];
      assert after[i] in after;
    }
    forall id | id in h ensures id in g {
      var i :| 0 <= i < |after| && after[i] == h[id];
      assert before[i] in before;
    }
  }

  lemma RoutedIsTransported(t: Topology, services: seq<Service>, after: seq<Service>)
    requires UniqueServices(services) && RoutedTo(t, services, after)
    ensures UniqueServices(after) && Transported(t, after)
  {
    assert SameShape(services, after);
    SameShapeUnique(services, after);
    forall s, c | s in after && c in s.connections ensures Transports(t, ById(after), s, c) {
      var i :| 0 <= i < |after| && after[i] == s;
      var j :| 0 <= j < |s.connections| && s.connections[j] == c;
      assert RoutedAs(t, ById(services), services[i], services[i].connections[j], c);
    }
  }

  /** Changing only exposures and listeners keeps transports and needs. */
  ghost predicate SameEdges(before: seq<Service>, after: seq<Service>) {
    && |before| == |after|
    && forall i :: 0 <= i < |before| ==>
        after[i] == before[i].(exposure := after[i].exposure, listeners := after[i].listeners)
  }

  /** Ids, kinds, machines and connections are those of `before`. */
  ghost predicate SameLinks(before: seq<Service>, after: seq<Service>) {
    SameShape(before, after) && forall i :: 0 <= i < |before| ==> after[i].connections == before[i].connections
  }

  lemma SameLinksKeep(t: Topology, before: seq<Service>, after: seq<Service>)
    requires UniqueServices(before) && SameLinks(before, after)
    ensures UniqueServices(after) && SameShape(before, after)
    ensures Transported(t, before) ==> Transported(t, after)
    ensures forall p, n :: Needed(before, p, n) <==> Needed(after, p, n)
  {
    SameShapeUnique(before, after);
    NeededEitherWay(before, after);
    NeededEitherWay(after, before);
    if Transported(t, before) { TransportedStays(t, before, after); }
  }

  lemma TransportedStays(t: Topology, before: seq<Service>, after: seq<Service>)
    requires UniqueServices(before) && UniqueServices(after) && SameLinks(before, after) && Transported(t, before)
    ensures Transported(t, after)
  {
    SameShapeUnique(before, after);
    forall s, c | s in after && c in s.connections
      ensures exists s0 :: s0 in before && s0.machine == s.machine && s0.connections == s.connections
    {
      var i :| 0 <= i < |after| && after[i] == s;
      assert before[i] in before;
    }
  }

  lemma NeededEitherWay(before: seq<Service>, after: seq<Service>)
    requires UniqueServices(before) && UniqueServices(after) && SameLinks(before, after)
    ensures forall p, n :: Needed(before, p, n) ==> Needed(after, p, n)
  {
    SameShapeUnique(before, after);
    var g, h := ById(before), ById(after);
    forall id | id in g ensures h[id].connections == g[id].connections {
      var i :| 0 <= i < |before| && before[i] == g[id];
      assert after[i] in after;
    }
    forall p, n | Needed(before, p, n) ensures Needed(after, p, n) {
      if Connected(before, p, n) {
        var s, c :| s in before && c in s.connections && c.service == p && c.network == Some(n);
        var i :| 0 <= i < |before| && before[i] == s;
        assert after[i] in after && c in after[i].connections;
      } else {
        var s :| s in before && StoreReaches(g, s, p, n);
        var i :| 0 <= i < |before| && before[i] == s;
        var c :| c in s.connections && EdgeTo(StoreEdge(g, s, c), p, n);
        assert after[i] in after && StoreEdge(h, after[i], c) == StoreEdge(g, s, c);
      }
    }
  }

  /** Each Store finds a network to its Kubo nodes, and each provider somebody needs has a port. */
  ghost predicate Exposable(services: seq<Service>) {
    && UniqueServices(services)
    && (forall s, c :: s in services && s.kind == StoreApi && c in s.connections ==>
        StoreEdge(ById(services), s, c).Some?)
    && (forall s, n :: s in services && Needed(services, s.id, n) ==> PrivatePort(s).Some?)
  }

  /** Every service is exposed for exactly the networks it is needed on. */
  ghost predicate ExposedForNeeds(routed: seq<Service>, exposed: seq<Service>)
    requires UniqueServices(routed)
  {
    |exposed| == |routed| && forall i :: 0 <= i < |routed| ==> ExposedForNeed(routed, routed[i], exposed[i])
  }

  ghost predicate ExposedForNeed(routed: seq<Service>, s: Service, r: Service)
    requires UniqueServices(routed)
  {
    exists networks :: NoRepeats(networks) && (forall n :: n in networks <==> Needed(routed, s.id, n)) &&
        ExposedAs(s, networks, r)
  }

  /** The order in which the networks were collected leaves no trace. */
  lemma ExposedAsUnique(s: Service, networks: seq<Id>, others: seq<Id>, r: Service, q: Service)
    requires NoRepeats(networks) && NoRepeats(others) && (forall n :: n in networks <==> n in others)
    requires ExposedAs(s, networks, r) && ExposedAs(s, others, q)
    ensures r == q
  {
    SortedNames(networks);
    SortedNames(others);
    SortedUnique(SortBy(networks, ByName), SortBy(others, ByName), ByName);
    if |networks| == 1 {
      assert networks[0] in others;
    }
  }

  lemma SortedNames(names: seq<Id>)
    requires NoRepeats(names)
    ensures var r := SortBy(names, ByName);
      |r| == |names| && (forall n :: n in r <==> n in names) && Sorted(r, ByName) && DistinctKeys(r, ByName)
  {
    SortMembers(names, ByName);
    SortSorts(names, ByName);
    SortDistinct(names, ByName);
  }

  lemma ExposuresAreUnique(routed: seq<Service>, a: seq<Service>, b: seq<Service>)
    requires UniqueServices(routed) && ExposedForNeeds(routed, a) && ExposedForNeeds(routed, b)
    ensures a == b
  {
    forall i | 0 <= i < |routed| ensures a[i] == b[i] {
      assert ExposedForNeed(routed, routed[i], a[i]) && ExposedForNeed(routed, routed[i], b[i]);
      var n :| NoRepeats(n) && (forall x :: x in n <==> Needed(routed, routed[i].id, x)) &&
          ExposedAs(routed[i], n, a[i]);
      var m :| NoRepeats(m) && (forall x :: x in m <==> Needed(routed, routed[i].id, x)) &&
          ExposedAs(routed[i], m, b[i]);
      ExposedAsUnique(routed[i], n, m, a[i], b[i]);
    }
  }

  /**
   * The connection and exposure pass. It fails exactly when a policy selects no usable network, a
   * Store edge lacks one, or a port is unknown; otherwise the result is sufficient and least.
   */
  method ConnectAndExpose(t: Topology, services: seq<Service>)
    returns (r: Option<seq<Service>>, ghost routed: seq<Service>)
    requires UniqueServices(services) && Fresh(services)
    ensures r.Some? <==>
      (forall s, c :: s in services && c in s.connections ==> Routable(t, ById(services), s, c)) && Exposable(routed)
    ensures (forall s, c :: s in services && c in s.connections ==> Routable(t, ById(services), s, c)) ==>
            RoutedTo(t, services, routed)
    ensures r.Some? ==> ExposedForNeeds(routed, r.value)
    ensures r.Some? ==> SameEdges(routed, r.value) && UniqueServices(r.value) && Transported(t, r.value)
    ensures r.Some? ==> Sufficient(r.value) && Least(r.value) && OneForm(r.value) && Plural(r.value)
  {
    routed := [];
    var transported, required := RouteConnections(t, services);
    if transported.None? {
      return None, routed;
    }
    routed := transported.value;
    RoutedIsTransported(t, services, routed);
    var ok, all := StoreConnections(transported.value, required);
    if !ok {
      return None, routed;
    }
    r := Expose(transported.value, all);
    PortsDecide(routed, all);
    if r.Some? {
      assert Fresh(routed) by {
        forall s | s in routed ensures s.listeners == [] {
          var i :| 0 <= i < |routed| && routed[i] == s;
          assert services[i] in services;
        }
      }
      ExposureIsExact(t, routed, all, r.value);
      ExposureMeetsNeeds(routed, all, r.value);
    }
  }

  lemma ExposureMeetsNeeds(routed: seq<Service>, required: Required, r: seq<Service>)
    requires UniqueServices(routed) && |r| == |routed| && WellKept(required)
    requires forall p, n :: n in Networks(required, p) <==> Needed(routed, p, n)
    requires forall i :: 0 <= i < |routed| ==> ExposedAs(routed[i], Networks(required, routed[i].id), r[i])
    ensures ExposedForNeeds(routed, r)
  {
    forall i | 0 <= i < |routed| ensures ExposedForNeed(routed, routed[i], r[i]) {
      assert NoRepeats(Networks(required, routed[i].id));
    }
  }

  lemma PortsDecide(routed: seq<Service>, required: Required)
    requires UniqueServices(routed)
    requires forall p, n :: n in Networks(required, p) <==> Needed(routed, p, n)
    ensures (forall s :: s in routed ==> Publish(s, Networks(required, s.id)).Some?) <==>
            (forall s, n :: s in routed && Needed(routed, s.id, n) ==> PrivatePort(s).Some?)
  {
    forall s | s in routed
      ensures Publish(s, Networks(required, s.id)).Some? <==>
              (forall n :: Needed(routed, s.id, n) ==> PrivatePort(s).Some?)
    {
      var networks := Networks(required, s.id);
      if networks != [] { assert Needed(routed, s.id, networks[0]); }
    }
  }

  /** The exposures derived from exact requirements are sufficient and least. */
  lemma ExposureIsExact(t: Topology, routed: seq<Service>, required: Required, r: seq<Service>)
    requires UniqueServices(routed) && Fresh(routed) && Transported(t, routed) && |r| == |routed| && WellKept(required)
    requires forall p, n :: n in Networks(required, p) <==> Needed(routed, p, n)
    requires forall i :: 0 <= i < |routed| ==> ExposedAs(routed[i], Networks(required, routed[i].id), r[i])
    ensures SameEdges(routed, r) && UniqueServices(r) && Transported(t, r)
    ensures Sufficient(r) && Least(r) && OneForm(r) && Plural(r)
  {
    forall i | 0 <= i < |r|
      ensures r[i] == routed[i].(exposure := r[i].exposure, listeners := r[i].listeners)
      ensures r[i].exposure.Some? ==> r[i].listeners == []
      ensures forall n :: Needed(routed, r[i].id, n) ==> Serves(r[i], n)
      ensures r[i].listeners != [] ==> ManyNeeded(routed, r[i].id)
      ensures r[i].kind != EdgeProxy ==> forall n :: Publishes(r[i], n) ==> Needed(routed, r[i].id, n)
    {
      assert routed[i] in routed;
      var networks := Networks(required, routed[i].id);
      PublishesRequired(routed[i], networks, r[i]);
      if r[i].listeners != [] {
        assert networks[0] != networks[1];
        assert Needed(routed, r[i].id, networks[0]) && Needed(routed, r[i].id, networks[1]);
      }
    }
    SameLinksKeep(t, routed, r);
  }
}
