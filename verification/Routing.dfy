/** Which network a connection between two hosts uses. */
module Routing {
  import opened Ordering
  import opened Model

  /** A network literal, the compact `site_lan`, or nothing usable. */
  datatype Selector = Net(network: Id) | SiteLan | NoSelector

  datatype Policy = Everywhere(selector: Selector) | ByLocality(sameSite: Selector, crossSite: Selector)

  datatype Traffic = BlockchainP2p | StorageP2p | StorageApi | ApplicationApi

  /** The operator's routing section with the machines, site LANs and declared routes it refers to. */
  datatype Topology = Topology(
    policies: map<Traffic, Policy>, defaults: Option<Policy>,
    machines: map<Id, Machine>, siteLans: map<Id, Id>, routes: seq<(Id, Id)>)

  /** `site_lan` is the LAN of the target's site. */
  function SelectorNetwork(t: Topology, selector: Selector, target: Machine): Option<Id> {
    match selector
    case Net(network) => Some(network)
    case SiteLan =>
      if target.site.Some? && target.site.value in t.siteLans then Some(t.siteLans[target.site.value]) else None
    case NoSelector => None
  }

  function TrafficOf(provider: ServiceType): Traffic {
    match provider
    case IpfsCluster => StorageApi
    case IpfsKubo => StorageP2p
    case _ => ApplicationApi
  }

  /** `_network_for`: the network the policy selects, or nothing when it is missing or unusable. */
  function NetworkFor(t: Topology, traffic: Traffic, source: Machine, target: Machine): Option<Id> {
    var policy: Option<Policy> := if traffic in t.policies then Some(t.policies[traffic]) else t.defaults;
    match policy
    case None => None
    case Some(Everywhere(selector)) => SelectorNetwork(t, selector, target)
    case Some(ByLocality(sameSite, crossSite)) =>
      if source.site.None? || target.site.None? then None
      else SelectorNetwork(t, if source.site == target.site then sameSite else crossSite, target)
  }

  /** `_route_exists`: some network of the machine is declared to reach `network`. */
  predicate RouteExists(routes: seq<(Id, Id)>, machine: Machine, network: Id) {
    exists r :: r in routes && r.0 in machine.addresses && r.1 == network
  }

  /** The source can send on a network the target is attached to. */
  predicate Reaches(t: Topology, source: Machine, target: Machine, network: Id) {
    network in target.addresses && (network in source.addresses || RouteExists(t.routes, source, network))
  }

  /** A dependency that crosses hosts; the contract job is not an endpoint. */
  predicate Remote(g: map<Id, Service>, consumer: Service, c: Connection)
    requires c.service in g
  {
    g[c.service].kind != ContractsDeploy && consumer.machine != g[c.service].machine
  }

  /** The connection with its transport recomputed, or nothing when no usable network is selected. */
  function Route(t: Topology, g: map<Id, Service>, consumer: Service, c: Connection): Option<Connection> {
    if c.service !in g then None
    else if !Remote(g, consumer, c) then Some(c.(network := None, protocol := None))
    else if consumer.machine !in t.machines || g[c.service].machine !in t.machines then None
    else
      var source, target := t.machines[consumer.machine], t.machines[g[c.service].machine];
      var network := NetworkFor(t, TrafficOf(g[c.service].kind), source, target);
      if network.None? || !Reaches(t, source, target, network.value) then None
      else Some(c.(network := network, protocol := Some("tcp")))
  }

  // ---------------------------------------------------------------- what the policy means

  /** A literal names the network; `site_lan` names the LAN declared for the target's site. */
  ghost predicate Denotes(t: Topology, selector: Selector, target: Machine, network: Id) {
    || selector == Net(network)
    || (selector == SiteLan && target.site.Some? && target.site.value in t.siteLans
        && network == t.siteLans[target.site.value])
  }

  /** A policy with one selector uses it everywhere; a locality policy compares the sites of both machines. */
  ghost predicate Gives(t: Topology, policy: Policy, source: Machine, target: Machine, network: Id) {
    && (policy.Everywhere? ==> Denotes(t, policy.selector, target, network))
    && (policy.ByLocality? ==>
          && source.site.Some? && target.site.Some?
          && (source.site == target.site ==> Denotes(t, policy.sameSite, target, network))
          && (source.site != target.site ==> Denotes(t, policy.crossSite, target, network)))
  }

  /** The traffic's own policy gives the network; without one, the defaults do. */
  ghost predicate PolicyGives(t: Topology, traffic: Traffic, source: Machine, target: Machine, network: Id) {
    && (traffic in t.policies ==> Gives(t, t.policies[traffic], source, target, network))
    && (traffic !in t.policies ==> t.defaults.Some? && Gives(t, t.defaults.value, source, target, network))
  }

  lemma NetworkIff(t: Topology, traffic: Traffic, source: Machine, target: Machine, network: Id)
    ensures NetworkFor(t, traffic, source, target) == Some(network) <==>
            PolicyGives(t, traffic, source, target, network)
  {
  }

  /** Cluster nodes are reached as the storage API, Kubo nodes as storage peers, everything else as applications. */
  ghost predicate CountsAs(provider: ServiceType, traffic: Traffic) {
    && (traffic == StorageApi <==> provider == IpfsCluster)
    && (traffic == StorageP2p <==> provider == IpfsKubo)
    && traffic != BlockchainP2p
  }

  /** The target is attached to the network, and the source is attached to it or to a network with a route there. */
  ghost predicate CanSend(t: Topology, source: Machine, target: Machine, network: Id) {
    && network in target.addresses
    && (network in source.addresses || exists own :: own in source.addresses && (own, network) in t.routes)
  }

  lemma ReachesIff(t: Topology, source: Machine, target: Machine, network: Id)
    ensures Reaches(t, source, target, network) <==> CanSend(t, source, target, network)
  {
    if own :| own in source.addresses && (own, network) in t.routes {
      assert (own, network).0 in source.addresses;
    }
    if r :| r in t.routes && r.0 in source.addresses && r.1 == network {
      assert r == (r.0, network);
    }
  }

  /** The connection crosses hosts on this network: the policy gives it, and it carries there. */
  ghost predicate Crosses(t: Topology, source: Id, kind: ServiceType, target: Id, network: Id) {
    && source in t.machines && target in t.machines
    && (forall traffic :: CountsAs(kind, traffic) ==>
          PolicyGives(t, traffic, t.machines[source], t.machines[target], network))
    && CanSend(t, t.machines[source], t.machines[target], network)
  }

  /**
   * The transport of one connection: none on one host or to the contract job, otherwise TCP over a
   * network it crosses hosts on.
   */
  ghost predicate Transports(t: Topology, g: map<Id, Service>, consumer: Service, c: Connection) {
    && c.service in g
    && if g[c.service].kind == ContractsDeploy || g[c.service].machine == consumer.machine
       then c.network == None && c.protocol == None
       else
         && c.network.Some? && c.protocol == Some("tcp")
         && Crosses(t, consumer.machine, g[c.service].kind, g[c.service].machine, c.network.value)
  }

  /** The connection needs no network, or there is one it can cross hosts on. */
  ghost predicate Routable(t: Topology, g: map<Id, Service>, consumer: Service, c: Connection) {
    && c.service in g
    && (|| g[c.service].kind == ContractsDeploy || g[c.service].machine == consumer.machine
        || exists network :: Crosses(t, consumer.machine, g[c.service].kind, g[c.service].machine, network))
  }

  /** The same name and provider, with the transport the policy gives; there is at most one. */
  lemma RouteIff(t: Topology, g: map<Id, Service>, consumer: Service, c: Connection, r: Connection)
    ensures Route(t, g, consumer, c) == Some(r) <==>
            r.name == c.name && r.service == c.service && Transports(t, g, consumer, r)
  {
    if c.service in g {
      assert CountsAs(g[c.service].kind, TrafficOf(g[c.service].kind));
      assert forall traffic :: CountsAs(g[c.service].kind, traffic) ==> traffic == TrafficOf(g[c.service].kind);
      if r.network.Some? && consumer.machine in t.machines && g[c.service].machine in t.machines {
        var source, target := t.machines[consumer.machine], t.machines[g[c.service].machine];
        NetworkIff(t, TrafficOf(g[c.service].kind), source, target, r.network.value);
        ReachesIff(t, source, target, r.network.value);
      }
    }
  }

  lemma RoutableIff(t: Topology, g: map<Id, Service>, consumer: Service, c: Connection)
    ensures Route(t, g, consumer, c).Some? <==> Routable(t, g, consumer, c)
  {
    if Route(t, g, consumer, c).Some? {
      RouteIff(t, g, consumer, c, Route(t, g, consumer, c).value);
    } else if Routable(t, g, consumer, c) {
      if g[c.service].kind == ContractsDeploy || g[c.service].machine == consumer.machine {
        RouteIff(t, g, consumer, c, c.(network := None, protocol := None));
      } else {
        var network :| Crosses(t, consumer.machine, g[c.service].kind, g[c.service].machine, network);
        RouteIff(t, g, consumer, c, c.(network := Some(network), protocol := Some("tcp")));
      }
    }
  }

  /** The transport of a connection depends on its two ends alone. */
  lemma OneTransport(t: Topology, g: map<Id, Service>, consumer: Service, c: Connection, d: Connection)
    requires Transports(t, g, consumer, c) && Transports(t, g, consumer, d) && c.service == d.service
    ensures c.network == d.network && c.protocol == d.protocol
  {
    RouteIff(t, g, consumer, c, c);
    RouteIff(t, g, consumer, d.(name := c.name), c);
    RouteIff(t, g, consumer, c, d.(name := c.name));
  }
}
