/** The expanded peer matrices of a deployment: the validator's check and the static peer lists. */
module Expansion {
  import opened Ordering
  import opened Model
  import opened Inventory
  import opened Planner
  import opened Routing
  import opened Subnets
  import opened Peerings
  import opened ChainPeers

  // ---------------------------------------------------------------- expansion

  datatype Infrastructure = Infrastructure(besuStart: nat, swarmPort: nat, clusterPort: nat)

  /** The explicit peer matrices; absent when the routing keeps a single infrastructure network. */
  datatype PeerMatrix = PeerMatrix(blockchain: Option<seq<Edge>>, ipfs: Option<seq<Edge>>, cluster: Option<seq<Edge>>)

  /** Only `site_lan` and locality policies are expanded. */
  predicate IsLocality(t: Topology, traffic: Traffic) {
    var policy: Option<Policy> := if traffic in t.policies then Some(t.policies[traffic]) else t.defaults;
    policy.Some? && (policy.value.ByLocality? || policy.value.selector.SiteLan?)
  }

  function BlockchainFamily(t: Topology, services: seq<Service>, roles: map<Id, Role>, start: nat): Family
    requires UniqueServices(services)
  {
    Family(t, ById(services), BlockchainP2p, PeerPorts(OrderedNodes(NodeServices(services), roles), start))
  }

  function StorageFamily(t: Topology, services: seq<Service>, port: nat): Family
    requires UniqueServices(services)
  {
    var g := ById(services);
    var ports := if g == map[] then map[]
                 else map id | id in g :: g[id].configuration.p2pAdvertisePort.GetOr<nat>(port);
    Family(t, g, StorageP2p, ports)
  }

  function IdsOfKind(services: seq<Service>, kind: ServiceType): (r: seq<Id>)
    ensures forall id :: id in r <==> exists s :: s in services && s.kind == kind && s.id == id
  {
    if services == [] then []
    else
      assert services == [services[0]] + services[1..];
      (if services[0].kind == kind then [services[0].id] else []) + IdsOfKind(services[1..], kind)
  }

  function BlockchainIds(services: seq<Service>, roles: map<Id, Role>): seq<Id> {
    ServiceIds(OrderedNodes(NodeServices(services), roles))
  }

  function StorageIds(services: seq<Service>, kind: ServiceType): seq<Id> {
    SortBy(IdsOfKind(services, kind), ByName)
  }

  /** The three families of peers. */
  datatype Kin = Chain | Kubo | Cluster

  function FamilyOf(t: Topology, services: seq<Service>, roles: map<Id, Role>, infra: Infrastructure, kin: Kin): Family
    requires UniqueServices(services)
  {
    match kin
    case Chain => BlockchainFamily(t, services, roles, infra.besuStart)
    case Kubo => StorageFamily(t, services, infra.swarmPort)
    case Cluster => StorageFamily(t, services, infra.clusterPort)
  }

  function PeersOf(services: seq<Service>, roles: map<Id, Role>, kin: Kin): seq<Id> {
    match kin
    case Chain => BlockchainIds(services, roles)
    case Kubo => StorageIds(services, IpfsKubo)
    case Cluster => StorageIds(services, IpfsCluster)
  }

  predicate Meshed(t: Topology, kin: Kin) {
    IsLocality(t, if kin.Chain? then BlockchainP2p else StorageP2p)
  }

  /** Where the policy of the family depends on sites, every two of its peers can address each other. */
  ghost predicate FamilyExpandable(t: Topology, services: seq<Service>, roles: map<Id, Role>, infra: Infrastructure,
                                   kin: Kin)
    requires UniqueServices(services)
  {
    Meshed(t, kin) ==> AllAddressed(FamilyOf(t, services, roles, infra, kin), PeersOf(services, roles, kin))
  }

  ghost predicate Expandable(t: Topology, services: seq<Service>, roles: map<Id, Role>, infra: Infrastructure)
    requires UniqueServices(services)
  {
    && FamilyExpandable(t, services, roles, infra, Chain) && FamilyExpandable(t, services, roles, infra, Kubo)
    && FamilyExpandable(t, services, roles, infra, Cluster)
  }

  /** Exactly such a family has a list, and the list is a full mesh. */
  ghost predicate FamilyExpanded(t: Topology, services: seq<Service>, roles: map<Id, Role>, infra: Infrastructure,
                                 kin: Kin, edges: Option<seq<Edge>>)
    requires UniqueServices(services)
  {
    && (edges.Some? <==> Meshed(t, kin))
    && (edges.Some? ==> FullMesh(FamilyOf(t, services, roles, infra, kin), PeersOf(services, roles, kin), edges.value))
  }

  ghost predicate ExpandedTo(t: Topology, services: seq<Service>, roles: map<Id, Role>, infra: Infrastructure,
                             m: PeerMatrix)
    requires UniqueServices(services)
  {
    && FamilyExpanded(t, services, roles, infra, Chain, m.blockchain)
    && FamilyExpanded(t, services, roles, infra, Kubo, m.ipfs)
    && FamilyExpanded(t, services, roles, infra, Cluster, m.cluster)
  }

  /** Expansion of every family whose policy depends on sites. */
  method Expand(t: Topology, services: seq<Service>, roles: map<Id, Role>, infra: Infrastructure)
    returns (r: Option<PeerMatrix>)
    requires UniqueServices(services)
    ensures r.Some? <==> Expandable(t, services, roles, infra)
    ensures r.Some? ==> ExpandedTo(t, services, roles, infra, r.value)
  {
    var chain := ExpandFamily(t, services, roles, infra, Chain);
    var kubo := ExpandFamily(t, services, roles, infra, Kubo);
    var cluster := ExpandFamily(t, services, roles, infra, Cluster);
    if chain.None? || kubo.None? || cluster.None? {
      return None;
    }
    r := Some(PeerMatrix(chain.value, kubo.value, cluster.value));
  }

  method ExpandFamily(t: Topology, services: seq<Service>, roles: map<Id, Role>, infra: Infrastructure, kin: Kin)
    returns (r: Option<Option<seq<Edge>>>)
    requires UniqueServices(services)
    ensures r.Some? <==> FamilyExpandable(t, services, roles, infra, kin)
    ensures r.Some? ==> FamilyExpanded(t, services, roles, infra, kin, r.value)
  {
    if !Meshed(t, kin) {
      return Some(None);
    }
    var f, ids := FamilyOf(t, services, roles, infra, kin), PeersOf(services, roles, kin);
    PeersDistinct(services, roles, kin);
    MeshDefined(f, ids);
    var edges := Mesh(f, ids);
    if edges.None? {
      return None;
    }
    MeshIsFull(f, ids, edges.value);
    r := Some(edges);
  }

  // ---------------------------------------------------------------- what the lists hold

  /** Chain nodes, Kubo nodes, Cluster nodes. */
  ghost predicate InFamily(kin: Kin, kind: ServiceType) {
    match kin
    case Chain => kind == BesuValidator || kind == BesuRpc || kind == BesuObserver
    case Kubo => kind == IpfsKubo
    case Cluster => kind == IpfsCluster
  }

  ghost function NodesBefore(services: seq<Service>, roles: map<Id, Role>, s: Service): set<Service> {
    set x | x in services && InFamily(Chain, x.kind) && EarlierNode(roles, x, s)
  }

  /**
   * The service's own override, or the family's port: one for each chain node in turn, the same for
   * all storage peers.
   */
  ghost predicate DialledAt(services: seq<Service>, roles: map<Id, Role>, infra: Infrastructure, kin: Kin, s: Service,
                            port: nat) {
    && (s.configuration.p2pAdvertisePort.Some? ==> port == s.configuration.p2pAdvertisePort.value)
    && (s.configuration.p2pAdvertisePort.None? ==>
          match kin
          case Chain =>
            port == infra.besuStart + |NodesBefore(services, roles, s)|
          case Kubo => port == infra.swarmPort
          case Cluster => port == infra.clusterPort)
  }

  /** `a` dials `b` at its address on the network the policy of the family's traffic gives. */
  ghost predicate Dials(t: Topology, kin: Kin, a: Service, b: Service, e: Edge) {
    && e.source == a.id && e.target == b.id && a.id != b.id && InFamily(kin, a.kind) && InFamily(kin, b.kind)
    && a.machine in t.machines && b.machine in t.machines
    && PolicyGives(t, if kin == Chain then BlockchainP2p else StorageP2p, t.machines[a.machine], t.machines[b.machine],
                   e.network)
    && e.network in t.machines[b.machine].addresses && e.address == t.machines[b.machine].addresses[e.network]
  }

  lemma PeersAre(services: seq<Service>, roles: map<Id, Role>, kin: Kin)
    requires UniqueServices(services)
    ensures forall id :: id in PeersOf(services, roles, kin) <==>
              exists s :: s in services && InFamily(kin, s.kind) && s.id == id
  {
    match kin
    case Chain =>
      SortMembers(NodeServices(services), ByNodeRole(roles));
      ServiceIdsCover(OrderedNodes(NodeServices(services), roles));
    case Kubo => StorageListsOnce(services, IpfsKubo);
    case Cluster => StorageListsOnce(services, IpfsCluster);
  }

  lemma PortsAre(t: Topology, services: seq<Service>, roles: map<Id, Role>, infra: Infrastructure, kin: Kin, s: Service)
    requires UniqueServices(services) && s in services && InFamily(kin, s.kind)
    requires kin == Chain ==> DistinctNodes(NodeServices(services))
    ensures var f := FamilyOf(t, services, roles, infra, kin);
      s.id in f.ports && DialledAt(services, roles, infra, kin, s, f.ports[s.id])
  {
    if kin == Chain { ChainPortIs(services, roles, infra, s); }
  }

  lemma ChainPortIs(services: seq<Service>, roles: map<Id, Role>, infra: Infrastructure, s: Service)
    requires UniqueServices(services) && s in services && InFamily(Chain, s.kind) &&
             DistinctNodes(NodeServices(services))
    ensures var ports := PeerPorts(OrderedNodes(NodeServices(services), roles), infra.besuStart);
      s.id in ports && DialledAt(services, roles, infra, Chain, s, ports[s.id])
  {
    PortByCount(NodeServices(services), roles, infra.besuStart, s, NodesBefore(services, roles, s));
  }

  /** Every edge of an expanded list joins two services of the family as `Dials` and `DialledAt` say. */
  lemma ExpandedEdge(t: Topology, services: seq<Service>, roles: map<Id, Role>, infra: Infrastructure, kin: Kin,
                     edges: seq<Edge>, e: Edge) returns (a: Service, b: Service)
    requires UniqueServices(services) && FamilyExpanded(t, services, roles, infra, kin, Some(edges)) && e in edges
    requires kin == Chain ==> DistinctNodes(NodeServices(services))
    ensures a in services && b in services && Dials(t, kin, a, b, e)
    ensures DialledAt(services, roles, infra, kin, b, e.port)
  {
    PeersAre(services, roles, kin);
    var f := FamilyOf(t, services, roles, infra, kin);
    assert OwnAddress(f, e) && e.source != e.target;
    a :| a in services && InFamily(kin, a.kind) && a.id == e.source;
    b :| b in services && InFamily(kin, b.kind) && b.id == e.target;
    PortsAre(t, services, roles, infra, kin, b);
  }

  /** Every two services of the family are joined. */
  lemma ExpandedPair(t: Topology, services: seq<Service>, roles: map<Id, Role>, infra: Infrastructure, kin: Kin,
                     edges: seq<Edge>, a: Service, b: Service)
    requires UniqueServices(services) && FamilyExpanded(t, services, roles, infra, kin, Some(edges))
    requires a in services && b in services && a.id != b.id && InFamily(kin, a.kind) && InFamily(kin, b.kind)
    ensures Joined(edges, a.id, b.id)
  {
    PeersAre(services, roles, kin);
    assert FullMesh(FamilyOf(t, services, roles, infra, kin), PeersOf(services, roles, kin), edges);
  }

  /** The policy of the family's traffic, or else the default, compares sites or names the site LAN. */
  lemma MeshedIff(t: Topology, kin: Kin)
    ensures var traffic := if kin == Chain then BlockchainP2p else StorageP2p;
      Meshed(t, kin) <==>
      || (traffic in t.policies && (t.policies[traffic].ByLocality? || t.policies[traffic] == Everywhere(SiteLan)))
      || (traffic !in t.policies && t.defaults.Some?
          && (t.defaults.value.ByLocality? || t.defaults.value == Everywhere(SiteLan)))
  {
  }

  lemma PeersDistinct(services: seq<Service>, roles: map<Id, Role>, kin: Kin)
    requires UniqueServices(services)
    ensures NoRepeats(PeersOf(services, roles, kin))
  {
    match kin
    case Chain => ChainIdsDistinct(services, roles);
    case Kubo => StorageListsOnce(services, IpfsKubo);
    case Cluster => StorageListsOnce(services, IpfsCluster);
  }

  lemma ChainIdsDistinct(services: seq<Service>, roles: map<Id, Role>)
    requires UniqueServices(services)
    ensures NoRepeats(BlockchainIds(services, roles))
  {
    var nodes := NodeServices(services);
    var ordered := OrderedNodes(nodes, roles);
    SortMembers(nodes, ByNodeRole(roles));
    forall i, j | 0 <= i < j < |ordered| ensures ordered[i].id != ordered[j].id {
      assert ordered[i] in nodes && ordered[j] in nodes;
      if ordered[i] == ordered[j] {
        OccursTwice(ordered, i, j);
        OccursOnce(nodes, ordered[i]);
      }
    }
  }

  lemma OccursTwice<T>(s: seq<T>, i: nat, j: nat)
    requires i < j < |s| && s[i] == s[j]
    ensures multiset(s)[s[i]] >= 2
  {
    assert s == s[..j] + s[j..] && s[..j][i] == s[i] && s[j..][0] == s[i];
    assert s[i] in s[..j] && s[i] in s[j..];
  }

  lemma {:induction false} OccursOnce<T>(s: seq<T>, x: T)
    requires NoRepeats(s)
    ensures multiset(s)[x] <= 1
  {
    if s != [] {
      assert s == [s[0]] + s[1..];
      OccursOnce(s[1..], x);
      assert s[0] !in s[1..];
    }
  }

  lemma {:induction false} KindIdsDistinct(services: seq<Service>, kind: ServiceType)
    requires UniqueServices(services)
    ensures NoRepeats(IdsOfKind(services, kind))
  {
    if services != [] {
      KindIdsDistinct(services[1..], kind);
      forall s | s in services[1..] ensures s.id != services[0].id {
        var i :| 0 <= i < |services[1..]| && services[1..][i] == s;
        assert services[i + 1] == s;
      }
      assert services[0].id !in IdsOfKind(services[1..], kind);
      NoRepeatsConcat(if services[0].kind == kind then [services[0].id] else [], IdsOfKind(services[1..], kind));
    }
  }

  lemma ServiceIdsCover(services: seq<Service>)
    ensures forall id :: id in ServiceIds(services) <==> exists s :: s in services && s.id == id
    ensures UniqueServices(services) ==> NoRepeats(ServiceIds(services))
  {
    var ids := ServiceIds(services);
    forall s | s in services ensures s.id in ids {
      var i :| 0 <= i < |services| && services[i] == s;
      assert ids[i] == s.id;
    }
  }

  /** The blockchain family lists every node service once. */
  lemma BlockchainListsOnce(services: seq<Service>, roles: map<Id, Role>)
    requires UniqueServices(services) && DistinctNodes(NodeServices(services))
    ensures NoRepeats(BlockchainIds(services, roles))
    ensures forall id :: id in BlockchainIds(services, roles) <==> exists s :: s in NodeServices(services) && s.id == id
  {
    OrderedNodesExact(NodeServices(services), roles);
    ServiceIdsCover(OrderedNodes(NodeServices(services), roles));
  }

  /** A storage family lists every service of its kind once. */
  lemma StorageListsOnce(services: seq<Service>, kind: ServiceType)
    requires UniqueServices(services)
    ensures NoRepeats(StorageIds(services, kind))
    ensures forall id :: id in StorageIds(services, kind) <==> exists s :: s in services && s.kind == kind && s.id == id
  {
    KindIdsDistinct(services, kind);
    SortDistinctNames(IdsOfKind(services, kind));
  }

  lemma SortDistinctNames(ids: seq<Id>)
    requires NoRepeats(ids)
    ensures NoRepeats(SortBy(ids, ByName)) && forall id :: id in SortBy(ids, ByName) <==> id in ids
  {
    assert DistinctKeys(ids, ByName);
    SortDistinct(ids, ByName);
    SortMembers(ids, ByName);
  }

  // ---------------------------------------------------------------- validation

  /** One edge of a peering list is well formed. */
  predicate EdgeAccepted(t: Topology, g: map<Id, Service>, kinds: set<ServiceType>, e: Edge) {
    && e.source in g && e.target in g && g[e.source].kind in kinds && g[e.target].kind in kinds
    && g[e.source].machine in t.machines && g[e.target].machine in t.machines
    && Reaches(t, t.machines[g[e.source].machine], t.machines[g[e.target].machine], e.network)
    && e.address == t.machines[g[e.target].machine].addresses[e.network]
    && 1 <= e.port <= 65535
  }

  /** The validator's complaints about the edge at `n`. */
  ghost predicate EdgeFault(t: Topology, g: map<Id, Service>, kinds: set<ServiceType>, edges: seq<Edge>, n: nat)
    requires n < |edges|
  {
    var e := edges[n];
    || e.source == e.target
    || (exists i :: 0 <= i < n && edges[i].source == e.source && edges[i].target == e.target)
    || e.source !in g || e.target !in g || g[e.source].kind !in kinds || g[e.target].kind !in kinds
    || g[e.source].machine !in t.machines || g[e.target].machine !in t.machines
    || e.network !in t.machines[g[e.target].machine].addresses
    || (e.network !in t.machines[g[e.source].machine].addresses
        && forall own :: own in t.machines[g[e.source].machine].addresses ==> (own, e.network) !in t.routes)
    || e.address != t.machines[g[e.target].machine].addresses[e.network]
    || e.port == 0 || e.port > 65535
  }

  lemma FaultIff(t: Topology, g: map<Id, Service>, kinds: set<ServiceType>, edges: seq<Edge>)
    ensures Simple(edges) && (forall e :: e in edges ==> EdgeAccepted(t, g, kinds, e)) <==>
            forall n :: 0 <= n < |edges| ==> !EdgeFault(t, g, kinds, edges, n)
  {
    forall n | 0 <= n < |edges|
      ensures EdgeAccepted(t, g, kinds, edges[n]) && Simple(edges) ==> !EdgeFault(t, g, kinds, edges, n)
      ensures !EdgeFault(t, g, kinds, edges, n) ==> EdgeAccepted(t, g, kinds, edges[n])
    {
      var e := edges[n];
      if e.source in g && e.target in g && g[e.source].machine in t.machines && g[e.target].machine in t.machines {
        ReachesIff(t, t.machines[g[e.source].machine], t.machines[g[e.target].machine], e.network);
      }
    }
    if forall n :: 0 <= n < |edges| ==> !EdgeFault(t, g, kinds, edges, n) {
      forall i, j | 0 <= i < j < |edges|
        ensures edges[i].source != edges[j].source || edges[i].target != edges[j].target
      {
        assert !EdgeFault(t, g, kinds, edges, j);
      }
      forall i | 0 <= i < |edges| ensures edges[i].source != edges[i].target {
        assert !EdgeFault(t, g, kinds, edges, i);
      }
      forall e | e in edges ensures EdgeAccepted(t, g, kinds, e) {
        var n :| 0 <= n < |edges| && edges[n] == e;
        assert !EdgeFault(t, g, kinds, edges, n);
      }
    }
  }

  /** The validator's loop over one family's edges: it accepts when it has no complaint. */
  method CheckPeerings(t: Topology, g: map<Id, Service>, kinds: set<ServiceType>, edges: seq<Edge>) returns (ok: bool)
    ensures ok <==> Simple(edges) && forall e :: e in edges ==> EdgeAccepted(t, g, kinds, e)
    ensures ok <==> forall n :: 0 <= n < |edges| ==> !EdgeFault(t, g, kinds, edges, n)
  {
    FaultIff(t, g, kinds, edges);
    var seen: set<(Id, Id)> := {};
    for n := 0 to |edges|
      invariant forall p :: p in seen <==> exists i :: 0 <= i < n && p == (edges[i].source, edges[i].target)
      invariant forall i :: 0 <= i < n ==> EdgeAccepted(t, g, kinds, edges[i])
      invariant Simple(edges[..n])
    {
      var e := edges[n];
      assert edges[..n + 1] == edges[..n] + [e];
      if e.source == e.target || (e.source, e.target) in seen || !EdgeAccepted(t, g, kinds, e) {
        assert e in edges;
        assert !Simple(edges) || !EdgeAccepted(t, g, kinds, e);
        return false;
      }
      seen := seen + {(e.source, e.target)};
    }
    assert edges[..|edges|] == edges;
    ok := true;
  }

  /** The network selected for the pair reaches its target, and the target's port is in range. */
  ghost predicate PairUsable(f: Family, a: Id, b: Id) {
    && a in f.g && b in f.g && b in f.ports && f.g[a].machine in f.t.machines && f.g[b].machine in f.t.machines
    && 1 <= f.ports[b] <= 65535
    && exists network ::
         && PolicyGives(f.t, f.traffic, f.t.machines[f.g[a].machine], f.t.machines[f.g[b].machine], network)
         && CanSend(f.t, f.t.machines[f.g[a].machine], f.t.machines[f.g[b].machine], network)
  }

  lemma EdgeAcceptedIff(f: Family, kinds: set<ServiceType>, ids: seq<Id>, edges: seq<Edge>, e: Edge)
    requires NoRepeats(ids) && Mesh(f, ids) == Some(edges) && e in edges
    requires forall id :: id in ids ==> id in f.g && f.g[id].kind in kinds
    ensures e.source in ids && e.target in ids && e.source != e.target
    ensures EdgeAccepted(f.t, f.g, kinds, e) <==> PairUsable(f, e.source, e.target)
  {
    MeshIsOwn(f, ids, edges, e);
  }

  /** Every pair of peers can be joined. */
  ghost predicate AllUsable(f: Family, ids: seq<Id>) {
    forall a, b :: a in ids && b in ids && a != b ==> PairUsable(f, a, b)
  }

  /** The resolver does not check peer routes: the validator accepts its matrix exactly when every pair's network
      is shared or routed and every dialled port is in range. */
  lemma MeshIsAccepted(f: Family, kinds: set<ServiceType>, ids: seq<Id>, edges: seq<Edge>)
    requires NoRepeats(ids) && Mesh(f, ids) == Some(edges)
    requires forall id :: id in ids ==> id in f.g && f.g[id].kind in kinds
    ensures Simple(edges)
    ensures (forall e :: e in edges ==> EdgeAccepted(f.t, f.g, kinds, e)) <==> AllUsable(f, ids)
  {
    MeshIsSimple(f, ids, edges);
    if AllUsable(f, ids) {
      forall e | e in edges ensures EdgeAccepted(f.t, f.g, kinds, e) {
        EdgeAcceptedIff(f, kinds, ids, edges, e);
      }
    }
    if forall e :: e in edges ==> EdgeAccepted(f.t, f.g, kinds, e) {
      forall a, b | a in ids && b in ids && a != b ensures PairUsable(f, a, b) {
        MeshIsComplete(f, ids, edges, a, b);
        var e :| e in edges && e.source == a && e.target == b;
        EdgeAcceptedIff(f, kinds, ids, edges, e);
      }
    }
  }

  // ---------------------------------------------------------------- lab addresses

  function IndexOf(s: seq<Id>, x: Id): (i: nat)
    requires x in s
    ensures i < |s| && s[i] == x
  {
    if s[0] == x then 0
    else
      assert s == [s[0]] + s[1..];
      1 + IndexOf(s[1..], x)
  }

  /** `docker_lab_address`: ten places above the base, then by rank among all sorted service ids. */
  function LabAddress(ids: seq<Id>, network: Block, id: Id): Option<nat>
    requires id in ids
  {
    SortMembers(ids, ByName);
    var address := network.base + 10 + IndexOf(SortBy(ids, ByName), id);
    if address >= Broadcast(network) then None else Some(address)
  }

  /**
   * The address is ten places above the base, plus one for each id that comes before, and below the
   * broadcast address.
   */
  lemma LabAddressIs(ids: seq<Id>, network: Block, id: Id, address: nat)
    requires NoRepeats(ids) && id in ids
    ensures LabAddress(ids, network, id) == Some(address) <==>
            && address == network.base + 10 + |set x | x in ids && x != id && Alphabetical(x.text, id.text)|
            && address + 1 < network.base + Size(network)
  {
    PlaceOfName(ids, id);
  }

  lemma PlaceOfName(ids: seq<Id>, id: Id)
    requires NoRepeats(ids) && id in ids
    ensures id in SortBy(ids, ByName)
    ensures IndexOf(SortBy(ids, ByName), id) == |set x | x in ids && x != id && Alphabetical(x.text, id.text)|
  {
    SortDistinctNames(ids);
    SortSorts(ids, ByName);
    var sorted := SortBy(ids, ByName);
    var before := set x | x in ids && x != id && Alphabetical(x.text, id.text);
    forall x ensures x in before <==> x in sorted && ComesBefore(x, id, ByName) {
      StrLeIff(x.text, id.text);
    }
    PlaceIsCount(sorted, ByName, IndexOf(sorted, id), before);
  }

  /** Two containers never share a lab address, and each lies inside the network below its broadcast address. */
  lemma LabAddressesDistinct(ids: seq<Id>, network: Block, a: Id, b: Id)
    requires a in ids && b in ids && a != b
    requires LabAddress(ids, network, a).Some? && LabAddress(ids, network, b).Some?
    ensures LabAddress(ids, network, a) != LabAddress(ids, network, b)
    ensures Contains(network, LabAddress(ids, network, a).value) &&
            LabAddress(ids, network, a).value != Broadcast(network)
  {
    SortMembers(ids, ByName);
  }

  /** Every container gets an address exactly when the network leaves room above the first ten. */
  lemma LabHasRoomIff(ids: seq<Id>, network: Block)
    requires NoRepeats(ids) && ids != []
    ensures (forall id :: id in ids ==> LabAddress(ids, network, id).Some?) <==> |ids| + 10 < Size(network)
  {
    SortDistinctNames(ids);
    SortMembers(ids, ByName);
    var sorted := SortBy(ids, ByName);
    var last := sorted[|sorted| - 1];
    assert last in sorted && IndexOf(sorted, last) == |sorted| - 1;
  }

  // ---------------------------------------------------------------- static peer lists

  /** What the artifact records of the chain: its nodes, their own endpoints and the peer matrix, if any. */
  datatype ChainContext = ChainContext(nodes: seq<Id>, own: map<Id, (nat, nat)>, peerings: seq<Edge>)

  /** In a lab a peer is dialled at its container address on the edge's network. */
  function RenderedEdge(f: Family, ids: seq<Id>, networks: map<Id, Block>, e: Edge): Option<Edge> {
    if e.target !in f.g || f.g[e.target].machine !in f.t.machines then None
    else if f.t.machines[f.g[e.target].machine].execution != DockerLab then Some(e)
    else if e.network !in networks || e.target !in ids then None
    else
      var address := LabAddress(ids, networks[e.network], e.target);
      if address.None? then None else Some(e.(address := address.value, port := 30303))
  }

  /** The recorded matrix. */
  ghost predicate Recorded(f: Family, ids: seq<Id>, networks: map<Id, Block>, edges: seq<Edge>, recorded: seq<Edge>) {
    |recorded| == |edges| && forall i :: 0 <= i < |edges| ==>
        RenderedEdge(f, ids, networks, edges[i]) == Some(recorded[i])
  }

  /** One entry of a node's static peer list; the key in its enode address is the peer's. */
  datatype Peer = Peer(id: Id, address: nat, port: nat)

  /** `static_nodes` for one node: its edges, or every other node at its own endpoint. */
  function StaticPeers(context: ChainContext, node: Id): (r: seq<Peer>)
    requires context.peerings == [] ==> forall x :: x in context.nodes ==> x in context.own
  {
    if context.peerings != [] then
      var edges := Dialled(context.peerings, node);
      seq(|edges|, i requires 0 <= i < |edges| => Peer(edges[i].target, edges[i].address, edges[i].port))
    else
      OthersWithin(context.nodes, node);
      var others := Others(context.nodes, node);
      seq(|others|, i requires 0 <= i < |others| => Peer(others[i], context.own[others[i]].0, context.own[others[i]].1))
  }

  lemma {:induction false} OthersWithin(ids: seq<Id>, source: Id)
    ensures forall i :: 0 <= i < |Others(ids, source)| ==> Others(ids, source)[i] in ids
  {
    if ids != [] {
      OthersWithin(ids[1..], source);
      assert ids == [ids[0]] + ids[1..];
    }
  }

  function PeerIds(peers: seq<Peer>): (r: seq<Id>)
    ensures |r| == |peers| && forall i :: 0 <= i < |r| ==> r[i] == peers[i].id
  {
    seq(|peers|, i requires 0 <= i < |peers| => peers[i].id)
  }

  /** Recording a matrix keeps who dials whom. */
  lemma {:induction false} RecordedDials(edges: seq<Edge>, recorded: seq<Edge>, source: Id)
    requires |edges| == |recorded|
    requires forall i :: 0 <= i < |edges| ==>
             edges[i].source == recorded[i].source && edges[i].target == recorded[i].target
    ensures Targets(Dialled(edges, source)) == Targets(Dialled(recorded, source))
  {
    if edges != [] {
      RecordedDials(edges[1..], recorded[1..], source);
    }
  }

  /**
   * With or without a matrix, a node's list names every other node exactly once. Without one the
   * list has every node's own endpoint; with one the matrix must be the recorded expansion.
   */
  lemma StaticListNamesOthers(f: Family, ids: seq<Id>, all: seq<Id>, networks: map<Id, Block>, edges: seq<Edge>,
                              context: ChainContext, node: Id)
    requires NoRepeats(context.nodes) && node in context.nodes
    requires context.peerings == [] ==> forall x :: x in context.nodes ==> x in context.own
    requires context.peerings != [] ==>
      && NoRepeats(ids) && (forall id :: id in ids <==> id in context.nodes)
      && Mesh(f, ids) == Some(edges) && Recorded(f, all, networks, edges, context.peerings)
    ensures var named := PeerIds(StaticPeers(context, node));
            && NoRepeats(named) && |named| == |context.nodes| - 1
            && forall x :: x in named <==> x in context.nodes && x != node
  {
    OthersExact(context.nodes, node);
    if context.peerings != [] {
      MatrixPeers(f, ids, all, networks, edges, context.peerings, node);
      assert PeerIds(StaticPeers(context, node)) == Targets(Dialled(context.peerings, node));
      OthersExact(ids, node);
      SameSize(ids, context.nodes);
    } else {
      assert PeerIds(StaticPeers(context, node)) == Others(context.nodes, node);
    }
  }

  lemma MatrixPeers(f: Family, ids: seq<Id>, all: seq<Id>, networks: map<Id, Block>, edges: seq<Edge>,
                    recorded: seq<Edge>, node: Id)
    requires NoRepeats(ids) && node in ids && Mesh(f, ids) == Some(edges) && Recorded(f, all, networks, edges, recorded)
    ensures Targets(Dialled(recorded, node)) == Others(ids, node)
  {
    DialsOthers(f, ids, ids, edges, node);
    forall i | 0 <= i < |edges| ensures edges[i].source == recorded[i].source && edges[i].target == recorded[i].target {
      assert RenderedEdge(f, all, networks, edges[i]) == Some(recorded[i]);
    }
    RecordedDials(edges, recorded, node);
  }

  lemma {:induction false} SameSize(a: seq<Id>, b: seq<Id>)
    requires NoRepeats(a) && NoRepeats(b) && forall x :: x in a <==> x in b
    ensures |a| == |b|
  {
    assert ToSet(a) == ToSet(b);
    NoRepeatsSize(a);
    NoRepeatsSize(b);
  }

  /** Every entry of the expanded matrix is the peer's own address on the network selected for the pair,
      or, in a lab, the container address on that network with the fixed port. */
  lemma StaticEntriesReachPeers(f: Family, ids: seq<Id>, all: seq<Id>, networks: map<Id, Block>, edges: seq<Edge>,
                                recorded: seq<Edge>, i: nat)
    requires NoRepeats(ids) && Mesh(f, ids) == Some(edges) && Recorded(f, all, networks, edges, recorded) &&
             i < |recorded|
    ensures OwnAddress(f, edges[i]) && recorded[i].source == edges[i].source && recorded[i].target == edges[i].target
    ensures var e, lab := recorded[i], f.t.machines[f.g[recorded[i].target].machine].execution == DockerLab;
            && e.network == edges[i].network
            && (!lab ==>
                e.address == f.t.machines[f.g[e.target].machine].addresses[e.network] && e.port == f.ports[e.target])
            && (lab ==>
                e.target in all && e.network in networks &&
                Some(e.address) == LabAddress(all, networks[e.network], e.target) && e.port == 30303)
  {
    MeshIsOwn(f, ids, edges, edges[i]);
  }
}
