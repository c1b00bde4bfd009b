/** Chain node ports, lab addresses and the static peer list of each chain node. */
module ChainPeers {
  import opened Ordering
  import opened Model
  import opened Inventory
  import opened Subnets

  datatype Role = ValidatorRole | RpcRole | ObserverRole

  function RoleRank(role: Role): nat {
    match role case ValidatorRole => 0 case RpcRole => 1 case ObserverRole => 2
  }

  predicate IsNode(kind: ServiceType) {
    kind == BesuRpc || kind == BesuValidator || kind == BesuObserver
  }

  // ---------------------------------------------------------------- which services are the chain's nodes

  function NodeServices(services: seq<Service>): (r: seq<Service>)
    ensures forall s :: s in r <==> s in services && IsNode(s.kind)
    ensures UniqueServices(services) ==> UniqueServices(r)
  {
    if services == [] then []
    else
      assert services == [services[0]] + services[1..];
      (if IsNode(services[0].kind) then [services[0]] else []) + NodeServices(services[1..])
  }

  function NodeOf(s: Service): Id {
    s.configuration.nodeId.GetOr<Id>(s.id)
  }

  function RoleKey(roles: map<Id, Role>, node: Id): Key {
    Key(if node in roles then RoleRank(roles[node]) else 3, 0, node)
  }

  function ByRole(roles: map<Id, Role>): Id -> Key {
    node => RoleKey(roles, node)
  }

  function ByNodeRole(roles: map<Id, Role>): Service -> Key {
    s => RoleKey(roles, NodeOf(s))
  }

  /** No two node services claim the same chain node. */
  ghost predicate DistinctNodes(nodes: seq<Service>) {
    forall i, j :: 0 <= i < j < |nodes| ==> NodeOf(nodes[i]) != NodeOf(nodes[j])
  }

  /** The node services are exactly the chain's nodes. */
  ghost predicate NodesMatch(nodes: seq<Service>, names: seq<Id>) {
    && DistinctNodes(nodes) && NoRepeats(names)
    && (forall i :: 0 <= i < |nodes| ==> NodeOf(nodes[i]) in names)
    && (forall name :: name in names ==> exists i :: 0 <= i < |nodes| && NodeOf(nodes[i]) == name)
  }

  /** The resolver's order: by role, then node id. */
  function OrderedNodes(nodes: seq<Service>, roles: map<Id, Role>): seq<Service> {
    SortBy(nodes, ByNodeRole(roles))
  }

  function OrderedNames(names: seq<Id>, roles: map<Id, Role>): seq<Id> {
    SortBy(names, ByRole(roles))
  }

  // ---------------------------------------------------------------- ports

  /** The port the resolver writes into every edge towards the i-th node. */
  function PortAt(s: Service, start: nat, i: nat): nat {
    s.configuration.p2pAdvertisePort.GetOr<nat>(start + i)
  }

  /** The dict built by enumerating the ordered nodes. */
  function PeerPorts(ordered: seq<Service>, start: nat): map<Id, nat> {
    if ordered == [] then map[]
    else
      var n := |ordered| - 1;
      PeerPorts(ordered[..n], start)[ordered[n].id := PortAt(ordered[n], start, n)]
  }

  /** `has_remote_peer`: the nodes sit on more than one machine. */
  predicate HasRemotePeer(nodes: seq<Service>) {
    |set s | s in nodes :: s.machine| > 1
  }

  /** Two nodes are on different hosts. */
  predicate SpanHosts(nodes: seq<Service>) {
    exists r, s :: r in nodes && s in nodes && r.machine != s.machine
  }

  lemma RemoteMeansSpan(nodes: seq<Service>)
    ensures HasRemotePeer(nodes) <==> SpanHosts(nodes)
  {
    var machines := set s | s in nodes :: s.machine;
    if SpanHosts(nodes) {
      var r, s :| r in nodes && s in nodes && r.machine != s.machine;
      SubsetSize({r.machine, s.machine}, machines);
    }
    if HasRemotePeer(nodes) {
      var m :| m in machines;
      assert (forall n :: n in machines ==> n == m) ==> machines == {m};
    }
  }

  /** `chain_node_ports`: the port the i-th node of the sorted inventory announces. */
  function ChainPort(nodes: seq<Service>, start: nat, sorted: seq<Id>, i: nat): Option<nat>
    requires i < |sorted|
  {
    var byNode := ByNode(nodes);
    if sorted[i] !in byNode then None
    else
      var port := if HasRemotePeer(nodes) then start + i else 30303;
      Some(byNode[sorted[i]].configuration.p2pAdvertisePort.GetOr<nat>(port))
  }

  /** `by_node`: node services indexed by node id. */
  function ByNode(services: seq<Service>): map<Id, Service> {
    if services == [] then map[]
    else
      var n := |services| - 1;
      ByNode(services[..n])[NodeOf(services[n]) := services[n]]
  }

  lemma {:induction false} PeerPortsOf(ordered: seq<Service>, start: nat)
    requires UniqueServices(ordered)
    ensures forall i :: 0 <= i < |ordered| ==>
              ordered[i].id in PeerPorts(ordered, start) &&
                  PeerPorts(ordered, start)[ordered[i].id] == PortAt(ordered[i], start, i)
    ensures forall id :: id in PeerPorts(ordered, start) <==> exists s :: s in ordered && s.id == id
  {
    if ordered != [] {
      var n := |ordered| - 1;
      PeerPortsOf(ordered[..n], start);
      forall i | 0 <= i < n
        ensures ordered[i].id in PeerPorts(ordered, start) &&
                PeerPorts(ordered, start)[ordered[i].id] == PortAt(ordered[i], start, i)
      {
        assert ordered[..n][i] == ordered[i];
      }
      assert ordered == ordered[..n] + [ordered[n]];
    }
  }

  lemma {:induction false} ByNodeOf(services: seq<Service>, s: Service)
    requires s in services && DistinctNodes(services)
    ensures NodeOf(s) in ByNode(services) && ByNode(services)[NodeOf(s)] == s
  {
    var n := |services| - 1;
    assert services == services[..n] + [services[n]];
    if services[n] != s {
      ByNodeOf(services[..n], s);
    }
  }

  lemma StayUnique(nodes: seq<Service>, ordered: seq<Service>, key: Service -> Key)
    requires UniqueServices(nodes) && DistinctKeys(ordered, key) && forall s :: s in ordered ==> s in nodes
    ensures UniqueServices(ordered)
  {
    forall i, j | 0 <= i < j < |ordered| ensures ordered[i].id != ordered[j].id {
      assert key(ordered[i]) != key(ordered[j]);
      assert ordered[i] in nodes && ordered[j] in nodes;
    }
  }

  /** Sorting gives every node service one position. */
  lemma OrderedNodesExact(nodes: seq<Service>, roles: map<Id, Role>)
    requires UniqueServices(nodes) && DistinctNodes(nodes)
    ensures |OrderedNodes(nodes, roles)| == |nodes| && forall s :: s in OrderedNodes(nodes, roles) <==> s in nodes
    ensures UniqueServices(OrderedNodes(nodes, roles))
    ensures Sorted(OrderedNodes(nodes, roles), ByNodeRole(roles)) &&
            DistinctKeys(OrderedNodes(nodes, roles), ByNodeRole(roles))
  {
    var key := ByNodeRole(roles);
    assert DistinctKeys(nodes, key);
    SortMembers(nodes, key);
    SortSorts(nodes, key);
    SortDistinct(nodes, key);
    StayUnique(nodes, SortBy(nodes, key), key);
  }

  /** The port of the node at its position among the ordered nodes. */
  lemma PortByPosition(nodes: seq<Service>, roles: map<Id, Role>, start: nat, s: Service) returns (i: nat)
    requires UniqueServices(nodes) && DistinctNodes(nodes) && s in nodes
    ensures i < |OrderedNodes(nodes, roles)| && OrderedNodes(nodes, roles)[i] == s
    ensures s.id in PeerPorts(OrderedNodes(nodes, roles), start)
    ensures PeerPorts(OrderedNodes(nodes, roles), start)[s.id] == PortAt(s, start, i)
  {
    var ordered := OrderedNodes(nodes, roles);
    OrderedNodesExact(nodes, roles);
    assert s in ordered;
    i :| 0 <= i < |ordered| && ordered[i] == s;
    PeerPortsOf(ordered, start);
  }

  /** Validators come first, then RPC nodes, observers and nodes without a role; alphabetically among themselves. */
  ghost predicate Earlier(roles: map<Id, Role>, a: Id, b: Id) {
    var ra: Option<Role> := if a in roles then Some(roles[a]) else None;
    var rb: Option<Role> := if b in roles then Some(roles[b]) else None;
    || (ra == Some(ValidatorRole) && rb != Some(ValidatorRole))
    || (ra == Some(RpcRole) && (rb == Some(ObserverRole) || rb == None))
    || (ra == Some(ObserverRole) && rb == None)
    || (ra == rb && a != b && Alphabetical(a.text, b.text))
  }

  /** The node of a service is the one its configuration names, or else its own id. */
  ghost predicate EarlierNode(roles: map<Id, Role>, x: Service, y: Service) {
    Earlier(roles, if x.configuration.nodeId.Some? then x.configuration.nodeId.value else x.id,
            if y.configuration.nodeId.Some? then y.configuration.nodeId.value else y.id)
  }

  lemma EarlierIff(roles: map<Id, Role>, x: Service, y: Service)
    ensures var key := ByNodeRole(roles); EarlierNode(roles, x, y) <==> ComesBefore(x, y, key)
  {
    StrLeIff(NodeOf(x).text, NodeOf(y).text);
  }

  /** Without an override the port of a node is the start port plus the number of nodes before it. */
  lemma PortByCount(nodes: seq<Service>, roles: map<Id, Role>, start: nat, s: Service, before: set<Service>)
    requires UniqueServices(nodes) && DistinctNodes(nodes) && s in nodes
    requires forall x :: x in before <==> x in nodes && EarlierNode(roles, x, s)
    ensures var ports := PeerPorts(OrderedNodes(nodes, roles), start);
      && s.id in ports
      && (s.configuration.p2pAdvertisePort.Some? ==> ports[s.id] == s.configuration.p2pAdvertisePort.value)
      && (s.configuration.p2pAdvertisePort.None? ==> ports[s.id] == start + |before|)
  {
    var i := PortByPosition(nodes, roles, start, s);
    PlaceOfNode(nodes, roles, s, i, before);
  }

  lemma PlaceOfNode(nodes: seq<Service>, roles: map<Id, Role>, s: Service, i: nat, before: set<Service>)
    requires UniqueServices(nodes) && DistinctNodes(nodes)
    requires i < |OrderedNodes(nodes, roles)| && OrderedNodes(nodes, roles)[i] == s
    requires forall x :: x in before <==> x in nodes && EarlierNode(roles, x, s)
    ensures i == |before|
  {
    var key, ordered := ByNodeRole(roles), OrderedNodes(nodes, roles);
    OrderedNodesExact(nodes, roles);
    forall x ensures x in before <==> x in ordered && ComesBefore(x, ordered[i], key) {
      EarlierIff(roles, x, s);
    }
    PlaceIsCount(ordered, key, i, before);
  }

  /** Two nodes without an override never share a port. */
  lemma PortsAreDistinct(nodes: seq<Service>, roles: map<Id, Role>, start: nat, r: Service, s: Service)
    requires UniqueServices(nodes) && DistinctNodes(nodes) && r in nodes && s in nodes && r != s
    requires r.configuration.p2pAdvertisePort.None? && s.configuration.p2pAdvertisePort.None?
    ensures var ports := PeerPorts(OrderedNodes(nodes, roles), start);
            r.id in ports && s.id in ports && ports[r.id] != ports[s.id]
  {
    var i := PortByPosition(nodes, roles, start, r);
    var j := PortByPosition(nodes, roles, start, s);
  }

  function Names(nodes: seq<Service>): (r: seq<Id>)
    ensures |r| == |nodes| && forall i :: 0 <= i < |r| ==> r[i] == NodeOf(nodes[i])
  {
    seq(|nodes|, i requires 0 <= i < |nodes| => NodeOf(nodes[i]))
  }

  lemma NamesSorted(ordered: seq<Service>, roles: map<Id, Role>)
    requires Sorted(ordered, ByNodeRole(roles)) && DistinctKeys(ordered, ByNodeRole(roles))
    ensures Sorted(Names(ordered), ByRole(roles)) && DistinctKeys(Names(ordered), ByRole(roles))
  {
    var key := ByNodeRole(roles);
    forall i, j | 0 <= i < j < |ordered|
      ensures KeyLe(RoleKey(roles, Names(ordered)[i]), RoleKey(roles, Names(ordered)[j]))
      ensures RoleKey(roles, Names(ordered)[i]) != RoleKey(roles, Names(ordered)[j])
    {
      assert KeyLe(key(ordered[i]), key(ordered[j])) && key(ordered[i]) != key(ordered[j]);
    }
  }

  lemma NamesCover(nodes: seq<Service>, ordered: seq<Service>, names: seq<Id>)
    requires NodesMatch(nodes, names) && forall s :: s in ordered <==> s in nodes
    ensures forall name :: name in Names(ordered) <==> name in names
  {
    forall name ensures name in Names(ordered) <==> name in names {
      if name in names {
        var i :| 0 <= i < |nodes| && NodeOf(nodes[i]) == name;
        assert nodes[i] in nodes;
        var j :| 0 <= j < |ordered| && ordered[j] == nodes[i];
        assert Names(ordered)[j] == name;
      }
      if name in Names(ordered) {
        var i :| 0 <= i < |Names(ordered)| && Names(ordered)[i] == name;
        assert ordered[i] in nodes;
        var j :| 0 <= j < |nodes| && nodes[j] == ordered[i];
      }
    }
  }

  /** The i-th node of the resolver is the i-th node of `chain_node_ports`. */
  lemma SameOrder(nodes: seq<Service>, roles: map<Id, Role>, names: seq<Id>)
    requires UniqueServices(nodes) && NodesMatch(nodes, names)
    ensures Names(OrderedNodes(nodes, roles)) == OrderedNames(names, roles)
  {
    var ordered := OrderedNodes(nodes, roles);
    OrderedNodesExact(nodes, roles);
    NamesSorted(ordered, roles);
    NamesCover(nodes, ordered, names);
    var key := ByRole(roles);
    assert DistinctKeys(names, key);
    SortSorts(names, key);
    SortDistinct(names, key);
    SortMembers(names, key);
    SortedUnique(Names(ordered), SortBy(names, key), key);
  }

  /**
   * The port the resolver writes into edges towards a node is the port `chain_node_ports` announces
   * for it exactly when two nodes are on different hosts, the port is overridden, or its turn is 30303.
   */
  lemma PortsAgree(nodes: seq<Service>, roles: map<Id, Role>, names: seq<Id>, start: nat, s: Service) returns (i: nat)
    requires UniqueServices(nodes) && NodesMatch(nodes, names) && s in nodes
    ensures i < |OrderedNames(names, roles)| && OrderedNames(names, roles)[i] == NodeOf(s)
    ensures s.id in PeerPorts(OrderedNodes(nodes, roles), start)
    ensures Some(PeerPorts(OrderedNodes(nodes, roles), start)[s.id]) ==
            ChainPort(nodes, start, OrderedNames(names, roles), i)
            <==> SpanHosts(nodes) || s.configuration.p2pAdvertisePort.Some? || start + i == 30303
  {
    SameOrder(nodes, roles, names);
    i := PortByPosition(nodes, roles, start, s);
    assert Names(OrderedNodes(nodes, roles))[i] == NodeOf(s);
    ByNodeOf(nodes, s);
    RemoteMeansSpan(nodes);
  }

  // ---------------------------------------------------------------- node addresses on one host

  /** `chain_node_addresses` when all nodes share a host: numbered from ten above the subnet's base. */
  function HostAddress(subnet: Block, k: nat): nat {
    subnet.base + 10 + k
  }

  /** The numbering ignores the subnet's size: the n addresses stay inside exactly when the block holds n + 10. */
  lemma HostAddressesFitIff(subnet: Block, n: nat)
    requires n > 0
    ensures (forall k :: 0 <= k < n ==> Contains(subnet, HostAddress(subnet, k))) <==> n + 10 <= Size(subnet)
  {
    if forall k :: 0 <= k < n ==> Contains(subnet, HostAddress(subnet, k)) {
      assert Contains(subnet, HostAddress(subnet, n - 1));
    }
  }

  /** A subnet of prefix 30 is accepted and holds four addresses: not even the first node fits. */
  lemma SmallSubnetHoldsNoNode(base: nat)
    ensures !Contains(Block(base, 30), HostAddress(Block(base, 30), 0))
  {
    assert Pow2(2) == 2 * Pow2(1) && Pow2(1) == 2 * Pow2(0);
  }
}
