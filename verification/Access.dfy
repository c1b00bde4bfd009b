/** The resolver's steps after the exposure pass: loopback access, advertised endpoints, storage listeners. */
module Access {
  import opened Ordering
  import opened Model
  import opened Planner
  import Groups
  import opened Routing
  import opened Exposures
  import opened Peerings
  import opened Expansion

  // ---------------------------------------------------------------- loopback access

  /** The primary RPC, the applications machine, and whether its front ends open loopback ports. */
  datatype Choices = Choices(primaryRpc: Id, appMachine: Id, localDirect: bool, frontEnds: seq<Id>)

  predicate AllLocal(machines: map<Id, Machine>) {
    forall m :: m in machines ==> machines[m].execution != Ssh
  }

  /** `local-direct` access opens this service on the applications machine. */
  predicate Direct(x: Choices, s: Service) {
    x.localDirect && (s.id == x.primaryRpc || s.id in x.frontEnds) && s.machine == x.appMachine
  }

  function LoopbackOn(port: nat): Exposure {
    Exposure(Loopback, None, port, ["tcp"], None, None)
  }

  /** What both loopback steps do to one service; opening one without a known port is an error. */
  function OpenLocally(x: Choices, allLocal: bool, s: Service): Option<Service> {
    if Direct(x, s) then
      if DefaultPort(s.kind).None? then None else Some(s.(exposure := Some(LoopbackOn(DefaultPort(s.kind).value))))
    else if allLocal && s.id == x.primaryRpc && s.exposure.None? then Some(s.(exposure := Some(LoopbackOn(8545))))
    else Some(s)
  }

  ghost predicate Opened(x: Choices, allLocal: bool, before: seq<Service>, after: seq<Service>) {
    |after| == |before| && forall i :: 0 <= i < |before| ==> OpenLocally(x, allLocal, before[i]) == Some(after[i])
  }

  /**
   * A front end or the primary RPC that `local-direct` access opens on the applications machine gets the
   * loopback port of its type. Otherwise, with no machine behind SSH, an unexposed primary RPC gets
   * port 8545. Nothing else changes.
   */
  ghost predicate OpensTo(x: Choices, machines: map<Id, Machine>, s: Service, r: Service) {
    if x.localDirect && (s.id == x.primaryRpc || s.id in x.frontEnds) && s.machine == x.appMachine then
      exists port ::
        && PublishesAt(s.(exposure := None), port)
        && r == s.(exposure := Some(Exposure(Loopback, None, port, ["tcp"], None, None)))
    else if s.id == x.primaryRpc && s.exposure == None
            && forall m :: m in machines ==> machines[m].execution == Local || machines[m].execution == DockerLab then
      r == s.(exposure := Some(Exposure(Loopback, None, 8545, ["tcp"], None, None)))
    else r == s
  }

  lemma OpensIff(x: Choices, machines: map<Id, Machine>, s: Service, r: Service)
    ensures OpenLocally(x, AllLocal(machines), s) == Some(r) <==> OpensTo(x, machines, s, r)
  {
    var bare := s.(exposure := None);
    if DefaultPort(s.kind).Some? { PublishesAtIff(bare, DefaultPort(s.kind).value); }
    if port :| PublishesAt(bare, port) { PublishesAtIff(bare, port); }
    assert DefaultPort(s.kind) == PrivatePort(bare);
  }

  method OpenLocalAccess(t: Topology, x: Choices, services: seq<Service>) returns (r: Option<seq<Service>>)
    ensures r.Some? <==> forall s :: s in services && Direct(x, s) ==> DefaultPort(s.kind).Some?
    ensures r.Some? ==> Opened(x, AllLocal(t.machines), services, r.value)
  {
    var after: seq<Service> := [];
    for n := 0 to |services|
      invariant Opened(x, AllLocal(t.machines), services[..n], after)
    {
      var s := OpenLocally(x, AllLocal(t.machines), services[n]);
      if s.None? {
        assert services[n] in services;
        return None;
      }
      after := after + [s.value];
      assert services[..n + 1] == services[..n] + [services[n]];
    }
    assert services[..|services|] == services;
    forall s | s in services && Direct(x, s) ensures DefaultPort(s.kind).Some? {
      var i :| 0 <= i < |services| && services[i] == s;
    }
    r := Some(after);
  }

  /** Opening this service on loopback takes nothing away: no remote consumer uses a directly opened service,
      and an all-local primary RPC is not needed on several networks. */
  ghost predicate Quiet(x: Choices, allLocal: bool, services: seq<Service>, s: Service)
    requires UniqueServices(services)
  {
    && (Direct(x, s) ==> forall n :: !Needed(services, s.id, n))
    && (allLocal && s.id == x.primaryRpc && !Direct(x, s) ==> !ManyNeeded(services, s.id))
  }

  ghost predicate Undisturbed(t: Topology, x: Choices, services: seq<Service>)
    requires UniqueServices(services)
  {
    forall s :: s in services ==> Quiet(x, AllLocal(t.machines), services, s)
  }

  /** The service serves every needed network and has one form. */
  ghost predicate Fine(services: seq<Service>, s: Service)
    requires UniqueServices(services)
  {
    (s.exposure.Some? ==> s.listeners == []) && forall n :: Needed(services, s.id, n) ==> Serves(s, n)
  }

  lemma OpeningIsFineIff(x: Choices, allLocal: bool, services: seq<Service>, s: Service, r: Service)
    requires UniqueServices(services) && s in services && Sufficient(services) && OneForm(services) && Plural(services)
    requires OpenLocally(x, allLocal, s) == Some(r)
    ensures Fine(services, r) <==> Quiet(x, allLocal, services, s)
  {
    if s.listeners == [] {
      forall m, n | Needed(services, s.id, m) && Needed(services, s.id, n) ensures m == n {
        assert Serves(s, m) && Serves(s, n);
      }
    }
    if Direct(x, s) && s.listeners == [] {
      assert FirstOn(r.listeners, s.id).None?;
      assert forall n :: !Serves(r, n);
    }
  }

  /** The two loopback steps keep the derived exposures exactly when they are undisturbed. */
  lemma LocalAccessIff(t: Topology, x: Choices, before: seq<Service>, after: seq<Service>)
    requires UniqueServices(before) && Sufficient(before) && OneForm(before) && Plural(before)
    requires Opened(x, AllLocal(t.machines), before, after)
    ensures UniqueServices(after) && SameLinks(before, after)
    ensures Sufficient(after) && OneForm(after) <==> Undisturbed(t, x, before)
  {
    OpenedLinks(x, AllLocal(t.machines), before, after);
    SameLinksKeep(t, before, after);
    FineIff(before, after);
    AllFineIff(x, AllLocal(t.machines), before, after);
  }

  lemma OpenedLinks(x: Choices, allLocal: bool, before: seq<Service>, after: seq<Service>)
    requires UniqueServices(before) && Opened(x, allLocal, before, after)
    ensures SameLinks(before, after) && UniqueServices(after)
  {
    forall i | 0 <= i < |before| ensures after[i] == before[i].(exposure := after[i].exposure) {
      OpenedLink(x, allLocal, before[i], after[i]);
    }
    SameShapeUnique(before, after);
  }

  lemma OpenedLink(x: Choices, allLocal: bool, s: Service, r: Service)
    requires OpenLocally(x, allLocal, s) == Some(r)
    ensures r == s.(exposure := r.exposure)
  {
  }

  lemma AllFineIff(x: Choices, allLocal: bool, before: seq<Service>, after: seq<Service>)
    requires UniqueServices(before) && Sufficient(before) && OneForm(before) && Plural(before)
    requires Opened(x, allLocal, before, after)
    ensures (forall i :: 0 <= i < |after| ==> Fine(before, after[i])) <==>
            (forall s :: s in before ==> Quiet(x, allLocal, before, s))
  {
    forall i | 0 <= i < |before| ensures Fine(before, after[i]) <==> Quiet(x, allLocal, before, before[i]) {
      assert before[i] in before;
      OpeningIsFineIff(x, allLocal, before, before[i], after[i]);
    }
    if forall i :: 0 <= i < |after| ==> Fine(before, after[i]) {
      forall s | s in before ensures Quiet(x, allLocal, before, s) {
        var i :| 0 <= i < |before| && before[i] == s;
        assert Fine(before, after[i]);
      }
    }
  }

  lemma FineIff(before: seq<Service>, after: seq<Service>)
    requires UniqueServices(before) && UniqueServices(after) && SameShape(before, after)
    requires forall p, n :: Needed(before, p, n) <==> Needed(after, p, n)
    ensures Sufficient(after) && OneForm(after) <==> forall i :: 0 <= i < |after| ==> Fine(before, after[i])
  {
    if Sufficient(after) && OneForm(after) {
      forall i | 0 <= i < |after| ensures Fine(before, after[i]) {
        assert after[i] in after;
      }
    }
    if forall i :: 0 <= i < |after| ==> Fine(before, after[i]) {
      forall s | s in after
        ensures (s.exposure.Some? ==> s.listeners == []) && forall n :: Needed(after, s.id, n) ==> Serves(s, n)
      {
        var i :| 0 <= i < |after| && after[i] == s;
        assert Fine(before, after[i]);
      }
    }
  }

  /** A private endpoint a remote consumer depends on, replaced by a loopback port. */
  lemma LocalDirectCanBreak(x: Choices, s: Service, consumer: Service, network: Id, c: Connection, r: Service)
    requires Direct(x, s) && s.id != consumer.id && s.kind == Dashboard && s.listeners == []
    requires s.exposure == Some(Exposure(Private, Some(network), 8081, ["tcp"], None, None))
    requires consumer.connections == [c] && c.service == s.id && c.network == Some(network)
    requires OpenLocally(x, true, s) == Some(r)
    ensures UniqueServices([s, consumer]) && Needed([s, consumer], s.id, network) && Serves(s, network) &&
            !Serves(r, network)
  {
    var services := [s, consumer];
    assert consumer in services && c in consumer.connections;
    assert Connected(services, s.id, network);
  }

  // ---------------------------------------------------------------- advertised endpoints

  /** The operator's overrides for one service. */
  datatype Advice = Advice(address: Option<nat>, port: Option<nat>, p2pPort: Option<nat>)

  predicate IsPeer(kind: ServiceType) {
    kind in {BesuRpc, BesuValidator, BesuObserver, IpfsKubo, IpfsCluster}
  }

  function Either<T>(first: Option<T>, second: Option<T>): Option<T> {
    if first.Some? then first else second
  }

  function Advertise(s: Service, a: Advice): Option<Service> {
    var advertised := a.address.Some? || a.port.Some?;
    if advertised && (s.exposure.None? || s.exposure.value.mode != Private) then None
    else if a.p2pPort.Some? && (!IsPeer(s.kind) || !(1 <= a.p2pPort.value <= 65535)) then None
    else
      var exposure := if !advertised then s.exposure
        else Some(s.exposure.value.(advertiseAddress := Either(a.address, s.exposure.value.advertiseAddress),
                                    advertisePort := Either(a.port, s.exposure.value.advertisePort)));
      Some(s.(exposure := exposure,
              configuration := s.configuration.(p2pAdvertisePort := Either(a.p2pPort,
                  s.configuration.p2pAdvertisePort))))
  }

  /** The override's address and port replace those announced on a private endpoint, its peer port that of a peer. */
  ghost predicate AdvertisesTo(s: Service, a: Advice, r: Service) {
    && (a.address.Some? || a.port.Some? ==>
          && s.exposure.Some? && s.exposure.value.mode == Private && r.exposure.Some?
          && r.exposure.value == s.exposure.value.(advertiseAddress := r.exposure.value.advertiseAddress,
                                                   advertisePort := r.exposure.value.advertisePort)
          && r.exposure.value.advertiseAddress ==
              (if a.address.Some? then a.address else s.exposure.value.advertiseAddress)
          && r.exposure.value.advertisePort == (if a.port.Some? then a.port else s.exposure.value.advertisePort))
    && (a.address.None? && a.port.None? ==> r.exposure == s.exposure)
    && (a.p2pPort.Some? ==>
          && (s.kind == BesuRpc || s.kind == BesuValidator || s.kind == BesuObserver || s.kind == IpfsKubo ||
              s.kind == IpfsCluster)
          && 0 < a.p2pPort.value < 65536 && r.configuration.p2pAdvertisePort == a.p2pPort)
    && (a.p2pPort.None? ==> r.configuration == s.configuration)
    && r.configuration == s.configuration.(p2pAdvertisePort := r.configuration.p2pAdvertisePort)
    && r == s.(exposure := r.exposure, configuration := r.configuration)
  }

  lemma AdvertisesIff(s: Service, a: Advice, r: Service)
    ensures Advertise(s, a) == Some(r) <==> AdvertisesTo(s, a, r)
  {
  }

  function Advised(advice: map<Id, Advice>, s: Service): Option<Service> {
    if s.id in advice then Advertise(s, advice[s.id]) else Some(s)
  }

  method AdvertiseAll(services: seq<Service>, advice: map<Id, Advice>) returns (r: Option<seq<Service>>)
    requires UniqueServices(services)
    ensures r.Some? <==>
      && (forall id :: id in advice ==> exists s :: s in services && s.id == id)
      && (forall s :: s in services ==> Advised(advice, s).Some?)
    ensures r.Some? ==> |r.value| == |services| && forall i :: 0 <= i < |services| ==>
            Advised(advice, services[i]) == Some(r.value[i])
  {
    var g := ById(services);
    if id :| id in advice && id !in g {
      assert forall s :: s in services ==> s.id in g;
      return None;
    }
    var after: seq<Service> := [];
    for n := 0 to |services|
      invariant |after| == n && forall i :: 0 <= i < n ==> Advised(advice, services[i]) == Some(after[i])
    {
      var s := Advised(advice, services[n]);
      if s.None? {
        assert services[n] in services;
        return None;
      }
      after := after + [s.value];
    }
    forall id | id in advice ensures exists s :: s in services && s.id == id {
      assert id in g && g[id] in services;
    }
    r := Some(after);
  }

  /** Advertising changes what peers dial, not what a service serves. */
  lemma AdvertisingKeeps(services: seq<Service>, after: seq<Service>, advice: map<Id, Advice>)
    requires UniqueServices(services) && |after| == |services|
    requires forall i :: 0 <= i < |services| ==> Advised(advice, services[i]) == Some(after[i])
    ensures SameLinks(services, after) && UniqueServices(after)
    ensures Sufficient(services) && OneForm(services) <==> Sufficient(after) && OneForm(after)
  {
    SameShapeUnique(services, after);
    NeededEitherWay(services, after);
    NeededEitherWay(after, services);
    forall i | 0 <= i < |services| ensures Fine(services, services[i]) <==> Fine(services, after[i]) {
      forall n ensures Serves(services[i], n) <==> Serves(after[i], n) {
      }
    }
    FineIff(services, services);
    FineIff(services, after);
  }

  // ---------------------------------------------------------------- storage listeners

  /** The networks on which consumers on other hosts connect to `provider`. */
  function CallerNetworks(services: seq<Service>, provider: Service): seq<Id> {
    if services == [] then []
    else
      (if services[0].machine == provider.machine then [] else UsedNetworks(services[0].connections, provider.id))
      + CallerNetworks(services[1..], provider)
  }

  function UsedNetworks(connections: seq<Connection>, provider: Id): seq<Id> {
    if connections == [] then []
    else
      (if connections[0].service == provider && connections[0].network.Some? then
         [connections[0].network.value]
       else [])
      + UsedNetworks(connections[1..], provider)
  }

  function IncomingNetworks(edges: seq<Edge>, target: Id): seq<Id> {
    if edges == [] then []
    else (if edges[0].target == target then [edges[0].network] else []) + IncomingNetworks(edges[1..], target)
  }

  lemma {:induction false} UsedNetworksAre(connections: seq<Connection>, provider: Id, n: Id)
    ensures n in UsedNetworks(connections, provider) <==> Uses(connections, provider, n)
  {
    if connections != [] {
      UsedNetworksAre(connections[1..], provider, n);
      assert connections == [connections[0]] + connections[1..];
    }
  }

  lemma {:induction false} CallerNetworksAre(services: seq<Service>, provider: Service, n: Id)
    ensures n in CallerNetworks(services, provider) <==>
            exists s :: s in services && s.machine != provider.machine && Uses(s.connections, provider.id, n)
  {
    if services != [] {
      CallerNetworksAre(services[1..], provider, n);
      UsedNetworksAre(services[0].connections, provider.id, n);
      assert services == [services[0]] + services[1..];
    }
  }

  lemma {:induction false} IncomingNetworksAre(edges: seq<Edge>, target: Id, n: Id)
    ensures n in IncomingNetworks(edges, target) <==> exists e :: e in edges && e.target == target && e.network == n
  {
    if edges != [] {
      IncomingNetworksAre(edges[1..], target, n);
      assert edges == [edges[0]] + edges[1..];
    }
  }

  predicate IsStorage(kind: ServiceType) {
    kind == IpfsKubo || kind == IpfsCluster
  }

  /** A privately exposed storage service used on several networks listens on each instead. */
  function SplitOver(s: Service, others: seq<Id>): Service {
    if !IsStorage(s.kind) || s.exposure.None? || s.exposure.value.mode != Private then s
    else
      var own := s.exposure.value.network;
      var networks := Groups.Deduplicate(others + if own.Some? then [own.value] else []);
      if |networks| + (if own.Some? then 0 else 1) <= 1 then s
      else s.(exposure := None,
          listeners := ListenersOn(SortBy(networks, ByName), s.exposure.value.port, s.exposure.value.protocols))
  }

  function FamilyEdges(matrix: PeerMatrix, kind: ServiceType): seq<Edge> {
    (if kind == IpfsKubo then matrix.ipfs else matrix.cluster).GetOr<seq<Edge>>([])
  }

  function OtherNetworks(services: seq<Service>, matrix: PeerMatrix, s: Service): seq<Id> {
    CallerNetworks(services, s) + IncomingNetworks(FamilyEdges(matrix, s.kind), s.id)
  }

  /** The peer list of the service's kind holds the edge. */
  ghost predicate InPeerList(matrix: PeerMatrix, kind: ServiceType, e: Edge) {
    || (kind == IpfsKubo && matrix.ipfs.Some? && e in matrix.ipfs.value)
    || (kind == IpfsCluster && matrix.cluster.Some? && e in matrix.cluster.value)
  }

  lemma SplitLeaves(s: Service, others: seq<Id>)
    requires (s.kind != IpfsKubo && s.kind != IpfsCluster) || s.exposure == None || s.exposure.value.mode != Private
    ensures SplitOver(s, others) == s
  {
  }

  /** A private storage service needed on a second network listens on each of them, with its port and protocols. */
  lemma SplitMeans(s: Service, others: seq<Id>, own: Option<Id>) returns (networks: seq<Id>)
    requires s.kind == IpfsKubo || s.kind == IpfsCluster
    requires s.exposure.Some? && s.exposure.value.mode == Private && s.exposure.value.network == own
    ensures forall n :: n in networks <==> n in others || own == Some(n)
    ensures if forall n :: n in others ==> own == Some(n) then SplitOver(s, others) == s
            else SplitsOver(s, networks, SplitOver(s, others))
  {
    networks := AllNetworks(others, own);
    SeveralIff(networks, others, own);
    SplitCases(s, others, own, networks);
  }

  lemma AllNetworks(others: seq<Id>, own: Option<Id>) returns (networks: seq<Id>)
    ensures networks == Groups.Deduplicate(others + if own.Some? then [own.value] else [])
    ensures NoRepeats(networks) && forall n :: n in networks <==> n in others || own == Some(n)
  {
    networks := Groups.Deduplicate(others + if own.Some? then [own.value] else []);
    forall n ensures n in networks <==> n in others || own == Some(n) {
      assert n in others + (if own.Some? then [own.value] else []) <==> n in others || own == Some(n);
    }
  }

  lemma SplitCases(s: Service, others: seq<Id>, own: Option<Id>, networks: seq<Id>)
    requires s.kind == IpfsKubo || s.kind == IpfsCluster
    requires s.exposure.Some? && s.exposure.value.mode == Private && s.exposure.value.network == own
    requires networks == Groups.Deduplicate(others + if own.Some? then [own.value] else []) && NoRepeats(networks)
    ensures if |networks| + (if own.Some? then 0 else 1) <= 1 then SplitOver(s, others) == s
            else SplitsOver(s, networks, SplitOver(s, others))
  {
    ListenersOnEach(networks, s.exposure.value.port, s.exposure.value.protocols);
  }

  lemma SeveralIff(networks: seq<Id>, others: seq<Id>, own: Option<Id>)
    requires NoRepeats(networks) && forall n :: n in networks <==> n in others || own == Some(n)
    ensures |networks| + (if own.Some? then 0 else 1) <= 1 <==> forall n :: n in others ==> own == Some(n)
  {
    if |networks| > 0 { assert networks[0] in networks; }
    if |networks| > 1 { assert networks[1] in networks && networks[0] != networks[1]; }
    if own.Some? { assert own.value in networks; }
  }

  ghost predicate SplitsOver(s: Service, networks: seq<Id>, r: Service)
    requires s.exposure.Some?
  {
    && r == s.(exposure := None, listeners := r.listeners)
    && ListensOnEach(r.listeners, networks, s.exposure.value.port, s.exposure.value.protocols)
  }

  /** After the split a privately exposed storage service listens exactly on its own network, those its remote
      callers selected, and those its peers dial it on. */
  lemma StorageListensExactly(services: seq<Service>, matrix: PeerMatrix, s: Service, own: Id, n: Id)
    requires IsStorage(s.kind) && s.listeners == [] && s.exposure.Some? && s.exposure.value.mode == Private &&
             s.exposure.value.network == Some(own)
    ensures Publishes(SplitService(services, matrix, s), n) <==>
            || n == own
            || (exists c :: c in services && c.machine != s.machine && Uses(c.connections, s.id, n))
            || (exists e :: InPeerList(matrix, s.kind, e) && e.target == s.id && e.network == n)
  {
    SplitIsExact(s, OtherNetworks(services, matrix, s), own);
    CallerNetworksAre(services, s, n);
    IncomingNetworksAre(FamilyEdges(matrix, s.kind), s.id, n);
  }

  function SplitService(services: seq<Service>, matrix: PeerMatrix, s: Service): Service {
    SplitOver(s, OtherNetworks(services, matrix, s))
  }

  function SplitAll(services: seq<Service>, matrix: PeerMatrix): (r: seq<Service>)
    ensures |r| == |services| && forall i :: 0 <= i < |r| ==> r[i] == SplitService(services, matrix, services[i])
  {
    seq(|services|, i requires 0 <= i < |services| => SplitService(services, matrix, services[i]))
  }

  method SplitStorage(services: seq<Service>, matrix: PeerMatrix) returns (r: seq<Service>)
    ensures |r| == |services| && forall i :: 0 <= i < |r| ==> r[i] == SplitService(services, matrix, services[i])
  {
    r := [];
    ghost var all := SplitAll(services, matrix);
    for n := 0 to |services|
      invariant r == all[..n]
    {
      var s := SplitService(services, matrix, services[n]);
      r := r + [s];
    }
  }

  lemma ListenersServe(networks: seq<Id>, port: nat, protocols: seq<string>, n: Id)
    ensures FirstOn(ListenersOn(SortBy(networks, ByName), port, protocols), n).Some? <==> n in networks
    ensures FirstOn(ListenersOn(SortBy(networks, ByName), port, protocols), n).Some? ==>
              FirstOn(ListenersOn(SortBy(networks, ByName), port, protocols), n).value.protocols == protocols
  {
    ListenersCover(networks, port, protocols);
  }

  lemma SplitNetworks(others: seq<Id>, own: Id)
    ensures forall n :: n in Groups.Deduplicate(others + [own]) <==> n == own || n in others
    ensures |Groups.Deduplicate(others + [own])| <= 1 <==> forall n :: n in others ==> n == own
  {
    var networks := Groups.Deduplicate(others + [own]);
    forall n ensures n in networks <==> n == own || n in others {
      assert n in others + [own] <==> n == own || n in others;
    }
    assert own in networks;
    if |networks| > 1 {
      assert networks[0] in networks && networks[1] in networks && networks[0] != networks[1];
    } else {
      assert networks[0] == own;
    }
  }

  /** Afterwards the service listens exactly on its own network, its callers' and its peers'. */
  lemma SplitIsExact(s: Service, others: seq<Id>, own: Id)
    requires IsStorage(s.kind) && s.listeners == [] && s.exposure.Some? && s.exposure.value.mode == Private &&
             s.exposure.value.network == Some(own)
    ensures forall n :: Publishes(SplitOver(s, others), n) <==> n == own || n in others
    ensures SplitOver(s, others) == s <==> forall n :: n in others ==> n == own
  {
    SplitNetworks(others, own);
    ListenersCover(Groups.Deduplicate(others + [own]), s.exposure.value.port, s.exposure.value.protocols);
  }

  /** A split drops what the operator advertised: it survives exactly when no second network uses the service. */
  lemma AdvertisedEndpointSurvivesIff(s: Service, others: seq<Id>, own: Id)
    requires IsStorage(s.kind) && s.listeners == [] && s.exposure.Some? && s.exposure.value.mode == Private &&
             s.exposure.value.network == Some(own)
    requires s.exposure.value.advertiseAddress.Some?
    ensures var r := SplitOver(s, others);
            && ((r.exposure.Some? && r.exposure.value.advertiseAddress == s.exposure.value.advertiseAddress) <==>
                forall n :: n in others ==> n == own)
            && (r.exposure.None? ==> forall l :: l in r.listeners ==> l.advertiseAddress.None?)
  {
    SplitIsExact(s, others, own);
  }

  /** Splitting keeps every served network served, and one form. */
  lemma SplitKeeps(s: Service, others: seq<Id>)
    requires s.exposure.Some? ==> s.listeners == []
    ensures SplitOver(s, others).exposure.Some? ==> SplitOver(s, others).listeners == []
    ensures forall n :: Serves(s, n) ==> Serves(SplitOver(s, others), n)
  {
    var r := SplitOver(s, others);
    if r != s {
      var own := s.exposure.value.network;
      var all := others + if own.Some? then [own.value] else [];
      var networks := Groups.Deduplicate(all);
      forall n | Serves(s, n) ensures Serves(r, n) {
        assert n in all;
        ListenersServe(networks, s.exposure.value.port, s.exposure.value.protocols, n);
      }
    }
  }

  lemma SplittingKeeps(services: seq<Service>, after: seq<Service>, matrix: PeerMatrix)
    requires UniqueServices(services) && |after| == |services| && Sufficient(services) && OneForm(services)
    requires forall i :: 0 <= i < |services| ==> after[i] == SplitService(services, matrix, services[i])
    ensures SameLinks(services, after) && UniqueServices(after) && Sufficient(after) && OneForm(after)
  {
    SameShapeUnique(services, after);
    NeededEitherWay(services, after);
    NeededEitherWay(after, services);
    forall i | 0 <= i < |services| ensures Fine(services, after[i]) {
      assert services[i] in services;
      SplitKeeps(services[i], OtherNetworks(services, matrix, services[i]));
    }
    FineIff(services, after);
  }
}
