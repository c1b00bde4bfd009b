/** The typed connection graph: what the validator accepts, and what that implies. */
module Inventory {
  import opened Ordering
  import opened Model

  // ---------------------------------------------------------------- contracts

  /** The connections a type must declare, by name, with the provider type of each. */
  function Contract(kind: ServiceType, redis: bool): map<string, ServiceType> {
    match kind
    case Explorer => map["rpc" := BesuRpc]
    case MinterApi | MinterWorker =>
      map["database" := MinterPostgres, "store_api" := StoreApi, "rpc" := BesuRpc,
          "contracts" := ContractsDeploy, "migration" := MinterMigrate]
    case MinterMigrate => map["database" := MinterPostgres]
    case AdminApi => map["rpc" := BesuRpc, "contracts" := ContractsDeploy]
    case ResolverApi => map["rpc" := BesuRpc, "store_api" := StoreApi, "contracts" := ContractsDeploy]
    case Dashboard =>
      map["database" := DashboardMysql, "admin_api" := AdminApi, "minter_api" := MinterApi,
          "resolver_api" := ResolverApi, "store_api" := StoreApi, "migration" := DashboardMigrate]
      + (if redis then map["redis" := DashboardRedis] else map[])
    case DashboardMigrate =>
      map["database" := DashboardMysql, "admin_api" := AdminApi, "minter_api" := MinterApi,
          "resolver_api" := ResolverApi, "store_api" := StoreApi]
      + (if redis then map["redis" := DashboardRedis] else map[])
    case IpfsCluster => map["kubo" := IpfsKubo]
    case ContractsDeploy => map["rpc" := BesuRpc]
    case RpcProbe => map["rpc" := BesuRpc]
    case _ => map[]
  }

  /** An observer may stand in wherever a contract asks for an RPC node. */
  predicate AllowedProvider(expected: ServiceType, actual: ServiceType) {
    actual == expected || (expected == BesuRpc && actual == BesuObserver)
  }

  /** The validator's connection rules for one service: known providers, then the rule of its type. */
  predicate ConnectionsAllowed(g: map<Id, Service>, s: Service) {
    && (forall c :: c in s.connections ==> c.service in g)
    && TypeRule(g, s)
  }

  predicate TypeRule(g: map<Id, Service>, s: Service)
    requires forall c :: c in s.connections ==> c.service in g
  {
    if s.kind == StoreApi then StoreRule(g, s)
    else if s.kind == EdgeProxy then ProxyRule(g, s)
    else ContractRule(g, s)
  }

  /** A Store reaches only Cluster nodes, and the writing Store reaches all of them. */
  predicate StoreRule(g: map<Id, Service>, s: Service)
    requires forall c :: c in s.connections ==> c.service in g
  {
    && s.connections != []
    && (forall c :: c in s.connections ==> g[c.service].kind == IpfsCluster)
    && (s.configuration.mode.ReadWrite? ==>
          forall id :: id in g && g[id].kind == IpfsCluster ==> exists c :: c in s.connections && c.service == id)
  }

  /** A proxy has exactly the connections its routes use, each to an HTTP application. */
  predicate ProxyRule(g: map<Id, Service>, s: Service)
    requires forall c :: c in s.connections ==> c.service in g
  {
    && (forall c :: c in s.connections ==>
          && c.name in s.configuration.routes
          && g[c.service].kind in {Dashboard, Explorer, MinterApi, ResolverApi})
    && (forall route :: route in s.configuration.routes ==> exists c :: c in s.connections && c.name == route)
  }

  /** Every other type has exactly the connections of its contract. */
  predicate ContractRule(g: map<Id, Service>, s: Service)
    requires forall c :: c in s.connections ==> c.service in g
  {
    var contract := Contract(s.kind, HasRedis(s));
    && (forall c :: c in s.connections ==>
          c.name in contract && AllowedProvider(contract[c.name], g[c.service].kind))
    && (forall name :: name in contract ==> exists c :: c in s.connections && c.name == name)
  }

  predicate HasRedis(s: Service) {
    exists c :: c in s.connections && c.name == "redis"
  }

  /** The connections of each type but Stores and proxies, one line per name. */
  ghost predicate Wants(kind: ServiceType, name: string, provider: ServiceType) {
    || (name == "rpc" && provider == BesuRpc
        && kind in {Explorer, MinterApi, MinterWorker, AdminApi, ResolverApi, ContractsDeploy, RpcProbe})
    || (name == "contracts" && provider == ContractsDeploy && kind in {MinterApi, MinterWorker, AdminApi, ResolverApi})
    || (name == "store_api" && provider == StoreApi
        && kind in {MinterApi, MinterWorker, ResolverApi, Dashboard, DashboardMigrate})
    || (name == "database" && provider == MinterPostgres && kind in {MinterApi, MinterWorker, MinterMigrate})
    || (name == "database" && provider == DashboardMysql && kind in {Dashboard, DashboardMigrate})
    || (name == "migration" && provider == MinterMigrate && kind in {MinterApi, MinterWorker})
    || (name == "migration" && provider == DashboardMigrate && kind == Dashboard)
    || (name == "admin_api" && provider == AdminApi && kind in {Dashboard, DashboardMigrate})
    || (name == "minter_api" && provider == MinterApi && kind in {Dashboard, DashboardMigrate})
    || (name == "resolver_api" && provider == ResolverApi && kind in {Dashboard, DashboardMigrate})
    || (name == "kubo" && provider == IpfsKubo && kind == IpfsCluster)
  }

  /** A dashboard or its migration may also have a Redis. */
  ghost predicate MayWant(kind: ServiceType, name: string, provider: ServiceType) {
    Wants(kind, name, provider) ||
        (name == "redis" && provider == DashboardRedis && kind in {Dashboard, DashboardMigrate})
  }

  lemma ContractIff(kind: ServiceType, redis: bool, name: string, provider: ServiceType)
    ensures name in Contract(kind, redis) && Contract(kind, redis)[name] == provider <==>
            Wants(kind, name, provider) || (redis && MayWant(kind, name, provider))
  {
    if kind == Dashboard {
      DashboardContract(redis, name, provider);
    } else if kind == DashboardMigrate {
      MigrateContract(redis, name, provider);
    } else if kind == MinterApi || kind == MinterWorker {
      MinterContract(kind, redis, name, provider);
    } else {
      OtherContract(kind, redis, name, provider);
    }
  }

  lemma DashboardContract(redis: bool, name: string, provider: ServiceType)
    ensures name in Contract(Dashboard, redis) && Contract(Dashboard, redis)[name] == provider <==>
            Wants(Dashboard, name, provider) || (redis && MayWant(Dashboard, name, provider))
  {
  }

  lemma MigrateContract(redis: bool, name: string, provider: ServiceType)
    ensures name in Contract(DashboardMigrate, redis) && Contract(DashboardMigrate, redis)[name] == provider <==>
            Wants(DashboardMigrate, name, provider) || (redis && MayWant(DashboardMigrate, name, provider))
  {
  }

  lemma MinterContract(kind: ServiceType, redis: bool, name: string, provider: ServiceType)
    requires kind == MinterApi || kind == MinterWorker
    ensures name in Contract(kind, redis) && Contract(kind, redis)[name] == provider <==>
            Wants(kind, name, provider) || (redis && MayWant(kind, name, provider))
  {
  }

  lemma OtherContract(kind: ServiceType, redis: bool, name: string, provider: ServiceType)
    requires kind !in {Dashboard, DashboardMigrate, MinterApi, MinterWorker}
    ensures name in Contract(kind, redis) && Contract(kind, redis)[name] == provider <==>
            Wants(kind, name, provider) || (redis && MayWant(kind, name, provider))
  {
  }

  /** The complaints about the connections of one service. */
  ghost predicate ContractFault(g: map<Id, Service>, s: Service) {
    || (exists c :: c in s.connections && c.service !in g)
    || (s.kind == StoreApi && (
          || s.connections == []
          || (exists c :: c in s.connections && c.service in g && g[c.service].kind != IpfsCluster)
          || (s.configuration.mode == ReadWrite && exists id :: Unlisted(g, s, id))))
    || (s.kind == EdgeProxy && (
          || (exists c :: c in s.connections && c.name !in s.configuration.routes)
          || (exists c ::
                c in s.connections && c.service in g &&
                    g[c.service].kind !in {Dashboard, Explorer, MinterApi, ResolverApi})
          || (exists route :: route in s.configuration.routes && forall c :: c in s.connections ==> c.name != route)))
    || (s.kind != StoreApi && s.kind != EdgeProxy && (
          || (exists c :: c in s.connections && c.service in g && !Fits(s.kind, c.name, g[c.service].kind))
          || (exists name, provider :: Wants(s.kind, name, provider) && forall c :: c in s.connections ==>
              c.name != name)))
  }

  /** A Cluster node no connection goes to. */
  ghost predicate Unlisted(g: map<Id, Service>, s: Service, id: Id) {
    id in g && g[id].kind == IpfsCluster && forall c :: c in s.connections ==> c.service != id
  }

  /** The provider is of the type the name asks for; an observer serves for an RPC node. */
  ghost predicate Fits(kind: ServiceType, name: string, provider: ServiceType) {
    MayWant(kind, name, provider) || (provider == BesuObserver && MayWant(kind, name, BesuRpc))
  }

  lemma AllowedIff(g: map<Id, Service>, s: Service)
    ensures ConnectionsAllowed(g, s) <==> !ContractFault(g, s)
  {
    if forall c :: c in s.connections ==> c.service in g {
      if s.kind == StoreApi {
        StoreRuleIff(g, s);
      } else if s.kind != EdgeProxy {
        ContractRuleIff(g, s);
      }
    }
  }

  lemma StoreRuleIff(g: map<Id, Service>, s: Service)
    requires s.kind == StoreApi && forall c :: c in s.connections ==> c.service in g
    ensures StoreRule(g, s) <==> !ContractFault(g, s)
  {
    forall id ensures Unlisted(g, s, id) <==>
        id in g && g[id].kind == IpfsCluster && !exists c :: c in s.connections && c.service == id {
    }
  }

  lemma ContractRuleIff(g: map<Id, Service>, s: Service)
    requires forall c :: c in s.connections ==> c.service in g
    ensures ContractRule(g, s) <==>
            && (forall c :: c in s.connections ==> Fits(s.kind, c.name, g[c.service].kind))
            && forall name, provider :: Wants(s.kind, name, provider) ==>
                exists c :: c in s.connections && c.name == name
  {
    var contract := Contract(s.kind, HasRedis(s));
    forall c | c in s.connections
      ensures c.name in contract && AllowedProvider(contract[c.name], g[c.service].kind) <==>
              Fits(s.kind, c.name, g[c.service].kind)
    {
      FitsIff(s, c, g[c.service].kind);
    }
    if forall name :: name in contract ==> exists c :: c in s.connections && c.name == name {
      forall name, provider | Wants(s.kind, name, provider) ensures exists c :: c in s.connections && c.name == name {
        NamesWanted(s.kind, HasRedis(s), name);
      }
    }
    if forall name, provider :: Wants(s.kind, name, provider) ==> exists c :: c in s.connections && c.name == name {
      forall name | name in contract ensures exists c :: c in s.connections && c.name == name {
        NamesWanted(s.kind, HasRedis(s), name);
      }
    }
  }

  lemma FitsIff(s: Service, c: Connection, provider: ServiceType)
    requires c in s.connections
    ensures var contract := Contract(s.kind, HasRedis(s));
      c.name in contract && AllowedProvider(contract[c.name], provider) <==> Fits(s.kind, c.name, provider)
  {
    ContractIff(s.kind, HasRedis(s), c.name, provider);
    ContractIff(s.kind, HasRedis(s), c.name, BesuRpc);
  }

  lemma NamesWanted(kind: ServiceType, redis: bool, name: string)
    ensures name in Contract(kind, redis) <==>
            (exists provider :: Wants(kind, name, provider)) || (redis && MayWant(kind, name, DashboardRedis))
  {
    if name in Contract(kind, redis) { ContractIff(kind, redis, name, Contract(kind, redis)[name]); }
    if provider :| Wants(kind, name, provider) { ContractIff(kind, redis, name, provider); }
    ContractIff(kind, redis, name, DashboardRedis);
  }

  /** Unique ids, known providers, and every service on its contract. */
  ghost predicate Contracted(services: seq<Service>) {
    && UniqueServices(services)
    && forall s {:trigger ConnectionsAllowed(ById(services), s)} :: s in services ==>
        ConnectionsAllowed(ById(services), s)
  }

  // ---------------------------------------------------------------- phases and rank

  /** Position of a type's phase in the deployment order. */
  function PhaseOf(kind: ServiceType): nat {
    match kind
    case BesuValidator => 0
    case BesuRpc => 1
    case BesuObserver => 2
    case ContractsDeploy | RpcProbe => 3
    case IpfsKubo | IpfsCluster => 4
    case MinterPostgres | DashboardMysql | DashboardRedis | StoreApi | MinterMigrate => 5
    case _ => 6
  }

  function PhaseName(phase: nat): string
    requires phase < 7
  {
    ["validators", "rpc", "observers", "contracts", "storage", "data", "applications"][phase]
  }

  /** The planner's table of phases. */
  const PHASES: seq<(string, set<ServiceType>)> := [
    ("validators", {BesuValidator}),
    ("rpc", {BesuRpc}),
    ("observers", {BesuObserver}),
    ("contracts", {ContractsDeploy, RpcProbe}),
    ("storage", {IpfsKubo, IpfsCluster}),
    ("data", {MinterPostgres, DashboardMysql, DashboardRedis, StoreApi, MinterMigrate}),
    ("applications", {MinterApi, MinterWorker, AdminApi, ResolverApi, DashboardMigrate, Dashboard, Explorer, EdgeProxy})
  ]

  /** Every type has exactly one place in the table. */
  lemma PhaseIff(kind: ServiceType, phase: nat)
    ensures PhaseOf(kind) == phase <==> phase < |PHASES| && kind in PHASES[phase].1
    ensures phase < |PHASES| ==> PhaseName(phase) == PHASES[phase].0
  {
  }

  /** A height on types that every contracted connection descends. */
  function Rank(kind: ServiceType): nat {
    match kind
    case EdgeProxy => 6
    case Dashboard => 5
    case DashboardMigrate => 4
    case MinterApi | MinterWorker | AdminApi | ResolverApi => 3
    case StoreApi => 2
    case IpfsCluster | ContractsDeploy | RpcProbe | Explorer | MinterMigrate => 1
    case _ => 0
  }

  /** Every contracted connection goes to a strictly lower rank and never to a later phase. */
  lemma ContractsDescend(services: seq<Service>, s: Service, c: Connection)
    requires Contracted(services) && s in services && c in s.connections
    ensures c.service in ById(services)
    ensures Rank(ById(services)[c.service].kind) < Rank(s.kind)
    ensures PhaseOf(ById(services)[c.service].kind) <= PhaseOf(s.kind)
  {
    var g := ById(services);
    assert ConnectionsAllowed(g, s);
    if s.kind != StoreApi && s.kind != EdgeProxy {
      ContractDescends(s.kind, HasRedis(s), c.name);
    }
  }

  lemma ContractDescends(kind: ServiceType, redis: bool, name: string)
    requires name in Contract(kind, redis)
    ensures var provider := Contract(kind, redis)[name];
      && Rank(provider) < Rank(kind) && PhaseOf(provider) <= PhaseOf(kind)
      && (provider == BesuRpc ==> PhaseOf(BesuObserver) <= PhaseOf(kind) && Rank(BesuObserver) < Rank(kind))
  {
  }

  // ---------------------------------------------------------------- the dependency graph

  function Deps(s: Service): set<Id> {
    set c | c in s.connections :: c.service
  }

  /** A walk along dependencies: each element depends on the next. */
  ghost predicate Walk(g: map<Id, Service>, p: seq<Id>) {
    && (forall i :: 0 <= i < |p| ==> p[i] in g)
    && (forall i :: 0 <= i < |p| - 1 ==> p[i + 1] in Deps(g[p[i]]))
  }

  ghost predicate Cycle(g: map<Id, Service>, p: seq<Id>) {
    Walk(g, p) && |p| >= 2 && p[0] == p[|p| - 1]
  }

  ghost predicate Acyclic(g: map<Id, Service>) {
    forall p :: !Cycle(g, p)
  }

  ghost predicate Closed(g: map<Id, Service>) {
    forall id {:trigger Deps(g[id])} :: id in g ==> Deps(g[id]) <= g.Keys
  }

  lemma {:induction false} RankFallsAlongWalk(services: seq<Service>, p: seq<Id>)
    requires Contracted(services) && Walk(ById(services), p) && |p| >= 2
    ensures Rank(ById(services)[p[|p| - 1]].kind) < Rank(ById(services)[p[0]].kind)
  {
    var g := ById(services);
    var n := |p| - 1;
    assert p[n] in Deps(g[p[n - 1]]);
    var c :| c in g[p[n - 1]].connections && c.service == p[n];
    ContractsDescend(services, g[p[n - 1]], c);
    if |p| > 2 {
      assert Walk(g, p[..n]);
      RankFallsAlongWalk(services, p[..n]);
    }
  }

  /** No inventory the validator accepts contains a dependency cycle. */
  lemma ContractedIsAcyclic(services: seq<Service>)
    requires Contracted(services)
    ensures Closed(ById(services)) && Acyclic(ById(services))
  {
    var g := ById(services);
    forall id | id in g ensures Deps(g[id]) <= g.Keys {
      assert ConnectionsAllowed(g, g[id]);
    }
    forall p ensures !Cycle(g, p) {
      if Cycle(g, p) { RankFallsAlongWalk(services, p); }
    }
  }

  /** A nonempty set in which everything depends on something inside it contains a cycle. */
  lemma {:induction false} StuckHasCycle(g: map<Id, Service>, stuck: set<Id>, p: seq<Id>) returns (cycle: seq<Id>)
    requires stuck <= g.Keys
    requires forall id {:trigger Deps(g[id])} :: id in stuck ==> exists d :: d in Deps(g[id]) && d in stuck
    requires p != [] && Walk(g, p) && ToSet(p) <= stuck && NoRepeats(p)
    ensures Cycle(g, cycle)
    decreases |stuck| - |p|
  {
    var last := p[|p| - 1];
    assert last in ToSet(p);
    var next :| next in Deps(g[last]) && next in stuck;
    WalkExtends(g, p, next);
    if next in p {
      var i :| 0 <= i < |p| && p[i] == next;
      cycle := (p + [next])[i..];
    } else {
      NoRepeatsSize(p + [next]);
      assert ToSet(p + [next]) == ToSet(p) + {next};
      SubsetSize(ToSet(p + [next]), stuck);
      cycle := StuckHasCycle(g, stuck, p + [next]);
    }
  }

  lemma WalkExtends(g: map<Id, Service>, p: seq<Id>, next: Id)
    requires p != [] && Walk(g, p) && next in g && next in Deps(g[p[|p| - 1]])
    ensures Walk(g, p + [next])
  {
    var q := p + [next];
    forall i | 0 <= i < |q| - 1 ensures q[i + 1] in Deps(g[q[i]]) {
      if i < |p| - 1 { assert q[i] == p[i] && q[i + 1] == p[i + 1]; }
    }
  }

  lemma {:induction false} NoRepeatsSize<T>(s: seq<T>)
    requires NoRepeats(s)
    ensures |ToSet(s)| == |s|
  {
    if s != [] {
      var n := |s| - 1;
      NoRepeatsSize(s[..n]);
      assert ToSet(s) == ToSet(s[..n]) + {s[n]};
      assert s[n] !in ToSet(s[..n]);
    }
  }

  lemma {:induction false} SubsetSize<T>(a: set<T>, b: set<T>)
    requires a <= b
    ensures |a| <= |b|
  {
    if a != {} {
      var x :| x in a;
      SubsetSize(a - {x}, b - {x});
    }
  }
}
