/** The values the deployment engine passes around: machines, services, groups, plan steps. */
module Model {
  import opened Ordering

  datatype Option<+T> = None | Some(value: T) {
    function GetOr<U(0)>(default: T): T {
      match this case None => default case Some(v) => v
    }
  }

  datatype Result<+T> = Ok(value: T) | Fail(error: string)

  datatype ServiceType =
    | BesuValidator | BesuRpc | BesuObserver
    | ContractsDeploy | RpcProbe
    | IpfsKubo | IpfsCluster
    | MinterPostgres | DashboardMysql | DashboardRedis | StoreApi | MinterMigrate
    | MinterApi | MinterWorker | AdminApi | ResolverApi | DashboardMigrate | Dashboard | Explorer | EdgeProxy

  /** A directed dependency; `network` and `protocol` are present only between hosts. */
  datatype Connection = Connection(name: string, service: Id, network: Option<Id>, protocol: Option<string>)

  datatype ExposureMode = Hidden | Loopback | Private | Public

  datatype Exposure = Exposure(
    mode: ExposureMode, network: Option<Id>, port: nat, protocols: seq<string>,
    advertiseAddress: Option<nat>, advertisePort: Option<nat>)

  datatype Listener = Listener(
    network: Id, port: nat, protocols: seq<string>,
    advertiseAddress: Option<nat>, advertisePort: Option<nat>)

  datatype StoreMode = ReadWrite | ReadOnly

  /** The configuration fields that decide routing, peering or validity. */
  datatype Configuration = Configuration(
    nodeId: Option<Id>, peerName: Option<Id>, mode: StoreMode,
    routes: seq<string>, p2pAdvertisePort: Option<nat>, port: Option<nat>, directTls: bool)

  datatype Service = Service(
    id: Id, kind: ServiceType, machine: Id, connections: seq<Connection>,
    configuration: Configuration, exposure: Option<Exposure>, listeners: seq<Listener>)

  datatype Execution = Local | DockerLab | Ssh

  /** An IPv4 network: `2^(32-prefix)` addresses from `base`. */
  datatype Block = Block(base: nat, prefix: Prefix)

  type Prefix = p: nat | p <= 32

  datatype Machine = Machine(
    id: Id, execution: Execution, addresses: map<Id, nat>, site: Option<Id>, dockerSubnet: Option<Block>)

  datatype GroupKind = Apps | Validators | Observers | Storage | Server

  datatype Group = Group(id: Id, kind: GroupKind, machine: Id, members: seq<Id>, services: seq<Id>)

  /** Identifiers come from the keys of a JSON object, so none is repeated. */
  ghost predicate UniqueServices(services: seq<Service>) {
    forall i, j :: 0 <= i < j < |services| ==> services[i].id != services[j].id
  }

  ghost predicate UniqueMachines(machines: seq<Machine>) {
    forall i, j :: 0 <= i < j < |machines| ==> machines[i].id != machines[j].id
  }

  // No map comprehension is used over an empty domain: Dafny's axioms would equate any two of them,
  // element functions included. Here and in the other modules the empty map is written out.

  /** The index Python builds as `{service.id: service for service in services}`. */
  function ById(services: seq<Service>): (g: map<Id, Service>)
    requires UniqueServices(services)
    ensures forall s :: s in services <==> s.id in g && g[s.id] == s
    ensures forall id :: id in g ==> g[id].id == id && g[id] in services
  {
    if services == [] then map[] else map s | s in services :: s.id := s
  }

  /** `dict.fromkeys(keys, value)` */
  function Constant<K, V>(keys: set<K>, value: V): (m: map<K, V>)
    ensures m.Keys == keys && forall k :: k in m ==> m[k] == value
  {
    if keys == {} then map[] else map k | k in keys :: value
  }

  /** The entries of `m` whose key is in `keys`. */
  function Restrict<K, V>(m: map<K, V>, keys: set<K>): (r: map<K, V>)
    ensures r.Keys == m.Keys * keys && forall k :: k in r ==> r[k] == m[k]
  {
    m - (m.Keys - keys)
  }

  function ServiceIds(services: seq<Service>): (r: seq<Id>)
    ensures |r| == |services| && forall i :: 0 <= i < |r| ==> r[i] == services[i].id
  {
    seq(|services|, i requires 0 <= i < |services| => services[i].id)
  }

  ghost predicate NoRepeats<T>(s: seq<T>) {
    forall i, j :: 0 <= i < j < |s| ==> s[i] != s[j]
  }

  lemma NoRepeatsConcat<T>(a: seq<T>, b: seq<T>)
    requires NoRepeats(a) && NoRepeats(b) && forall x :: x in a ==> x !in b
    ensures NoRepeats(a + b)
  {
    var c := a + b;
    forall i, j | 0 <= i < j < |c| ensures c[i] != c[j] {
      if i < |a| { assert c[i] in a; }
      if j >= |a| { assert c[j] in b; }
    }
  }

  function ToSet<T>(s: seq<T>): set<T> {
    set x | x in s
  }

  function Flatten<T>(ss: seq<seq<T>>): seq<T> {
    if ss == [] then [] else ss[0] + Flatten(ss[1..])
  }

  lemma TakeNext<T>(prefix: seq<T>, s: seq<T>, n: nat)
    requires n < |s|
    ensures prefix + s[..n] + [s[n]] == prefix + s[..n + 1]
  {
  }

  lemma TakeAll<T>(prefix: seq<T>, s: seq<T>)
    ensures prefix + s[..0] == prefix && prefix + s[..|s|] == prefix + s
  {
    assert s[..|s|] == s;
  }

  lemma Associative<T>(a: seq<T>, b: seq<T>, c: seq<T>)
    ensures a + b + c == a + (b + c)
  {
  }

  lemma {:induction false} FlattenSnoc<T>(ss: seq<seq<T>>, last: seq<T>)
    ensures Flatten(ss + [last]) == Flatten(ss) + last
  {
    if ss == [] {
      assert ss + [last] == [last];
      assert Flatten([last]) == last + Flatten([]);
    } else {
      FlattenSnoc(ss[1..], last);
      assert (ss + [last])[1..] == ss[1..] + [last];
    }
  }

  lemma {:induction false} FlattenMembers<T(!new)>(ss: seq<seq<T>>)
    ensures forall x :: x in Flatten(ss) <==> exists i :: 0 <= i < |ss| && x in ss[i]
  {
    if ss != [] {
      FlattenMembers(ss[1..]);
      forall x ensures x in Flatten(ss) <==> exists i :: 0 <= i < |ss| && x in ss[i] {
        if x in Flatten(ss[1..]) {
          var i :| 0 <= i < |ss[1..]| && x in ss[1..][i];
          assert x in ss[i + 1];
        }
        if i :| 0 <= i < |ss| && x in ss[i] {
          if i > 0 { assert x in ss[1..][i - 1]; }
        }
      }
    }
  }
}
